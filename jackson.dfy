/**
 * The part of Jackson's tree model the handlers use: a JsonNode as a
 * value, the accessors with Jackson's null/missing/default behaviour, and
 * the mutable ObjectNode that responses are built in.
 */
module Jackson {
  import opened Wrappers

  /**
   * A JsonNode. Missing is Jackson's MissingNode: what readTree returns for
   * an empty document and what path() returns for an absent field.
   */
  datatype Json =
    | Missing
    | Null
    | Bool(b: bool)
    | Num(n: real)
    | Str(s: string)
    | Arr(elems: seq<Json>)
    | Obj(fields: map<string, Json>)

  /**
   * Jackson's text conversions, which the model takes as given:
   * textToDouble is NumberInput.parseAsDouble on a TextNode's text (None
   * where it falls back to the default), numberText is asText() of a
   * numeric node, and nodeText is JsonNode.toString().
   */
  datatype JsonLib = JsonLib(
    textToDouble: string -> Option<real>,
    numberText: real -> string,
    nodeText: Json -> string)

  /** The result of `mapper.readTree(text)`: a tree, or the message of the exception it throws. */
  datatype ReadTree = Tree(root: Json) | ParseError(message: Option<string>)

  /** `node.has(field)`: only an object has fields, and a present null counts. */
  predicate Has(node: Json, field: string) {
    node.Obj? && field in node.fields
  }

  /** `node.hasNonNull(field)`. */
  predicate HasNonNull(node: Json, field: string) {
    Has(node, field) && node.fields[field] != Null
  }

  /** `node.get(field)`, None standing for Java's null. */
  function Get(node: Json, field: string): (r: Option<Json>)
    ensures r.Some? <==> Has(node, field)
    ensures r.Some? ==> r.value == node.fields[field]
  {
    if Has(node, field) then Some(node.fields[field]) else None
  }

  /** `node.path(field)`: like get, but MissingNode instead of null. */
  function PathOf(node: Json, field: string): (r: Json)
    ensures !Has(node, field) ==> r == Missing
    ensures Has(node, field) ==> r == node.fields[field]
  {
    if Has(node, field) then node.fields[field] else Missing
  }

  /** `node.get(index)`: an element of an array, null otherwise or out of range. */
  function At(node: Json, index: nat): (r: Option<Json>)
    ensures r.Some? <==> node.Arr? && index < |node.elems|
    ensures r.Some? ==> r.value == node.elems[index]
  {
    if node.Arr? && index < |node.elems| then Some(node.elems[index]) else None
  }

  /** `node.size()`: elements of an array, fields of an object, 0 for anything else. */
  function Size(node: Json): nat {
    match node
    case Arr(elems) => |elems|
    case Obj(fields) => |fields|
    case _ => 0
  }

  /** `node.isNumber()`. */
  predicate IsNumber(node: Json) { node.Num? }

  /**
   * The number `node.asDouble(default)` yields when it does not fall back
   * to the default: a number's value, a text's parse, 1 or 0 for a boolean.
   * Null, MissingNode, arrays and objects give None (the default).
   */
  function Coerced(node: Json, lib: JsonLib): (r: Option<real>)
    ensures node.Num? ==> r == Some(node.n)
    ensures node.Missing? || node.Null? || node.Arr? || node.Obj? ==> r == None
  {
    match node
    case Num(v) => Some(v)
    case Str(s) => lib.textToDouble(s)
    case Bool(b) => Some(if b then 1.0 else 0.0)
    case _ => None
  }

  /** `node.asDouble(default)`. */
  function AsDouble(node: Json, lib: JsonLib, default: real): real {
    Coerced(node, lib).GetOr(default)
  }

  /** `node.asText()`. */
  function AsText(node: Json, lib: JsonLib): string {
    match node
    case Str(s) => s
    case Num(v) => lib.numberText(v)
    case Bool(b) => if b then "true" else "false"
    case Null => "null"
    case _ => ""
  }

  /** `{"error": message}`, the shape of every error body built with an ObjectNode. */
  function ErrorJson(message: string): (j: Json)
    ensures Has(j, "error") && j.fields["error"] == Str(message) && |j.fields| == 1
  {
    Obj(map["error" := Str(message)])
  }

  /** A mutable ObjectNode; put replaces the value of an existing field. */
  class ObjectNode {
    var fields: map<string, Json>

    /** `mapper.createObjectNode()`. */
    constructor ()
      ensures fields == map[]
    {
      fields := map[];
    }

    /** `node.put(key, value)`. */
    method Put(key: string, value: Json)
      modifies this
      ensures fields == old(fields)[key := value]
    {
      fields := fields[key := value];
    }

    /** The tree this node denotes now. */
    function Value(): (j: Json)
      reads this
      ensures j.Obj? && j.fields == fields
    {
      Obj(fields)
    }
  }
}
