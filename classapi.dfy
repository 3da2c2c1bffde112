/**
 * The aggregation service (class-api ClassApiServer): the /combined route,
 * which fetches the latest air-quality and UV rows from the storage
 * service, picks the first element of each reply, reads the two numbers
 * and answers with both and a short summary; and jsonErr, which builds its
 * error bodies.
 */
module ClassApi {
  import opened Wrappers
  import opened Jackson
  import opened Http
  import Decimal

  // ---------------------------------------------------------------------
  // jsonErr(msg, kv...)

  /** (kv[0], kv[1]), (kv[2], kv[3]), ...: the full pairs, an odd last element left over. */
  function Pairs(kv: seq<string>): (ps: seq<(string, string)>)
    ensures |ps| == |kv| / 2
    ensures forall i :: 0 <= i < |ps| ==> ps[i] == (kv[2 * i], kv[2 * i + 1])
  {
    if |kv| < 2 then [] else [(kv[0], kv[1])] + Pairs(kv[2..])
  }

  /** The fields after putting each pair, in order, as a text value. */
  function PutPairs(fields: map<string, Json>, ps: seq<(string, string)>): map<string, Json>
  {
    if ps == [] then fields
    else PutPairs(fields, ps[..|ps| - 1])[ps[|ps| - 1].0 := Str(ps[|ps| - 1].1)]
  }

  /** The fields of `jsonErr(msg, kv...)`: "error" first, then every full pair. */
  function ErrFields(msg: string, kv: seq<string>): map<string, Json> {
    PutPairs(map["error" := Str(msg)], Pairs(kv))
  }

  lemma {:induction false} PutPairsKeys(fields: map<string, Json>, ps: seq<(string, string)>)
    ensures PutPairs(fields, ps).Keys == fields.Keys + set p | p in ps :: p.0
  {
    if ps != [] {
      var init := ps[..|ps| - 1];
      PutPairsKeys(fields, init);
      assert ps == init + [ps[|ps| - 1]];
      assert (set p | p in ps :: p.0) == (set p | p in init :: p.0) + {ps[|ps| - 1].0};
    }
  }

  /** With distinct keys, every pair's value is the one put, and fields not named keep theirs. */
  lemma {:induction false} PutPairsValues(fields: map<string, Json>, ps: seq<(string, string)>)
    requires forall i, j :: 0 <= i < j < |ps| ==> ps[i].0 != ps[j].0
    ensures forall i :: 0 <= i < |ps| ==> ps[i].0 in PutPairs(fields, ps) && PutPairs(fields, ps)[ps[i].0] == Str(ps[i].1)
    ensures forall k :: k in fields && (forall i :: 0 <= i < |ps| ==> ps[i].0 != k) ==>
              k in PutPairs(fields, ps) && PutPairs(fields, ps)[k] == fields[k]
  {
    if ps != [] {
      var n := |ps| - 1;
      var init := ps[..n];
      var before := PutPairs(fields, init);
      var after := PutPairs(fields, ps);
      assert after == before[ps[n].0 := Str(ps[n].1)];
      PutPairsValues(fields, init);
      forall i | 0 <= i < |ps| ensures ps[i].0 in after && after[ps[i].0] == Str(ps[i].1) {
        if i < n {
          assert init[i] == ps[i];
        }
      }
      forall k | k in fields && (forall i :: 0 <= i < |ps| ==> ps[i].0 != k)
        ensures k in after && after[k] == fields[k]
      {
        assert ps[n].0 != k;
        assert forall i :: 0 <= i < |init| ==> init[i].0 != k by {
          forall i | 0 <= i < |init| ensures init[i].0 != k {
            assert init[i] == ps[i];
          }
        }
      }
    }
  }

  /** A key put more than once holds the value of its last pair. */
  lemma {:induction false} PutPairsLastWins(fields: map<string, Json>, ps: seq<(string, string)>, k: nat)
    requires k < |ps|
    requires forall j :: k < j < |ps| ==> ps[j].0 != ps[k].0
    ensures ps[k].0 in PutPairs(fields, ps) && PutPairs(fields, ps)[ps[k].0] == Str(ps[k].1)
  {
    if k < |ps| - 1 {
      PutPairsLastWins(fields, ps[..|ps| - 1], k);
    }
  }

  /** The error field is always there, and the keys are exactly it and the pairs' first halves. */
  lemma {:induction false} ErrFieldsKeys(msg: string, kv: seq<string>)
    ensures ErrFields(msg, kv).Keys == {"error"} + set p | p in Pairs(kv) :: p.0
  {
    PutPairsKeys(map["error" := Str(msg)], Pairs(kv));
  }

  /** With distinct keys other than "error", jsonErr maps "error" to msg and kv[2i] to kv[2i+1]. */
  lemma {:induction false} ErrFieldsValues(msg: string, kv: seq<string>)
    requires forall i, j :: 0 <= i < j < |kv| / 2 ==> kv[2 * i] != kv[2 * j]
    requires forall i :: 0 <= i < |kv| / 2 ==> kv[2 * i] != "error"
    ensures "error" in ErrFields(msg, kv) && ErrFields(msg, kv)["error"] == Str(msg)
    ensures forall i :: 0 <= i < |kv| / 2 ==>
              kv[2 * i] in ErrFields(msg, kv) && ErrFields(msg, kv)[kv[2 * i]] == Str(kv[2 * i + 1])
  {
    var ps := Pairs(kv);
    PutPairsValues(map["error" := Str(msg)], ps);
    forall i | 0 <= i < |kv| / 2
      ensures kv[2 * i] in ErrFields(msg, kv) && ErrFields(msg, kv)[kv[2 * i]] == Str(kv[2 * i + 1])
    {
      assert ps[i] == (kv[2 * i], kv[2 * i + 1]);
    }
  }

  /** An odd trailing element changes nothing. */
  lemma {:induction false} ErrFieldsIgnoresOddTail(msg: string, kv: seq<string>, extra: string)
    requires |kv| % 2 == 0
    ensures ErrFields(msg, kv + [extra]) == ErrFields(msg, kv)
  {
    var kv' := kv + [extra];
    assert Pairs(kv') == Pairs(kv) by {
      forall i | 0 <= i < |kv| / 2 ensures Pairs(kv')[i] == Pairs(kv)[i] {
        assert kv'[2 * i] == kv[2 * i] && kv'[2 * i + 1] == kv[2 * i + 1];
      }
    }
  }

  /** Two more elements of the varargs make one more pair. */
  lemma {:induction false} PairsSnoc(kv: seq<string>, i: nat)
    requires i % 2 == 0 && i + 1 < |kv|
    ensures Pairs(kv[..i + 2]) == Pairs(kv[..i]) + [(kv[i], kv[i + 1])]
  {
    var before, after := Pairs(kv[..i]), Pairs(kv[..i + 2]);
    assert |after| == |before| + 1;
    forall k | 0 <= k < |after| ensures after[k] == (before + [(kv[i], kv[i + 1])])[k] {
      if k < |before| {
        assert kv[..i + 2][2 * k] == kv[..i][2 * k];
        assert kv[..i + 2][2 * k + 1] == kv[..i][2 * k + 1];
      }
    }
  }

  /** Once no full pair is left, the pairs read so far are all of them. */
  lemma {:induction false} PairsDone(kv: seq<string>, i: nat)
    requires i <= |kv| && i % 2 == 0 && i + 1 >= |kv|
    ensures Pairs(kv[..i]) == Pairs(kv)
  {
    assert |kv[..i]| / 2 == |kv| / 2;
    forall k | 0 <= k < |kv| / 2 ensures Pairs(kv[..i])[k] == Pairs(kv)[k] {
      assert kv[..i][2 * k] == kv[2 * k];
    }
  }

  /** `jsonErr(msg, kv...)`: an ObjectNode with "error", then each pair put in turn. */
  method JsonErr(msg: string, kv: seq<string>) returns (j: Json)
    ensures j == Obj(ErrFields(msg, kv))
  {
    var o := new ObjectNode();
    o.Put("error", Str(msg));
    var i := 0;
    while i + 1 < |kv|
      invariant 0 <= i <= |kv| && i % 2 == 0
      invariant o.fields == PutPairs(map["error" := Str(msg)], Pairs(kv[..i]))
      decreases |kv| - i
    {
      PairsSnoc(kv, i);
      o.Put(kv[i], Str(kv[i + 1]));
      i := i + 2;
    }
    PairsDone(kv, i);
    j := o.Value();
  }

  // ---------------------------------------------------------------------
  // /combined

  /** `status / 100 == 2`, with Java's truncating division. */
  predicate Is2xx(status: int) {
    Decimal.JavaDiv(status, 100) == 2
  }

  /** `node.isArray() && node.size() > 0 ? node.get(0) : node`. */
  function Select(node: Json): (r: Json)
    ensures node.Arr? && |node.elems| > 0 ==> r == node.elems[0]
    ensures !(node.Arr? && |node.elems| > 0) ==> r == node
  {
    if node.Arr? && Size(node) > 0 then node.elems[0] else node
  }

  /** An empty array is selected as itself, so it is not missing, and it has no fields. */
  lemma {:induction false} EmptyArrayIsNotMissing(lib: JsonLib, field: string)
    ensures !Select(Arr([])).Missing?
    ensures Coerced(PathOf(Select(Arr([])), field), lib).None?
  {
  }

  /** The summary line: air quality first, then UV. */
  function Summary(aqi: real, uv: real): string {
    (if aqi < 50.0 then "Good Air" else "Poor Air") + " & " + (if uv < 3.0 then "Low UV" else "High UV")
  }

  /** Reading the summary back tells on which side of 50 and of 3 the values lie. */
  lemma {:induction false} SummaryReadsBack(aqi: real, uv: real)
    ensures |Summary(aqi, uv)| > 11
    ensures Summary(aqi, uv)[..8] == "Good Air" <==> aqi < 50.0
    ensures Summary(aqi, uv)[..8] == "Poor Air" <==> aqi >= 50.0
    ensures Summary(aqi, uv)[11..] == "Low UV" <==> uv < 3.0
    ensures Summary(aqi, uv)[11..] == "High UV" <==> uv >= 3.0
  {
    var air := if aqi < 50.0 then "Good Air" else "Poor Air";
    var sun := if uv < 3.0 then "Low UV" else "High UV";
    assert Summary(aqi, uv) == air + " & " + sun;
    assert (air + " & " + sun)[..8] == air;
    assert (air + " & " + sun)[11..] == sun;
    assert "Good Air" != "Poor Air" && "Low UV" != "High UV";
  }

  /** The success body: both numbers unchanged and the summary. */
  function CombinedJson(aqi: real, uv: real): (j: Json)
    ensures j.Obj? && j.fields.Keys == {"aqi", "uv", "summary"}
  {
    Obj(map["aqi" := Num(aqi), "uv" := Num(uv), "summary" := Str(Summary(aqi, uv))])
  }

  /** The 500 body for an exception with the given (possibly null) message. */
  function ExceptionFields(message: Option<string>): map<string, Json> {
    ErrFields("exception in class-api", ["message", MessageText(message)])
  }

  /** The transport exception of a fetch, if it threw one. */
  function Thrown(f: Fetch): Option<Option<string>> {
    match f
    case IoFailure(m) => Some(m)
    case Interrupted(m) => Some(m)
    case Reply(_, _) => None
  }

  /**
   * `/combined`, given the results of the two GETs (air quality first).
   * The route never lets an exception escape: every failure is a 500 or a
   * 502 with an error body.
   */
  method Combined(aqiFetch: Fetch, uvFetch: Fetch, lib: JsonLib) returns (r: Response)
    ensures Thrown(aqiFetch).Some? ==>
              r == Response(500, JsonBody(Obj(ExceptionFields(Thrown(aqiFetch).value))))
    ensures aqiFetch.Reply? && Thrown(uvFetch).Some? ==>
              r == Response(500, JsonBody(Obj(ExceptionFields(Thrown(uvFetch).value))))
    ensures aqiFetch.Reply? && uvFetch.Reply? && !(Is2xx(aqiFetch.status) && Is2xx(uvFetch.status)) ==>
              r == Response(502, JsonBody(Obj(ErrFields("data-api bad status",
                     ["airquality", Decimal.IntText(aqiFetch.status), "uv", Decimal.IntText(uvFetch.status)]))))
    ensures aqiFetch.Reply? && uvFetch.Reply? && Is2xx(aqiFetch.status) && Is2xx(uvFetch.status) ==>
              var a, u := aqiFetch.body, uvFetch.body;
              && (a.ParseError? ==> r == Response(500, JsonBody(Obj(ExceptionFields(a.message)))))
              && (a.Tree? && u.ParseError? ==> r == Response(500, JsonBody(Obj(ExceptionFields(u.message)))))
              && (a.Tree? && u.Tree? ==>
                    var aqiObj, uvObj := Select(a.root), Select(u.root);
                    var aqi, uv := Coerced(PathOf(aqiObj, "air_quality"), lib), Coerced(PathOf(uvObj, "uv_index"), lib);
                    && (aqiObj.Missing? || uvObj.Missing? ==>
                          r == Response(502, JsonBody(Obj(ErrFields("data-api returned empty arrays", [])))))
                    && (!aqiObj.Missing? && !uvObj.Missing? && (aqi.None? || uv.None?) ==>
                          r == Response(502, JsonBody(Obj(ErrFields("missing fields",
                                 ["haveAqi", lib.nodeText(aqiObj), "haveUv", lib.nodeText(uvObj)])))))
                    && (!aqiObj.Missing? && !uvObj.Missing? && aqi.Some? && uv.Some? ==>
                          r == Response(200, JsonBody(CombinedJson(aqi.value, uv.value)))))
  {
    if Thrown(aqiFetch).Some? {
      var body := JsonErr("exception in class-api", ["message", MessageText(Thrown(aqiFetch).value)]);
      return Response(500, JsonBody(body));
    }
    if Thrown(uvFetch).Some? {
      var body := JsonErr("exception in class-api", ["message", MessageText(Thrown(uvFetch).value)]);
      return Response(500, JsonBody(body));
    }
    if !Is2xx(aqiFetch.status) || !Is2xx(uvFetch.status) {
      var body := JsonErr("data-api bad status",
                          ["airquality", Decimal.IntText(aqiFetch.status), "uv", Decimal.IntText(uvFetch.status)]);
      return Response(502, JsonBody(body));
    }
    if aqiFetch.body.ParseError? {
      var body := JsonErr("exception in class-api", ["message", MessageText(aqiFetch.body.message)]);
      return Response(500, JsonBody(body));
    }
    if uvFetch.body.ParseError? {
      var body := JsonErr("exception in class-api", ["message", MessageText(uvFetch.body.message)]);
      return Response(500, JsonBody(body));
    }
    var aqiObj := Select(aqiFetch.body.root);
    var uvObj := Select(uvFetch.body.root);
    if aqiObj.Missing? || uvObj.Missing? {
      var body := JsonErr("data-api returned empty arrays", []);
      return Response(502, JsonBody(body));
    }
    var aqi := Coerced(PathOf(aqiObj, "air_quality"), lib);
    var uv := Coerced(PathOf(uvObj, "uv_index"), lib);
    if aqi.None? || uv.None? {
      var body := JsonErr("missing fields", ["haveAqi", lib.nodeText(aqiObj), "haveUv", lib.nodeText(uvObj)]);
      return Response(502, JsonBody(body));
    }
    var out := new ObjectNode();
    out.Put("aqi", Num(aqi.value));
    out.Put("uv", Num(uv.value));
    out.Put("summary", Str(Summary(aqi.value, uv.value)));
    r := Response(200, JsonBody(out.Value()));
  }
}
