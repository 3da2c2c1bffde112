/**
 * The storage service (Data-api ApiServer): the typed list and by-id
 * handlers for the air-quality and UV tables, and the generic ones that
 * take the table name from the request. The database is a function from
 * the statement sent to its result; every run records the statements it
 * sent.
 */
module DataApi {
  import opened Wrappers
  import opened Jackson
  import opened Http
  import opened JavaText
  import Decimal

  /** A column value as JDBC hands it over. */
  datatype Value = SqlNull | SqlInt(i: int) | SqlReal(r: real) | SqlText(t: string)

  /** A result row: each column's label and value, in column order. */
  type Row = seq<(string, Value)>

  /** A statement: SQL text and the parameters bound to its '?' marks. */
  datatype Statement = Statement(sql: string, params: seq<string>)

  /** What executing a statement gives: the rows in result-set order, or an SQLException's message. */
  datatype SqlResult = Rows(rows: seq<Row>) | SqlError(message: Option<string>)

  type Database = Statement -> SqlResult

  /** One handler call: the response and the statements sent to the database, in order. */
  datatype Run = Run(response: Response, executed: seq<Statement>)

  /**
   * How a row's values are read: `rs.getObject(i)` (the list handler), or
   * `rs.getString(i)` (the by-id handler), with the driver's text of a REAL.
   */
  datatype Getter = GetObject | GetString(realText: real -> string)

  /** The JSON a column value becomes under the given getter. */
  function Convert(getter: Getter, v: Value): Json {
    match getter
    case GetObject =>
      (match v
       case SqlNull => Null
       case SqlInt(i) => Num(i as real)
       case SqlReal(r) => Num(r)
       case SqlText(t) => Str(t))
    case GetString(realText) =>
      (match v
       case SqlNull => Null
       case SqlInt(i) => Str(Decimal.IntText(i))
       case SqlReal(r) => Str(realText(r))
       case SqlText(t) => Str(t))
  }

  /** The map filled by putting each column's label and value in column order. */
  function Fill(row: Row, getter: Getter): map<string, Json> {
    if row == [] then map[]
    else Fill(row[..|row| - 1], getter)[row[|row| - 1].0 := Convert(getter, row[|row| - 1].1)]
  }

  /** One entry per column label. */
  lemma {:induction false} FillKeys(row: Row, getter: Getter)
    ensures Fill(row, getter).Keys == set c | c in row :: c.0
  {
    if row != [] {
      var init := row[..|row| - 1];
      FillKeys(init, getter);
      assert row == init + [row[|row| - 1]];
      assert (set c | c in row :: c.0) == (set c | c in init :: c.0) + {row[|row| - 1].0};
    }
  }

  /** A label used more than once keeps the value of its last column. */
  lemma {:induction false} FillLastWins(row: Row, getter: Getter, k: nat)
    requires k < |row|
    requires forall j :: k < j < |row| ==> row[j].0 != row[k].0
    ensures row[k].0 in Fill(row, getter) && Fill(row, getter)[row[k].0] == Convert(getter, row[k].1)
  {
    if k < |row| - 1 {
      FillLastWins(row[..|row| - 1], getter, k);
    }
  }

  /** With distinct labels, every column's value is in the map under its label. */
  lemma {:induction false} FillDistinct(row: Row, getter: Getter)
    requires forall i, j :: 0 <= i < j < |row| ==> row[i].0 != row[j].0
    ensures |Fill(row, getter)| == |row|
    ensures forall k :: 0 <= k < |row| ==> row[k].0 in Fill(row, getter) && Fill(row, getter)[row[k].0] == Convert(getter, row[k].1)
  {
    forall k | 0 <= k < |row| ensures row[k].0 in Fill(row, getter) && Fill(row, getter)[row[k].0] == Convert(getter, row[k].1) {
      FillLastWins(row, getter, k);
    }
    FillKeys(row, getter);
    LabelCount(row);
  }

  lemma {:induction false} LabelCount(row: Row)
    requires forall i, j :: 0 <= i < j < |row| ==> row[i].0 != row[j].0
    ensures |set c | c in row :: c.0| == |row|
  {
    if row != [] {
      var init := row[..|row| - 1];
      LabelCount(init);
      assert row == init + [row[|row| - 1]];
      var labels := set c | c in init :: c.0;
      assert (set c | c in row :: c.0) == labels + {row[|row| - 1].0};
      assert row[|row| - 1].0 !in labels;
    }
  }

  /** The list body: one object per row, in result-set order. */
  function RowsJson(rows: seq<Row>): (elems: seq<Json>)
    ensures |elems| == |rows|
    ensures forall k :: 0 <= k < |rows| ==> elems[k] == Obj(Fill(rows[k], GetObject))
  {
    if rows == [] then [] else [Obj(Fill(rows[0], GetObject))] + RowsJson(rows[1..])
  }

  /** `"SELECT * FROM " + tableName`: the name goes into the SQL text as it is. */
  function SelectAll(table: string): Statement {
    Statement("SELECT * FROM " + table, [])
  }

  /** The by-id query: the table name in the text, the id as its one bound parameter. */
  function SelectById(table: string, id: string): Statement {
    Statement("SELECT * FROM " + table + " WHERE id = ?", [id])
  }

  /** The 500 body, built by concatenation around the (possibly null) message. */
  function SqlErrorResponse(message: Option<string>): Response {
    Response(500, TextBody("{\"error\": \"" + MessageText(message) + "\"}"))
  }

  const MissingIdResponse := Response(400, TextBody("{\"error\": \"Missing ID\"}"))
  const NotFoundResponse := Response(404, TextBody("{\"error\": \"Record not found\"}"))
  const MissingTableResponse := Response(400, TextBody("{\"error\":\"Missing table name\"}"))
  const UsageResponse := Response(400, TextBody("{\"error\":\"Usage: /table/{tableName}/{id}\"}"))

  /** `GetAllHandler(table).handle`: every row of the table, for GET only. */
  method GetAll(table: string, requestMethod: string, db: Database) returns (run: Run)
    ensures !IsMethod(requestMethod, "GET") ==> run == Run(Response(405, TextBody("Method Not Allowed")), [])
    ensures IsMethod(requestMethod, "GET") ==> run.executed == [SelectAll(table)]
    ensures IsMethod(requestMethod, "GET") && db(SelectAll(table)).SqlError? ==>
              run.response == SqlErrorResponse(db(SelectAll(table)).message)
    ensures IsMethod(requestMethod, "GET") && db(SelectAll(table)).Rows? ==>
              run.response == Response(200, JsonBody(Arr(RowsJson(db(SelectAll(table)).rows))))
  {
    if !IsMethod(requestMethod, "GET") {
      return Run(Response(405, TextBody("Method Not Allowed")), []);
    }
    var statement := SelectAll(table);
    var result := db(statement);
    if result.SqlError? {
      return Run(SqlErrorResponse(result.message), [statement]);
    }
    var rows := result.rows;
    var results: seq<Json> := [];
    var n := 0;
    while n < |rows|
      invariant 0 <= n <= |rows| && |results| == n
      invariant forall k :: 0 <= k < n ==> results[k] == Obj(Fill(rows[k], GetObject))
    {
      var row := rows[n];
      var fields: map<string, Json> := map[];
      var i := 0;
      while i < |row|
        invariant 0 <= i <= |row|
        invariant fields == Fill(row[..i], GetObject)
      {
        assert row[..i + 1][..i] == row[..i];
        fields := fields[row[i].0 := Convert(GetObject, row[i].1)];
        i := i + 1;
      }
      assert row[..i] == row;
      results := results + [Obj(fields)];
      n := n + 1;
    }
    assert results == RowsJson(rows);
    run := Run(Response(200, JsonBody(Arr(results))), [statement]);
  }

  /**
   * `GetByIdHandler(table).handle`: the id is the third piece of
   * `path.split("/")`; no method check.
   */
  method GetById(table: string, path: string, realText: real -> string, db: Database) returns (run: Run)
    ensures var parts := Split(path);
            |parts| < 3 || parts[2] == "" ==> run == Run(MissingIdResponse, [])
    ensures var parts := Split(path);
            |parts| >= 3 && parts[2] != "" ==>
              && run.executed == [SelectById(table, parts[2])]
              && var result := db(SelectById(table, parts[2]));
                 && (result.SqlError? ==> run.response == SqlErrorResponse(result.message))
                 && (result.Rows? && result.rows == [] ==> run.response == NotFoundResponse)
                 && (result.Rows? && result.rows != [] ==>
                       run.response == Response(200, JsonBody(Obj(Fill(result.rows[0], GetString(realText))))))
  {
    var parts := Split(path);
    if |parts| < 3 || parts[2] == "" {
      return Run(MissingIdResponse, []);
    }
    var id := parts[2];
    var statement := SelectById(table, id);
    var result := db(statement);
    if result.SqlError? {
      return Run(SqlErrorResponse(result.message), [statement]);
    }
    if result.rows == [] {
      return Run(NotFoundResponse, [statement]);
    }
    var row := result.rows[0];
    var node := new ObjectNode();
    for i := 0 to |row|
      invariant node.fields == Fill(row[..i], GetString(realText))
    {
      assert row[..i + 1][..i] == row[..i];
      node.Put(row[i].0, Convert(GetString(realText), row[i].1));
    }
    assert row[..|row|] == row;
    run := Run(Response(200, JsonBody(node.Value())), [statement]);
  }

  /**
   * `GenericGetAllHandler.handle`: the table is whatever follows "name="
   * in the query, taken verbatim, and the list handler does the rest. The
   * query is checked before the method.
   */
  method GenericGetAll(query: Option<string>, requestMethod: string, db: Database) returns (run: Run)
    ensures query.None? || !StartsWith(query.value, "name=") ==> run == Run(MissingTableResponse, [])
    ensures query.Some? && StartsWith(query.value, "name=") ==>
              var table := query.value[5..];
              && (!IsMethod(requestMethod, "GET") ==> run == Run(Response(405, TextBody("Method Not Allowed")), []))
              && (IsMethod(requestMethod, "GET") ==> run.executed == [SelectAll(table)])
              && (IsMethod(requestMethod, "GET") && db(SelectAll(table)).SqlError? ==>
                    run.response == SqlErrorResponse(db(SelectAll(table)).message))
              && (IsMethod(requestMethod, "GET") && db(SelectAll(table)).Rows? ==>
                    run.response == Response(200, JsonBody(Arr(RowsJson(db(SelectAll(table)).rows)))))
  {
    if query.None? || !StartsWith(query.value, "name=") {
      return Run(MissingTableResponse, []);
    }
    var table := query.value[5..];
    run := GetAll(table, requestMethod, db);
  }

  /**
   * `GenericGetByIdHandler.handle`: the path must split into exactly four
   * pieces; the by-id handler is then run for the table parts[2], and it
   * re-splits the same path and binds parts[2] again as the id.
   */
  method GenericGetById(path: string, realText: real -> string, db: Database) returns (run: Run)
    ensures |Split(path)| != 4 ==> run == Run(UsageResponse, [])
    ensures |Split(path)| == 4 && Split(path)[2] == "" ==> run == Run(MissingIdResponse, [])
    ensures |Split(path)| == 4 && Split(path)[2] != "" ==>
              var table := Split(path)[2];
              && run.executed == [SelectById(table, table)]
              && var result := db(SelectById(table, table));
                 && (result.SqlError? ==> run.response == SqlErrorResponse(result.message))
                 && (result.Rows? && result.rows == [] ==> run.response == NotFoundResponse)
                 && (result.Rows? && result.rows != [] ==>
                       run.response == Response(200, JsonBody(Obj(Fill(result.rows[0], GetString(realText))))))
  {
    var parts := Split(path);
    if |parts| != 4 {
      return Run(UsageResponse, []);
    }
    var table := parts[2];
    run := GetById(table, path, realText, db);
  }

  /** On "/uv/17" the typed by-id handler looks up id "17". */
  lemma {:induction false} TypedPathId(resource: string, id: string)
    requires '/' !in resource && '/' !in id && id != ""
    ensures |Split("/" + resource + "/" + id)| == 3 && Split("/" + resource + "/" + id)[2] == id
  {
    SplitTwoLevels(resource, id);
  }

  /**
   * On "/table/t/17" the generic by-id route passes the split's four-piece
   * test with table t, and the handler it delegates to binds t, not "17",
   * as the id.
   */
  lemma {:induction false} GenericPathBindsTableAsId(table: string, id: string)
    requires '/' !in table && '/' !in id && id != "" && table != ""
    ensures Split("/table/" + table + "/" + id) == ["", "table", table, id]
  {
    assert "/table/" + table + "/" + id == "/" + "table" + "/" + table + "/" + id;
    SplitThreeLevels("table", table, id);
  }

  /** A path with nothing after the resource has no third piece: "/uv" and "/uv/" are both Missing ID. */
  lemma {:induction false} NoIdPiece(resource: string)
    requires '/' !in resource && resource != ""
    ensures |Split("/" + resource)| < 3 && |Split("/" + resource + "/")| < 3
  {
    var s1, s2 := "/" + resource, "/" + resource + "/";
    assert s1 == "" + "/" + resource;
    SegmentsAtSlash("", resource);
    SegmentsOfSlashFree(resource);
    assert s2 == "" + "/" + (resource + "/" + "");
    SegmentsAtSlash("", resource + "/" + "");
    SegmentsAtSlash(resource, "");
    assert Segments(s2) == ["", resource, ""];
  }

  /**
   * The name is the rest of the query verbatim: for "name=" + rest the list
   * query selects from rest itself, "&..." and all, with no parameter.
   */
  lemma {:induction false} TableNameVerbatim(rest: string)
    ensures StartsWith("name=" + rest, "name=")
    ensures SelectAll(("name=" + rest)[5..]) == Statement("SELECT * FROM " + rest, [])
  {
    assert ("name=" + rest)[..5] == "name=";
    assert ("name=" + rest)[5..] == rest;
  }
}
