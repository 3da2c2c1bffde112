/**
 * The older aggregation route (Data-api ClassApiServer): the same
 * summary rule, but no status check, element 0 taken unconditionally, the
 * key "air_Quality", and only IOException and InterruptedException caught.
 */
module LegacyClassApi {
  import opened Wrappers
  import opened Jackson
  import opened Http

  /**
   * What the route ends in: the snapshot it formats with %.2f into its 200
   * body, the fixed 500 body for an I/O or interrupt failure, or an
   * exception the route does not catch (left to Spark).
   */
  datatype Reply =
    | Snapshot(aqi: real, uv: real, summary: string)
    | FetchFailed
    | Escaped(exception: string)

  /** The 500 body the route sends when fetching or parsing fails. */
  const FetchFailedBody := "{\"error\": \"Failed to fetch or combine data\"}"

  /** `node.get(0).get(key)`, None wherever Java would dereference null. */
  function FirstField(node: Json, key: string): (r: Option<Json>)
    ensures r.Some? <==> node.Arr? && |node.elems| > 0 && Has(node.elems[0], key)
    ensures r.Some? ==> r.value == node.elems[0].fields[key]
  {
    match At(node, 0)
    case None => None
    case Some(first) => Get(first, key)
  }

  function LegacySummary(aqi: real, uvIndex: real): string {
    (if aqi < 50.0 then "Good Air" else "Poor Air") + " & " + (if uvIndex < 3.0 then "Low UV" else "High UV")
  }

  /** Whether a fetch threw IOException or InterruptedException. */
  predicate Threw(f: Fetch) { f.IoFailure? || f.Interrupted? }

  /** `/combined` of the older copy, given the two fetches (air quality first). */
  function Combined(airFetch: Fetch, uvFetch: Fetch, lib: JsonLib): (r: Reply)
    ensures Threw(airFetch) || Threw(uvFetch) ==> r == FetchFailed
    ensures airFetch.Reply? && uvFetch.Reply? && (airFetch.body.ParseError? || uvFetch.body.ParseError?) ==>
              r == FetchFailed
    ensures airFetch.Reply? && uvFetch.Reply? && airFetch.body.Tree? && uvFetch.body.Tree? ==>
              var a, u := FirstField(airFetch.body.root, "air_Quality"), FirstField(uvFetch.body.root, "uv_index");
              && (a.None? || u.None? <==> r == Escaped("NullPointerException"))
              && (a.Some? && u.Some? ==>
                    r == Snapshot(AsDouble(a.value, lib, 0.0), AsDouble(u.value, lib, 0.0),
                                  LegacySummary(AsDouble(a.value, lib, 0.0), AsDouble(u.value, lib, 0.0))))
  {
    if Threw(airFetch) || Threw(uvFetch) then FetchFailed
    else if airFetch.body.ParseError? || uvFetch.body.ParseError? then FetchFailed
    else
      match FirstField(airFetch.body.root, "air_Quality")
      case None => Escaped("NullPointerException")
      case Some(airValue) =>
        match FirstField(uvFetch.body.root, "uv_index")
        case None => Escaped("NullPointerException")
        case Some(uvValue) =>
          var aqi := AsDouble(airValue, lib, 0.0);
          var uvIndex := AsDouble(uvValue, lib, 0.0);
          Snapshot(aqi, uvIndex, LegacySummary(aqi, uvIndex))
  }

  /**
   * What the route sends for a reply: the snapshot as its 200 text, rendered
   * by the supplied %.2f formatter, the fixed 500 text on a fetch failure,
   * and nothing when an exception escapes.
   */
  function Respond(r: Reply, format: (real, real, string) -> string): (o: Outcome)
    ensures r.FetchFailed? <==> o == Sent(Response(500, TextBody(FetchFailedBody)))
    ensures r.Escaped? <==> o.Uncaught?
    ensures r.Escaped? ==> o == Uncaught(r.exception)
    ensures r.Snapshot? ==> o == Sent(Response(200, TextBody(format(r.aqi, r.uv, r.summary))))
  {
    match r
    case Snapshot(aqi, uv, summary) => Sent(Response(200, TextBody(format(aqi, uv, summary))))
    case FetchFailed => Sent(Response(500, TextBody(FetchFailedBody)))
    case Escaped(exception) => Uncaught(exception)
  }

  /** The 500 text is sent exactly when a fetch threw or a body did not parse. */
  lemma {:induction false} FailureIsFixedText(airFetch: Fetch, uvFetch: Fetch, lib: JsonLib,
                                              format: (real, real, string) -> string)
    ensures Respond(Combined(airFetch, uvFetch, lib), format) == Sent(Response(500, TextBody(FetchFailedBody)))
            <==> Threw(airFetch) || Threw(uvFetch) || airFetch.body.ParseError? || uvFetch.body.ParseError?
  {
  }

  /** The upstream status codes play no part: only the bodies are looked at. */
  lemma {:induction false} StatusIgnored(s1: int, s2: int, t1: int, t2: int, b1: ReadTree, b2: ReadTree, lib: JsonLib)
    ensures Combined(Reply(s1, b1), Reply(s2, b2), lib) == Combined(Reply(t1, b1), Reply(t2, b2), lib)
  {
  }

  /** A 404 page that happens to be JSON still yields a snapshot. */
  lemma {:induction false} ErrorStatusStillCombines(lib: JsonLib)
    ensures
      var air := Arr([Obj(map["air_Quality" := Num(42.0)])]);
      var uv := Arr([Obj(map["uv_index" := Num(2.0)])]);
      Combined(Reply(404, Tree(air)), Reply(500, Tree(uv)), lib) == Snapshot(42.0, 2.0, "Good Air & Low UV")
  {
  }

  /**
   * An empty array, or an object that is not an array at all (even one
   * holding "air_Quality"), is not caught: get(0) is null and the
   * dereference escapes as a NullPointerException.
   */
  lemma {:induction false} MissingDataEscapes(lib: JsonLib, uvBody: ReadTree)
    ensures Combined(Reply(200, Tree(Arr([]))), Reply(200, uvBody), lib) == Escaped("NullPointerException")
              || uvBody.ParseError?
    ensures Combined(Reply(200, Tree(Obj(map["air_Quality" := Num(1.0)]))), Reply(200, uvBody), lib)
              == Escaped("NullPointerException") || uvBody.ParseError?
  {
  }

  /**
   * The key is "air_Quality" with a capital Q: a row under "air_quality",
   * the key of the newer copy, is a null dereference here.
   */
  lemma {:induction false} KeyIsCaseSensitive(lib: JsonLib)
    ensures
      var air := Arr([Obj(map["air_quality" := Num(42.0)])]);
      var uv := Arr([Obj(map["uv_index" := Num(2.0)])]);
      Combined(Reply(200, Tree(air)), Reply(200, Tree(uv)), lib) == Escaped("NullPointerException")
  {
    assert "air_quality" != "air_Quality" by { assert "air_quality"[4] != "air_Quality"[4]; }
  }
}
