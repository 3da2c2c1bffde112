/**
 * The presentation service (Ui-api UiApiServer): AQI and UV classification
 * with their advice and colour tables, the /health and catch-all handlers,
 * and the /dashboard handler, which calls the aggregation service and ends
 * in the overall-alert step that always throws.
 */
module UiApi {
  import opened Wrappers
  import opened Jackson
  import opened Http
  import JavaText
  import Decimal

  const ClassApiBaseUrl := "http://localhost:8081"

  /** AQI categories from least to most severe. */
  const AqiCategories: seq<string> :=
    ["Good", "Moderate", "Unhealthy for Sensitive Groups", "Unhealthy", "Very Unhealthy", "Hazardous"]

  /** The inclusive upper bounds of the first five AQI categories. */
  const AqiBreakpoints: seq<real> := [50.0, 100.0, 150.0, 200.0, 300.0]

  /** The display colour of each AQI category, in the same order. */
  const AqiColors: seq<string> := ["green", "yellow", "orange", "red", "purple", "maroon"]

  /** UV risk tiers from least to most severe. */
  const UvRisks: seq<string> := ["Low", "Moderate", "High", "Very High", "Extreme"]

  /** The exclusive upper bounds of the first four UV tiers. */
  const UvBreakpoints: seq<real> := [3.0, 6.0, 8.0, 11.0]

  /** The display colour of each UV tier, in the same order. */
  const UvColors: seq<string> := ["green", "yellow", "orange", "red", "purple"]

  // ---------------------------------------------------------------------
  // Classification

  function AqiCategory(aqi: real): (c: string)
    ensures c in AqiCategories
  {
    if aqi <= 50.0 then "Good"
    else if aqi <= 100.0 then "Moderate"
    else if aqi <= 150.0 then "Unhealthy for Sensitive Groups"
    else if aqi <= 200.0 then "Unhealthy"
    else if aqi <= 300.0 then "Very Unhealthy"
    else "Hazardous"
  }

  function UvRisk(uv: real): (r: string)
    ensures r in UvRisks
  {
    if uv < 3.0 then "Low"
    else if uv < 6.0 then "Moderate"
    else if uv < 8.0 then "High"
    else if uv < 11.0 then "Very High"
    else "Extreme"
  }

  /** How many bounds x lies strictly above: the band of x when bounds are inclusive. */
  function BandOver(bounds: seq<real>, x: real): (n: nat)
    ensures n <= |bounds|
  {
    if bounds == [] then 0 else (if bounds[0] < x then 1 else 0) + BandOver(bounds[1..], x)
  }

  /** How many bounds x has reached: the band of x when bounds are exclusive. */
  function BandReached(bounds: seq<real>, x: real): (n: nat)
    ensures n <= |bounds|
  {
    if bounds == [] then 0 else (if bounds[0] <= x then 1 else 0) + BandReached(bounds[1..], x)
  }

  lemma {:induction false} BandOverMonotone(bounds: seq<real>, x: real, y: real)
    requires x <= y
    ensures BandOver(bounds, x) <= BandOver(bounds, y)
  {
    if bounds != [] {
      BandOverMonotone(bounds[1..], x, y);
    }
  }

  lemma {:induction false} BandReachedMonotone(bounds: seq<real>, x: real, y: real)
    requires x <= y
    ensures BandReached(bounds, x) <= BandReached(bounds, y)
  {
    if bounds != [] {
      BandReachedMonotone(bounds[1..], x, y);
    }
  }

  /** On ascending bounds, the band is the number of leading bounds below x. */
  lemma {:induction false} BandOverAscending(bounds: seq<real>, x: real, k: nat)
    requires forall i, j :: 0 <= i < j < |bounds| ==> bounds[i] < bounds[j]
    requires k <= |bounds|
    requires forall i :: 0 <= i < k ==> bounds[i] < x
    requires k < |bounds| ==> x <= bounds[k]
    ensures BandOver(bounds, x) == k
  {
    if bounds != [] {
      if k == 0 {
        assert forall i :: 0 <= i < |bounds| ==> x <= bounds[i] by {
          forall i | 0 <= i < |bounds| ensures x <= bounds[i] {
            if i > 0 { assert bounds[0] < bounds[i]; }
          }
        }
        BandOverAscending(bounds[1..], x, 0);
      } else {
        BandOverAscending(bounds[1..], x, k - 1);
      }
    }
  }

  lemma {:induction false} BandReachedAscending(bounds: seq<real>, x: real, k: nat)
    requires forall i, j :: 0 <= i < j < |bounds| ==> bounds[i] < bounds[j]
    requires k <= |bounds|
    requires forall i :: 0 <= i < k ==> bounds[i] <= x
    requires k < |bounds| ==> x < bounds[k]
    ensures BandReached(bounds, x) == k
  {
    if bounds != [] {
      if k == 0 {
        assert forall i :: 0 <= i < |bounds| ==> x < bounds[i] by {
          forall i | 0 <= i < |bounds| ensures x < bounds[i] {
            if i > 0 { assert bounds[0] < bounds[i]; }
          }
        }
        BandReachedAscending(bounds[1..], x, 0);
      } else {
        BandReachedAscending(bounds[1..], x, k - 1);
      }
    }
  }

  /** The AQI category is the band of the value under the inclusive bounds 50/100/150/200/300. */
  lemma {:induction false} AqiCategoryIsBand(aqi: real)
    ensures AqiCategory(aqi) == AqiCategories[BandOver(AqiBreakpoints, aqi)]
  {
    var k := if aqi <= 50.0 then 0 else if aqi <= 100.0 then 1 else if aqi <= 150.0 then 2
             else if aqi <= 200.0 then 3 else if aqi <= 300.0 then 4 else 5;
    BandOverAscending(AqiBreakpoints, aqi, k);
  }

  /** The UV risk is the band of the value under the exclusive bounds 3/6/8/11. */
  lemma {:induction false} UvRiskIsBand(uv: real)
    ensures UvRisk(uv) == UvRisks[BandReached(UvBreakpoints, uv)]
  {
    var k := if uv < 3.0 then 0 else if uv < 6.0 then 1 else if uv < 8.0 then 2
             else if uv < 11.0 then 3 else 4;
    BandReachedAscending(UvBreakpoints, uv, k);
  }

  /** Position of a label in a severity list (the list's length if absent). */
  function Severity(labels: seq<string>, name: string): (n: nat)
    ensures n <= |labels|
    ensures n < |labels| ==> labels[n] == name
    ensures name in labels ==> n < |labels|
  {
    if labels == [] then 0
    else if labels[0] == name then 0
    else 1 + Severity(labels[1..], name)
  }

  lemma {:induction false} AqiSeverityOfCategory(k: nat)
    requires k < |AqiCategories|
    ensures Severity(AqiCategories, AqiCategories[k]) == k
  {
    var n := Severity(AqiCategories, AqiCategories[k]);
    assert AqiCategories[n] == AqiCategories[k];
  }

  lemma {:induction false} UvSeverityOfRisk(k: nat)
    requires k < |UvRisks|
    ensures Severity(UvRisks, UvRisks[k]) == k
  {
    var n := Severity(UvRisks, UvRisks[k]);
    assert UvRisks[n] == UvRisks[k];
  }

  /** A larger AQI never gets a less severe category. */
  lemma {:induction false} AqiCategoryMonotone(a: real, b: real)
    requires a <= b
    ensures Severity(AqiCategories, AqiCategory(a)) <= Severity(AqiCategories, AqiCategory(b))
  {
    AqiCategoryIsBand(a);
    AqiCategoryIsBand(b);
    BandOverMonotone(AqiBreakpoints, a, b);
    AqiSeverityOfCategory(BandOver(AqiBreakpoints, a));
    AqiSeverityOfCategory(BandOver(AqiBreakpoints, b));
  }

  /** A larger UV index never gets a less severe risk. */
  lemma {:induction false} UvRiskMonotone(a: real, b: real)
    requires a <= b
    ensures Severity(UvRisks, UvRisk(a)) <= Severity(UvRisks, UvRisk(b))
  {
    UvRiskIsBand(a);
    UvRiskIsBand(b);
    BandReachedMonotone(UvBreakpoints, a, b);
    UvSeverityOfRisk(BandReached(UvBreakpoints, a));
    UvSeverityOfRisk(BandReached(UvBreakpoints, b));
  }

  /** Inclusive AQI bounds, exclusive UV bounds: a boundary value stays below for AQI and moves up for UV. */
  lemma Boundaries()
    ensures AqiCategory(50.0) == "Good" && AqiCategory(50.1) == "Moderate"
    ensures AqiCategory(300.0) == "Very Unhealthy" && AqiCategory(300.5) == "Hazardous"
    ensures UvRisk(2.9) == "Low" && UvRisk(3.0) == "Moderate" && UvRisk(11.0) == "Extreme"
  {
  }

  // ---------------------------------------------------------------------
  // Advice and colours

  /** Advice for an AQI value, chosen by its category. */
  function AqiAdvice(aqi: real): (r: string)
    ensures r in AqiAdvices
  {
    var c := AqiCategory(aqi);
    if c == "Good" then "Enjoy outdoor activities."
    else if c == "Moderate" then "Sensitive groups: limit prolonged outdoor exertion."
    else if c == "Unhealthy for Sensitive Groups" then "Sensitive groups: reduce outdoor exertion."
    else if c == "Unhealthy" then "Everyone: reduce prolonged or heavy outdoor exertion."
    else if c == "Very Unhealthy" then "Avoid outdoor exertion; consider a mask/air purifier."
    else "Stay indoors with clean air; follow local guidance."
  }

  /** Advice for a UV index, chosen by its risk tier. */
  function UvAdvice(uv: real): (r: string)
    ensures r in UvAdvices
  {
    var r := UvRisk(uv);
    if r == "Low" then "Minimal protection needed."
    else if r == "Moderate" then "Wear sunglasses and SPF 30+."
    else if r == "High" then "Reduce time in sun; SPF 30+, hat, sunglasses."
    else if r == "Very High" then "Avoid midday sun; protective clothing; SPF 30+."
    else "Avoid exposure; seek shade; SPF 50+."
  }

  /** The advice of each AQI category, in severity order. */
  const AqiAdvices: seq<string> := [
    "Enjoy outdoor activities.",
    "Sensitive groups: limit prolonged outdoor exertion.",
    "Sensitive groups: reduce outdoor exertion.",
    "Everyone: reduce prolonged or heavy outdoor exertion.",
    "Avoid outdoor exertion; consider a mask/air purifier.",
    "Stay indoors with clean air; follow local guidance."]

  /** The advice of each UV risk, in severity order. */
  const UvAdvices: seq<string> := [
    "Minimal protection needed.",
    "Wear sunglasses and SPF 30+.",
    "Reduce time in sun; SPF 30+, hat, sunglasses.",
    "Avoid midday sun; protective clothing; SPF 30+.",
    "Avoid exposure; seek shade; SPF 50+."]

  lemma AqiAdvicesDistinct()
    ensures forall i, j :: 0 <= i < j < |AqiAdvices| ==> AqiAdvices[i] != AqiAdvices[j]
  {
    assert AqiAdvices[3] != AqiAdvices[4] && AqiAdvices[1] != AqiAdvices[5];
  }

  lemma UvAdvicesDistinct()
    ensures forall i, j :: 0 <= i < j < |UvAdvices| ==> UvAdvices[i] != UvAdvices[j]
  {
    forall i, j | 0 <= i < j < |UvAdvices| ensures UvAdvices[i] != UvAdvices[j] {
      assert |UvAdvices[i]| != |UvAdvices[j]|;
    }
  }

  lemma {:induction false} AqiAdviceIsBand(aqi: real)
    ensures AqiAdvice(aqi) == AqiAdvices[BandOver(AqiBreakpoints, aqi)]
  {
    AqiCategoryIsBand(aqi);
  }

  lemma {:induction false} UvAdviceIsBand(uv: real)
    ensures UvAdvice(uv) == UvAdvices[BandReached(UvBreakpoints, uv)]
  {
    UvRiskIsBand(uv);
  }

  /** Advice is a function of the category alone, and different categories get different advice. */
  lemma {:induction false} AqiAdviceByCategory(a: real, b: real)
    ensures AqiAdvice(a) == AqiAdvice(b) <==> AqiCategory(a) == AqiCategory(b)
  {
    AqiAdviceIsBand(a);
    AqiAdviceIsBand(b);
    AqiCategoryIsBand(a);
    AqiCategoryIsBand(b);
    AqiAdvicesDistinct();
    var i, j := BandOver(AqiBreakpoints, a), BandOver(AqiBreakpoints, b);
    AqiSeverityOfCategory(i);
    AqiSeverityOfCategory(j);
  }

  /** Advice is a function of the risk alone, and different risks get different advice. */
  lemma {:induction false} UvAdviceByRisk(a: real, b: real)
    ensures UvAdvice(a) == UvAdvice(b) <==> UvRisk(a) == UvRisk(b)
  {
    UvAdviceIsBand(a);
    UvAdviceIsBand(b);
    UvRiskIsBand(a);
    UvRiskIsBand(b);
    UvAdvicesDistinct();
    var i, j := BandReached(UvBreakpoints, a), BandReached(UvBreakpoints, b);
    UvSeverityOfRisk(i);
    UvSeverityOfRisk(j);
  }

  /** The display colour of an AQI category, maroon for any other label. */
  function AqiColor(category: string): (r: string)
    ensures r in AqiColors
  {
    if category == "Good" then "green"
    else if category == "Moderate" then "yellow"
    else if category == "Unhealthy for Sensitive Groups" then "orange"
    else if category == "Unhealthy" then "red"
    else if category == "Very Unhealthy" then "purple"
    else "maroon"
  }

  /** The display colour of a UV risk tier, purple for any other label. */
  function UvColor(risk: string): (r: string)
    ensures r in UvColors
  {
    if risk == "Low" then "green"
    else if risk == "Moderate" then "yellow"
    else if risk == "High" then "orange"
    else if risk == "Very High" then "red"
    else "purple"
  }

  /** The six categories get the six colours of the table, all distinct; any other label is maroon. */
  lemma {:induction false} AqiColorTable(category: string)
    ensures forall k :: 0 <= k < |AqiCategories| ==> AqiColor(AqiCategories[k]) == AqiColors[k]
    ensures forall i, j :: 0 <= i < j < |AqiColors| ==> AqiColors[i] != AqiColors[j]
    ensures category !in AqiCategories ==> AqiColor(category) == "maroon"
  {
  }

  /** The five risks get the five colours of the table, all distinct; any other label is purple. */
  lemma {:induction false} UvColorTable(risk: string)
    ensures forall k :: 0 <= k < |UvRisks| ==> UvColor(UvRisks[k]) == UvColors[k]
    ensures forall i, j :: 0 <= i < j < |UvColors| ==> UvColors[i] != UvColors[j]
    ensures risk !in UvRisks ==> UvColor(risk) == "purple"
  {
  }

  // ---------------------------------------------------------------------
  // Reading the aggregation service's reply

  /**
   * `safeDouble(node, field, NaN)`: the field's value when the node has it
   * and it is a JSON number, None where Java falls back to NaN.
   */
  function SafeDouble(node: Json, field: string): (r: Option<real>)
    ensures r.Some? <==> Has(node, field) && IsNumber(node.fields[field])
    ensures r.Some? ==> node.fields[field] == Num(r.value)
  {
    if Has(node, field) && IsNumber(node.fields[field]) then Some(node.fields[field].n) else None
  }

  /** The summary shown on the dashboard: the field's text, or "N/A" when absent or null. */
  function SummaryText(body: Json, lib: JsonLib): (s: string)
    ensures !HasNonNull(body, "summary") ==> s == "N/A"
    ensures HasNonNull(body, "summary") && body.fields["summary"].Str? ==> s == body.fields["summary"].s
  {
    if HasNonNull(body, "summary") then AsText(body.fields["summary"], lib) else "N/A"
  }

  /** The URL the dashboard forwards to: the base, "/combined", then "?" and the query when there is one. */
  function ForwardUrl(query: Option<string>): (url: string)
    ensures JavaText.StartsWith(url, ClassApiBaseUrl + "/combined")
    ensures query.None? <==> url == ClassApiBaseUrl + "/combined"
    ensures query.Some? ==> url[|ClassApiBaseUrl + "/combined"|..] == "?" + query.value
  {
    ClassApiBaseUrl + "/combined" + (match query case Some(q) => "?" + q case None => "")
  }

  /** The exception overallAlert throws. */
  const UnimplementedAlert := "UnsupportedOperationException: Unimplemented method 'overallAlert'"

  /** overallAlert is a stub: whatever the readings, it throws. */
  function OverallAlert(aqi: real, uv: real): (r: Result<Json, string>)
    ensures r.Failure? && r.error == UnimplementedAlert
  {
    Failure(UnimplementedAlert)
  }

  // ---------------------------------------------------------------------
  // The cards of a report (built only after overallAlert returns)

  /** `Math.round(x * 10.0) / 10.0` over the reals: Math.round is floor(y + 0.5). */
  function Round1(x: real): (r: real)
    ensures x - 0.05 < r <= x + 0.05
    ensures (r * 10.0).Floor as real == r * 10.0
  {
    ((x * 10.0 + 0.5).Floor as real) / 10.0
  }

  function AirQualityCard(aqi: real): Json {
    var category := AqiCategory(aqi);
    Obj(map["aqi" := Num(Round1(aqi)), "category" := Str(category),
            "advice" := Str(AqiAdvice(aqi)), "color" := Str(AqiColor(category))])
  }

  function UvCard(uv: real): Json {
    var risk := UvRisk(uv);
    Obj(map["uvIndex" := Num(Round1(uv)), "risk" := Str(risk),
            "advice" := Str(UvAdvice(uv)), "color" := Str(UvColor(risk))])
  }

  /**
   * A card's displayed value is rounded but its category is not: 50.03
   * shows as 50 yet is classed Moderate, while 50 itself is Good.
   */
  lemma RoundedCardCrossesBoundary()
    ensures AirQualityCard(50.03).fields["aqi"] == Num(50.0)
    ensures AirQualityCard(50.03).fields["category"] == Str("Moderate")
    ensures AqiCategory(50.0) == "Good"
  {
    assert (50.03 * 10.0 + 0.5).Floor == 500;
  }

  /** The air-quality card shows the category, advice and colour of the value's band. */
  lemma {:induction false} AirQualityCardIsBand(aqi: real)
    ensures var b, card := BandOver(AqiBreakpoints, aqi), AirQualityCard(aqi);
            && card.fields["category"] == Str(AqiCategories[b])
            && card.fields["advice"] == Str(AqiAdvices[b])
            && card.fields["color"] == Str(AqiColors[b])
  {
    AqiCategoryIsBand(aqi);
    AqiAdviceIsBand(aqi);
    AqiColorTable(AqiCategory(aqi));
  }

  /** The UV card shows the risk, advice and colour of the value's band. */
  lemma {:induction false} UvCardIsBand(uv: real)
    ensures var b, card := BandReached(UvBreakpoints, uv), UvCard(uv);
            && card.fields["risk"] == Str(UvRisks[b])
            && card.fields["advice"] == Str(UvAdvices[b])
            && card.fields["color"] == Str(UvColors[b])
  {
    UvRiskIsBand(uv);
    UvAdviceIsBand(uv);
    UvColorTable(UvRisk(uv));
  }

  // ---------------------------------------------------------------------
  // Handlers

  /** `/health`: 200 for GET, 204 for OPTIONS, 405 for anything else. */
  function Health(requestMethod: string): (r: Response)
    ensures IsMethod(requestMethod, "GET") <==> r == Response(200, JsonBody(Obj(map["status" := Str("ok")])))
    ensures IsMethod(requestMethod, "OPTIONS") <==> r == Response(204, NoBody)
    ensures !IsMethod(requestMethod, "GET") && !IsMethod(requestMethod, "OPTIONS") <==>
            r == ErrorResponse(405, "method not allowed")
  {
    if IsMethod(requestMethod, "GET") then Response(200, JsonBody(Obj(map["status" := Str("ok")])))
    else if IsMethod(requestMethod, "OPTIONS") then Response(204, NoBody)
    else ErrorResponse(405, "method not allowed")
  }

  /** The catch-all handler for every other path: 204 for OPTIONS, 404 otherwise. */
  function CatchAll(requestMethod: string): (r: Response)
    ensures r.status == 204 <==> IsMethod(requestMethod, "OPTIONS")
    ensures r.status == 204 ==> r.body == NoBody
    ensures r.status != 204 ==> r == ErrorResponse(404, "not found")
  {
    if IsMethod(requestMethod, "OPTIONS") then Response(204, NoBody)
    else ErrorResponse(404, "not found")
  }

  /** One /dashboard call: the URL it forwarded to (if any) and how it ended. */
  datatype DashboardRun = DashboardRun(forwarded: Option<string>, outcome: Outcome)

  /**
   * `/dashboard`. The request method, the request's query, whether
   * URI.create accepts a URL, the aggregation service (a URL to the result
   * of sending GET to it), Jackson's text functions and the clock's
   * ISO-8601 text are the inputs.
   */
  method Dashboard(requestMethod: string, query: Option<string>, uriAccepts: string -> bool,
                   classApi: string -> Fetch, lib: JsonLib, now: string)
    returns (run: DashboardRun)
    ensures IsMethod(requestMethod, "OPTIONS") ==> run == DashboardRun(None, Sent(Response(204, NoBody)))
    ensures !IsMethod(requestMethod, "OPTIONS") && !IsMethod(requestMethod, "GET") ==>
              run == DashboardRun(None, Sent(ErrorResponse(405, "method not allowed")))
    ensures IsMethod(requestMethod, "GET") ==>
              (run.forwarded == Some(ForwardUrl(query)) <==> uriAccepts(ForwardUrl(query)))
    ensures IsMethod(requestMethod, "GET") && !uriAccepts(ForwardUrl(query)) ==>
              run == DashboardRun(None, Uncaught("IllegalArgumentException"))
    ensures run.forwarded.Some? ==>
              var f := classApi(run.forwarded.value);
              && (f.IoFailure? ==>
                    run.outcome == Sent(ErrorResponse(500, "failed contacting class-api: " + MessageText(f.message))))
              && (f.Interrupted? ==>
                    run.outcome == Sent(ErrorResponse(500, "interrupted contacting class-api")))
              && (f.Reply? && f.status >= 400 ==>
                    run.outcome == Sent(ErrorResponse(502, "class-api returned status " + Decimal.IntText(f.status))))
              && (f.Reply? && f.status < 400 && f.body.ParseError? ==>
                    run.outcome == Sent(ErrorResponse(502, "class-api returned non-JSON")))
              && (f.Reply? && f.status < 400 && f.body.Tree? &&
                  (SafeDouble(f.body.root, "aqi").None? || SafeDouble(f.body.root, "uv").None?) ==>
                    run.outcome == Sent(ErrorResponse(502, "class-api JSON missing expected fields (aqi/uv)")))
              && (f.Reply? && f.status < 400 && f.body.Tree? &&
                  SafeDouble(f.body.root, "aqi").Some? && SafeDouble(f.body.root, "uv").Some? ==>
                    run.outcome == Uncaught(UnimplementedAlert))
    ensures run.outcome.Sent? ==> run.outcome.response.status in {204, 405, 500, 502}
  {
    if IsMethod(requestMethod, "OPTIONS") {
      return DashboardRun(None, Sent(Response(204, NoBody)));
    }
    if !IsMethod(requestMethod, "GET") {
      return DashboardRun(None, Sent(ErrorResponse(405, "method not allowed")));
    }
    var url := ForwardUrl(query);
    if !uriAccepts(url) {
      return DashboardRun(None, Uncaught("IllegalArgumentException"));
    }
    var resp := classApi(url);
    match resp {
      case IoFailure(message) =>
        return DashboardRun(Some(url), Sent(ErrorResponse(500, "failed contacting class-api: " + MessageText(message))));
      case Interrupted(_) =>
        return DashboardRun(Some(url), Sent(ErrorResponse(500, "interrupted contacting class-api")));
      case Reply(status, parsed) =>
        if status >= 400 {
          return DashboardRun(Some(url), Sent(ErrorResponse(502, "class-api returned status " + Decimal.IntText(status))));
        }
        if parsed.ParseError? {
          return DashboardRun(Some(url), Sent(ErrorResponse(502, "class-api returned non-JSON")));
        }
        var body := parsed.root;
        var aqi := SafeDouble(body, "aqi");
        var uv := SafeDouble(body, "uv");
        var summary := SummaryText(body, lib);
        if aqi.None? || uv.None? {
          return DashboardRun(Some(url), Sent(ErrorResponse(502, "class-api JSON missing expected fields (aqi/uv)")));
        }
        var root := new ObjectNode();
        root.Put("timestamp", Str(now));
        root.Put("summary", Str(summary));
        var alert := OverallAlert(aqi.value, uv.value);
        run := DashboardRun(Some(url), Uncaught(alert.error));
    }
  }
}
