/**
 * How the tiers fit together: the class-api's summary against the UI's
 * AQI category and UV risk, the older and newer copies of /combined, and
 * what the class-api's success body gives the dashboard.
 */
module Tiers {
  import opened Jackson
  import opened Wrappers
  import UiApi
  import ClassApi
  import LegacyClassApi

  /** Both copies of /combined word the summary alike. */
  lemma {:induction false} SummariesAgree(aqi: real, uv: real)
    ensures LegacyClassApi.LegacySummary(aqi, uv) == ClassApi.Summary(aqi, uv)
  {
  }

  /**
   * "Good Air" in the summary means the UI shows the category "Good",
   * except at exactly 50: the summary's threshold is exclusive and the
   * category's inclusive.
   */
  lemma {:induction false} GoodAirVersusGoodCategory(aqi: real, uv: real)
    ensures ClassApi.Summary(aqi, uv)[..8] == "Good Air" ==> UiApi.AqiCategory(aqi) == "Good"
    ensures UiApi.AqiCategory(aqi) == "Good" ==> (ClassApi.Summary(aqi, uv)[..8] == "Good Air" <==> aqi != 50.0)
  {
    ClassApi.SummaryReadsBack(aqi, uv);
  }

  /** At 50 the two tiers disagree: "Poor Air" next to the category "Good". */
  lemma {:induction false} FiftyIsPoorAirButGood(uv: real)
    ensures ClassApi.Summary(50.0, uv)[..8] == "Poor Air" && UiApi.AqiCategory(50.0) == "Good"
  {
    ClassApi.SummaryReadsBack(50.0, uv);
  }

  /** "Low UV" in the summary is exactly the UI's risk "Low": both thresholds are exclusive at 3. */
  lemma {:induction false} LowUvAgrees(aqi: real, uv: real)
    ensures ClassApi.Summary(aqi, uv)[11..] == "Low UV" <==> UiApi.UvRisk(uv) == "Low"
  {
    ClassApi.SummaryReadsBack(aqi, uv);
  }

  /**
   * The class-api's success body carries both numbers, so the dashboard
   * reading it finds both fields and the summary text.
   */
  lemma {:induction false} CombinedBodyFeedsDashboard(aqi: real, uv: real, lib: JsonLib)
    ensures UiApi.SafeDouble(ClassApi.CombinedJson(aqi, uv), "aqi") == Some(aqi)
    ensures UiApi.SafeDouble(ClassApi.CombinedJson(aqi, uv), "uv") == Some(uv)
    ensures UiApi.SummaryText(ClassApi.CombinedJson(aqi, uv), lib) == ClassApi.Summary(aqi, uv)
  {
    var j := ClassApi.CombinedJson(aqi, uv);
    assert j.fields["aqi"] == Num(aqi) && j.fields["uv"] == Num(uv);
    assert j.fields["summary"] == Str(ClassApi.Summary(aqi, uv));
  }
}
