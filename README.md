# weather-api in Dafny

A model of the three HTTP services of weather-api and of its UV load checker, with proofs about them.

- **Data-api** (`ApiServer`): serves the SQLite tables `user_DataAirQuality` and `user_DataUV` as JSON. There is a list route and a by-id route per table, plus generic routes that take the table name from the request.
- **class-api** (`ClassApiServer`): fetches both lists and combines the first air-quality row and the first UV row into `{aqi, uv, summary}`. The older copy of this route in the Data-api tree is modelled as well.
- **Ui-api** (`UiApiServer`): `/health`, a catch-all handler, and `/dashboard`, which forwards to the class-api and classifies the readings into AQI categories and UV risks, with advice and colours.
- **UvVerifier**: compares the "Rows inserted:" count in the loader's summary file with the row count of the UV table.

How the model is built:

- Each request handler is a Dafny method or function. It takes the request (method, path, query) and the results of everything the handler asks the outside world. The database is a function from the statement sent to its result. An upstream call is given as the reply it produced.
- A handler returns the response (status and body) and, where it matters, the statements it sent.
- An exception that nothing catches becomes an outcome of its own.
- JSON is a datatype with Jackson's accessors over it (`has`, `get`, `path`, `asDouble`, `asText`). The `ObjectNode` a handler fills is a class with a `Put` method.
- The Java library behaviour the handlers depend on is modelled in `javatext.dfy` and `decimal.dfy`: `String.split`, `trim`, `replace`, `startsWith`, `equalsIgnoreCase`, `Integer.parseInt`, `Integer.toString` and truncating division.

Files:

- `wrappers.dfy`: Option and Result.
- `javatext.dfy`: the `String` methods above.
- `decimal.dfy`: int text, parsing and division.
- `jackson.dfy`: the JSON tree and `ObjectNode`.
- `http.dfy`: responses, outcomes and fetch results.
- `uiapi.dfy`: the UI service.
- `classapi.dfy`: the class-api service.
- `legacyclassapi.dfy`: the older copy of `/combined`.
- `dataapi.dfy`: the storage service.
- `uvverifier.dfy`: the load checker.
- `tiers.dfy`: how the tiers' outputs relate.

Facts about the code that a reader of the route names might not expect:

- `/dashboard` calls `overallAlert`. That method is a stub that always throws, so the dashboard never sends a report.
- The generic routes pass the table name to SQL as it is, with no allow-list.
- The generic by-id route binds the table name, not the id, as the query parameter.

## Model

| member | source | states |
|---|---|---|
| JavaText.Fold | Ui-api/src/main/java/com/github/nawafalb/uiapi/UiApiServer.java:40 | equalsIgnoreCase folds each upper-case ASCII letter onto its lower-case letter, and each lower-case letter onto itself |
| JavaText.EqualsIgnoreCaseExamples | Ui-api/src/main/java/com/github/nawafalb/uiapi/UiApiServer.java:40-42 | "get" matches GET and "Options" matches OPTIONS; "POST" and "GETS" do not match GET |
| JavaText.EqualsIgnoreCase | Ui-api/src/main/java/com/github/nawafalb/uiapi/UiApiServer.java:40 | equal length and equal folded characters at every position; JavaText.EqualsIgnoreCaseExamples shows it on the method names |
| JavaText.StartsWith | Data-api/src/main/java/com/github/nawafalb/UvVerifier.java:23 | the line begins with the prefix |
| JavaText.TrimStartDropsPrefix | Data-api/src/main/java/com/github/nawafalb/UvVerifier.java:24 | trimming the start drops a prefix made only of chars at or below the space and stops before the first other char |
| JavaText.TrimEndDropsSuffix | Data-api/src/main/java/com/github/nawafalb/UvVerifier.java:24 | trimming the end drops a suffix made only of chars at or below the space and stops after the last other char |
| JavaText.TrimIsInfix | Data-api/src/main/java/com/github/nawafalb/UvVerifier.java:24 | trim() gives a contiguous slice of the input, reached by dropping only chars at or below the space, and it neither starts nor ends with one |
| JavaText.Trim | Data-api/src/main/java/com/github/nawafalb/UvVerifier.java:24 | trim() is the start trim then the end trim; its meaning is stated by JavaText.TrimIsInfix |
| JavaText.TrimAlreadyTrimmed | Data-api/src/main/java/com/github/nawafalb/UvVerifier.java:24 | text that neither starts nor ends with a char at or below the space is its own trim |
| JavaText.TrimLeadingBlanks | Data-api/src/main/java/com/github/nawafalb/UvVerifier.java:24 | trimming blanks followed by text that has no blank at either end gives back that text |
| JavaText.RemoveAll | Data-api/src/main/java/com/github/nawafalb/UvVerifier.java:24 | replace(target, "") never lengthens the text |
| JavaText.RemoveAllAbsent | Data-api/src/main/java/com/github/nawafalb/UvVerifier.java:24 | text in which the target's first char never occurs is left unchanged |
| JavaText.RemoveAllLeading | Data-api/src/main/java/com/github/nawafalb/UvVerifier.java:24 | a leading occurrence of the target is removed and the rest is processed as on its own |
| JavaText.RemoveAllSkips | Data-api/src/main/java/com/github/nawafalb/UvVerifier.java:24 | a prefix free of the target's first char is kept as it is and the removal goes on after it |
| JavaText.RemoveAllNoOccurrence | Data-api/src/main/java/com/github/nawafalb/UvVerifier.java:24 | text in which the target occurs nowhere, text shorter than the target included, is left unchanged |
| JavaText.RemoveAllRemovesWholeTargets | Data-api/src/main/java/com/github/nawafalb/UvVerifier.java:24 | the text loses a whole number of copies of the target |
| JavaText.RemoveAllSinglePass | Data-api/src/main/java/com/github/nawafalb/UvVerifier.java:24 | the removal is one left-to-right pass: "aabb" loses one "ab" and keeps the "ab" the removal joined up |
| JavaText.Segments | Data-api/src/main/java/com/github/nawafalb/ApiServer.java:86 | cutting at every "/" gives at least one piece and none of the pieces holds a slash |
| JavaText.SegmentsJoin | Data-api/src/main/java/com/github/nawafalb/ApiServer.java:86 | joining the pieces with "/" gives back the input, so cutting loses nothing |
| JavaText.SegmentsCons | Data-api/src/main/java/com/github/nawafalb/ApiServer.java:86 | a leading slash opens a new empty piece; any other leading char extends the first piece |
| JavaText.SegmentsAtSlash | Data-api/src/main/java/com/github/nawafalb/ApiServer.java:86 | the pieces of x + "/" + y are the pieces of x followed by the pieces of y |
| JavaText.DropTrailingEmpty | Data-api/src/main/java/com/github/nawafalb/ApiServer.java:86 | the result is a prefix of the input that does not end with "", and only "" pieces were dropped |
| JavaText.Split | Data-api/src/main/java/com/github/nawafalb/ApiServer.java:86 | split("/") keeps the pieces up to the last non-empty one; the result is [] when every piece is empty, and the whole text when there is no slash |
| JavaText.SplitExamples | Data-api/src/main/java/com/github/nawafalb/ApiServer.java:86 | "" splits to [""], "/" to [], "/uv/" to ["", "uv"] |
| JavaText.SplitTwoLevels | Data-api/src/main/java/com/github/nawafalb/ApiServer.java:86-93 | "/a/b" with non-empty, slash-free b splits to ["", a, b] |
| JavaText.SplitThreeLevels | Data-api/src/main/java/com/github/nawafalb/ApiServer.java:137-143 | "/a/b/c" with non-empty, slash-free c splits to ["", a, b, c] |
| Decimal.NatText | class-api/src/main/java/com/github/nawafalb/ClassApiServer.java:36-37 | the decimal text of a natural number is a non-empty string of digits with no leading zero |
| Decimal.IntText | class-api/src/main/java/com/github/nawafalb/ClassApiServer.java:36-37 | String.valueOf(int) starts with '-' exactly when the number is negative |
| Decimal.ParseInt | Data-api/src/main/java/com/github/nawafalb/UvVerifier.java:24 | parseInt succeeds exactly when the text after an optional sign is a non-empty run of ASCII digits whose signed value fits an int, and then it gives that signed value |
| Decimal.ParseIntText | Data-api/src/main/java/com/github/nawafalb/UvVerifier.java:24 | parseInt reads back every int that Integer.toString wrote |
| Decimal.IntTextInjective | class-api/src/main/java/com/github/nawafalb/ClassApiServer.java:36-37 | distinct ints have distinct texts |
| Decimal.ParseIntSigned | Data-api/src/main/java/com/github/nawafalb/UvVerifier.java:24 | "+7" parses to 7 and "-12" to -12 |
| Decimal.ParseIntRejects | Data-api/src/main/java/com/github/nawafalb/UvVerifier.java:24 | "", "-", "1 " and " 1" are NumberFormatExceptions |
| Decimal.JavaDiv | class-api/src/main/java/com/github/nawafalb/ClassApiServer.java:33 | Java's int division, truncating toward zero; Decimal.HundredsDigitTwo states what status / 100 == 2 means |
| Decimal.HundredsDigitTwo | class-api/src/main/java/com/github/nawafalb/ClassApiServer.java:33 | status / 100 == 2 with Java division holds exactly for 200..299 |
| Jackson.Get | Ui-api/src/main/java/com/github/nawafalb/uiapi/UiApiServer.java:166 | get(field) is present exactly when has(field), and then it is that field's value |
| Jackson.PathOf | class-api/src/main/java/com/github/nawafalb/ClassApiServer.java:53-54 | path(field) is the field's value when the node has it, and MissingNode otherwise |
| Jackson.Has | Ui-api/src/main/java/com/github/nawafalb/uiapi/UiApiServer.java:166 | only an object has fields, and a field holding null counts |
| Jackson.HasNonNull | Ui-api/src/main/java/com/github/nawafalb/uiapi/UiApiServer.java:83 | the field is there and does not hold null |
| Jackson.Size | class-api/src/main/java/com/github/nawafalb/ClassApiServer.java:44 | size() counts an array's elements or an object's fields, and is 0 for anything else |
| Jackson.IsNumber | Ui-api/src/main/java/com/github/nawafalb/uiapi/UiApiServer.java:166 | isNumber() holds exactly for a numeric node |
| Jackson.At | Data-api/src/main/java/com/github/nawafalb/ClassApiServer.java:54 | get(0) is present exactly on a non-empty array, and it is the first element |
| Jackson.Coerced | class-api/src/main/java/com/github/nawafalb/ClassApiServer.java:53-54 | asDouble gives a number's own value, and falls back to the default on null, a missing node, an array or an object |
| Jackson.AsDouble | class-api/src/main/java/com/github/nawafalb/ClassApiServer.java:53-54 | asDouble(default) is the coerced number, and the default where Jackson.Coerced gives none |
| Jackson.AsText | Ui-api/src/main/java/com/github/nawafalb/uiapi/UiApiServer.java:83 | asText of a text is the text itself, of a boolean "true" or "false", of null "null", of a number the supplied rendering |
| Jackson.ErrorJson | Ui-api/src/main/java/com/github/nawafalb/uiapi/UiApiServer.java:155-159 | jsonError's body is an object with just an "error" field holding the message |
| Jackson.ObjectNode.constructor | Data-api/src/main/java/com/github/nawafalb/ApiServer.java:102 | createObjectNode starts empty |
| Jackson.ObjectNode.Put | Data-api/src/main/java/com/github/nawafalb/ApiServer.java:104 | put(key, value) sets that one field and leaves every other field unchanged |
| Jackson.ObjectNode.Value | Ui-api/src/main/java/com/github/nawafalb/uiapi/UiApiServer.java:110 | the node written out is an object with exactly the node's fields |
| Http.MessageText | Ui-api/src/main/java/com/github/nawafalb/uiapi/UiApiServer.java:116 | a null exception message shows as "null" in concatenation |
| Http.IsMethod | Ui-api/src/main/java/com/github/nawafalb/uiapi/UiApiServer.java:40 | the request method matches the name ignoring case, as JavaText.EqualsIgnoreCase states |
| Http.ErrorResponse | Ui-api/src/main/java/com/github/nawafalb/uiapi/UiApiServer.java:155-159 | the response carries the status and the {"error": message} body of Jackson.ErrorJson |
| UiApi.AqiCategory | Ui-api/src/main/java/com/github/nawafalb/uiapi/UiApiServer.java:170-177 | the category is one of the six AQI categories |
| UiApi.UvRisk | Ui-api/src/main/java/com/github/nawafalb/uiapi/UiApiServer.java:188-194 | the risk is one of the five UV risks |
| UiApi.BandOver | Ui-api/src/main/java/com/github/nawafalb/uiapi/UiApiServer.java:170-177 | the number of bounds a value exceeds is between 0 and the number of bounds |
| UiApi.BandReached | Ui-api/src/main/java/com/github/nawafalb/uiapi/UiApiServer.java:188-194 | the number of bounds a value reaches or exceeds is between 0 and the number of bounds |
| UiApi.BandOverMonotone | Ui-api/src/main/java/com/github/nawafalb/uiapi/UiApiServer.java:170-177 | for a <= b, b exceeds at least as many bounds as a |
| UiApi.BandReachedMonotone | Ui-api/src/main/java/com/github/nawafalb/uiapi/UiApiServer.java:188-194 | for a <= b, b reaches at least as many bounds as a |
| UiApi.BandOverAscending | Ui-api/src/main/java/com/github/nawafalb/uiapi/UiApiServer.java:170-177 | with ascending bounds, a value above the first k bounds and at most the next one exceeds exactly k bounds |
| UiApi.BandReachedAscending | Ui-api/src/main/java/com/github/nawafalb/uiapi/UiApiServer.java:188-194 | with ascending bounds, a value at or above the first k bounds and below the next one reaches exactly k bounds |
| UiApi.AqiCategoryIsBand | Ui-api/src/main/java/com/github/nawafalb/uiapi/UiApiServer.java:170-177 | the category is the table entry for the band of the value under the inclusive bounds 50/100/150/200/300 |
| UiApi.UvRiskIsBand | Ui-api/src/main/java/com/github/nawafalb/uiapi/UiApiServer.java:188-194 | the risk is the table entry for the band of the value under the exclusive bounds 3/6/8/11 |
| UiApi.Severity | Ui-api/src/main/java/com/github/nawafalb/uiapi/UiApiServer.java:170-177 | a label's position in the severity list: it points at the label when the label is present, and it is the list's length otherwise |
| UiApi.AqiSeverityOfCategory | Ui-api/src/main/java/com/github/nawafalb/uiapi/UiApiServer.java:170-177 | the k-th AQI category has severity k |
| UiApi.UvSeverityOfRisk | Ui-api/src/main/java/com/github/nawafalb/uiapi/UiApiServer.java:188-194 | the k-th UV risk has severity k |
| UiApi.AqiCategoryMonotone | Ui-api/src/main/java/com/github/nawafalb/uiapi/UiApiServer.java:170-177 | a higher AQI never gets a less severe category |
| UiApi.UvRiskMonotone | Ui-api/src/main/java/com/github/nawafalb/uiapi/UiApiServer.java:188-194 | a higher UV index never gets a less severe risk |
| UiApi.Boundaries | Ui-api/src/main/java/com/github/nawafalb/uiapi/UiApiServer.java:171-192 | 50 is Good, 50.1 is Moderate, 300 is Very Unhealthy and 300.5 is Hazardous; 2.9 is Low, 3 is Moderate and 11 is Extreme |
| UiApi.AqiAdvicesDistinct | Ui-api/src/main/java/com/github/nawafalb/uiapi/UiApiServer.java:178-187 | the six AQI advice texts are pairwise different |
| UiApi.UvAdvicesDistinct | Ui-api/src/main/java/com/github/nawafalb/uiapi/UiApiServer.java:195-203 | the five UV advice texts are pairwise different |
| UiApi.AqiAdvice | Ui-api/src/main/java/com/github/nawafalb/uiapi/UiApiServer.java:178-187 | the advice is one of the six AQI advice texts; UiApi.AqiAdviceIsBand says which |
| UiApi.UvAdvice | Ui-api/src/main/java/com/github/nawafalb/uiapi/UiApiServer.java:195-203 | the advice is one of the five UV advice texts; UiApi.UvAdviceIsBand says which |
| UiApi.AqiAdviceIsBand | Ui-api/src/main/java/com/github/nawafalb/uiapi/UiApiServer.java:178-187 | the AQI advice is the advice table's entry for the value's band |
| UiApi.UvAdviceIsBand | Ui-api/src/main/java/com/github/nawafalb/uiapi/UiApiServer.java:195-203 | the UV advice is the advice table's entry for the value's band |
| UiApi.AqiAdviceByCategory | Ui-api/src/main/java/com/github/nawafalb/uiapi/UiApiServer.java:178-187 | two AQI values get the same advice exactly when they get the same category |
| UiApi.UvAdviceByRisk | Ui-api/src/main/java/com/github/nawafalb/uiapi/UiApiServer.java:195-203 | two UV values get the same advice exactly when they get the same risk |
| UiApi.AqiColor | Ui-api/src/main/java/com/github/nawafalb/uiapi/UiApiServer.java:204-213 | the colour is one of the six AQI colours; UiApi.AqiColorTable says which |
| UiApi.UvColor | Ui-api/src/main/java/com/github/nawafalb/uiapi/UiApiServer.java:214-222 | the colour is one of the five UV colours; UiApi.UvColorTable says which |
| UiApi.AqiColorTable | Ui-api/src/main/java/com/github/nawafalb/uiapi/UiApiServer.java:204-213 | each AQI category gets its own colour, the colours are distinct, and any other label is maroon |
| UiApi.UvColorTable | Ui-api/src/main/java/com/github/nawafalb/uiapi/UiApiServer.java:214-222 | each UV risk gets its own colour, the colours are distinct, and any other label is purple |
| UiApi.SafeDouble | Ui-api/src/main/java/com/github/nawafalb/uiapi/UiApiServer.java:165-167 | a reading is present exactly when the node has the field and it is a JSON number, and then it is that number |
| UiApi.SummaryText | Ui-api/src/main/java/com/github/nawafalb/uiapi/UiApiServer.java:83 | the summary is "N/A" when the field is absent or null, and the text itself when it is a string |
| UiApi.ForwardUrl | Ui-api/src/main/java/com/github/nawafalb/uiapi/UiApiServer.java:60-61 | the forwarded URL is the class-api base, then "/combined", then "?" and the query only when there is a query |
| UiApi.OverallAlert | Ui-api/src/main/java/com/github/nawafalb/uiapi/UiApiServer.java:120-123 | overallAlert fails, with UnsupportedOperationException, for every reading |
| UiApi.Round1 | Ui-api/src/main/java/com/github/nawafalb/uiapi/UiApiServer.java:169 | round1 lies within 0.05 of its argument, and ten times the result is a whole number |
| UiApi.RoundedCardCrossesBoundary | Ui-api/src/main/java/com/github/nawafalb/uiapi/UiApiServer.java:97-102 | a card for 50.03 would show 50.0 with category Moderate, while 50.0 is Good |
| UiApi.AirQualityCard | Ui-api/src/main/java/com/github/nawafalb/uiapi/UiApiServer.java:97-102 | the air-quality card: rounded aqi, category, advice and colour; UiApi.AirQualityCardIsBand and UiApi.RoundedCardCrossesBoundary state its fields |
| UiApi.UvCard | Ui-api/src/main/java/com/github/nawafalb/uiapi/UiApiServer.java:103-108 | the UV card: rounded index, risk, advice and colour; UiApi.UvCardIsBand states its fields |
| UiApi.AirQualityCardIsBand | Ui-api/src/main/java/com/github/nawafalb/uiapi/UiApiServer.java:97-102 | the air-quality card holds the category, advice and colour of the value's band |
| UiApi.UvCardIsBand | Ui-api/src/main/java/com/github/nawafalb/uiapi/UiApiServer.java:103-108 | the UV card holds the risk, advice and colour of the value's band |
| UiApi.Health | Ui-api/src/main/java/com/github/nawafalb/uiapi/UiApiServer.java:38-47 | 200 {"status":"ok"} exactly for GET, 204 exactly for OPTIONS, and 405 exactly for every other method |
| UiApi.CatchAll | Ui-api/src/main/java/com/github/nawafalb/uiapi/UiApiServer.java:125-132 | 204 with no body exactly for OPTIONS, and 404 {"error":"not found"} otherwise |
| UiApi.Dashboard | Ui-api/src/main/java/com/github/nawafalb/uiapi/UiApiServer.java:49-118 | each outcome of /dashboard, as listed below this table |
| ClassApi.Pairs | class-api/src/main/java/com/github/nawafalb/ClassApiServer.java:79-81 | the key/value pairs taken from the varargs: there are len/2 of them, and pair i is (kv[2i], kv[2i+1]) |
| ClassApi.PutPairs | class-api/src/main/java/com/github/nawafalb/ClassApiServer.java:81 | the fields after putting each pair in order, a later pair overwriting an earlier one; stated by ClassApi.PutPairsKeys, ClassApi.PutPairsValues and ClassApi.PutPairsLastWins |
| ClassApi.ErrFields | class-api/src/main/java/com/github/nawafalb/ClassApiServer.java:79-81 | "error" holds the message, then every full pair is put; stated by ClassApi.ErrFieldsKeys and ClassApi.ErrFieldsValues |
| ClassApi.PutPairsKeys | class-api/src/main/java/com/github/nawafalb/ClassApiServer.java:80-81 | putting pairs adds exactly their keys |
| ClassApi.PutPairsValues | class-api/src/main/java/com/github/nawafalb/ClassApiServer.java:80-81 | with distinct keys, each key ends up holding its own value |
| ClassApi.PutPairsLastWins | class-api/src/main/java/com/github/nawafalb/ClassApiServer.java:81 | a key put more than once holds the value of its last pair |
| ClassApi.ErrFieldsKeys | class-api/src/main/java/com/github/nawafalb/ClassApiServer.java:79-81 | jsonErr's keys are "error" and the even-indexed varargs |
| ClassApi.ErrFieldsValues | class-api/src/main/java/com/github/nawafalb/ClassApiServer.java:79-81 | with distinct keys other than "error", "error" holds the message and each key holds the vararg after it |
| ClassApi.ErrFieldsIgnoresOddTail | class-api/src/main/java/com/github/nawafalb/ClassApiServer.java:81 | a trailing unpaired vararg is ignored |
| ClassApi.JsonErr | class-api/src/main/java/com/github/nawafalb/ClassApiServer.java:79-83 | the loop that steps two varargs at a time builds exactly the fields described above |
| ClassApi.Is2xx | class-api/src/main/java/com/github/nawafalb/ClassApiServer.java:33 | status / 100 == 2 with Java's truncating division; Decimal.HundredsDigitTwo shows it is exactly 200..299 |
| ClassApi.Select | class-api/src/main/java/com/github/nawafalb/ClassApiServer.java:44-45 | a non-empty array gives its first element, and anything else gives the node itself |
| ClassApi.EmptyArrayIsNotMissing | class-api/src/main/java/com/github/nawafalb/ClassApiServer.java:44-50 | an empty array is not MissingNode, so it passes the "empty arrays" check and fails later as missing fields |
| ClassApi.Summary | class-api/src/main/java/com/github/nawafalb/ClassApiServer.java:61-63 | the summary text; ClassApi.SummaryReadsBack states on which side of 50 and 3 it puts the readings |
| ClassApi.SummaryReadsBack | class-api/src/main/java/com/github/nawafalb/ClassApiServer.java:61-63 | the summary starts with "Good Air" exactly when aqi < 50, and ends with "Low UV" exactly when uv < 3 |
| ClassApi.CombinedJson | class-api/src/main/java/com/github/nawafalb/ClassApiServer.java:65-69 | the success body has exactly the fields aqi, uv and summary |
| ClassApi.ExceptionFields | class-api/src/main/java/com/github/nawafalb/ClassApiServer.java:74 | the fields of jsonErr("exception in class-api", "message", text): the message shows "null" for a null message; stated by ClassApi.ErrFieldsValues |
| ClassApi.Combined | class-api/src/main/java/com/github/nawafalb/ClassApiServer.java:25-76 | each outcome of /combined, as listed below this table |
| LegacyClassApi.FirstField | Data-api/src/main/java/com/github/nawafalb/ClassApiServer.java:54-59 | get(0).get(key) is non-null exactly when the body is a non-empty array whose first element has the key, and then it is that element's value for the key |
| LegacyClassApi.Threw | Data-api/src/main/java/com/github/nawafalb/ClassApiServer.java:74 | the fetch ended in IOException or InterruptedException, the two the route catches |
| LegacyClassApi.Combined | Data-api/src/main/java/com/github/nawafalb/ClassApiServer.java:28-79 | each outcome of the older /combined, as listed below this table |
| LegacyClassApi.Respond | Data-api/src/main/java/com/github/nawafalb/ClassApiServer.java:67-77 | a snapshot is sent as 200 with its formatted text, a fetch failure as 500 with the fixed error text, and an escaped exception sends nothing |
| LegacyClassApi.FailureIsFixedText | Data-api/src/main/java/com/github/nawafalb/ClassApiServer.java:45-77 | the fixed 500 text is sent exactly when a fetch threw or a body did not parse |
| LegacyClassApi.StatusIgnored | Data-api/src/main/java/com/github/nawafalb/ClassApiServer.java:45-51 | the upstream status codes have no effect on the result |
| LegacyClassApi.ErrorStatusStillCombines | Data-api/src/main/java/com/github/nawafalb/ClassApiServer.java:45-72 | error statuses whose bodies are JSON rows still give a snapshot |
| LegacyClassApi.MissingDataEscapes | Data-api/src/main/java/com/github/nawafalb/ClassApiServer.java:54-55 | an empty array, or a non-array body, escapes as NullPointerException |
| LegacyClassApi.KeyIsCaseSensitive | Data-api/src/main/java/com/github/nawafalb/ClassApiServer.java:55 | a row keyed "air_quality" instead of "air_Quality" escapes as NullPointerException |
| DataApi.Convert | Data-api/src/main/java/com/github/nawafalb/ApiServer.java:65 | the JSON of a column value under getObject or getString: SQL NULL is null, an integer under getString is its decimal text, a REAL under getString is the driver's text |
| DataApi.Fill | Data-api/src/main/java/com/github/nawafalb/ApiServer.java:63-66 | the row map filled column by column; stated by DataApi.FillKeys, DataApi.FillLastWins and DataApi.FillDistinct |
| DataApi.FillKeys | Data-api/src/main/java/com/github/nawafalb/ApiServer.java:63-66 | a row map has one key per column label |
| DataApi.FillLastWins | Data-api/src/main/java/com/github/nawafalb/ApiServer.java:63-66 | a label used more than once keeps the value of its last column |
| DataApi.FillDistinct | Data-api/src/main/java/com/github/nawafalb/ApiServer.java:63-66 | with distinct labels, the row map has as many entries as the row has columns, each holding its column's value |
| DataApi.RowsJson | Data-api/src/main/java/com/github/nawafalb/ApiServer.java:62-70 | the list body has one object per row, in result-set order |
| DataApi.SelectAll | Data-api/src/main/java/com/github/nawafalb/ApiServer.java:57 | "SELECT * FROM " followed by the table name as it is, with no parameter |
| DataApi.SelectById | Data-api/src/main/java/com/github/nawafalb/ApiServer.java:96-98 | the by-id query text with the table name as it is, and the id as its one bound parameter |
| DataApi.SqlErrorResponse | Data-api/src/main/java/com/github/nawafalb/ApiServer.java:74 | 500 with the error text built by concatenation around the message, "null" for a null message |
| DataApi.GetAll | Data-api/src/main/java/com/github/nawafalb/ApiServer.java:47-76 | any method other than GET gives 405 and no query; GET sends one SELECT *; an SQLException gives 500; rows give 200 with the list body |
| DataApi.GetById | Data-api/src/main/java/com/github/nawafalb/ApiServer.java:84-115 | fewer than three split pieces, or an empty third piece, gives 400 and no query; otherwise the third piece is bound as the id; an SQLException gives 500; no row gives 404; a row gives 200 with the first row read by getString |
| DataApi.GenericGetAll | Data-api/src/main/java/com/github/nawafalb/ApiServer.java:121-129 | a missing query, or one not starting with "name=", gives 400; otherwise the rest of the query, as it is, is the table for the list handler |
| DataApi.GenericGetById | Data-api/src/main/java/com/github/nawafalb/ApiServer.java:135-152 | anything other than exactly four split pieces gives 400; otherwise the by-id handler runs with parts[2] as the table and binds parts[2] as the id as well |
| DataApi.TypedPathId | Data-api/src/main/java/com/github/nawafalb/ApiServer.java:85-93 | on "/resource/id" the by-id handler binds id |
| DataApi.GenericPathBindsTableAsId | Data-api/src/main/java/com/github/nawafalb/ApiServer.java:137-145 | "/table/t/17" splits to ["", "table", t, "17"], so the delegated handler binds t |
| DataApi.NoIdPiece | Data-api/src/main/java/com/github/nawafalb/ApiServer.java:88 | "/uv" and "/uv/" have no third piece (Missing ID) |
| DataApi.TableNameVerbatim | Data-api/src/main/java/com/github/nawafalb/ApiServer.java:127 | for the query "name=" + rest, the list query selects from rest exactly as given, "&..." included, with no bound parameter |
| UvVerifier.Field | Data-api/src/main/java/com/github/nawafalb/UvVerifier.java:24 | the trimmed line with every marker removed; UvVerifier.LoaderField and UvVerifier.TrailingMarkerField state it for the loader's lines |
| UvVerifier.Step | Data-api/src/main/java/com/github/nawafalb/UvVerifier.java:23-25 | one pass of the loop body: a marker line sets the count to its parsed field, or stops the scan at a malformed field |
| UvVerifier.ScanLines | Data-api/src/main/java/com/github/nawafalb/UvVerifier.java:21-26 | the scan of the lines from the initial -1; UvVerifier.ExpectedCount is proved equal to it |
| UvVerifier.Verify | Data-api/src/main/java/com/github/nawafalb/UvVerifier.java:8-56 | the count query is issued exactly when the file is present and its scan ends with a count other than -1; each verdict of the checker is as listed below this table |
| UvVerifier.ExpectedCount | Data-api/src/main/java/com/github/nawafalb/UvVerifier.java:20-26 | the loop over the lines computes exactly the scan of the lines |
| UvVerifier.BadStaysBad | Data-api/src/main/java/com/github/nawafalb/UvVerifier.java:22-26 | once a field fails to parse, later lines change nothing |
| UvVerifier.UnmarkedLinesIgnored | Data-api/src/main/java/com/github/nawafalb/UvVerifier.java:23 | lines without the marker leave the count unchanged |
| UvVerifier.NoMarkerNotFound | Data-api/src/main/java/com/github/nawafalb/UvVerifier.java:21-31 | a file without marker lines ends with "Could not find 'Rows inserted'" |
| UvVerifier.ScanPrefix | Data-api/src/main/java/com/github/nawafalb/UvVerifier.java:22-26 | each line is one step of the scan |
| UvVerifier.LastMarkerWins | Data-api/src/main/java/com/github/nawafalb/UvVerifier.java:22-26 | when every marker field is well formed, the last marker line decides the expected count |
| UvVerifier.MarkerSetsCount | Data-api/src/main/java/com/github/nawafalb/UvVerifier.java:22-26 | a well-formed marker line preceded only by well-formed marker lines sets the count to its own field's value |
| UvVerifier.UnmarkedTail | Data-api/src/main/java/com/github/nawafalb/UvVerifier.java:22-26 | lines without the marker after some point leave the scan as it stood at that point |
| UvVerifier.WellFormedCounts | Data-api/src/main/java/com/github/nawafalb/UvVerifier.java:22-26 | when no marker field is malformed, the scan ends with a count |
| UvVerifier.FirstBadFieldReported | Data-api/src/main/java/com/github/nawafalb/UvVerifier.java:22-26 | the first malformed marker field is the one reported |
| UvVerifier.ScanOne | Data-api/src/main/java/com/github/nawafalb/UvVerifier.java:22-26 | a one-line file is one step from the initial -1 |
| UvVerifier.MinusOneLooksAbsent | Data-api/src/main/java/com/github/nawafalb/UvVerifier.java:21-31 | a one-line file whose marker field reads -1 scans exactly as a file without marker lines, so it ends with "Could not find 'Rows inserted'" |
| UvVerifier.TrailingMarkerLine | Data-api/src/main/java/com/github/nawafalb/UvVerifier.java:24 | removing the marker from "Rows inserted: n" followed by a second marker removes both, leaving " " and the text of n |
| UvVerifier.TrailingMarkerField | Data-api/src/main/java/com/github/nawafalb/UvVerifier.java:24 | the field of that line is the text of n |
| UvVerifier.MarkerRemovedAnywhere | Data-api/src/main/java/com/github/nawafalb/UvVerifier.java:24 | the marker is removed wherever it occurs in the line, not only at its start: that line still reads as the count n |
| UvVerifier.IntTextEnds | src/main/java/com/github/nawafalb/uvLoader.java:74 | a decimal int text has no blank at either end and no 'R' |
| UvVerifier.LoaderField | src/main/java/com/github/nawafalb/uvLoader.java:74 | the field of the loader's "Rows inserted: n" line is the text of n |
| UvVerifier.LoaderLineReadsBack | src/main/java/com/github/nawafalb/uvLoader.java:74 | the loader's summary line reads back as the count it wrote |
| LegacyClassApi.LegacySummary | Data-api/src/main/java/com/github/nawafalb/ClassApiServer.java:62-64 | the older copy's summary text; Tiers.SummariesAgree shows it is the newer copy's |
| Tiers.SummariesAgree | Data-api/src/main/java/com/github/nawafalb/ClassApiServer.java:62-64 | both copies of /combined compute the summary the same way |
| Tiers.GoodAirVersusGoodCategory | class-api/src/main/java/com/github/nawafalb/ClassApiServer.java:61 | "Good Air" implies the UI category Good; within Good, the summary says "Good Air" exactly when aqi != 50 |
| Tiers.FiftyIsPoorAirButGood | class-api/src/main/java/com/github/nawafalb/ClassApiServer.java:61 | at aqi 50 the summary says "Poor Air" while the UI category is Good |
| Tiers.LowUvAgrees | class-api/src/main/java/com/github/nawafalb/ClassApiServer.java:62 | the summary says "Low UV" exactly when the UI risk is Low |
| Tiers.CombinedBodyFeedsDashboard | class-api/src/main/java/com/github/nawafalb/ClassApiServer.java:65-68 | the class-api's success body gives the dashboard both readings and the summary text |

Outcome lists for the members whose "states" cell points here.

**UiApi.Dashboard:**
- OPTIONS gives 204 without forwarding.
- Any method other than GET or OPTIONS gives 405.
- For GET, the call is forwarded to the forward URL exactly when URI.create accepts that URL. Otherwise IllegalArgumentException escapes.
- An IOException gives 500 "failed contacting class-api: " followed by its message.
- An interrupt gives 500.
- A status of 400 or more gives 502 "class-api returned status" followed by the status.
- A body that is not JSON gives 502.
- A missing or non-numeric aqi or uv gives 502 "class-api JSON missing expected fields (aqi/uv)".
- Everything else ends with overallAlert's exception. So no call is answered with 200, and every response sent is 204, 405, 500 or 502.

**ClassApi.Combined:**
- A failed fetch gives 500 "exception in class-api" with the message. When both fail, the air-quality fetch's message is used.
- A non-2xx status on either side gives 502 "data-api bad status", with both status codes.
- An unparsable body gives 500.
- A selected node that is MissingNode gives 502 "data-api returned empty arrays".
- A missing "air_quality" or "uv_index" gives 502 "missing fields", with both nodes' text.
- Otherwise the response is 200 with both numbers and the summary.

**LegacyClassApi.Combined:**
- A failed fetch or an unparsable body gives 500 with the fixed error text.
- A null first element or a missing key escapes as NullPointerException. This is an if-and-only-if.
- Otherwise the result is a snapshot of asDouble of both values, with 0 as the default, and the summary.

**UvVerifier.Verify:**
- A missing file gives "Summary file not found".
- A read failure gives a stack trace.
- A malformed field gives NumberFormatException.
- A count of -1 gives "Could not find 'Rows inserted'".
- A failed count query gives a stack trace.
- Otherwise the verdict is PASSED exactly when the expected count equals the table's count, where no count row means 0.

## Left out

- Transport: opening sockets, routing requests to handlers by path prefix, writing bytes, Content-Type headers and Spark's own handling of an escaped exception. Each handler is modelled from the request it sees, and the route table is only summarised in the description above.
- CORS headers (`withCors`, Ui-api/src/main/java/com/github/nawafalb/uiapi/UiApiServer.java:135-140): these are headers only and do not change any status or body.
- Server start-up and configuration: ports, the `DATA_API_URL` environment variable and the database URL constants.
- Floating point: readings are reals. NaN stands for the missing value that `safeDouble` and `asDouble(NaN)` fall back to, and it is modelled as `None`. Rounding in `round1` is exact. The `%.2f` formatting of the older `/combined` is a parameter of `LegacyClassApi.Respond`: its snapshot holds the numbers.
- Foreign text conversions are parameters, not definitions: Jackson's text-to-double coercion, `asText` of a number, `JsonNode.toString`, the SQLite driver's `getString` of a REAL, and whether `URI.create` accepts a URL.
- Serialization of responses (`writeValueAsString`): bodies are JSON values. The `jsonError` and `jsonErr` fallback for a serialization failure is unreachable for these string-only objects and is not modelled.
- Jackson.Coerced: text values are coerced by the supplied parser, not by Jackson's own number grammar.
- Decimal.ParseInt: only ASCII digits are accepted. `Integer.parseInt` also accepts other Unicode decimal digits.
- JavaText.RemoveAll: its own contract is only the length bound. What replace(target, "") does is stated by lemmas for the cases the UV load checker (UvVerifier) meets: no occurrence leaves the text unchanged, a leading occurrence is removed, a prefix the target cannot start in is kept, whole copies are removed, and the pass is single (text joined up by a removal is not searched again). There is no closed-form statement of the result for arbitrary text.
- JavaText.Fold: folds ASCII letters and the four non-ASCII characters that fold onto ASCII letters (dotless i, dotted I, long s, Kelvin sign). It does not fold the rest of Unicode.
- UiApi.Dashboard: the clock is a parameter. The 5 s connect timeout and 10 s request timeout are not modelled; a timeout arrives as an IOException reply.
- UiApi.AirQualityCard and UiApi.UvCard: the cards are built only after `overallAlert` returns, which it never does, so no response carries them. `AirQualityCardIsBand`, `UvCardIsBand` and `RoundedCardCrossesBoundary` state what they would hold.
- DataApi.GetAll: an SQLException raised part-way through reading the rows is modelled the same as one raised by the query. The rows follow the result set's order. Each row is a `java.util.HashMap`, which Jackson writes out in hash order; the model's row is a map with no order, so the key order of a serialized row is not modelled.
- DataApi.GenericGetById: the `idParam` attribute that the anonymous subclass sets is never read, so it is not modelled.
- An IOException from sending a response is not modelled.
- The loaders (`aqiLoader`, `uvLoader`, `App`) and `DatabaseHelper` are not part of this model. The only thing taken from a loader is the format of the summary line it writes.
- UvVerifier: splitting a file into lines (`Files.readAllLines`) is done before the model starts: the file is given as its lines. Console output is modelled as the verdict, not as text.
- The unresolved merge markers in the class-api's import block (class-api/src/main/java/com/github/nawafalb/ClassApiServer.java:6-11) keep that file from compiling. The model treats the imports as resolved and models the route's code.
