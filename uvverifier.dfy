/**
 * The UV load checker (UvVerifier): it reads the loader's summary file,
 * takes the count from the last "Rows inserted:" line, counts the rows of
 * the UV table, and reports whether the two agree. The file system and the
 * database are inputs; the verdict is what the checker prints.
 */
module UvVerifier {
  import opened Wrappers
  import opened JavaText
  import opened Decimal

  const Marker := "Rows inserted:"

  /** The summary file as `Files.exists` and `Files.readAllLines` see it. */
  datatype SummaryFile = Absent | Unreadable(message: Option<string>) | Present(lines: seq<string>)

  /** `SELECT COUNT(*) AS n FROM user_DataUV`: its one row, no row, or an SQLException. */
  datatype CountQuery = CountRow(n: int) | NoRow | CountFailed(message: Option<string>)

  /** What the checker ends with: a message on stderr, a stack trace, or the comparison. */
  datatype Verdict =
    | SummaryNotFound
    | RowsInsertedNotFound
    | ReadFailed(message: Option<string>)
    | NumberFormat(field: string)
    | QueryFailed(message: Option<string>)
    | Compared(expected: int, actual: int, passed: bool)

  /** The text parsed from a marker line: the line with every marker removed, then trimmed. */
  function Field(line: string): string {
    Trim(RemoveAll(line, Marker))
  }

  /** The state of the scan: the count so far (-1 before any marker line), or the field that did not parse. */
  datatype Scan = Counted(count: int) | Bad(field: string)

  /** The scan of the lines in order: each marker line overwrites the count; the first bad one stops it. */
  function ScanLines(lines: seq<string>): Scan {
    if lines == [] then Counted(-1)
    else Step(ScanLines(lines[..|lines| - 1]), lines[|lines| - 1])
  }

  /** One line of the scan. */
  function Step(before: Scan, line: string): Scan {
    if before.Bad? || !StartsWith(line, Marker) then before
    else
      var parsed := ParseInt(Field(line));
      if parsed.None? then Bad(Field(line)) else Counted(parsed.value)
  }

  /** `UvVerifier.main`, from the summary file and the count query's result. */
  method Verify(file: SummaryFile, query: CountQuery) returns (v: Verdict, queried: bool)
    ensures queried <==> file.Present? && ScanLines(file.lines).Counted? && ScanLines(file.lines).count != -1
    ensures file.Absent? ==> v == SummaryNotFound
    ensures file.Unreadable? ==> v == ReadFailed(file.message)
    ensures file.Present? && ScanLines(file.lines).Bad? ==> v == NumberFormat(ScanLines(file.lines).field)
    ensures file.Present? && ScanLines(file.lines) == Counted(-1) ==> v == RowsInsertedNotFound
    ensures file.Present? && ScanLines(file.lines).Counted? && ScanLines(file.lines).count != -1 ==>
              var expected := ScanLines(file.lines).count;
              match query
              case CountFailed(message) => v == QueryFailed(message)
              case NoRow => v == Compared(expected, 0, expected == 0)
              case CountRow(n) => v == Compared(expected, n, expected == n)
    ensures v.Compared? ==> (v.passed <==> v.expected == v.actual)
  {
    queried := false;
    if file.Absent? {
      return SummaryNotFound, queried;
    }
    if file.Unreadable? {
      return ReadFailed(file.message), queried;
    }
    var scan := ExpectedCount(file.lines);
    if scan.Bad? {
      return NumberFormat(scan.field), queried;
    }
    if scan.count == -1 {
      return RowsInsertedNotFound, queried;
    }
    var expectedCount := scan.count;
    var actualCount := 0;
    queried := true;
    match query {
      case CountFailed(message) =>
        return QueryFailed(message), queried;
      case NoRow =>
      case CountRow(n) =>
        actualCount := n;
    }
    v := Compared(expectedCount, actualCount, expectedCount == actualCount);
  }

  /**
   * The loop over the summary's lines: each marker line's field is parsed
   * into the expected count, and the first field that does not parse ends
   * the loop with NumberFormatException.
   */
  method ExpectedCount(lines: seq<string>) returns (scan: Scan)
    ensures scan == ScanLines(lines)
  {
    var expectedCount := -1;
    for i := 0 to |lines|
      invariant ScanLines(lines[..i]) == Counted(expectedCount)
    {
      ScanPrefix(lines, i);
      var line := lines[i];
      if StartsWith(line, Marker) {
        var parsed := ParseInt(Field(line));
        if parsed.None? {
          BadStaysBad(lines, i + 1, Field(line));
          return Bad(Field(line));
        }
        expectedCount := parsed.value;
      }
    }
    assert lines[..|lines|] == lines;
    scan := Counted(expectedCount);
  }

  /** Once a field fails to parse, later lines change nothing. */
  lemma {:induction false} BadStaysBad(lines: seq<string>, i: nat, field: string)
    requires i <= |lines| && ScanLines(lines[..i]) == Bad(field)
    ensures ScanLines(lines) == Bad(field)
    decreases |lines| - i
  {
    if i == |lines| {
      assert lines[..i] == lines;
    } else {
      assert lines[..i + 1][..i] == lines[..i];
      BadStaysBad(lines, i + 1, field);
    }
  }

  /** Lines that are not marker lines leave the scan as it was. */
  lemma {:induction false} UnmarkedLinesIgnored(lines: seq<string>, rest: seq<string>)
    requires forall k :: 0 <= k < |rest| ==> !StartsWith(rest[k], Marker)
    ensures ScanLines(lines + rest) == ScanLines(lines)
    decreases |rest|
  {
    if rest == [] {
      assert lines + rest == lines;
    } else {
      var init := rest[..|rest| - 1];
      assert (lines + rest)[..|lines + rest| - 1] == lines + init;
      UnmarkedLinesIgnored(lines, init);
    }
  }

  /** A summary without any marker line reads as "not found". */
  lemma {:induction false} NoMarkerNotFound(lines: seq<string>)
    requires forall k :: 0 <= k < |lines| ==> !StartsWith(lines[k], Marker)
    ensures ScanLines(lines) == Counted(-1)
  {
    UnmarkedLinesIgnored([], lines);
    assert [] + lines == lines;
  }

  /** The scan of a prefix one line longer is one more step. */
  lemma {:induction false} ScanPrefix(lines: seq<string>, k: nat)
    requires k < |lines|
    ensures ScanLines(lines[..k + 1]) == Step(ScanLines(lines[..k]), lines[k])
  {
    assert lines[..k + 1][..k] == lines[..k];
  }

  /** With every marker field well-formed, the last marker line decides the count. */
  lemma {:induction false} LastMarkerWins(lines: seq<string>, k: nat, v: int)
    requires k < |lines| && StartsWith(lines[k], Marker) && ParseInt(Field(lines[k])) == Some(v)
    requires forall j :: 0 <= j < k && StartsWith(lines[j], Marker) ==> ParseInt(Field(lines[j])).Some?
    requires forall j :: k < j < |lines| ==> !StartsWith(lines[j], Marker)
    ensures ScanLines(lines) == Counted(v)
  {
    MarkerSetsCount(lines, k, v);
    UnmarkedTail(lines, k + 1, Counted(v));
  }

  /** Up to a well-formed marker line, after well-formed ones, the count is that line's. */
  lemma {:induction false} MarkerSetsCount(lines: seq<string>, k: nat, v: int)
    requires k < |lines| && StartsWith(lines[k], Marker) && ParseInt(Field(lines[k])) == Some(v)
    requires forall j :: 0 <= j < k && StartsWith(lines[j], Marker) ==> ParseInt(Field(lines[j])).Some?
    ensures ScanLines(lines[..k + 1]) == Counted(v)
  {
    WellFormedCounts(lines, k);
    ScanPrefix(lines, k);
  }

  /** Unmarked lines after position i leave the scan of the first i lines as it was. */
  lemma {:induction false} UnmarkedTail(lines: seq<string>, i: nat, scan: Scan)
    requires i <= |lines| && ScanLines(lines[..i]) == scan
    requires forall j :: i <= j < |lines| ==> !StartsWith(lines[j], Marker)
    ensures ScanLines(lines) == scan
  {
    UnmarkedLinesIgnored(lines[..i], lines[i..]);
    assert lines[..i] + lines[i..] == lines;
  }

  /** Without a bad field the scan always ends with a count. */
  lemma {:induction false} WellFormedCounts(lines: seq<string>, k: nat)
    requires k <= |lines|
    requires forall j :: 0 <= j < k && StartsWith(lines[j], Marker) ==> ParseInt(Field(lines[j])).Some?
    ensures ScanLines(lines[..k]).Counted?
  {
    if k == 0 {
      assert lines[..0] == [];
    } else {
      WellFormedCounts(lines, k - 1);
      ScanPrefix(lines, k - 1);
    }
  }

  /** The first bad marker field, after well-formed ones, is the one reported. */
  lemma {:induction false} FirstBadFieldReported(lines: seq<string>, k: nat)
    requires k < |lines| && StartsWith(lines[k], Marker) && ParseInt(Field(lines[k])).None?
    requires forall j :: 0 <= j < k && StartsWith(lines[j], Marker) ==> ParseInt(Field(lines[j])).Some?
    ensures ScanLines(lines) == Bad(Field(lines[k]))
  {
    WellFormedCounts(lines, k);
    ScanPrefix(lines, k);
    BadStaysBad(lines, k + 1, Field(lines[k]));
  }

  /** A one-line summary is one step from the empty scan. */
  lemma {:induction false} ScanOne(line: string)
    ensures ScanLines([line]) == Step(Counted(-1), line)
  {
    assert [line][..0] == [];
  }

  /** A marker line whose field is -1 leaves the scan where a file without markers leaves it. */
  lemma {:induction false} MinusOneLooksAbsent(line: string)
    requires StartsWith(line, Marker) && ParseInt(Field(line)) == Some(-1)
    ensures ScanLines([line]) == ScanLines([])
  {
    ScanOne(line);
  }

  /** Marker-free text followed by the marker loses just the marker. */
  lemma {:induction false} TrailingMarkerRemoved(rest: string)
    requires forall k :: 0 <= k < |rest| ==> rest[k] != 'R'
    ensures RemoveAll(rest + Marker, Marker) == rest
  {
    RemoveAllSkips(rest, Marker, Marker);
    RemoveAllLeading(Marker, []);
    assert Marker + [] == Marker;
    assert rest + [] == rest;
  }

  /** Removing the markers from the loader's line with a second marker after the count leaves " " and the count. */
  lemma {:induction false} TrailingMarkerLine(n: int)
    ensures RemoveAll("Rows inserted: " + IntText(n) + Marker, Marker) == " " + IntText(n)
  {
    var rest := " " + IntText(n);
    assert "Rows inserted: " + IntText(n) + Marker == Marker + (rest + Marker);
    RemoveAllLeading(Marker, rest + Marker);
    IntTextEnds(n);
    TrailingMarkerRemoved(rest);
  }

  /** The field of that line is still the count's text. */
  lemma {:induction false} TrailingMarkerField(n: int)
    ensures Field("Rows inserted: " + IntText(n) + Marker) == IntText(n)
  {
    TrailingMarkerLine(n);
    IntTextEnds(n);
    TrimLeadingBlanks(" ", IntText(n));
  }

  /**
   * The marker is removed wherever it occurs, not only at the start: the
   * loader's line with a second marker after the count still reads as the count.
   */
  lemma {:induction false} MarkerRemovedAnywhere(n: int)
    requires IsInt32(n)
    ensures ScanLines(["Rows inserted: " + IntText(n) + Marker]) == Counted(n)
  {
    var line := "Rows inserted: " + IntText(n) + Marker;
    TrailingMarkerField(n);
    ParseIntText(n);
    assert StartsWith(line, Marker) by {
      assert line[..|Marker|] == Marker;
    }
    ScanOne(line);
  }

  lemma {:induction false} IntTextEnds(n: int)
    ensures !IsTrimmed(IntText(n)[0]) && !IsTrimmed(IntText(n)[|IntText(n)| - 1])
    ensures forall k :: 0 <= k < |IntText(n)| ==> IntText(n)[k] != 'R'
  {
    if n < 0 {
      assert IntText(n)[1..] == NatText(-n);
    }
  }

  /** The field of the loader's line is the decimal count it wrote. */
  lemma {:induction false} LoaderField(n: int)
    ensures Field("Rows inserted: " + IntText(n)) == IntText(n)
  {
    var line := "Rows inserted: " + IntText(n);
    var rest := " " + IntText(n);
    assert line == Marker + rest;
    RemoveAllLeading(Marker, rest);
    IntTextEnds(n);
    RemoveAllAbsent(rest, Marker);
    TrimLeadingBlanks(" ", IntText(n));
  }

  /** The loader's line, "Rows inserted: " and the decimal count, reads back as that count. */
  lemma {:induction false} LoaderLineReadsBack(n: int)
    requires IsInt32(n)
    ensures ScanLines(["Rows inserted: " + IntText(n)]) == Counted(n)
  {
    var line := "Rows inserted: " + IntText(n);
    LoaderField(n);
    ParseIntText(n);
    assert StartsWith(line, Marker) by {
      assert line[..|Marker|] == Marker;
    }
    ScanOne(line);
  }
}
