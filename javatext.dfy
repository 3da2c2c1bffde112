/**
 * The few java.lang.String operations the handlers rely on, with Java's
 * own edge cases: startsWith, equalsIgnoreCase, trim, replace(target, "")
 * and split("/") (which keeps a leading empty segment and drops trailing
 * empty ones).
 */
module JavaText {

  /** `s.startsWith(prefix)`. */
  predicate StartsWith(s: string, prefix: string) {
    |prefix| <= |s| && s[..|prefix|] == prefix
  }

  /**
   * Case folding of one character as `String.equalsIgnoreCase` sees it,
   * for every character that folds onto an ASCII letter: the ASCII letters
   * themselves, dotless i, dotted capital I, long s and the Kelvin sign.
   * Comparing against an ASCII literal such as "GET" is therefore exact.
   */
  function Fold(c: char): (f: char)
    ensures 'A' <= c <= 'Z' ==> f as int == c as int + 32
    ensures ('a' <= c <= 'z') ==> f == c
  {
    if 'A' <= c <= 'Z' then (c as int + 32) as char
    else if c == '\U{0131}' || c == '\U{0130}' then 'i'
    else if c == '\U{017F}' then 's'
    else if c == '\U{212A}' then 'k'
    else c
  }

  /** `a.equalsIgnoreCase(b)`. */
  predicate EqualsIgnoreCase(a: string, b: string) {
    |a| == |b| && forall k :: 0 <= k < |a| ==> Fold(a[k]) == Fold(b[k])
  }

  lemma EqualsIgnoreCaseExamples()
    ensures EqualsIgnoreCase("get", "GET") && EqualsIgnoreCase("Options", "OPTIONS")
    ensures !EqualsIgnoreCase("POST", "GET") && !EqualsIgnoreCase("GETS", "GET")
  {
    assert Fold('P') != Fold('G');
  }

  /** Java's trim() drops every character whose code is at most U+0020. */
  predicate IsTrimmed(c: char) { c <= ' ' }

  /** The text after its leading trimmable characters. */
  function TrimStart(s: string): string {
    if |s| > 0 && IsTrimmed(s[0]) then TrimStart(s[1..]) else s
  }

  /** The text before its trailing trimmable characters. */
  function TrimEnd(s: string): string {
    if |s| > 0 && IsTrimmed(s[|s| - 1]) then TrimEnd(s[..|s| - 1]) else s
  }

  /** TrimStart drops a prefix of trimmable characters and stops at the first other one. */
  lemma {:induction false} TrimStartDropsPrefix(s: string)
    ensures var r := TrimStart(s);
            && |r| <= |s| && r == s[|s| - |r|..]
            && (forall k :: 0 <= k < |s| - |r| ==> IsTrimmed(s[k]))
            && (r == [] || !IsTrimmed(r[0]))
  {
    if |s| > 0 && IsTrimmed(s[0]) {
      TrimStartDropsPrefix(s[1..]);
    }
  }

  /** TrimEnd drops a suffix of trimmable characters and stops at the last other one. */
  lemma {:induction false} TrimEndDropsSuffix(s: string)
    ensures var r := TrimEnd(s);
            && |r| <= |s| && r == s[..|r|]
            && (forall k :: |r| <= k < |s| ==> IsTrimmed(s[k]))
            && (r == [] || !IsTrimmed(r[|r| - 1]))
  {
    if |s| > 0 && IsTrimmed(s[|s| - 1]) {
      TrimEndDropsSuffix(s[..|s| - 1]);
    }
  }

  /** r stands at position i of s and everything around it is trimmed away. */
  predicate TrimmedAt(s: string, i: int, r: string) {
    && 0 <= i && i + |r| <= |s| && r == s[i..i + |r|]
    && (forall k :: 0 <= k < i ==> IsTrimmed(s[k]))
    && (forall k :: i + |r| <= k < |s| ==> IsTrimmed(s[k]))
  }

  /** `s.trim()`. */
  function Trim(s: string): string {
    TrimEnd(TrimStart(s))
  }

  /**
   * trim() gives the infix left after dropping trimmable characters at
   * both ends, and it neither starts nor ends with one.
   */
  lemma {:induction false} TrimIsInfix(s: string)
    ensures exists i :: TrimmedAt(s, i, Trim(s))
    ensures var r := Trim(s); r == [] || (!IsTrimmed(r[0]) && !IsTrimmed(r[|r| - 1]))
  {
    var t := TrimStart(s);
    var r := TrimEnd(t);
    TrimStartDropsPrefix(s);
    TrimEndDropsSuffix(t);
    PrefixOfSuffix(s, |s| - |t|, t, r);
    assert Trim(s) == r;
    assert TrimmedAt(s, |s| - |t|, Trim(s));
    assert r != [] ==> r[0] == t[0];
  }

  /** A prefix r of the suffix t of s, with trimmable chars around it, stands trimmed at t's start. */
  lemma {:induction false} PrefixOfSuffix(s: string, i: int, t: string, r: string)
    requires 0 <= i <= |s| && t == s[i..] && |r| <= |t| && r == t[..|r|]
    requires forall k :: 0 <= k < i ==> IsTrimmed(s[k])
    requires forall k :: |r| <= k < |t| ==> IsTrimmed(t[k])
    ensures TrimmedAt(s, i, r)
  {
    assert r == s[i..i + |r|];
    forall k | i + |r| <= k < |s| ensures IsTrimmed(s[k]) {
      assert s[k] == t[k - i];
    }
  }

  lemma {:induction false} TrimAlreadyTrimmed(s: string)
    requires s != [] && !IsTrimmed(s[0]) && !IsTrimmed(s[|s| - 1])
    ensures Trim(s) == s
  {
    assert TrimStart(s) == s;
  }

  lemma {:induction false} TrimLeadingBlanks(blanks: string, s: string)
    requires forall k :: 0 <= k < |blanks| ==> IsTrimmed(blanks[k])
    requires s != [] && !IsTrimmed(s[0]) && !IsTrimmed(s[|s| - 1])
    ensures Trim(blanks + s) == s
    decreases |blanks|
  {
    if blanks == [] {
      assert blanks + s == s;
      TrimAlreadyTrimmed(s);
    } else {
      assert (blanks + s)[1..] == blanks[1..] + s;
      TrimLeadingBlanks(blanks[1..], s);
    }
  }

  /**
   * `s.replace(target, "")`: every occurrence of target, found left to
   * right without overlap, is removed.
   */
  function RemoveAll(s: string, target: string): (r: string)
    requires |target| > 0
    ensures |r| <= |s|
    decreases |s|
  {
    if |s| < |target| then s
    else if s[..|target|] == target then RemoveAll(s[|target|..], target)
    else [s[0]] + RemoveAll(s[1..], target)
  }

  /** Text in which the target's first character never occurs is left unchanged. */
  lemma {:induction false} RemoveAllAbsent(s: string, target: string)
    requires |target| > 0
    requires forall k :: 0 <= k < |s| ==> s[k] != target[0]
    ensures RemoveAll(s, target) == s
    decreases |s|
  {
    if |s| >= |target| {
      assert s[..|target|][0] != target[0];
      RemoveAllAbsent(s[1..], target);
      assert s == [s[0]] + s[1..];
    }
  }

  lemma {:induction false} RemoveAllLeading(target: string, rest: string)
    requires |target| > 0
    ensures RemoveAll(target + rest, target) == RemoveAll(rest, target)
  {
    assert (target + rest)[..|target|] == target;
    assert (target + rest)[|target|..] == rest;
  }

  /** Text in which the target cannot start passes through unchanged, and removal goes on after it. */
  lemma {:induction false} RemoveAllSkips(x: string, rest: string, target: string)
    requires |target| > 0
    requires forall k :: 0 <= k < |x| ==> x[k] != target[0]
    ensures RemoveAll(x + rest, target) == x + RemoveAll(rest, target)
    decreases |x|
  {
    if x == [] {
      assert x + rest == rest;
    } else if |x + rest| < |target| {
      assert RemoveAll(rest, target) == rest;
    } else {
      assert (x + rest)[..|target|][0] == x[0];
      assert (x + rest)[1..] == x[1..] + rest;
      RemoveAllSkips(x[1..], rest, target);
      assert x == [x[0]] + x[1..];
    }
  }

  /** The target occurs in s starting at position i. */
  predicate OccursAt(s: string, target: string, i: int) {
    0 <= i && i + |target| <= |s| && s[i..i + |target|] == target
  }

  /** Text in which the target occurs nowhere, short text included, is left unchanged. */
  lemma {:induction false} RemoveAllNoOccurrence(s: string, target: string)
    requires |target| > 0
    requires forall i :: !OccursAt(s, target, i)
    ensures RemoveAll(s, target) == s
    decreases |s|
  {
    if |s| >= |target| {
      assert !OccursAt(s, target, 0);
      var t := s[1..];
      forall i ensures !OccursAt(t, target, i) {
        if OccursAt(t, target, i) {
          assert t[i..i + |target|] == s[i + 1..i + 1 + |target|];
          assert OccursAt(s, target, i + 1);
        }
      }
      RemoveAllNoOccurrence(t, target);
      assert s == [s[0]] + t;
    }
  }

  /** What is removed is a whole number of copies of the target. */
  lemma {:induction false} RemoveAllRemovesWholeTargets(s: string, target: string)
    requires |target| > 0
    ensures exists m: nat :: |s| == |RemoveAll(s, target)| + m * |target|
    decreases |s|
  {
    if |s| < |target| {
      assert |s| == |RemoveAll(s, target)| + 0 * |target|;
    } else if s[..|target|] == target {
      var t := s[|target|..];
      RemoveAllRemovesWholeTargets(t, target);
      var m: nat :| |t| == |RemoveAll(t, target)| + m * |target|;
      assert (m + 1) * |target| == m * |target| + |target|;
      assert |s| == |RemoveAll(s, target)| + (m + 1) * |target|;
    } else {
      var t := s[1..];
      RemoveAllRemovesWholeTargets(t, target);
      var m: nat :| |t| == |RemoveAll(t, target)| + m * |target|;
      assert |s| == |RemoveAll(s, target)| + m * |target|;
    }
  }

  /**
   * The removal is a single left-to-right pass: text joined up by a removal
   * is not searched again, so "aabb" loses one "ab" and keeps the other.
   */
  lemma RemoveAllSinglePass()
    ensures RemoveAll("aabb", "ab") == "ab"
  {
    assert "aabb"[..2][1] != "ab"[1];
    assert "aabb"[1..] == "abb" && "abb"[..2] == "ab" && "abb"[2..] == "b";
  }

  /** Concatenation with "/" between consecutive parts: the inverse of Segments. */
  function Join(parts: seq<string>): string
    requires |parts| >= 1
  {
    if |parts| == 1 then parts[0] else parts[0] + "/" + Join(parts[1..])
  }

  /** A character glued to the front of the first piece. */
  function Extend(c: char, t: seq<string>): (r: seq<string>)
    requires |t| >= 1
    ensures |r| == |t| && r[0] == [c] + t[0] && r[1..] == t[1..]
  {
    [[c] + t[0]] + t[1..]
  }

  /**
   * Every piece between slashes, including empty ones: the splitting step
   * of `String.split("/")` before trailing empty strings are discarded.
   */
  function Segments(s: string): (r: seq<string>)
    ensures |r| >= 1
    ensures forall k :: 0 <= k < |r| ==> '/' !in r[k]
  {
    if s == [] then [""]
    else if s[0] == '/' then [""] + Segments(s[1..])
    else
      var r := Extend(s[0], Segments(s[1..]));
      assert forall k :: 1 <= k < |r| ==> r[k] == Segments(s[1..])[k];
      r
  }

  /** Joining the pieces with "/" gives back the text: nothing is lost in cutting. */
  lemma {:induction false} SegmentsJoin(s: string)
    ensures Join(Segments(s)) == s
  {
    if s != [] {
      var t := Segments(s[1..]);
      SegmentsJoin(s[1..]);
      if s[0] == '/' {
        assert ([""] + t)[1..] == t;
        assert s == "/" + s[1..];
      } else {
        var r := Extend(s[0], t);
        if |t| > 1 {
          assert r[1..] == t[1..];
        }
        assert s == [s[0]] + s[1..];
      }
    }
  }

  lemma {:induction false} SegmentsOfSlashFree(s: string)
    requires '/' !in s
    ensures Segments(s) == [s]
  {
    if s != [] {
      SegmentsOfSlashFree(s[1..]);
      assert Extend(s[0], [s[1..]]) == [[s[0]] + s[1..]];
      assert [s[0]] + s[1..] == s;
    }
  }

  /** One character in front: a slash opens a new piece, anything else extends the first one. */
  lemma {:induction false} SegmentsCons(c: char, rest: string)
    ensures c == '/' ==> Segments([c] + rest) == [""] + Segments(rest)
    ensures c != '/' ==> Segments([c] + rest) == Extend(c, Segments(rest))
  {
    assert ([c] + rest)[1..] == rest;
  }

  lemma {:induction false} ExtendAppend(c: char, u: seq<string>, v: seq<string>)
    requires |u| >= 1
    ensures Extend(c, u + v) == Extend(c, u) + v
  {
    assert (u + v)[1..] == u[1..] + v;
  }

  /** Cutting at a slash splits the work: the pieces of x + "/" + y are those of x, then those of y. */
  lemma {:induction false} SegmentsAtSlash(x: string, y: string)
    ensures Segments(x + "/" + y) == Segments(x) + Segments(y)
    decreases |x|
  {
    if x == [] {
      assert x + "/" + y == ['/'] + y;
      SegmentsCons('/', y);
    } else {
      var c, rest := x[0], x[1..];
      assert x + "/" + y == [c] + (rest + "/" + y);
      assert x == [c] + rest;
      SegmentsAtSlash(rest, y);
      SegmentsCons(c, rest + "/" + y);
      SegmentsCons(c, rest);
      if c != '/' {
        ExtendAppend(c, Segments(rest), Segments(y));
      } else {
        assert [""] + (Segments(rest) + Segments(y)) == ([""] + Segments(rest)) + Segments(y);
      }
    }
  }

  /** Drop every empty string at the end. */
  function DropTrailingEmpty(parts: seq<string>): (r: seq<string>)
    ensures |r| <= |parts| && r == parts[..|r|]
    ensures forall k :: |r| <= k < |parts| ==> parts[k] == ""
    ensures r == [] || r[|r| - 1] != ""
  {
    if parts != [] && parts[|parts| - 1] == "" then DropTrailingEmpty(parts[..|parts| - 1]) else parts
  }

  /**
   * `s.split("/")`. With no slash at all the result is the string itself
   * (so "" gives [""]); otherwise it is the segments with the trailing
   * empty ones dropped, a leading empty segment being kept.
   */
  function Split(s: string): (parts: seq<string>)
    ensures '/' !in s ==> parts == [s]
    ensures '/' in s ==>
      && |parts| <= |Segments(s)| && parts == Segments(s)[..|parts|]
      && (forall k :: |parts| <= k < |Segments(s)| ==> Segments(s)[k] == "")
      && (parts == [] || parts[|parts| - 1] != "")
  {
    if '/' !in s then [s] else DropTrailingEmpty(Segments(s))
  }

  lemma SplitExamples()
    ensures Split("") == [""] && Split("/") == []
    ensures Split("/uv/") == ["", "uv"]
  {
    assert Segments("/") == ["", ""] by { SegmentsAtSlash("", ""); }
    assert Segments("/uv/") == ["", "uv", ""] by {
      SegmentsAtSlash("", "uv/");
      SegmentsAtSlash("uv", "");
      SegmentsOfSlashFree("uv");
    }
    assert '/' in "/uv/" by { assert "/uv/"[0] == '/'; }
  }

  /** "/a/b" with slash-free a and a non-empty slash-free b splits into ["", a, b]. */
  lemma {:induction false} SplitTwoLevels(a: string, b: string)
    requires '/' !in a && '/' !in b && b != ""
    ensures Split("/" + a + "/" + b) == ["", a, b]
  {
    var s := "/" + a + "/" + b;
    assert s == "" + "/" + (a + "/" + b);
    SegmentsAtSlash("", a + "/" + b);
    SegmentsAtSlash(a, b);
    SegmentsOfSlashFree(a);
    SegmentsOfSlashFree(b);
    assert Segments(s) == ["", a, b];
    assert s[0] == '/';
  }

  /** "/a/b/c" with slash-free parts and a non-empty c splits into ["", a, b, c]. */
  lemma {:induction false} SplitThreeLevels(a: string, b: string, c: string)
    requires '/' !in a && '/' !in b && '/' !in c && c != ""
    ensures Split("/" + a + "/" + b + "/" + c) == ["", a, b, c]
  {
    var s := "/" + a + "/" + b + "/" + c;
    assert s == "" + "/" + (a + "/" + (b + "/" + c));
    SegmentsAtSlash("", a + "/" + (b + "/" + c));
    SegmentsAtSlash(a, b + "/" + c);
    SegmentsAtSlash(b, c);
    SegmentsOfSlashFree(a);
    SegmentsOfSlashFree(b);
    SegmentsOfSlashFree(c);
    assert Segments(s) == ["", a, b, c];
    assert s[0] == '/';
  }
}
