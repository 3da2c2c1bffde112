/**
 * Java's decimal conversions of a 32-bit int: Integer.toString (which is
 * also String.valueOf and string concatenation of an int) and
 * Integer.parseInt, plus the truncating integer division the handlers use.
 */
module Decimal {
  import opened Wrappers

  const IntMin: int := -0x8000_0000
  const IntMax: int := 0x7FFF_FFFF

  /** The range of Java's `int`. */
  predicate IsInt32(n: int) { IntMin <= n <= IntMax }

  predicate IsDigit(c: char) { '0' <= c <= '9' }

  predicate AllDigits(s: string) { forall k :: 0 <= k < |s| ==> IsDigit(s[k]) }

  function DigitValue(c: char): (d: nat)
    requires IsDigit(c)
    ensures d < 10
  {
    c as int - '0' as int
  }

  function DigitChar(d: nat): (c: char)
    requires d < 10
    ensures IsDigit(c) && DigitValue(c) == d
  {
    ('0' as int + d) as char
  }

  /** The number a string of decimal digits denotes (leading zeros allowed). */
  function DigitsValue(s: string): nat
    requires AllDigits(s)
  {
    if s == [] then 0 else DigitsValue(s[..|s| - 1]) * 10 + DigitValue(s[|s| - 1])
  }

  /** The decimal digits of n, without leading zeros. */
  function NatText(n: nat): (s: string)
    ensures |s| >= 1 && AllDigits(s)
    ensures n > 0 ==> s[0] != '0'
  {
    if n < 10 then [DigitChar(n)] else NatText(n / 10) + [DigitChar(n % 10)]
  }

  /** `Integer.toString(n)`: a minus sign for negative numbers, then the digits. */
  function IntText(n: int): (s: string)
    ensures |s| >= 1
    ensures s[0] == '-' <==> n < 0
  {
    if n < 0 then "-" + NatText(-n) else NatText(n)
  }

  /** The text after an optional leading '+' or '-'. */
  function Unsigned(s: string): string {
    if |s| > 0 && (s[0] == '-' || s[0] == '+') then s[1..] else s
  }

  /** The value of a sign and a digit string: negative exactly after a '-'. */
  function SignedValue(s: string): int
    requires AllDigits(Unsigned(s))
  {
    var m: int := DigitsValue(Unsigned(s));
    if |s| > 0 && s[0] == '-' then 0 - m else m
  }

  /**
   * `Integer.parseInt(s)`: an optional '+' or '-', then at least one
   * decimal digit, with a value that fits an int; None where Java throws
   * NumberFormatException.
   */
  function ParseInt(s: string): (r: Option<int>)
    ensures r.Some? ==> IsInt32(r.value)
    ensures r.Some? ==> |s| >= 1 && (IsDigit(s[0]) || ((s[0] == '-' || s[0] == '+') && |s| >= 2))
    ensures r.Some? && r.value < 0 ==> s[0] == '-'
    ensures r.Some? <==> |Unsigned(s)| >= 1 && AllDigits(Unsigned(s)) && IsInt32(SignedValue(s))
    ensures r.Some? ==> r.value == SignedValue(s)
  {
    if s == [] then None
    else if s[0] < '0' then
      if (s[0] == '-' || s[0] == '+') && |s| > 1 && AllDigits(s[1..]) then
        var m: int := DigitsValue(s[1..]);
        var v := if s[0] == '-' then 0 - m else m;
        if IsInt32(v) then Some(v) else None
      else None
    else if AllDigits(s) && IsInt32(DigitsValue(s)) then Some(DigitsValue(s))
    else None
  }

  lemma {:induction false} DigitsOfNatText(n: nat)
    ensures DigitsValue(NatText(n)) == n
  {
    if n >= 10 {
      var prefix := NatText(n / 10);
      var s := prefix + [DigitChar(n % 10)];
      assert s[..|s| - 1] == prefix;
      DigitsOfNatText(n / 10);
    }
  }

  /** Integer.parseInt reads back exactly what Integer.toString wrote. */
  lemma {:induction false} ParseIntText(n: int)
    requires IsInt32(n)
    ensures ParseInt(IntText(n)) == Some(n)
  {
    var s := IntText(n);
    if n < 0 {
      var digits := NatText(-n);
      assert s == "-" + digits;
      assert s[1..] == digits;
      DigitsOfNatText(-n);
      assert s[0] == '-' && |s| > 1 && AllDigits(s[1..]);
      assert DigitsValue(s[1..]) == -n;
    } else {
      DigitsOfNatText(n);
      assert s == NatText(n);
      assert !(s[0] < '0');
    }
  }

  /** Distinct ints have distinct decimal texts. */
  lemma {:induction false} IntTextInjective(m: int, n: int)
    requires IsInt32(m) && IsInt32(n) && IntText(m) == IntText(n)
    ensures m == n
  {
    ParseIntText(m);
    ParseIntText(n);
  }

  lemma ParseIntSigned()
    ensures ParseInt("+7") == Some(7) && ParseInt("-12") == Some(-12)
  {
    assert "+7"[1..] == "7";
    assert "-12"[1..] == "12" && "12"[..1] == "1";
  }

  lemma ParseIntRejects()
    ensures ParseInt("") == None && ParseInt("-") == None && ParseInt("1 ") == None && ParseInt(" 1") == None
  {
    assert !IsDigit("1 "[1]);
  }

  /** Java's `a / d` on ints, which truncates toward zero. */
  function JavaDiv(a: int, d: nat): int
    requires d > 0
  {
    if a >= 0 then a / d else -((-a) / d)
  }

  /** `status / 100 == 2` holds exactly for the 2xx codes, negative ones included in the reasoning. */
  lemma {:induction false} HundredsDigitTwo(status: int)
    ensures JavaDiv(status, 100) == 2 <==> 200 <= status <= 299
  {
  }
}
