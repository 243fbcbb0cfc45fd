/**
 * Decimal text for integers: what Go's strconv.ParseInt(s, 10, 32) accepts and
 * returns, and the decimal rendering fmt uses for the %d verb.
 */
module Decimal {
  import opened Wrappers

  const MinInt32: int := -0x8000_0000
  const MaxInt32: int := 0x7fff_ffff

  predicate InInt32(n: int) { MinInt32 <= n <= MaxInt32 }

  predicate IsDigit(c: char) { '0' <= c <= '9' }

  predicate AllDigits(s: string) { forall i :: 0 <= i < |s| ==> IsDigit(s[i]) }

  function DigitValue(c: char): (d: nat)
    requires IsDigit(c)
    ensures d < 10
  {
    c as int - '0' as int
  }

  function DigitChar(d: nat): (c: char)
    requires d < 10
    ensures IsDigit(c) && DigitValue(c) == d
  {
    ('0' as int + d) as char
  }

  /** The value of a run of decimal digits, most significant digit first. */
  function Magnitude(s: string): nat
    requires AllDigits(s)
    decreases |s|
  {
    if s == [] then 0 else Magnitude(s[..|s| - 1]) * 10 + DigitValue(s[|s| - 1])
  }

  /**
   * strconv.ParseInt(s, 10, 32) with a nil error: an optional '+' or '-', then
   * at least one decimal digit and nothing else (base 10 admits no prefix and
   * no underscores), with a value in [-2^31, 2^31-1]. Any error (syntax or
   * range) is None.
   */
  function ParseInt32(s: string): (r: Option<int>)
    ensures r.Some? ==> InInt32(r.value)
    ensures r.Some? ==> |s| > 0 && (IsDigit(s[0]) || s[0] == '+' || s[0] == '-')
    ensures r.Some? && r.value < 0 ==> s[0] == '-'
    ensures r.Some? ==> var u := if s[0] == '+' || s[0] == '-' then s[1..] else s;
      u != "" && AllDigits(u)
  {
    if s == "" then None
    else
      var negative := s[0] == '-';
      var digits := if s[0] == '+' || s[0] == '-' then s[1..] else s;
      if digits == "" || !AllDigits(digits) then None
      else
        var m: int := Magnitude(digits);
        var n := if negative then -m else m;
        if InInt32(n) then Some(n) else None
  }

  /** Decimal digits of a natural number, without leading zeros. */
  function FormatNat(n: nat): string
    decreases n
  {
    if n < 10 then [DigitChar(n)] else FormatNat(n / 10) + [DigitChar(n % 10)]
  }

  /** The %d rendering of an integer: a '-' for negative values, then its digits. */
  function FormatInt(n: int): string
  {
    if n < 0 then "-" + FormatNat(-n) else FormatNat(n)
  }

  lemma {:induction false} FormatNatDigits(n: nat)
    ensures |FormatNat(n)| > 0 && AllDigits(FormatNat(n)) && Magnitude(FormatNat(n)) == n
    decreases n
  {
    if n >= 10 {
      FormatNatDigits(n / 10);
      var s := FormatNat(n);
      assert s[..|s| - 1] == FormatNat(n / 10);
    }
  }

  /** Rendering then parsing gives the number back exactly when it fits in 32 bits. */
  lemma ParseFormatRoundTrip(n: int)
    ensures ParseInt32(FormatInt(n)) == if InInt32(n) then Some(n) else None
  {
    var m := if n < 0 then -n else n;
    FormatNatDigits(m);
    var s := FormatInt(n);
    if n < 0 {
      assert s[0] == '-' && s[1..] == FormatNat(m);
    } else {
      assert IsDigit(s[0]);
    }
  }

  /** The rendering never contains a space: it is an optional '-' followed by digits. */
  lemma FormatIntHasNoSpace(n: int)
    ensures ' ' !in FormatInt(n)
  {
    var m := if n < 0 then -n else n;
    FormatNatDigits(m);
    var s := FormatInt(n);
    forall i | 0 <= i < |s|
      ensures s[i] != ' '
    {
      if n < 0 && i > 0 {
        assert s[i] == FormatNat(m)[i - 1];
      }
    }
  }

  lemma {:induction false} LeadingZeroMagnitude(s: string)
    requires AllDigits(s)
    ensures AllDigits("0" + s) && Magnitude("0" + s) == Magnitude(s)
    decreases |s|
  {
    if s != [] {
      var t := "0" + s;
      assert t[..|t| - 1] == "0" + s[..|s| - 1];
      LeadingZeroMagnitude(s[..|s| - 1]);
    }
  }

  /** A leading '+' and leading zeros do not change the parsed value ("+007" reads as 7). */
  lemma ParseIgnoresPlusAndLeadingZero(s: string)
    requires |s| > 0 && AllDigits(s)
    ensures ParseInt32("+" + s) == ParseInt32(s)
    ensures ParseInt32("0" + s) == ParseInt32(s)
    ensures ParseInt32("-0" + s) == ParseInt32("-" + s)
  {
    LeadingZeroMagnitude(s);
    assert ("+" + s)[1..] == s;
    assert ("-" + s)[1..] == s;
    assert ("-0" + s)[1..] == "0" + s;
  }

  /** A negative value is accepted; signs, white space, underscores and prefixes are not digits. */
  lemma ParseExamples()
    ensures ParseInt32("-3") == Some(-3) && ParseInt32("-0") == Some(0)
    ensures ParseInt32("") == None && ParseInt32("+") == None && ParseInt32("-") == None
    ensures ParseInt32(" 5") == None && ParseInt32("1_000") == None && ParseInt32("0x10") == None
  {
    assert "-3"[1..] == "3";
    assert "-0"[1..] == "0";
    assert Magnitude("0") == 0 by { assert "0"[..0] == ""; }
    assert Magnitude("3") == 3 by { assert "3"[..0] == ""; }
    assert !IsDigit(' ') && !IsDigit('_') && !IsDigit('x');
    assert " 5"[0] == ' ';
    assert "1_000"[1] == '_';
    assert "0x10"[1] == 'x';
  }
}
