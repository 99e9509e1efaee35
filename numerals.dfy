/**
 * Decimal numerals as the Java runtime writes and reads them: `String.valueOf`
 * and string concatenation of an `int`/`long` (canonical decimal, a leading
 * '-' for negatives) and `Integer.parseInt` / `Long.parseLong` (an optional
 * sign, at least one ASCII digit, and a range check).
 */
module Numerals {
  import opened Optional

  const IntMin: int := -0x8000_0000
  const IntMax: int := 0x7fff_ffff
  const LongMin: int := -0x8000_0000_0000_0000
  const LongMax: int := 0x7fff_ffff_ffff_ffff

  predicate IsDigit(c: char) {
    '0' <= c <= '9'
  }

  predicate AllDigits(s: string) {
    forall i :: 0 <= i < |s| ==> IsDigit(s[i])
  }

  function DigitChar(d: nat): (c: char)
    requires d < 10
    ensures IsDigit(c)
  {
    (('0' as int) + d) as char
  }

  function DigitOf(c: char): (d: nat)
    requires IsDigit(c)
    ensures d < 10
  {
    (c as int) - ('0' as int)
  }

  /** The value of a string of decimal digits, most significant digit first. */
  function DigitsValue(s: string): nat
    requires AllDigits(s)
  {
    if s == [] then 0 else DigitsValue(s[..|s| - 1]) * 10 + DigitOf(s[|s| - 1])
  }

  /** Number of decimal digits of n (`String.valueOf(n).length()`). */
  function DigitCount(n: nat): (k: nat)
    ensures k >= 1
  {
    if n < 10 then 1 else 1 + DigitCount(n / 10)
  }

  /** Canonical decimal rendering of a natural number. */
  function NatToString(n: nat): (s: string)
    ensures |s| > 0 && AllDigits(s)
  {
    if n < 10 then [DigitChar(n)] else NatToString(n / 10) + [DigitChar(n % 10)]
  }

  /** Canonical decimal rendering of an integer: `"" + i` in Java. */
  function IntToString(i: int): (r: string)
    ensures |r| > 0 && (r[0] == '-' <==> i < 0)
    ensures AllDigits(if i < 0 then r[1..] else r)
  {
    if i < 0 then "-" + NatToString(-i) else NatToString(i)
  }

  /** The rendering has DigitCount(n) digits and reads back as n. */
  lemma {:induction false} NatToStringValue(n: nat)
    ensures |NatToString(n)| == DigitCount(n)
    ensures DigitsValue(NatToString(n)) == n
  {
    if n >= 10 {
      NatToStringValue(n / 10);
      var s := NatToString(n);
      assert s[..|s| - 1] == NatToString(n / 10);
    }
  }

  /**
   * Java's parse of a signed decimal within [lo, hi]: None stands for the
   * NumberFormatException thrown on an empty string, a lone sign, a
   * non-digit, or a value outside the range.
   */
  function ParseSigned(s: string, lo: int, hi: int): (r: Option<int>)
    ensures r.Some? ==> lo <= r.value <= hi
    ensures r.Some? ==> |s| > 0 && (IsDigit(s[0]) || s[0] == '-' || s[0] == '+')
  {
    if |s| == 0 then None
    else
      var digits := if s[0] == '-' || s[0] == '+' then s[1..] else s;
      if |digits| == 0 || !AllDigits(digits) then None
      else
        var magnitude: int := DigitsValue(digits);
        var v := if s[0] == '-' then -magnitude else magnitude;
        if lo <= v <= hi then Some(v) else None
  }

  /** `Integer.parseInt`. */
  function ParseInt(s: string): (r: Option<int>)
    ensures r.Some? ==> IntMin <= r.value <= IntMax
  {
    ParseSigned(s, IntMin, IntMax)
  }

  /** `Long.parseLong`. */
  function ParseLong(s: string): (r: Option<int>)
    ensures r.Some? ==> LongMin <= r.value <= LongMax
  {
    ParseSigned(s, LongMin, LongMax)
  }

  /** Two's-complement `int` arithmetic: x reduced into [IntMin, IntMax] modulo 2^32. */
  function WrapInt(x: int): (r: int)
    ensures IntMin <= r <= IntMax
    ensures IntMin <= x <= IntMax ==> r == x
  {
    (x - IntMin) % 0x1_0000_0000 + IntMin
  }

  /** Two's-complement `long` arithmetic: x reduced into [LongMin, LongMax] modulo 2^64. */
  function WrapLong(x: int): (r: int)
    ensures LongMin <= r <= LongMax
    ensures LongMin <= x <= LongMax ==> r == x
  {
    (x - LongMin) % 0x1_0000_0000_0000_0000 + LongMin
  }

  /** Parsing inverts rendering for every value in range. */
  lemma IntToStringParses(n: int, lo: int, hi: int)
    requires lo <= n <= hi
    ensures ParseSigned(IntToString(n), lo, hi) == Some(n)
  {
    var m: nat := if n < 0 then -n else n;
    var digits := NatToString(m);
    NatToStringValue(m);
    assert IsDigit(digits[0]);
    if n < 0 {
      var s := "-" + digits;
      assert s == IntToString(n);
      assert s[0] == '-' && s[1..] == digits;
    } else {
      assert digits == IntToString(n);
    }
  }

  /** A rendering is much shorter than its number: at most n/2 + 1 digits. */
  lemma {:induction false} DigitCountBound(n: nat)
    ensures DigitCount(n) <= n / 2 + 1
  {
    if n >= 10 {
      DigitCountBound(n / 10);
    }
  }

  /** The rendering of an `int` is short enough for its length to be an `int`. */
  lemma IntToStringShort(n: int)
    requires IntMin <= n <= IntMax
    ensures |IntToString(n)| <= IntMax
  {
    var m: nat := if n < 0 then -n else n;
    NatToStringValue(m);
    DigitCountBound(m);
  }
}
