/**
 * Decimal text of integers, as QVariant writes an `int` out as text and as
 * Qt 5's `QVariant::toInt()` reads a string back: the text is parsed as a
 * 64-bit integer (an optional sign followed by at least one decimal digit)
 * and the result is cast to a 32-bit `int`, keeping the low 32 bits. Text
 * that does not parse, or a value outside the 64-bit range, reads as 0.
 */
module Decimal {
  import opened Wrappers

  /** The C++ `int` the settings code passes around. */
  type Int32 = x: int | -0x8000_0000 <= x < 0x8000_0000

  predicate IsDigit(c: char) {
    '0' <= c <= '9'
  }

  predicate AllDigits(s: string) {
    forall i :: 0 <= i < |s| ==> IsDigit(s[i])
  }

  function DigitChar(d: nat): (c: char)
    requires d < 10
    ensures IsDigit(c)
  {
    (('0' as int) + d) as char
  }

  function DigitValue(c: char): (d: nat)
    requires IsDigit(c)
    ensures d < 10
  {
    (c as int) - ('0' as int)
  }

  /** The value of a run of decimal digits, most significant first. */
  function DigitsValue(s: string): (v: nat)
    requires AllDigits(s)
  {
    if |s| == 0 then 0 else DigitsValue(s[..|s| - 1]) * 10 + DigitValue(s[|s| - 1])
  }

  /** Shortest decimal digits of a natural number. */
  function NatText(n: nat): (s: string)
    ensures |s| > 0 && AllDigits(s)
  {
    if n < 10 then [DigitChar(n)] else NatText(n / 10) + [DigitChar(n % 10)]
  }

  /** Text of an integer: a leading '-' for negatives, no sign otherwise. */
  function IntText(n: int): (s: string)
    ensures |s| > 0
    ensures n >= 0 <==> IsDigit(s[0])
  {
    if n < 0 then "-" + NatText(-n) else NatText(n)
  }

  /** Parses an optional sign and a non-empty run of digits; None for any other text. */
  function ParseInt(s: string): (r: Option<int>)
    ensures r.Some? && |s| > 0 && IsDigit(s[0]) ==> r.value >= 0
  {
    if |s| > 0 && (s[0] == '-' || s[0] == '+') then
      var digits := s[1..];
      if |digits| > 0 && AllDigits(digits) then
        var magnitude: int := DigitsValue(digits);
        Some(if s[0] == '-' then -magnitude else magnitude)
      else None
    else if |s| > 0 && AllDigits(s) then Some(DigitsValue(s))
    else None
  }

  /** The C++ `long long` that `QString::toLongLong` produces. */
  predicate InInt64(v: int) {
    -0x8000_0000_0000_0000 <= v < 0x8000_0000_0000_0000
  }

  /** The cast `int(v)`: the 32-bit value congruent to `v` modulo 2^32. */
  function Truncate32(v: int): (n: Int32)
    ensures (n - v) % 0x1_0000_0000 == 0
    ensures -0x8000_0000 <= v < 0x8000_0000 ==> n == v
  {
    (v + 0x8000_0000) % 0x1_0000_0000 - 0x8000_0000
  }

  /** `QVariant::toInt()` of a string variant: `int(toLongLong())`, 0 when the text is no 64-bit integer. */
  function TextToInt(s: string): (n: Int32)
    ensures ParseInt(s).None? ==> n == 0
    ensures ParseInt(s).Some? && !InInt64(ParseInt(s).value) ==> n == 0
    ensures ParseInt(s).Some? && InInt64(ParseInt(s).value) ==> (n - ParseInt(s).value) % 0x1_0000_0000 == 0
  {
    match ParseInt(s)
    case Some(v) => if InInt64(v) then Truncate32(v) else 0
    case None => 0
  }

  lemma {:induction false} NatTextValue(n: nat)
    ensures DigitsValue(NatText(n)) == n
  {
    if n >= 10 {
      var prefix := NatText(n / 10);
      var s := prefix + [DigitChar(n % 10)];
      assert s[..|s| - 1] == prefix;
      NatTextValue(n / 10);
    }
  }

  /** Writing an integer as text and parsing it back gives the same integer. */
  lemma ParseIntText(n: int)
    ensures ParseInt(IntText(n)) == Some(n)
  {
    if n < 0 {
      var s := IntText(n);
      assert s[1..] == NatText(-n);
      NatTextValue(-n);
    } else {
      NatTextValue(n);
    }
  }

  /** Every 32-bit value survives the text round trip through `QVariant::toInt()`. */
  lemma TextToIntText(n: Int32)
    ensures TextToInt(IntText(n)) == n
  {
    ParseIntText(n);
  }

  /** A 64-bit value written as text reads back as its low 32 bits: "4294967392" reads as 96. */
  lemma TextToIntTruncates(v: int)
    requires InInt64(v)
    ensures TextToInt(IntText(v)) == Truncate32(v)
  {
    ParseIntText(v);
  }

  /** Text that is an integer beyond the 64-bit range reads as 0. */
  lemma TextToIntBeyondInt64(v: int)
    requires !InInt64(v)
    ensures TextToInt(IntText(v)) == 0
  {
    ParseIntText(v);
  }
}
