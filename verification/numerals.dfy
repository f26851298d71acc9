/** Decimal numerals over exact integers: the text JavaScript's `String(n)`
    and template literals produce for an integer of magnitude below 10^21
    (beyond that JavaScript switches to exponent form), and the value
    `Number(s)` reads back from a string of decimal digits when that value is
    at most 2^53 (beyond that a double rounds it). Used for sensor ids
    (`S3`..`S7`), for the ppm figure in alert messages, and for a backend
    reply whose `value` arrives as text.
 */
module Numerals {

  predicate IsDigit(c: char) {
    '0' <= c <= '9'
  }

  predicate AllDigits(s: string) {
    forall i :: 0 <= i < |s| ==> IsDigit(s[i])
  }

  /** A string of decimal digits, as `Number()` accepts it without producing NaN
      (the empty string is included: `Number("")` is 0). */
  type Digits = s: string | AllDigits(s)

  function DigitChar(d: nat): (c: char)
    requires d < 10
    ensures IsDigit(c)
  {
    ('0' as int + d) as char
  }

  function DigitValue(c: char): (d: nat)
    requires IsDigit(c)
    ensures d < 10
    ensures DigitChar(d) == c
  {
    c as int - '0' as int
  }

  /** Shortest decimal text of a natural number: never empty and no leading zero. */
  function DecimalText(n: nat): (s: string)
    ensures |s| > 0 && AllDigits(s)
    ensures s[0] != '0' || n == 0
    ensures n < 10 <==> |s| == 1
  {
    if n < 10 then [DigitChar(n)] else DecimalText(n / 10) + [DigitChar(n % 10)]
  }

  /** `Number(s)` for a digit string: leading zeros are ignored, "" reads as 0. */
  function DecimalValue(s: string): nat
    requires AllDigits(s)
  {
    if s == [] then 0 else DecimalValue(s[..|s| - 1]) * 10 + DigitValue(s[|s| - 1])
  }

  /** Text of any integer, with a leading '-' for negative values. The digits
      spell the magnitude without leading zeros, so the text reads back as
      the integer. */
  function IntText(n: int): (s: string)
    ensures |s| > 0
    ensures n >= 0 ==> AllDigits(s) && (s[0] != '0' || |s| == 1) && DecimalValue(s) == n
    ensures n < 0 ==> |s| > 1 && s[0] == '-' && AllDigits(s[1..]) && s[1] != '0' && DecimalValue(s[1..]) == -n
    ensures IsIntText(s) && IntValue(s) == n
  {
    if n < 0 then
      var digits := DecimalText(-n);
      DecimalRoundTrip(-n);
      assert ("-" + digits)[1..] == digits;
      "-" + digits
    else
      DecimalRoundTrip(n);
      DecimalText(n)
  }

  /** A decimal integer literal: digits, optionally after a minus sign. */
  predicate IsIntText(t: string) {
    || (|t| > 0 && AllDigits(t))
    || (|t| > 1 && t[0] == '-' && AllDigits(t[1..]))
  }

  /** The integer an integer literal denotes. */
  function IntValue(t: string): int
    requires IsIntText(t)
  {
    if t[0] == '-' then
      assert !IsDigit(t[0]);
      -(DecimalValue(t[1..]) as int)
    else
      DecimalValue(t)
  }

  /** Reading back the text of a number yields that number. */
  lemma {:induction false} DecimalRoundTrip(n: nat)
    ensures DecimalValue(DecimalText(n)) == n
    decreases n
  {
    if n >= 10 {
      var s := DecimalText(n);
      assert s[..|s| - 1] == DecimalText(n / 10);
      DecimalRoundTrip(n / 10);
    }
  }

  /** A non-empty digit string without a leading zero reads as a positive number. */
  lemma {:induction false} LeadingNonZeroPositive(s: string)
    requires |s| > 0 && AllDigits(s) && s[0] != '0'
    ensures DecimalValue(s) > 0
    decreases |s|
  {
    if |s| > 1 {
      LeadingNonZeroPositive(s[..|s| - 1]);
    }
  }

  /** Writing out the value of a canonical digit string gives that string back:
      `DecimalText` is the only spelling without leading zeros. */
  lemma {:induction false} CanonicalRoundTrip(s: string)
    requires |s| > 0 && AllDigits(s)
    requires s[0] != '0' || |s| == 1
    ensures DecimalText(DecimalValue(s)) == s
    decreases |s|
  {
    if |s| > 1 {
      var t := s[..|s| - 1];
      LeadingNonZeroPositive(t);
      CanonicalRoundTrip(t);
      var d := DigitValue(s[|s| - 1]);
      var n := DecimalValue(s);
      assert n == DecimalValue(t) * 10 + d;
      assert n / 10 == DecimalValue(t) && n % 10 == d;
      assert s == t + [s[|s| - 1]];
    }
  }
}
