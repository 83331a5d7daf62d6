/** Swift's string interpolation of an `Int` ("\(n)"): an optional minus sign followed by
    the decimal digits, most significant first, without leading zeros. `ParseInt` reads such
    a text back and is the partner the rendering is proved against. */
module Decimal {

  predicate IsDigit(c: char)
  {
    '0' <= c <= '9'
  }

  function DigitChar(d: nat): (c: char)
    requires d < 10
    ensures IsDigit(c)
  {
    (48 + d) as char
  }

  /** The value of a digit character; characters that are not digits count as zero. */
  function DigitValue(c: char): (d: nat)
    ensures d < 10
  {
    if IsDigit(c) then c as int - 48 else 0
  }

  /** The decimal digits of `n`. */
  function NatDigits(n: nat): (s: string)
    ensures |s| >= 1
    ensures forall i :: 0 <= i < |s| ==> IsDigit(s[i])
    ensures |s| > 1 ==> s[0] != '0'
    ensures n < 10 <==> |s| == 1
    decreases n
  {
    if n < 10 then [DigitChar(n)] else NatDigits(n / 10) + [DigitChar(n % 10)]
  }

  /** The text Swift interpolates for the integer `n`. */
  function IntText(n: int): (s: string)
    ensures |s| >= 1
    ensures s[0] == '-' <==> n < 0
    ensures forall i :: (if n < 0 then 1 else 0) <= i < |s| ==> IsDigit(s[i])
    ensures n < 0 ==> |s| >= 2
    ensures n != 0 ==> s[if n < 0 then 1 else 0] != '0'
  {
    if n < 0 then "-" + NatDigits(-n) else NatDigits(n)
  }

  /** The number a string of digits denotes. */
  function ParseNat(s: string): nat
    decreases |s|
  {
    if |s| == 0 then 0 else ParseNat(s[..|s| - 1]) * 10 + DigitValue(s[|s| - 1])
  }

  /** The integer an optionally signed string of digits denotes. */
  function ParseInt(s: string): int
  {
    if |s| > 0 && s[0] == '-' then -(ParseNat(s[1..]) as int) else ParseNat(s)
  }

  lemma {:induction false} NatDigitsRoundTrip(n: nat)
    ensures ParseNat(NatDigits(n)) == n
    decreases n
  {
    if n >= 10 {
      var s := NatDigits(n);
      assert s[..|s| - 1] == NatDigits(n / 10);
      NatDigitsRoundTrip(n / 10);
    }
  }

  /** Reading back the interpolated text gives the integer that was interpolated. */
  lemma IntTextRoundTrip(n: int)
    ensures ParseInt(IntText(n)) == n
  {
    if n < 0 {
      NatDigitsRoundTrip(-n);
      assert IntText(n)[1..] == NatDigits(-n);
    } else {
      NatDigitsRoundTrip(n);
    }
  }

  /** A one-digit number is shown as that one digit. */
  lemma SingleDigitText(n: int)
    requires 0 <= n < 10
    ensures IntText(n) == [DigitChar(n)]
  {
  }
}
