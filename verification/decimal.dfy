/**
  Zero-padded decimal rendering of naturals, as Go's `fmt` verb `%0<width>d`
  produces it for a non-negative operand, together with the reader that turns
  a string of decimal digits back into its value.
*/
module Decimal {

  predicate IsDigit(c: char) {
    '0' <= c <= '9'
  }

  predicate AllDigits(s: string) {
    forall i :: 0 <= i < |s| ==> IsDigit(s[i])
  }

  function DigitValue(c: char): (d: nat)
    requires IsDigit(c)
    ensures d < 10
  {
    c as int - '0' as int
  }

  /** The character of the decimal digit `d`. */
  function DigitChar(d: nat): (c: char)
    requires d < 10
    ensures IsDigit(c)
    ensures DigitValue(c) == d
  {
    ('0' as int + d) as char
  }

  lemma DigitCharOfValue(c: char)
    requires IsDigit(c)
    ensures DigitChar(DigitValue(c)) == c
  {
  }

  function Pow10(n: nat): (p: nat)
    ensures p >= 1
  {
    if n == 0 then 1 else 10 * Pow10(n - 1)
  }

  function Max(a: nat, b: nat): (r: nat) {
    if a < b then b else a
  }

  /** The number of digits `%d` prints for `n`: at least one, no leading zero. */
  function NumDigits(n: nat): (k: nat)
    ensures k >= 1
  {
    if n < 10 then 1 else 1 + NumDigits(n / 10)
  }

  /** The `width` least significant decimal digits of `n`, most significant first. */
  function Digits(n: nat, width: nat): (s: string)
    ensures |s| == width
    ensures AllDigits(s)
  {
    if width == 0 then [] else Digits(n / 10, width - 1) + [DigitChar(n % 10)]
  }

  /** The value of a string of decimal digits, most significant first. */
  function ReadDecimal(s: string): (n: nat)
    requires AllDigits(s)
    ensures n < Pow10(|s|)
  {
    if |s| == 0 then 0
    else
      var m := ReadDecimal(s[..|s| - 1]);
      var d := DigitValue(s[|s| - 1]);
      assert m <= Pow10(|s| - 1) - 1;
      assert 10 * m <= 10 * Pow10(|s| - 1) - 10;
      10 * m + d
  }

  /**
    Go's `%0<width>d` on a non-negative value: the decimal digits of `n`,
    padded on the left with '0' up to `width` characters, and never truncated.
  */
  function ZeroPad(n: nat, width: nat): (s: string)
    ensures |s| == Max(width, NumDigits(n))
    ensures AllDigits(s)
    ensures ReadDecimal(s) == n
  {
    NumDigitsBound(n);
    PowMonotone(NumDigits(n), Max(width, NumDigits(n)));
    ReadDigits(n, Max(width, NumDigits(n)));
    Digits(n, Max(width, NumDigits(n)))
  }

  lemma {:induction false} PowMonotone(a: nat, b: nat)
    requires a <= b
    ensures Pow10(a) <= Pow10(b)
    decreases b
  {
    if a < b {
      PowMonotone(a, b - 1);
    }
  }

  /** `n` has exactly `NumDigits(n)` digits: it is below the next power of ten and, unless zero, not below the previous one. */
  lemma {:induction false} NumDigitsBound(n: nat)
    ensures n < Pow10(NumDigits(n))
    ensures n >= 10 ==> Pow10(NumDigits(n) - 1) <= n
  {
    if n >= 10 {
      NumDigitsBound(n / 10);
    }
  }

  /**
    A value fits in a positive `width` exactly when `%d` prints at most `width`
    digits for it (zero still takes one digit, so width zero is excluded).
  */
  lemma NumDigitsFits(n: nat, width: nat)
    requires width >= 1
    ensures NumDigits(n) <= width <==> n < Pow10(width)
  {

  }

  /** Reading back the digits of a value that fits in the width gives the value. */
  lemma {:induction false} ReadDigits(n: nat, width: nat)
    requires n < Pow10(width)
    ensures ReadDecimal(Digits(n, width)) == n
  {
    if width > 0 {
      var s := Digits(n, width);
      assert s[..width - 1] == Digits(n / 10, width - 1);
      ReadDigits(n / 10, width - 1);
    }
  }

  /** Rendering the value of a digit string at its own width gives the string back, leading zeros included. */
  lemma {:induction false} DigitsOfRead(s: string)
    requires AllDigits(s)
    ensures Digits(ReadDecimal(s), |s|) == s
  {
    if |s| > 0 {
      var p := s[..|s| - 1];
      var d := DigitValue(s[|s| - 1]);
      var n := ReadDecimal(s);
      assert n / 10 == ReadDecimal(p) && n % 10 == d;
      DigitsOfRead(p);
      DigitCharOfValue(s[|s| - 1]);
      assert s == p + [s[|s| - 1]];
    }
  }

  /** Within its width, `%0<width>d` is exactly `width` characters long and is the padded digit string. */
  lemma ZeroPadFits(n: nat, width: nat)
    requires width >= 1
    requires n < Pow10(width)
    ensures ZeroPad(n, width) == Digits(n, width)
    ensures |ZeroPad(n, width)| == width
  {

  }
}
