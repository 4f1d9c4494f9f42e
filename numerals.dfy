/** Decimal numerals as JavaScript's `Number.prototype.toString` prints
    integers, the six-digit codes of `generateCode`, and the reading of a
    numeral back into its value. */
module Numerals {

  predicate IsDigit(c: char)
  {
    '0' <= c <= '9'
  }

  predicate AllDigits(s: string)
  {
    forall i :: 0 <= i < |s| ==> IsDigit(s[i])
  }

  function DigitChar(d: nat): (c: char)
    requires d < 10
    ensures IsDigit(c) && c as int - '0' as int == d
  {
    ('0' as int + d) as char
  }

  /** `n.toString()` for a non-negative integer: no leading zeros, "0" for 0. */
  function Decimal(n: nat): (s: string)
    decreases n
  {
    if n < 10 then [DigitChar(n)] else Decimal(n / 10) + [DigitChar(n % 10)]
  }

  /** `i.toString()` for any integer, with a leading '-' when negative. */
  function IntToString(i: int): string
  {
    if i < 0 then "-" + Decimal(-i) else Decimal(i)
  }

  /** The value of a string of decimal digits. */
  function ParseDecimal(s: string): nat
    requires AllDigits(s)
    decreases |s|
  {
    if s == [] then 0
    else ParseDecimal(s[..|s| - 1]) * 10 + (s[|s| - 1] as int - '0' as int)
  }

  function Pow10(k: nat): (p: nat)
    ensures p >= 1
  {
    if k == 0 then 1 else 10 * Pow10(k - 1)
  }

  /** A numeral is made of digits only, and its first digit is never '0'
      unless the number itself is 0. */
  lemma {:induction false} DecimalDigits(n: nat)
    ensures AllDigits(Decimal(n)) && |Decimal(n)| >= 1
    ensures n > 0 ==> Decimal(n)[0] != '0'
    decreases n
  {
    if n >= 10 {
      DecimalDigits(n / 10);
      assert Decimal(n)[0] == Decimal(n / 10)[0];
    }
  }

  /** Reading a numeral back gives the number it was printed from. */
  lemma {:induction false} ParseDecimalRoundTrip(n: nat)
    ensures AllDigits(Decimal(n)) && ParseDecimal(Decimal(n)) == n
    decreases n
  {
    DecimalDigits(n);
    if n >= 10 {
      var s := Decimal(n);
      DecimalDigits(n / 10);
      ParseDecimalRoundTrip(n / 10);
      assert s[..|s| - 1] == Decimal(n / 10);
    }
  }

  /** A number with k digits, 10^(k-1) <= n < 10^k, prints as exactly k
      characters. */
  lemma {:induction false} DecimalLength(n: nat, k: nat)
    requires k >= 1 && Pow10(k - 1) <= n < Pow10(k)
    ensures |Decimal(n)| == k
    decreases k
  {
    if k > 1 {
      assert n >= 10;
      DecimalLength(n / 10, k - 1);
    }
  }

  /** `Math.floor(100000 + Math.random() * 900000).toString()`, where `draw`
      is `Math.floor(Math.random() * 900000)`: an integer in [0, 900000). */
  function GenerateCode(draw: nat): (code: string)
    requires draw < 900000
    ensures |code| == 6 && AllDigits(code) && code[0] != '0'
    ensures ParseDecimal(code) == 100000 + draw
  {
    var n := 100000 + draw;
    DecimalDigits(n);
    assert Pow10(5) == 100000 && Pow10(6) == 1000000;
    DecimalLength(n, 6);
    ParseDecimalRoundTrip(n);
    Decimal(n)
  }

  /** Different draws give different codes, so the code determines the draw. */
  lemma GenerateCodeInjective(a: nat, b: nat)
    requires a < 900000 && b < 900000
    requires GenerateCode(a) == GenerateCode(b)
    ensures a == b
  {
    assert ParseDecimal(GenerateCode(a)) == 100000 + a;
  }
}
