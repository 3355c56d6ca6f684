/**
 * Decimal numerals and money amounts.
 *
 * Balances and transaction amounts are JavaScript numbers in the wallet; this
 * model keeps them as exact whole cents. `Numeral` is what `String(n)` and the
 * integer part of `toFixed` print for a whole number, and `ShowCents` is what
 * `toFixed(2)` prints for an amount that is a whole number of cents.
 */
module Decimal {

  /** JavaScript's `\d` (without the `u` flag): the ASCII digits only. */
  predicate IsDigit(c: char) {
    '0' <= c <= '9'
  }

  predicate AllDigits(s: string) {
    forall i :: 0 <= i < |s| ==> IsDigit(s[i])
  }

  function DigitValue(c: char): (d: nat)
    requires IsDigit(c)
    ensures d < 10
  {
    c as int - '0' as int
  }

  function DigitChar(d: nat): (c: char)
    requires d < 10
    ensures IsDigit(c) && DigitValue(c) == d
  {
    ('0' as int + d) as char
  }

  /** The value of a numeral, most significant digit first. */
  function ValueOf(s: string): nat
    requires AllDigits(s)
  {
    if s == [] then 0 else 10 * ValueOf(s[..|s| - 1]) + DigitValue(s[|s| - 1])
  }

  /** The shortest numeral of `n`: no leading zero, and "0" for zero. */
  function Numeral(n: nat): (r: string)
    ensures |r| >= 1 && AllDigits(r)
    ensures |r| == 1 || r[0] != '0'
    ensures ValueOf(r) == n
  {
    if n < 10 then [DigitChar(n)]
    else
      var r := Numeral(n / 10) + [DigitChar(n % 10)];
      assert r[..|r| - 1] == Numeral(n / 10);
      r
  }

  /** `toFixed(2)` of `cents / 100`: whole part, a dot and exactly two decimals. */
  function ShowCents(cents: nat): (r: string)
    ensures |r| >= 4 && r[|r| - 3] == '.'
    ensures |r| == 4 || r[0] != '0'
    ensures AllDigits(r[..|r| - 3]) && AllDigits(r[|r| - 2..])
    ensures ValueOf(r[..|r| - 3]) == cents / 100
    ensures 10 * DigitValue(r[|r| - 2]) + DigitValue(r[|r| - 1]) == cents % 100
  {
    var whole := Numeral(cents / 100);
    var tens, ones := cents % 100 / 10, cents % 10;
    var r := whole + "." + [DigitChar(tens), DigitChar(ones)];
    assert r[..|r| - 3] == whole;
    assert r[|r| - 3] == '.';
    assert r[|r| - 2..] == [DigitChar(tens), DigitChar(ones)];
    assert 10 * tens + ones == cents % 100;
    r
  }
}
