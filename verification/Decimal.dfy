/** Lengths of decimal numerals, which the self-describing records of this project depend on. */
module Decimal {

  function Digits(n: nat): (d: nat)
    ensures d >= 1
  {
    if n < 10 then 1 else 1 + Digits(n / 10)
  }

  /** A larger number is never shorter. */
  lemma {:induction false} DigitsMonotone(m: nat, n: nat)
    requires m <= n
    ensures Digits(m) <= Digits(n)
  {
    if m >= 10 { DigitsMonotone(m / 10, n / 10); }
  }

  /** Numerals grow slowly. */
  lemma {:induction false} DigitsBelowHalf(n: nat)
    ensures 2 * Digits(n) <= n + 2
  {
    if n >= 10 { DigitsBelowHalf(n / 10); }
  }

  /** Two numbers whose numerals differ by two digits or more are far apart. */
  lemma {:induction false} DigitsGap(m: nat, n: nat)
    requires Digits(n) >= Digits(m) + 2
    ensures n - m >= 4 * Digits(m) + 87
  {
    if m < 10 {
      assert Digits(n) >= 3;
      assert n >= 100;
    } else {
      DigitsGap(m / 10, n / 10);
    }
  }
}
