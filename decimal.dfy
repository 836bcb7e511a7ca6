/**
  Decimal digits of natural numbers: powers of ten and the number of digits in
  a decimal expansion. These stand in for Python's `str(r)` slicing and for
  the exponent of `'{:e}'.format(r)`.
*/
module Decimal {

  function Pow10(k: nat): (p: nat)
    ensures p >= 1
  {
    if k == 0 then 1 else 10 * Pow10(k - 1)
  }

  /** Number of digits of n written in decimal, without leading zeros (0 has one digit). */
  function NumDigits(n: nat): (d: nat)
    ensures d >= 1
  {
    if n < 10 then 1 else 1 + NumDigits(n / 10)
  }

  lemma {:induction false} Pow10Add(a: nat, b: nat)
    ensures Pow10(a + b) == Pow10(a) * Pow10(b)
  {
    if a > 0 {
      Pow10Add(a - 1, b);
    }
  }

  lemma {:induction false} Pow10Monotone(a: nat, b: nat)
    requires a <= b
    ensures Pow10(a) <= Pow10(b)
  {
    if a < b {
      Pow10Monotone(a, b - 1);
    }
  }

  /** A positive n lies between the powers of ten its digit count names. */
  lemma {:induction false} NumDigitsBounds(n: nat)
    requires n >= 1
    ensures Pow10(NumDigits(n) - 1) <= n < Pow10(NumDigits(n))
  {
    if n >= 10 {
      NumDigitsBounds(n / 10);
    }
  }

  /** The digit count is determined by the powers of ten around n. */
  lemma {:induction false} NumDigitsOfRange(n: nat, k: nat)
    requires Pow10(k) <= n < Pow10(k + 1)
    ensures NumDigits(n) == k + 1
  {
    if k > 0 {
      NumDigitsOfRange(n / 10, k - 1);
    }
  }

  /** Integer division by u brackets n between consecutive multiples of u. */
  lemma DivBrackets(n: nat, u: nat)
    requires u >= 1
    ensures (n / u) * u <= n < (n / u) * u + u
  {
  }

  /** If lo*u <= n < hi*u then lo <= n / u < hi. */
  lemma DivBetween(n: nat, u: nat, lo: nat, hi: nat)
    requires u >= 1 && lo * u <= n < hi * u
    ensures lo <= n / u < hi
  {
    var q := n / u;
    DivBrackets(n, u);
    if q < lo {
      assert (q + 1) * u <= lo * u by { MulMonotone(q + 1, lo, u); }
    }
  }

  lemma MulMonotone(a: nat, b: nat, u: nat)
    requires a <= b
    ensures a * u <= b * u
  {
  }

  /** Rounding n down to a multiple of u loses less than u, and nothing exactly when u divides n. */
  lemma RoundDown(n: nat, u: nat, v: int)
    requires u >= 1 && v == (n / u) * u
    ensures v <= n < v + u
    ensures v == n <==> n % u == 0
  {
    DivBrackets(n, u);
  }

  lemma MulDivCancel(d: nat, u: nat)
    requires u >= 1
    ensures (d * u) / u == d
  {
    assert (d + 1) * u == d * u + u;
    DivBetween(d * u, u, d, d + 1);
  }

  /** A two-digit multiple of u lies between 10u and 100u. */
  lemma TwoDigitScale(d: nat, u: nat)
    requires 10 <= d <= 99 && u >= 1
    ensures 10 * u <= d * u < 100 * u
  {
    MulMonotone(10, d, u);
    MulMonotone(d + 1, 100, u);
    assert (d + 1) * u == d * u + u;
  }
}
