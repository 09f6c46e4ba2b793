/** Integer arithmetic behind the game's updates: Python's `round` applied to
    the products the game computes, and the powers of ten of the number
    formatter's magnitude table. */
module Numbers {

  /** `round(n * 1.2)`. The exact product 6n/5 has a fractional part that is a
      multiple of 1/5, so it is never a tie and Python's round-half-to-even is
      plain rounding to the nearest integer. The result is the unique integer
      within 2/5 of 6n/5. */
  function RoundSixFifths(n: int): (r: int)
    ensures -2 <= 5 * r - 6 * n <= 2
  {
    (6 * n + 2) / 5
  }

  /** No other integer is as close to 6n/5: the rounding is determined. */
  lemma RoundSixFifthsUnique(n: int, m: int)
    requires -2 <= 5 * m - 6 * n <= 2
    ensures m == RoundSixFifths(n)
  {
  }

  /** Rounding up by a fifth never shrinks a non-negative amount, and strictly
      grows any amount of at least 3. */
  lemma RoundSixFifthsGrows(n: int)
    requires n >= 0
    ensures n <= RoundSixFifths(n)
    ensures n >= 3 ==> n < RoundSixFifths(n)
  {
  }

  function Max(a: int, b: int): (m: int)
    ensures m >= a && m >= b
    ensures m == a || m == b
  {
    if a >= b then a else b
  }

  function Pow10(e: nat): (p: nat)
    ensures p >= 1
  {
    if e == 0 then 1 else 10 * Pow10(e - 1)
  }

  /** Powers of ten are strictly increasing in the exponent. */
  lemma {:induction false} Pow10Increasing(a: nat, b: nat)
    requires a < b
    ensures Pow10(a) < Pow10(b)
  {
    if b == a + 1 {
      assert Pow10(b) == 10 * Pow10(a);
    } else {
      Pow10Increasing(a, b - 1);
      assert Pow10(b) == 10 * Pow10(b - 1);
    }
  }
}
