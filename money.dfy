/**
 * Money arithmetic of the billing service on exact reals. JavaScript's
 * `Math.round(x)` rounds half up, which is `floor(x + 1/2)`; the services
 * use it as `Math.round(x * 100) / 100` (two decimals) and
 * `Math.round(x * 100)` (cents for the payment provider).
 */
module Money {

  /** `Math.round(x * 100)`: the nearest whole number of cents, halves rounded up. */
  function Cents(x: real): (c: int)
    ensures x * 100.0 - 0.5 < c as real <= x * 100.0 + 0.5
  {
    (x * 100.0 + 0.5).Floor
  }

  /** `Math.round(x * 100) / 100`: `x` rounded half up to two decimals. */
  function Round2(x: real): (r: real)
    ensures x - 0.005 < r <= x + 0.005
    ensures r * 100.0 == Cents(x) as real
  {
    Cents(x) as real / 100.0
  }

  lemma {:induction false} CentsMonotone(x: real, y: real)
    requires x <= y
    ensures Cents(x) <= Cents(y)
  {
    assert Cents(x) as real <= x * 100.0 + 0.5 <= y * 100.0 + 0.5 < Cents(y) as real + 1.0;
  }

  /** Rounding to two decimals never reverses the order of two amounts. */
  lemma Round2Monotone(x: real, y: real)
    requires x <= y
    ensures Round2(x) <= Round2(y)
  {
    CentsMonotone(x, y);
  }

  /** A whole number of cents rounds to itself. */
  lemma CentsOfWholeCents(n: int)
    ensures Cents(n as real / 100.0) == n
  {
    assert (n as real / 100.0) * 100.0 == n as real;
  }

  /** Rounding an already rounded amount changes nothing. */
  lemma Round2Idempotent(x: real)
    ensures Round2(Round2(x)) == Round2(x)
  {
    CentsOfWholeCents(Cents(x));
  }

  /** The cents charged for a rounded amount are exactly its hundredfold. */
  lemma CentsOfRound2(x: real)
    ensures Cents(Round2(x)) == Cents(x)
  {
    CentsOfWholeCents(Cents(x));
  }
}
