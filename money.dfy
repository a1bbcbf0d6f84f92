/**
 * Amounts of money as exact rationals. The JavaScript side rounds a sum to the
 * cent with `Math.round(x * 100) / 100`; `Math.round` rounds halves towards
 * positive infinity, which is `Floor(y + 1/2)`.
 */
module Money {

  /** `r` is a whole number of cents (agorot). */
  predicate IsWholeCents(r: real) {
    (r * 100.0).Floor as real == r * 100.0
  }

  /** `Math.round(x * 100) / 100`: the nearest whole-cent amount, halves rounded up. */
  function Round2(x: real): (r: real)
    ensures IsWholeCents(r)
    ensures x - 0.005 < r <= x + 0.005
  {
    var cents := (x * 100.0 + 0.5).Floor;
    assert (cents as real * 100.0 / 100.0).Floor == cents;
    cents as real / 100.0
  }

  /** Rounding leaves an amount alone exactly when it is already whole cents. */
  lemma Round2FixesWholeCents(x: real)
    ensures Round2(x) == x <==> IsWholeCents(x)
  {
    if IsWholeCents(x) {
      var n := (x * 100.0).Floor;
      assert (x * 100.0 + 0.5).Floor == n;
    }
  }

  /** Rounding twice is rounding once. */
  lemma Round2Idempotent(x: real)
    ensures Round2(Round2(x)) == Round2(x)
  {
    Round2FixesWholeCents(Round2(x));
  }

  /** Rounding preserves order. */
  lemma Round2Monotonic(x: real, y: real)
    requires x <= y
    ensures Round2(x) <= Round2(y)
  {
    assert (x * 100.0 + 0.5).Floor <= (y * 100.0 + 0.5).Floor;
  }

  /** A non-negative amount rounds to a non-negative amount. */
  lemma Round2NonNegative(x: real)
    requires x >= 0.0
    ensures Round2(x) >= 0.0
  {
    Round2Monotonic(0.0, x);
    Round2FixesWholeCents(0.0);
  }
}
