/**
 * Two-decimal rounding as the game uses it: `+(x.toFixed(2))`.
 *
 * On exact reals, `toFixed(2)` picks the hundredth nearest to its argument,
 * the larger one on a tie, after taking the sign off; `+(...)` reads the
 * digits back as a number. So a non-negative value is rounded half-up and a
 * negative one is rounded as its absolute value and negated.
 */
module Rounding {

  /** True when `x` has no digits beyond the hundredths. */
  predicate IsHundredths(x: real) {
    (x * 100.0).Floor as real == x * 100.0
  }

  /** Half-up rounding of a non-negative value to hundredths. */
  function HalfUp(x: real): (r: real)
    requires x >= 0.0
    ensures r >= 0.0 && IsHundredths(r)
    ensures r - 0.005 <= x < r + 0.005
  {
    var n := (x * 100.0 + 0.5).Floor;
    assert n as real * 0.01 * 100.0 == n as real;
    n as real / 100.0
  }

  /** `+(x.toFixed(2))` on an exact real. */
  function Round2(x: real): (r: real)
    ensures IsHundredths(r)
    ensures -0.005 <= r - x <= 0.005
    ensures x >= 0.0 ==> r >= 0.0 && r - 0.005 <= x < r + 0.005
    ensures x < 0.0 ==> r <= 0.0 && r - 0.005 < x <= r + 0.005
  {
    if x < 0.0 then
      var a := HalfUp(-x);
      assert (-a * 100.0).Floor == -((a * 100.0).Floor);
      -a
    else HalfUp(x)
  }

  /** A value already on the hundredths grid is left as it is. */
  lemma Round2Fixes(x: real)
    requires IsHundredths(x)
    ensures Round2(x) == x
  {
    var n := (x * 100.0).Floor;
    if x < 0.0 {
      assert (-x * 100.0 + 0.5).Floor == -n;
    } else {
      assert (x * 100.0 + 0.5).Floor == n;
    }
  }

  /** Rounding twice is rounding once. */
  lemma Round2Idempotent(x: real)
    ensures Round2(Round2(x)) == Round2(x)
  {
    Round2Fixes(Round2(x));
  }

  /** Rounding never reverses the order of two values. */
  lemma Round2Monotone(x: real, y: real)
    requires x <= y
    ensures Round2(x) <= Round2(y)
  {
    if 0.0 <= x {
      assert (x * 100.0 + 0.5).Floor <= (y * 100.0 + 0.5).Floor;
    } else if 0.0 <= y {
    } else {
      assert (-y * 100.0 + 0.5).Floor <= (-x * 100.0 + 0.5).Floor;
    }
  }
}
