/**
 * Rounding to two decimals, as the consumer does with
 * `parseFloat(x.toFixed(2))` and the model server with `round(x, 2)`.
 * Scores are exact reals here; ties round upwards.
 */
module Numeric {

  /** `x` is a whole number of hundredths. */
  predicate IsHundredth(x: real) {
    (x * 100.0).Floor as real == x * 100.0
  }

  /** The multiple of 0.01 nearest to `x`, ties going up. */
  function Round2(x: real): (r: real)
    ensures IsHundredth(r)
    ensures x - 0.005 < r <= x + 0.005
  {
    var n := (x * 100.0 + 0.5).Floor;
    assert (n as real / 100.0) * 100.0 == n as real;
    n as real / 100.0
  }

  /** Rounding never leaves an interval whose ends are whole hundredths. */
  lemma Round2Within(x: real, lo: real, hi: real)
    requires IsHundredth(lo) && IsHundredth(hi)
    requires lo <= x <= hi
    ensures lo <= Round2(x) <= hi
  {
    var n := (x * 100.0 + 0.5).Floor;
    var a := (lo * 100.0).Floor;
    var b := (hi * 100.0).Floor;
    assert a as real <= x * 100.0 + 0.5;
    assert a <= n;
    assert n as real <= hi * 100.0 + 0.5 < b as real + 1.0;
    assert n <= b;
  }

  /** Rounding preserves order (not strictly). */
  lemma Round2Monotone(x: real, y: real)
    requires x <= y
    ensures Round2(x) <= Round2(y)
  {
    var n := (x * 100.0 + 0.5).Floor;
    var m := (y * 100.0 + 0.5).Floor;
    assert n as real <= y * 100.0 + 0.5;
    assert n <= m;
  }

  /** A value that already has two decimals is left as it is. */
  lemma Round2Exact(x: real)
    requires IsHundredth(x)
    ensures Round2(x) == x
  {
    var k := (x * 100.0).Floor;
    assert x * 100.0 + 0.5 == k as real + 0.5;
    assert (x * 100.0 + 0.5).Floor == k;
  }

  /** Rounding twice is rounding once. */
  lemma Round2Idempotent(x: real)
    ensures Round2(Round2(x)) == Round2(x)
  {
    Round2Exact(Round2(x));
  }
}
