/** Decimal rounding as the backend applies it to generated values
    (`round(x, 2)` for NDVI values, `round(x, 1)` for scores, areas and
    weather figures), on exact reals: the nearest multiple of 10^-n, with a
    tie going up. */
module Rounding {

  /** Rounds to two decimals (hundredths). */
  function Round2(x: real): (r: real)
    ensures x - 0.005 < r <= x + 0.005
    ensures (r * 100.0).Floor as real == r * 100.0
  {
    var k := (x * 100.0 + 0.5).Floor;
    assert k as real / 100.0 * 100.0 == k as real;
    k as real / 100.0
  }

  /** Rounds to one decimal (tenths). */
  function Round1(x: real): (r: real)
    ensures x - 0.05 < r <= x + 0.05
    ensures (r * 10.0).Floor as real == r * 10.0
  {
    var k := (x * 10.0 + 0.5).Floor;
    assert k as real / 10.0 * 10.0 == k as real;
    k as real / 10.0
  }

  /** A whole number of hundredths is left as it is. */
  lemma Round2OfHundredths(k: int)
    ensures Round2(k as real / 100.0) == k as real / 100.0
  {
    var x := k as real / 100.0;
    assert x * 100.0 == k as real;
    var f := (k as real + 0.5).Floor;
    assert f as real <= k as real + 0.5 < f as real + 1.0;
    assert f == k;
  }

  /** Rounding twice to two decimals is rounding once. */
  lemma Round2Idempotent(x: real)
    ensures Round2(Round2(x)) == Round2(x)
  {
    Round2OfHundredths((x * 100.0 + 0.5).Floor);
  }

  /** Rounding to two decimals preserves order. */
  lemma Round2Monotone(x: real, y: real)
    requires x <= y
    ensures Round2(x) <= Round2(y)
  {
    var a, b := (x * 100.0 + 0.5).Floor, (y * 100.0 + 0.5).Floor;
    assert a as real <= y * 100.0 + 0.5;
    assert a <= b;
  }

  /** A whole number of hundredths scaled by 100 is whole, so one more
      rounding to one decimal leaves it unchanged. */
  lemma Round1OfWhole(k: int)
    ensures Round1(k as real) == k as real
  {
    var f := (k as real * 10.0 + 0.5).Floor;
    assert f as real <= (10 * k) as real + 0.5 < f as real + 1.0;
    assert f == 10 * k;
  }
}
