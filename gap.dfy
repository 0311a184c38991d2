/**
 * The ratio formulas every script repeats: a gap ratio (a value over a
 * reference, in percent), the gap percentage, the fair-value estimate that
 * back-solves an average gap ratio, and a percentage change.
 */
module Gap {

  /** `(x / reference) * 100`: the value as a percentage of the reference. */
  function GapRatio(x: real, reference: real): (r: real)
    requires reference != 0.0
    ensures r * reference == x * 100.0
  {
    assert (x / reference) * reference == x;
    (x / reference) * 100.0
  }

  /** `((x - reference) / reference) * 100` */
  function GapPercentage(x: real, reference: real): (p: real)
    requires reference != 0.0
    ensures p == GapRatio(x, reference) - 100.0
  {
    var q := (x - reference) / reference;
    assert q * reference == x - reference;
    assert (x / reference - 1.0) * reference == x - reference;
    CancelFactor(q, x / reference - 1.0, reference);
    q * 100.0
  }

  /** `(x / avg_gap_ratio) * 100`: the value at which `x` would sit exactly at the average gap ratio. */
  function Estimate(x: real, avgGapRatio: real): (e: real)
    requires avgGapRatio != 0.0
    ensures e * avgGapRatio == x * 100.0
    ensures avgGapRatio > 0.0 ==> (x > 0.0 <==> e > 0.0)
  {
    var q := x / avgGapRatio;
    assert q * avgGapRatio == x;
    q * 100.0
  }

  /** `r` and `x` are reciprocal: their product is one. */
  predicate Inverse(r: real, x: real) {
    r * x == 1.0
  }

  /** `1 / x`: JPY/KRW from KRW/JPY. */
  function Reciprocal(x: real): (r: real)
    requires x != 0.0
    ensures Inverse(r, x) && r != 0.0
    ensures x > 0.0 <==> r > 0.0
  {
    1.0 / x
  }

  /** The reciprocal of a positive value is positive. */
  lemma InversePositive(r: real, x: real)
    requires Inverse(r, x) && x > 0.0
    ensures r > 0.0
  {
  }

  /** Between positive values, taking reciprocals reverses the order. */
  lemma ReciprocalReverses(x: real, y: real)
    requires x > 0.0 && y > 0.0
    ensures Reciprocal(x) > Reciprocal(y) <==> x < y
  {
    var rx, ry := Reciprocal(x), Reciprocal(y);
    assert rx * x == 1.0 && ry * y == 1.0;
    // (rx - ry) * x * y == y - x, so the two differences share their sign
    assert (rx - ry) * (x * y) == (rx * x) * y - (ry * y) * x;
    assert (rx - ry) * (x * y) == y - x;
    assert x * y > 0.0;
  }

  /** `((later - now) / now) * 100` */
  function PercentChange(now: real, later: real): (p: real)
    requires now != 0.0
    ensures now > 0.0 ==> (p > 0.0 <==> later > now) && (p == 0.0 <==> later == now)
  {
    var q := (later - now) / now;
    assert q * now == later - now;
    q * 100.0
  }

  /** Against a positive reference, the gap ratio exceeds `g` exactly when `100 * x` exceeds `g * reference`. */
  lemma GapRatioAbove(x: real, reference: real, g: real)
    requires reference > 0.0
    ensures GapRatio(x, reference) > g <==> x * 100.0 > g * reference
  {
  }

  /** For a positive average gap ratio `g`, a value `y` lies below the estimate exactly when `y * g < 100 * x`. */
  lemma BelowEstimate(y: real, x: real, g: real)
    requires g > 0.0
    ensures y < Estimate(x, g) <==> y * g < x * 100.0
  {
    assert Estimate(x, g) * g == x * 100.0;
  }

  /** Multiplying both sides by the same positive factor keeps a strict order, both ways. */
  lemma ScaleOrder(a: real, b: real, k: real)
    requires k > 0.0
    ensures a > b <==> a * k > b * k
  {
    assert a * k - b * k == (a - b) * k;
  }

  /** Two values that agree after multiplying by the same nonzero factor are equal. */
  lemma CancelFactor(a: real, b: real, k: real)
    requires k != 0.0 && a * k == b * k
    ensures a == b
  {
    assert (a - b) * k == 0.0;
  }
}
