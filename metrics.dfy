/**
 * The rate formulas of the three questions, each with the comparator's rule for a zero
 * denominator. Rates are `real`: the model does not round as floating point does.
 */
module SmellMetrics {

  /** `(part / whole) * 100`, or 0 when `whole` is 0. */
  function Percent(part: nat, whole: nat): (r: real)
    ensures whole == 0 ==> r == 0.0
    ensures part <= whole ==> 0.0 <= r <= 100.0
    ensures whole > 0 ==> (r == 100.0 <==> part == whole)
    ensures whole > 0 ==> (r == 0.0 <==> part == 0)
  {
    if whole > 0 then
      var q := part as real / whole as real;
      assert part <= whole ==> q <= 1.0;
      assert part == whole ==> q == 1.0;
      assert q == 1.0 ==> part == whole;
      q * 100.0
    else 0.0
  }

  /** `num / den if den > 0 else 0` over counts; in [0, 1] when `num <= den`. */
  function Ratio(num: nat, den: nat): (r: real)
    ensures den == 0 ==> r == 0.0
    ensures num <= den ==> 0.0 <= r <= 1.0
  {
    if den > 0 then num as real / den as real else 0.0
  }

  /**
   * When the shared and the two exclusive parts make up the whole, their percentages add
   * up to exactly 100.
   */
  lemma PercentsOfPartition(common: nat, onlyA: nat, onlyB: nat, whole: nat)
    requires common + onlyA + onlyB == whole
    ensures whole > 0 ==> Percent(common, whole) + Percent(onlyA, whole) + Percent(onlyB, whole) == 100.0
  {
    if whole == 0 {
      return;
    }
    var w := whole as real;
    var a, b, c := common as real / w, onlyA as real / w, onlyB as real / w;
    assert a + b + c == (common as real + onlyA as real + onlyB as real) / w == 1.0;
    assert a * 100.0 + b * 100.0 + c * 100.0 == (a + b + c) * 100.0;
  }

  /** Precision, `tp / (tp + fp)`, 0 when nothing was flagged by the first detector. */
  function Precision(tp: nat, fp: nat): (p: real)
    ensures 0.0 <= p <= 1.0
    ensures tp + fp == 0 ==> p == 0.0
    ensures tp == 0 ==> p == 0.0
    ensures p == 1.0 <==> tp > 0 && fp == 0
  {
    Ratio(tp, tp + fp)
  }

  /** Recall, `tp / (tp + fn)`, 0 when nothing was flagged by the second detector. */
  function Recall(tp: nat, fn: nat): (r: real)
    ensures 0.0 <= r <= 1.0
    ensures tp + fn == 0 ==> r == 0.0
    ensures tp == 0 ==> r == 0.0
    ensures r == 1.0 <==> tp > 0 && fn == 0
  {
    Precision(tp, fn)
  }

  /** The harmonic mean `2 p r / (p + r)`, 0 when `p + r` is 0; in [0, 1] for p, r in [0, 1]. */
  function F1(p: real, r: real): (f: real)
    requires 0.0 <= p <= 1.0 && 0.0 <= r <= 1.0
    ensures 0.0 <= f <= 1.0
    ensures p + r == 0.0 ==> f == 0.0
    ensures p == 0.0 || r == 0.0 ==> f == 0.0
    ensures p == r ==> f == p
  {
    if p + r > 0.0 then
      HarmonicMeanBounds(p, r);
      assert p == 0.0 || r == 0.0 ==> 2.0 * p * r == 0.0;
      2.0 * p * r / (p + r)
    else 0.0
  }

  lemma HarmonicMeanBounds(p: real, r: real)
    requires 0.0 <= p <= 1.0 && 0.0 <= r <= 1.0 && p + r > 0.0
    ensures 0.0 <= 2.0 * p * r / (p + r) <= 1.0
    ensures p == r ==> 2.0 * p * r / (p + r) == p
  {
    ProductBelowFactor(p, r);
    ProductBelowFactor(r, p);
    var pr, rp := p * r, r * p;
    assert pr == rp;
    var x := 2.0 * p * r;
    assert x == pr + rp;
    assert pr <= p && rp <= r;
    assert pr + rp <= p + r;
    QuotientInUnit(x, p + r);
    if p == r {
      assert 2.0 * p * r == p * (p + r);
    }
  }

  lemma ProductBelowFactor(a: real, b: real)
    requires 0.0 <= a && 0.0 <= b <= 1.0
    ensures 0.0 <= a * b <= a
  {
    assert a * b <= a * 1.0;
  }

  lemma QuotientInUnit(x: real, s: real)
    requires 0.0 <= x <= s && s > 0.0
    ensures 0.0 <= x / s <= 1.0
  {
  }
}
