/** Facts about the weighted means and clamps every scorer computes. */
module Means {

  /** A quotient whose numerator lies between `lo` and `hi` times a positive
      denominator lies between `lo` and `hi`. */
  lemma QuotientBounds(num: real, den: real, lo: real, hi: real)
    requires den > 0.0 && lo * den <= num <= hi * den
    ensures lo <= num / den <= hi
  {
    var q := num / den;
    assert q * den == num;
  }

  lemma ScaleMonotone(a: real, b: real, w: real)
    requires a <= b && w >= 0.0
    ensures a * w <= b * w
  {
    assert b * w - a * w == (b - a) * w;
  }

  /** Adding a weighted term whose value lies between `lo` and `hi` to a sum that
      lies between `lo` and `hi` times its total weight keeps it so. */
  lemma BoundedSumStep(lo: real, hi: real, total: real, sum: real, w: real, x: real, total': real, sum': real)
    requires lo * total <= sum <= hi * total
    requires lo <= x <= hi && w >= 0.0
    requires total' == total + w
    requires sum' == sum + x * w
    ensures lo * total' <= sum' <= hi * total'
  {
    ScaleMonotone(lo, x, w);
    ScaleMonotone(x, hi, w);
    assert lo * (total + w) == lo * total + lo * w;
    assert hi * (total + w) == hi * total + hi * w;
  }

  /** Python's `min(hi, max(lo, x))`. */
  function Clamp(x: real, lo: real, hi: real): (r: real)
    requires lo <= hi
    ensures lo <= r <= hi
    ensures lo <= x <= hi ==> r == x
    ensures x < lo ==> r == lo
    ensures x > hi ==> r == hi
  {
    if x < lo then lo else if x > hi then hi else x
  }
}
