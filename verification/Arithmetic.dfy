/** A few facts of multiplication and division that the solver does not find by itself. */
module Arithmetic {
  lemma MulMonotone(a: int, b: int, c: int)
    requires a <= b && 0 <= c
    ensures c * a <= c * b
  {
    assert 0 <= c * (b - a);
    assert c * (b - a) == c * b - c * a;
  }

  /** A non-zero multiple of `d` is at least `d` away from zero. */
  lemma MultipleGrows(d: int, x: int)
    requires d > 0 && x != 0
    ensures d * x >= d || d * x <= -d
  {
    if x > 0 {
      MulMonotone(1, x, d);
    } else {
      MulMonotone(x, -1, d);
    }
  }

  lemma QuotientUnique(v: int, d: int, k: int, r: int)
    requires d > 0 && v == d * k + r && 0 <= r < d
    ensures v % d == r && v / d == k
  {
    var q := v / d;
    assert d * (q - k) == r - v % d;
    if q != k {
      MultipleGrows(d, q - k);
    }
  }

  lemma QuotientAtLeast(v: int, d: int, k: int)
    requires d > 0 && v >= d * k
    ensures v / d >= k
  {
    var q := v / d;
    assert v == d * q + v % d;
    if q < k {
      MulMonotone(q + 1, k, d);
    }
  }

  lemma QuotientAtMost(v: int, d: int)
    requires d > 0 && v >= 0
    ensures v / d <= v
  {
    var q := v / d;
    assert v == d * q + v % d;
    QuotientAtLeast(v, d, 0);
    MulMonotone(1, d, q);
  }
}
