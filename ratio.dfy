/** Bounds on quotients, shared by the averages and the bar widths. */
module Ratio {

  /** `lo <= x / m <= hi` when `lo * m <= x <= hi * m` and `m` is positive. */
  lemma QuotientWithin(x: real, m: real, lo: real, hi: real)
    requires m > 0.0 && lo * m <= x <= hi * m
    ensures lo <= x / m <= hi
  {
    var q := x / m;
    assert q * m == x;
    if q < lo {
      MulStrict(q, lo, m);
    }
    if q > hi {
      MulStrict(hi, q, m);
    }
  }

  lemma MulStrict(a: real, b: real, m: real)
    requires a < b && m > 0.0
    ensures a * m < b * m
  {
  }

  /** The same for a quotient of integers. */
  lemma DivisionWithin(n: int, w: int, lo: int, hi: int)
    requires w > 0 && lo * w <= n <= hi * w
    ensures lo as real <= n as real / w as real <= hi as real
  {
    assert (lo * w) as real == lo as real * w as real;
    assert (hi * w) as real == hi as real * w as real;
    QuotientWithin(n as real, w as real, lo as real, hi as real);
  }
}
