/**
  Window sums over real series: the aggregates the kernels keep running
  (a sum, a sum of squares, a sum of cross-products) and the algebra that
  lets a window slide by one sample.
 */
module Sums {

  /** The sum of s[lo..hi), accumulated left to right. */
  function Sum(s: seq<real>, lo: int, hi: int): real
    requires 0 <= lo <= hi <= |s|
    decreases hi - lo
  {
    if lo == hi then 0.0 else Sum(s, lo, hi - 1) + s[hi - 1]
  }

  /** A window sum can also be taken apart at its oldest element. */
  lemma {:induction false} SumDropFirst(s: seq<real>, lo: int, hi: int)
    requires 0 <= lo < hi <= |s|
    ensures Sum(s, lo, hi) == s[lo] + Sum(s, lo + 1, hi)
  {
    if lo + 1 < hi {
      SumDropFirst(s, lo, hi - 1);
    }
  }

  /** Sliding a window one step: add the newest sample, drop the oldest. */
  lemma SumSlide(s: seq<real>, lo: int, hi: int)
    requires 0 <= lo < hi < |s|
    ensures Sum(s, lo + 1, hi + 1) == Sum(s, lo, hi) - s[lo] + s[hi]
  {
    SumDropFirst(s, lo, hi);
  }

  /** A window whose samples all equal c sums to (hi - lo) * c. */
  lemma {:induction false} SumConst(s: seq<real>, lo: int, hi: int, c: real)
    requires 0 <= lo <= hi <= |s|
    requires forall k :: lo <= k < hi ==> s[k] == c
    ensures Sum(s, lo, hi) == (hi - lo) as real * c
  {
    if lo < hi {
      SumConst(s, lo, hi - 1, c);
    }
  }

  /** Every t[k] on the window is a * u[k] + b * w[k]. */
  predicate LinearOn(t: seq<real>, u: seq<real>, w: seq<real>, lo: int, hi: int, a: real, b: real)
    requires 0 <= lo <= hi <= |t| && hi <= |u| && hi <= |w|
  {
    forall k :: lo <= k < hi ==> t[k] == a * u[k] + b * w[k]
  }

  /**
    Linearity: when every t[k] is a * u[k] + b * w[k] on the window, the
    window sums obey the same combination.
   */
  lemma {:induction false} SumLinear(t: seq<real>, u: seq<real>, w: seq<real>, lo: int, hi: int,
                                     a: real, b: real)
    requires 0 <= lo <= hi <= |t| && hi <= |u| && hi <= |w|
    requires LinearOn(t, u, w, lo, hi, a, b)
    ensures Sum(t, lo, hi) == a * Sum(u, lo, hi) + b * Sum(w, lo, hi)
  {
    if lo < hi {
      SumLinear(t, u, w, lo, hi - 1, a, b);
      assert t[hi - 1] == a * u[hi - 1] + b * w[hi - 1];
      assert a * Sum(u, lo, hi) == a * Sum(u, lo, hi - 1) + a * u[hi - 1];
      assert b * Sum(w, lo, hi) == b * Sum(w, lo, hi - 1) + b * w[hi - 1];
    }
  }

  /** Two series that agree on a window have the same window sum. */
  lemma {:induction false} SumAgree(s: seq<real>, t: seq<real>, lo: int, hi: int)
    requires 0 <= lo <= hi <= |s| && hi <= |t|
    requires forall k :: lo <= k < hi ==> s[k] == t[k]
    ensures Sum(s, lo, hi) == Sum(t, lo, hi)
  {
    if lo < hi {
      SumAgree(s, t, lo, hi - 1);
    }
  }

  /** A window of non-negative samples has a non-negative sum. */
  lemma {:induction false} SumNonNegative(s: seq<real>, lo: int, hi: int)
    requires 0 <= lo <= hi <= |s|
    requires forall k :: lo <= k < hi ==> s[k] >= 0.0
    ensures Sum(s, lo, hi) >= 0.0
  {
    if lo < hi {
      SumNonNegative(s, lo, hi - 1);
    }
  }

  /** A window of samples in [a, b] sums to between (hi - lo) * a and (hi - lo) * b. */
  lemma {:induction false} SumBetween(s: seq<real>, lo: int, hi: int, a: real, b: real)
    requires 0 <= lo <= hi <= |s|
    requires forall k :: lo <= k < hi ==> a <= s[k] <= b
    ensures (hi - lo) as real * a <= Sum(s, lo, hi) <= (hi - lo) as real * b
  {
    if lo < hi {
      SumBetween(s, lo, hi - 1, a, b);
      assert (hi - lo) as real * a == (hi - 1 - lo) as real * a + a;
      assert (hi - lo) as real * b == (hi - 1 - lo) as real * b + b;
    }
  }

  /** A total between n * a and n * b has its mean between a and b. */
  lemma MeanBetween(total: real, n: real, a: real, b: real)
    requires n > 0.0
    requires n * a <= total <= n * b
    ensures a <= total / n <= b
  {
    assert total / n - a == (total - n * a) / n;
    assert b - total / n == (n * b - total) / n;
  }

  /** A product of two non-negative reals is non-negative. */
  lemma MulNonNeg(x: real, y: real)
    requires x >= 0.0 && y >= 0.0
    ensures x * y >= 0.0
  {
  }

  /** Division by a positive count distributes over a sum. */
  lemma DivAdd(a: real, b: real, p: real)
    requires p > 0.0
    ensures a / p + b / p == (a + b) / p
  {
  }

  /** The element-wise squares of a series. */
  function Squares(xs: seq<real>): (r: seq<real>)
    ensures |r| == |xs| && forall k :: 0 <= k < |xs| ==> r[k] == xs[k] * xs[k]
  {
    seq(|xs|, k requires 0 <= k < |xs| => xs[k] * xs[k])
  }

  /** The element-wise products of two series of equal length. */
  function Products(xs: seq<real>, ys: seq<real>): (r: seq<real>)
    requires |xs| == |ys|
    ensures |r| == |xs| && forall k :: 0 <= k < |xs| ==> r[k] == xs[k] * ys[k]
  {
    seq(|xs|, k requires 0 <= k < |xs| => xs[k] * ys[k])
  }
}
