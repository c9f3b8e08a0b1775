/**
  Pearson correlation over a rolling window (kand/src/ta/stats/correl.rs).
  The kernel keeps five running window sums (x, y, x squared, y squared,
  x times y), slides them by one sample per index, and turns them into
  (n Sxy - Sx Sy) / sqrt((n Sxx - Sx^2) (n Syy - Sy^2)), or NaN when that
  square root is not positive. The square root is a parameter: any function
  that is a square root on the non-negative reals.
 */
module Correl {
  import opened Kand
  import opened Sums

  /** `sqrt` returns the non-negative square root of every non-negative real. */
  ghost predicate IsSqrt(sqrt: real -> real) {
    forall x: real :: 0.0 <= x ==> 0.0 <= sqrt(x) && sqrt(x) * sqrt(x) == x
  }

  lemma MulPos(x: real, y: real)
    requires x > 0.0 && y > 0.0
    ensures x * y > 0.0
  {
  }

  lemma SquarePos(x: real)
    requires x != 0.0
    ensures x * x > 0.0
  {
    if x < 0.0 {
      MulPos(-x, -x);
    } else {
      MulPos(x, x);
    }
  }

  lemma ZeroFactor(x: real, t: real)
    requires t > 0.0 && x * t == 0.0
    ensures x == 0.0
  {
    if x > 0.0 {
      MulPos(x, t);
    } else if x < 0.0 {
      MulPos(-x, t);
    }
  }

  /** Squaring is strictly increasing on the non-negative reals. */
  lemma SquareStrictlyIncreasing(u: real, v: real)
    requires 0.0 <= u < v
    ensures u * u < v * v
  {
    MulPos(v - u, v + u);
    assert v * v - u * u == (v - u) * (v + u);
  }

  /** On non-negative reals the square root is positive exactly when its argument is. */
  lemma SqrtPositiveIff(sqrt: real -> real, x: real)
    requires IsSqrt(sqrt) && 0.0 <= x
    ensures sqrt(x) > 0.0 <==> x > 0.0
  {
    var r := sqrt(x);
    assert r >= 0.0 && r * r == x;
    if r > 0.0 {
      SquareStrictlyIncreasing(0.0, r);
    }
  }

  /** The square root of x is the non-negative t whose square is x. */
  lemma SqrtOfSquare(sqrt: real -> real, x: real, t: real)
    requires IsSqrt(sqrt) && 0.0 <= t && 0.0 <= x && t * t == x
    ensures sqrt(x) == t
  {
    var r := sqrt(x);
    assert r >= 0.0 && r * r == x;
    if r > t {
      SquareStrictlyIncreasing(t, r);
    } else if r < t {
      SquareStrictlyIncreasing(r, t);
    }
  }

  /** The lookback: period - 1; with `check` periods below 2 are rejected. */
  function Lookback(cfg: Config, period: nat): (r: Result<nat>)
    requires cfg.check || period >= 1
    ensures r.Err? <==> cfg.check && period < 2
    ensures r.Err? ==> r.error == InvalidParameter
    ensures r.Ok? ==> r.value + 1 == period
  {
    if cfg.check && period < 2 then Err(InvalidParameter) else Ok(period - 1)
  }

  /** The five window sums: x, y, x squared, y squared, x times y. */
  datatype WindowSums = WindowSums(s0: real, s1: real, s00: real, s11: real, s01: real)

  /** The window sums of the `period` sample pairs ending at index i. */
  function SumsAt(xs: seq<real>, ys: seq<real>, period: nat, i: nat): (r: WindowSums)
    requires |ys| == |xs|
    requires period <= i + 1 <= |xs|
  {
    var lo := i + 1 - period;
    WindowSums(Sum(xs, lo, i + 1), Sum(ys, lo, i + 1), Sum(Squares(xs), lo, i + 1),
               Sum(Squares(ys), lo, i + 1), Sum(Products(xs, ys), lo, i + 1))
  }

  /** The numerator n Sxy - Sx Sy. */
  function Numerator(n: real, s: WindowSums): real {
    n * s.s01 - s.s0 * s.s1
  }

  /** The first factor of the denominator, n Sxx - Sx^2. */
  function Denom0(n: real, s: WindowSums): real {
    n * s.s00 - s.s0 * s.s0
  }

  /** The second factor of the denominator, n Syy - Sy^2. */
  function Denom1(n: real, s: WindowSums): real {
    n * s.s11 - s.s1 * s.s1
  }

  /**
    The correlation from window sums: the numerator over the square root of
    the denominator product when that product is positive (so its square
    root is too), NaN otherwise.
   */
  function Pearson(sqrt: real -> real, n: real, s: WindowSums): (r: Val)
    requires IsSqrt(sqrt)
    ensures r.Num? <==> Denom0(n, s) * Denom1(n, s) > 0.0
    ensures r.Num? ==> r.v * sqrt(Denom0(n, s) * Denom1(n, s)) == Numerator(n, s)
  {
    var denominator := Denom0(n, s) * Denom1(n, s);
    if denominator > 0.0 then
      SqrtPositiveIff(sqrt, denominator);
      Num(Numerator(n, s) / sqrt(denominator))
    else NaN
  }

  /** The correlation at index i over `period` samples. */
  function CorrelAt(sqrt: real -> real, xs: seq<real>, ys: seq<real>, period: nat, i: nat): Val
    requires IsSqrt(sqrt)
    requires |ys| == |xs|
    requires period <= i + 1 <= |xs|
  {
    Pearson(sqrt, period as real, SumsAt(xs, ys, period, i))
  }

  /**
    Sliding the sums by one pair: subtract the leaving pair's terms, add the
    entering pair's (the squares and cross-product as the source orders them).
   */
  function Slide(s: WindowSums, new0: real, new1: real, old0: real, old1: real): WindowSums {
    WindowSums(s.s0 - old0 + new0, s.s1 - old1 + new1,
               new0 * new0 + (old0 * -old0 + s.s00),
               new1 * new1 + (old1 * -old1 + s.s11),
               new0 * new1 + (old0 * -old1 + s.s01))
  }

  /** Sliding the sums at i - 1 by the pairs at i and i - period gives the sums at i. */
  lemma SlideMatchesWindow(xs: seq<real>, ys: seq<real>, period: nat, i: nat)
    requires |ys| == |xs|
    requires 1 <= period <= i < |xs|
    ensures Slide(SumsAt(xs, ys, period, i - 1), xs[i], ys[i], xs[i - period], ys[i - period])
      == SumsAt(xs, ys, period, i)
  {
    var lo := i - period;
    SumSlide(xs, lo, i);
    SumSlide(ys, lo, i);
    SumSlide(Squares(xs), lo, i);
    SumSlide(Squares(ys), lo, i);
    SumSlide(Products(xs, ys), lo, i);
    assert xs[lo] * -xs[lo] == -(xs[lo] * xs[lo]);
    assert ys[lo] * -ys[lo] == -(ys[lo] * ys[lo]);
    assert xs[lo] * -ys[lo] == -(xs[lo] * ys[lo]);
  }

  /** The six output buffers are distinct. */
  predicate Distinct(a: array<Val>, b: array<Val>, c: array<Val>, d: array<Val>, e: array<Val>, f: array<Val>) {
    a != b && a != c && a != d && a != e && a != f &&
    b != c && b != d && b != e && b != f &&
    c != d && c != e && c != f &&
    d != e && d != f &&
    e != f
  }

  /** The six output buffers are distinct and all have length n. */
  predicate Buffers(a: array<Val>, b: array<Val>, c: array<Val>, d: array<Val>, e: array<Val>, f: array<Val>, n: nat) {
    Distinct(a, b, c, d, e, f) &&
    a.Length == n && b.Length == n && c.Length == n && d.Length == n && e.Length == n && f.Length == n
  }

  /** One index of the six outputs: the correlation and the five sums. */
  datatype Row = Row(correl: Val, sum0: Val, sum1: Val, sum00: Val, sum11: Val, sum01: Val)

  /** The row holding correlation `c` and window sums `s`. */
  function RowOf(c: Val, s: WindowSums): Row {
    Row(c, Num(s.s0), Num(s.s1), Num(s.s00), Num(s.s11), Num(s.s01))
  }

  /** The row the kernel writes before the lookback. */
  const NaNRow := Row(NaN, NaN, NaN, NaN, NaN, NaN)

  /** The row at index k of the six buffers. */
  ghost function RowAt(outCorrel: array<Val>, out0: array<Val>, out1: array<Val>,
                       out00: array<Val>, out11: array<Val>, out01: array<Val>, k: nat): Row
    reads outCorrel, out0, out1, out00, out11, out01
    requires k < outCorrel.Length && k < out0.Length && k < out1.Length
    requires k < out00.Length && k < out11.Length && k < out01.Length
  {
    Row(outCorrel[k], out0[k], out1[k], out00[k], out11[k], out01[k])
  }

  /** Writes one row of the six buffers and nothing else. */
  method WriteRow(outCorrel: array<Val>, out0: array<Val>, out1: array<Val>,
                  out00: array<Val>, out11: array<Val>, out01: array<Val>, n: nat, k: nat, row: Row)
    requires Buffers(outCorrel, out0, out1, out00, out11, out01, n) && k < n
    modifies outCorrel, out0, out1, out00, out11, out01
    ensures RowAt(outCorrel, out0, out1, out00, out11, out01, k) == row
    ensures forall j :: 0 <= j < n && j != k ==>
      RowAt(outCorrel, out0, out1, out00, out11, out01, j) == old(RowAt(outCorrel, out0, out1, out00, out11, out01, j))
  {
    outCorrel[k] := row.correl;
    out0[k] := row.sum0;
    out1[k] := row.sum1;
    out00[k] := row.sum00;
    out11[k] := row.sum11;
    out01[k] := row.sum01;
  }

  /** The seed loop: the five sums over the first `period` pairs. */
  method SeedSums(xs: seq<real>, ys: seq<real>, period: nat) returns (s: WindowSums)
    requires 1 <= period <= |xs| && |ys| == |xs|
    ensures s == SumsAt(xs, ys, period, period - 1)
  {
    var sum0, sum1, sum00, sum11, sum01 := 0.0, 0.0, 0.0, 0.0, 0.0;
    for i := 0 to period
      invariant sum0 == Sum(xs, 0, i) && sum1 == Sum(ys, 0, i)
      invariant sum00 == Sum(Squares(xs), 0, i) && sum11 == Sum(Squares(ys), 0, i)
      invariant sum01 == Sum(Products(xs, ys), 0, i)
    {
      var val0 := xs[i];
      var val1 := ys[i];
      sum0 := sum0 + val0;
      sum1 := sum1 + val1;
      sum00 := sum00 + val0 * val0;
      sum11 := sum11 + val1 * val1;
      sum01 := sum01 + val0 * val1;
    }
    s := WindowSums(sum0, sum1, sum00, sum11, sum01);
  }

  /**
    The batch kernel after validation: the five sums over the first window,
    then one slide per index, each followed by the correlation. Entries
    before the lookback are not touched.
   */
  method CorrelRaw(sqrt: real -> real, xs: seq<real>, ys: seq<real>, period: nat,
                   outCorrel: array<Val>, out0: array<Val>, out1: array<Val>,
                   out00: array<Val>, out11: array<Val>, out01: array<Val>)
    requires IsSqrt(sqrt)
    requires 1 <= period <= |xs| && |ys| == |xs|
    requires Buffers(outCorrel, out0, out1, out00, out11, out01, |xs|)
    modifies outCorrel, out0, out1, out00, out11, out01
    ensures forall i :: period - 1 <= i < |xs| ==>
      RowAt(outCorrel, out0, out1, out00, out11, out01, i)
        == RowOf(CorrelAt(sqrt, xs, ys, period, i), SumsAt(xs, ys, period, i))
    ensures forall i :: 0 <= i < period - 1 ==>
      RowAt(outCorrel, out0, out1, out00, out11, out01, i) == old(RowAt(outCorrel, out0, out1, out00, out11, out01, i))
  {
    var len := |xs|;
    var lookback := period - 1;
    var sums := SeedSums(xs, ys, period);
    var n := period as real;
    WriteRow(outCorrel, out0, out1, out00, out11, out01, len, lookback, RowOf(Pearson(sqrt, n, sums), sums));
    for i := period to len
      invariant sums == SumsAt(xs, ys, period, i - 1)
      invariant forall k :: lookback <= k < i ==>
        RowAt(outCorrel, out0, out1, out00, out11, out01, k)
          == RowOf(CorrelAt(sqrt, xs, ys, period, k), SumsAt(xs, ys, period, k))
      invariant forall k :: 0 <= k < lookback ==>
        RowAt(outCorrel, out0, out1, out00, out11, out01, k) == old(RowAt(outCorrel, out0, out1, out00, out11, out01, k))
    {
      SlideMatchesWindow(xs, ys, period, i);
      sums := Slide(sums, xs[i], ys[i], xs[i - period], ys[i - period]);
      WriteRow(outCorrel, out0, out1, out00, out11, out01, len, i, RowOf(Pearson(sqrt, n, sums), sums));
    }
  }

  /** The checks of `correl`, in the order the source runs them (the second period check can never fire). */
  function Checks(cfg: Config, x: seq<Val>, y: seq<Val>, period: nat,
                  outLen0: nat, outLen1: nat, outLen2: nat, outLen3: nat, outLen4: nat, outLen5: nat)
    : seq<Check>
  {
    var len := |x|;
    [ Check(cfg.check && period < 2, InvalidParameter),
      Check(cfg.check && len == 0, InvalidData),
      Check(cfg.check && len <= period - 1, InsufficientData),
      Check(cfg.check && (len != |y| || len != outLen0 || len != outLen1 || len != outLen2 ||
                          len != outLen3 || len != outLen4 || len != outLen5), LengthMismatch),
      Check(cfg.check && period < 2, InvalidParameter),
      Check(cfg.checkNan && !(NoNaN(x) && NoNaN(y)), NaNDetected) ]
  }

  /**
    The batch kernel: validation first (nothing is written on error), then
    from the lookback on the window sums and the correlation, and NaN in
    all six outputs before the lookback (whatever `allowNan` says).
   */
  method Correl(cfg: Config, sqrt: real -> real, x: seq<Val>, y: seq<Val>, period: nat,
                outCorrel: array<Val>, out0: array<Val>, out1: array<Val>,
                out00: array<Val>, out11: array<Val>, out01: array<Val>) returns (r: Result<()>)
    requires IsSqrt(sqrt)
    requires Distinct(outCorrel, out0, out1, out00, out11, out01)
    requires !cfg.check ==> 1 <= period <= |x| && |y| == |x| && Buffers(outCorrel, out0, out1, out00, out11, out01, |x|)
    requires !cfg.checkNan ==> NoNaN(x) && NoNaN(y)
    modifies outCorrel, out0, out1, out00, out11, out01
    ensures r == FirstFailure(Checks(cfg, x, y, period, outCorrel.Length, out0.Length, out1.Length,
                                     out00.Length, out11.Length, out01.Length))
    ensures r.Err? ==> (outCorrel[..] == old(outCorrel[..]) && out0[..] == old(out0[..]) &&
      out1[..] == old(out1[..]) && out00[..] == old(out00[..]) && out11[..] == old(out11[..]) &&
      out01[..] == old(out01[..]))
    ensures r.Ok? ==> (NoNaN(x) && NoNaN(y) && 1 <= period <= |x| && |y| == |x| &&
      Buffers(outCorrel, out0, out1, out00, out11, out01, |x|))
    ensures r.Ok? ==> forall i :: period - 1 <= i < |x| ==>
      RowAt(outCorrel, out0, out1, out00, out11, out01, i)
        == RowOf(CorrelAt(sqrt, Reals(x), Reals(y), period, i), SumsAt(Reals(x), Reals(y), period, i))
    ensures r.Ok? ==> forall i :: 0 <= i < period - 1 ==>
      RowAt(outCorrel, out0, out1, out00, out11, out01, i) == NaNRow
  {
    var checks := Checks(cfg, x, y, period, outCorrel.Length, out0.Length, out1.Length,
                         out00.Length, out11.Length, out01.Length);
    r := FirstFailure(checks);
    if r.Err? {
      return;
    }
    assert !checks[0].fails && !checks[1].fails && !checks[2].fails && !checks[3].fails && !checks[5].fails;
    var len := |x|;
    var lookback := Lookback(cfg, period).value;
    ghost var xs, ys := Reals(x), Reals(y);
    CorrelRaw(sqrt, Reals(x), Reals(y), period, outCorrel, out0, out1, out00, out11, out01);
    for i := 0 to lookback
      invariant forall k :: 0 <= k < i ==> RowAt(outCorrel, out0, out1, out00, out11, out01, k) == NaNRow
      invariant forall k :: lookback <= k < len ==>
        RowAt(outCorrel, out0, out1, out00, out11, out01, k)
          == RowOf(CorrelAt(sqrt, xs, ys, period, k), SumsAt(xs, ys, period, k))
    {
      WriteRow(outCorrel, out0, out1, out00, out11, out01, len, i, NaNRow);
    }
  }

  /** The result of one streaming step: the correlation and the five new sums. */
  datatype Step = Step(correl: Val, sums: WindowSums)

  /** Some input of the streaming step is NaN. */
  predicate AnyNaN(new0: Val, new1: Val, old0: Val, old1: Val,
                   prev0: Val, prev1: Val, prev00: Val, prev11: Val, prev01: Val) {
    new0.NaN? || new1.NaN? || old0.NaN? || old1.NaN? ||
    prev0.NaN? || prev1.NaN? || prev00.NaN? || prev11.NaN? || prev01.NaN?
  }

  /**
    One streaming step: with `check` a period below 2 is rejected, with
    `check-nan` any NaN among the nine inputs; otherwise the previous sums
    slide by the entering and leaving pairs and give the new correlation.
   */
  function CorrelInc(cfg: Config, sqrt: real -> real, new0: Val, new1: Val, old0: Val, old1: Val,
                     prev0: Val, prev1: Val, prev00: Val, prev11: Val, prev01: Val, period: nat): (r: Result<Step>)
    requires IsSqrt(sqrt)
    requires !cfg.checkNan ==> !AnyNaN(new0, new1, old0, old1, prev0, prev1, prev00, prev11, prev01)
    ensures r.Err? <==> ((cfg.check && period < 2) ||
      (cfg.checkNan && AnyNaN(new0, new1, old0, old1, prev0, prev1, prev00, prev11, prev01)))
    ensures cfg.check && period < 2 ==> r == Err(InvalidParameter)
    ensures (!(cfg.check && period < 2) && cfg.checkNan &&
             AnyNaN(new0, new1, old0, old1, prev0, prev1, prev00, prev11, prev01)) ==> r == Err(NaNDetected)
    ensures r.Ok? ==>
      var sums := Slide(WindowSums(prev0.v, prev1.v, prev00.v, prev11.v, prev01.v), new0.v, new1.v, old0.v, old1.v);
      r.value == Step(Pearson(sqrt, period as real, sums), sums)
  {
    if cfg.check && period < 2 then Err(InvalidParameter)
    else if cfg.checkNan && AnyNaN(new0, new1, old0, old1, prev0, prev1, prev00, prev11, prev01) then
      Err(NaNDetected)
    else
      var sums := Slide(WindowSums(prev0.v, prev1.v, prev00.v, prev11.v, prev01.v), new0.v, new1.v, old0.v, old1.v);
      Ok(Step(Pearson(sqrt, period as real, sums), sums))
  }

  /**
    Batch/streaming agreement: fed the pairs at i and i - period and the
    batch sums at i - 1, the streaming step returns the batch sums and
    correlation at i.
   */
  lemma CorrelIncMatchesBatch(cfg: Config, sqrt: real -> real, xs: seq<real>, ys: seq<real>, period: nat, i: nat)
    requires IsSqrt(sqrt)
    requires |ys| == |xs|
    requires 2 <= period <= i < |xs|
    ensures var s := SumsAt(xs, ys, period, i - 1);
      CorrelInc(cfg, sqrt, Num(xs[i]), Num(ys[i]), Num(xs[i - period]), Num(ys[i - period]),
                Num(s.s0), Num(s.s1), Num(s.s00), Num(s.s11), Num(s.s01), period)
        == Ok(Step(CorrelAt(sqrt, xs, ys, period, i), SumsAt(xs, ys, period, i)))
  {
    SlideMatchesWindow(xs, ys, period, i);
  }

  lemma SquareOfAffine(x: real, y: real, a: real, b: real)
    requires y == a * x + b
    ensures y * y == a * (x * y) + b * y
  {
  }

  lemma ProductWithAffine(x: real, a: real, b: real)
    ensures x * (a * x + b) == a * (x * x) + b * x
  {
  }

  /** Every y[k] on the window [lo, hi) is a x[k] + b. */
  predicate AffineOn(xs: seq<real>, ys: seq<real>, lo: nat, hi: nat, a: real, b: real)
    requires |ys| == |xs| && lo <= hi <= |xs|
  {
    forall k :: lo <= k < hi ==> ys[k] == a * xs[k] + b
  }

  /** The window sum of y = a x + b is a Sx + n b. */
  lemma AffineSum1(xs: seq<real>, ys: seq<real>, period: nat, i: nat, a: real, b: real)
    requires |ys| == |xs|
    requires period <= i + 1 <= |xs|
    requires AffineOn(xs, ys, i + 1 - period, i + 1, a, b)
    ensures SumsAt(xs, ys, period, i).s1 == a * SumsAt(xs, ys, period, i).s0 + period as real * b
  {
    var lo := i + 1 - period;
    assert (i + 1 - lo) as real == period as real;
    AffineSum(xs, ys, lo, i + 1, a, b);
  }

  lemma {:induction false} AffineSum(xs: seq<real>, ys: seq<real>, lo: nat, hi: nat, a: real, b: real)
    requires |ys| == |xs| && lo <= hi <= |xs|
    requires AffineOn(xs, ys, lo, hi, a, b)
    ensures Sum(ys, lo, hi) == a * Sum(xs, lo, hi) + (hi - lo) as real * b
  {
    if lo < hi {
      AffineSum(xs, ys, lo, hi - 1, a, b);
      var n := (hi - 1 - lo) as real;
      assert (hi - lo) as real * b == n * b + b;
      assert a * Sum(xs, lo, hi) == a * Sum(xs, lo, hi - 1) + a * xs[hi - 1];
    }
  }

  /** The window sum of squares of y = a x + b is a Sxy + b Sy. */
  lemma AffineSum11(xs: seq<real>, ys: seq<real>, period: nat, i: nat, a: real, b: real)
    requires |ys| == |xs|
    requires period <= i + 1 <= |xs|
    requires AffineOn(xs, ys, i + 1 - period, i + 1, a, b)
    ensures SumsAt(xs, ys, period, i).s11
      == a * SumsAt(xs, ys, period, i).s01 + b * SumsAt(xs, ys, period, i).s1
  {
    AffineSquareSum(xs, ys, i + 1 - period, i + 1, a, b);
  }

  lemma AffineSquareSum(xs: seq<real>, ys: seq<real>, lo: nat, hi: nat, a: real, b: real)
    requires |ys| == |xs| && lo <= hi <= |xs|
    requires AffineOn(xs, ys, lo, hi, a, b)
    ensures Sum(Squares(ys), lo, hi) == a * Sum(Products(xs, ys), lo, hi) + b * Sum(ys, lo, hi)
  {
    var sy, pr := Squares(ys), Products(xs, ys);
    AffineSquaresPointwise(xs, ys, lo, hi, a, b);
    SumLinear(sy, pr, ys, lo, hi, a, b);
  }

  lemma AffineSquaresPointwise(xs: seq<real>, ys: seq<real>, lo: nat, hi: nat, a: real, b: real)
    requires |ys| == |xs| && lo <= hi <= |xs|
    requires AffineOn(xs, ys, lo, hi, a, b)
    ensures LinearOn(Squares(ys), Products(xs, ys), ys, lo, hi, a, b)
  {
    var sy, pr := Squares(ys), Products(xs, ys);
    forall k | lo <= k < hi
      ensures sy[k] == a * pr[k] + b * ys[k]
    {
      SquareOfAffine(xs[k], ys[k], a, b);
    }
  }

  /** The window sum of x times y = a x + b is a Sxx + b Sx. */
  lemma AffineSum01(xs: seq<real>, ys: seq<real>, period: nat, i: nat, a: real, b: real)
    requires |ys| == |xs|
    requires period <= i + 1 <= |xs|
    requires AffineOn(xs, ys, i + 1 - period, i + 1, a, b)
    ensures SumsAt(xs, ys, period, i).s01
      == a * SumsAt(xs, ys, period, i).s00 + b * SumsAt(xs, ys, period, i).s0
  {
    AffineProductSum(xs, ys, i + 1 - period, i + 1, a, b);
  }

  lemma AffineProductSum(xs: seq<real>, ys: seq<real>, lo: nat, hi: nat, a: real, b: real)
    requires |ys| == |xs| && lo <= hi <= |xs|
    requires AffineOn(xs, ys, lo, hi, a, b)
    ensures Sum(Products(xs, ys), lo, hi) == a * Sum(Squares(xs), lo, hi) + b * Sum(xs, lo, hi)
  {
    var pr, sx := Products(xs, ys), Squares(xs);
    AffineProductsPointwise(xs, ys, lo, hi, a, b);
    SumLinear(pr, sx, xs, lo, hi, a, b);
  }

  lemma AffineProductsPointwise(xs: seq<real>, ys: seq<real>, lo: nat, hi: nat, a: real, b: real)
    requires |ys| == |xs| && lo <= hi <= |xs|
    requires AffineOn(xs, ys, lo, hi, a, b)
    ensures LinearOn(Products(xs, ys), Squares(xs), xs, lo, hi, a, b)
  {
    var sx, pr := Squares(xs), Products(xs, ys);
    forall k | lo <= k < hi
      ensures pr[k] == a * sx[k] + b * xs[k]
    {
      ProductWithAffine(xs[k], a, b);
    }
  }

  /** Window sums `s` over n pairs whose y is a x + b. */
  predicate AffineImage(s: WindowSums, n: real, a: real, b: real) {
    s.s1 == a * s.s0 + n * b &&
    s.s01 == a * s.s00 + b * s.s0 &&
    s.s11 == a * s.s01 + b * s.s1
  }

  /** The window sums of y = a x + b in terms of those of x. */
  lemma AffineWindowSums(xs: seq<real>, ys: seq<real>, period: nat, i: nat, a: real, b: real)
    requires |ys| == |xs|
    requires period <= i + 1 <= |xs|
    requires forall k :: i + 1 - period <= k <= i ==> ys[k] == a * xs[k] + b
    ensures AffineImage(SumsAt(xs, ys, period, i), period as real, a, b)
  {
    assert AffineOn(xs, ys, i + 1 - period, i + 1, a, b);
    AffineSum1(xs, ys, period, i, a, b);
    AffineSum11(xs, ys, period, i, a, b);
    AffineSum01(xs, ys, period, i, a, b);
  }

  lemma AffineNumerator(n: real, a: real, b: real, s0: real, s00: real, s1: real, s01: real)
    requires s1 == a * s0 + n * b && s01 == a * s00 + b * s0
    ensures n * s01 - s0 * s1 == a * (n * s00 - s0 * s0)
  {
    assert n * s01 == a * (n * s00) + b * (n * s0);
    assert s0 * s1 == a * (s0 * s0) + b * (n * s0);
  }

  lemma AffineDenom1(n: real, a: real, b: real, s0: real, s00: real, s1: real, s01: real, s11: real)
    requires s1 == a * s0 + n * b && s01 == a * s00 + b * s0 && s11 == a * s01 + b * s1
    ensures n * s11 - s1 * s1 == (a * a) * (n * s00 - s0 * s0)
  {
    AffineNumerator(n, a, b, s0, s00, s1, s01);
    assert n * s11 == a * (n * s01) + b * (n * s1);
    assert s1 * s1 == a * (s0 * s1) + b * (n * s1);
    assert n * s11 - s1 * s1 == a * (n * s01 - s0 * s1);
  }

  lemma SignOfRatio(c: real, a: real, d0: real, t: real)
    requires a != 0.0 && d0 > 0.0
    requires t == (if a > 0.0 then a else -a) * d0
    requires c * t == a * d0
    ensures c == if a > 0.0 then 1.0 else -1.0
  {
    MulPos(if a > 0.0 then a else -a, d0);
    if a > 0.0 {
      ZeroFactor(c - 1.0, t);
    } else {
      assert a * d0 == -t;
      ZeroFactor(c + 1.0, t);
    }
  }

  /**
    The Pearson formula on the sums of a series y = a x + b: the numerator
    is a times the first denominator factor, the second factor a^2 times
    it, so the correlation is the sign of a when x varies.
   */
  lemma PearsonOfAffine(sqrt: real -> real, n: real, s: WindowSums, a: real, b: real)
    requires IsSqrt(sqrt)
    requires AffineImage(s, n, a, b)
    requires a != 0.0 && Denom0(n, s) > 0.0
    ensures Pearson(sqrt, n, s) == Num(if a > 0.0 then 1.0 else -1.0)
  {
    AffineFactors(n, s, a, b);
    PearsonOfScaled(sqrt, n, s, a);
  }

  /** For affine sums the numerator is a times the first denominator factor and the second is a^2 times it. */
  lemma AffineFactors(n: real, s: WindowSums, a: real, b: real)
    requires AffineImage(s, n, a, b)
    ensures Numerator(n, s) == a * Denom0(n, s)
    ensures Denom1(n, s) == (a * a) * Denom0(n, s)
  {
    AffineNumerator(n, a, b, s.s0, s.s00, s.s1, s.s01);
    AffineDenom1(n, a, b, s.s0, s.s00, s.s1, s.s01, s.s11);
  }

  /** When the numerator is a d0 and the second factor a^2 d0 with d0 positive, the correlation is the sign of a. */
  lemma PearsonOfScaled(sqrt: real -> real, n: real, s: WindowSums, a: real)
    requires IsSqrt(sqrt)
    requires a != 0.0 && Denom0(n, s) > 0.0
    requires Numerator(n, s) == a * Denom0(n, s) && Denom1(n, s) == (a * a) * Denom0(n, s)
    ensures Pearson(sqrt, n, s) == Num(if a > 0.0 then 1.0 else -1.0)
  {
    var d0, d1 := Denom0(n, s), Denom1(n, s);
    var absA := if a > 0.0 then a else -a;
    var t := absA * d0;
    MulPos(absA, d0);
    SquarePos(a);
    MulPos(a * a, d0);
    MulPos(d0, d1);
    ScaledSquare(a, absA, d0);
    PearsonOfSquare(sqrt, n, s, t);
    SignOfRatio(Pearson(sqrt, n, s).v, a, d0, t);
  }

  /** When the positive denominator product is the square of a positive t, the correlation times t is the numerator. */
  lemma PearsonOfSquare(sqrt: real -> real, n: real, s: WindowSums, t: real)
    requires IsSqrt(sqrt)
    requires t > 0.0 && Denom0(n, s) * Denom1(n, s) > 0.0 && Denom0(n, s) * Denom1(n, s) == t * t
    ensures Pearson(sqrt, n, s).Num? && Pearson(sqrt, n, s).v * t == Numerator(n, s)
  {
    var d := Denom0(n, s) * Denom1(n, s);
    SqrtOfSquare(sqrt, d, t);
    assert Pearson(sqrt, n, s) == Num(Numerator(n, s) / t);
  }

  lemma ScaledSquare(a: real, absA: real, d: real)
    requires absA == a || absA == -a
    ensures d * ((a * a) * d) == (absA * d) * (absA * d)
  {
    assert absA * absA == a * a;
  }

  /**
    For y = a x + b with a non-zero and x not constant over the window
    (positive first denominator factor), the correlation is 1 when a is
    positive and -1 when a is negative.
   */
  lemma CorrelOfAffine(sqrt: real -> real, xs: seq<real>, ys: seq<real>, period: nat, i: nat, a: real, b: real)
    requires IsSqrt(sqrt)
    requires |ys| == |xs|
    requires period <= i + 1 <= |xs|
    requires forall k :: i + 1 - period <= k <= i ==> ys[k] == a * xs[k] + b
    requires a != 0.0
    requires Denom0(period as real, SumsAt(xs, ys, period, i)) > 0.0
    ensures CorrelAt(sqrt, xs, ys, period, i) == Num(if a > 0.0 then 1.0 else -1.0)
  {
    AffineWindowSums(xs, ys, period, i, a, b);
    PearsonOfAffine(sqrt, period as real, SumsAt(xs, ys, period, i), a, b);
  }

  /** When x is constant over the window the first denominator factor is 0 and the correlation is NaN. */
  lemma CorrelOfConstantIsNaN(sqrt: real -> real, xs: seq<real>, ys: seq<real>, period: nat, i: nat, c: real)
    requires IsSqrt(sqrt)
    requires |ys| == |xs|
    requires period <= i + 1 <= |xs|
    requires forall k :: i + 1 - period <= k <= i ==> xs[k] == c
    ensures Denom0(period as real, SumsAt(xs, ys, period, i)) == 0.0
    ensures CorrelAt(sqrt, xs, ys, period, i) == NaN
  {
    var n := period as real;
    var s := SumsAt(xs, ys, period, i);
    ConstantWindowSums(xs, ys, period, i, c);
    ConstantDenom0(n, c, s.s0, s.s00);
    ZeroTimes(Denom0(n, s), Denom1(n, s));
  }

  /** Over a constant window the sums of x and of its squares are n c and n c^2. */
  lemma ConstantWindowSums(xs: seq<real>, ys: seq<real>, period: nat, i: nat, c: real)
    requires |ys| == |xs|
    requires period <= i + 1 <= |xs|
    requires forall k :: i + 1 - period <= k <= i ==> xs[k] == c
    ensures SumsAt(xs, ys, period, i).s0 == period as real * c
    ensures SumsAt(xs, ys, period, i).s00 == period as real * (c * c)
  {
    ConstantSum0(xs, ys, period, i, c);
    ConstantSum00(xs, ys, period, i, c);
  }

  lemma ConstantSum0(xs: seq<real>, ys: seq<real>, period: nat, i: nat, c: real)
    requires |ys| == |xs|
    requires period <= i + 1 <= |xs|
    requires forall k :: i + 1 - period <= k <= i ==> xs[k] == c
    ensures SumsAt(xs, ys, period, i).s0 == period as real * c
  {
    var lo := i + 1 - period;
    assert (i + 1 - lo) as real == period as real;
    SumConst(xs, lo, i + 1, c);
  }

  lemma ConstantSquares(xs: seq<real>, lo: nat, hi: nat, c: real)
    requires lo <= hi <= |xs|
    requires forall k :: lo <= k < hi ==> xs[k] == c
    ensures forall k :: lo <= k < hi ==> Squares(xs)[k] == c * c
  {
  }

  lemma ConstantSum00(xs: seq<real>, ys: seq<real>, period: nat, i: nat, c: real)
    requires |ys| == |xs|
    requires period <= i + 1 <= |xs|
    requires forall k :: i + 1 - period <= k <= i ==> xs[k] == c
    ensures SumsAt(xs, ys, period, i).s00 == period as real * (c * c)
  {
    var lo := i + 1 - period;
    ConstantSquares(xs, lo, i + 1, c);
    assert (i + 1 - lo) as real == period as real;
    SumConst(Squares(xs), lo, i + 1, c * c);
  }

  lemma ConstantDenom0(n: real, c: real, s0: real, s00: real)
    requires s0 == n * c && s00 == n * (c * c)
    ensures n * s00 - s0 * s0 == 0.0
  {
  }

  lemma ZeroTimes(x: real, y: real)
    requires x == 0.0
    ensures x * y == 0.0
  {
  }

  lemma ConsecutiveSquares(k: real)
    ensures 3.0 * (k * k + (k + 1.0) * (k + 1.0) + (k + 2.0) * (k + 2.0))
      - (k + (k + 1.0) + (k + 2.0)) * (k + (k + 1.0) + (k + 2.0)) == 6.0
  {
  }

  /** A window of three consecutive values k, k + 1, k + 2 has first denominator factor 6 (period 3). */
  lemma ConsecutiveDenom0(xs: seq<real>, ys: seq<real>, i: nat)
    requires |ys| == |xs|
    requires 2 <= i < |xs|
    requires xs[i - 1] == xs[i - 2] + 1.0 && xs[i] == xs[i - 2] + 2.0
    ensures Denom0(3.0, SumsAt(xs, ys, 3, i)) == 6.0
  {
    var k := xs[i - 2];
    var sx := Squares(xs);
    assert Sum(xs, i - 2, i - 1) == xs[i - 2];
    assert Sum(xs, i - 2, i) == xs[i - 2] + xs[i - 1];
    assert Sum(xs, i - 2, i + 1) == k + (k + 1.0) + (k + 2.0);
    assert Sum(sx, i - 2, i - 1) == sx[i - 2];
    assert Sum(sx, i - 2, i) == sx[i - 2] + sx[i - 1];
    assert Sum(sx, i - 2, i + 1) == k * k + (k + 1.0) * (k + 1.0) + (k + 2.0) * (k + 2.0);
    ConsecutiveSquares(k);
  }

  /**
    A series x stepping by one with y = a x + b (a non-zero) has
    correlation the sign of a at every index from 2 on (period 3).
   */
  lemma CorrelOfAffineSteps(sqrt: real -> real, xs: seq<real>, ys: seq<real>, a: real, b: real)
    requires IsSqrt(sqrt)
    requires |ys| == |xs| && a != 0.0
    requires forall k :: 0 <= k < |xs| ==> ys[k] == a * xs[k] + b
    requires forall k :: 0 < k < |xs| ==> xs[k] == xs[k - 1] + 1.0
    ensures forall i :: 2 <= i < |xs| ==> CorrelAt(sqrt, xs, ys, 3, i) == Num(if a > 0.0 then 1.0 else -1.0)
  {
    forall i | 2 <= i < |xs|
      ensures CorrelAt(sqrt, xs, ys, 3, i) == Num(if a > 0.0 then 1.0 else -1.0)
    {
      ConsecutiveDenom0(xs, ys, i);
      CorrelOfAffine(sqrt, xs, ys, 3, i, a, b);
    }
  }

  /** The five sums of the pairs in [lo, hi). */
  function SumsOn(xs: seq<real>, ys: seq<real>, lo: nat, hi: nat): WindowSums
    requires |ys| == |xs| && lo <= hi <= |xs|
  {
    WindowSums(Sum(xs, lo, hi), Sum(ys, lo, hi), Sum(Squares(xs), lo, hi),
               Sum(Squares(ys), lo, hi), Sum(Products(xs, ys), lo, hi))
  }

  /** The series a x + b y + c. */
  function Combine(xs: seq<real>, ys: seq<real>, a: real, b: real, c: real): (r: seq<real>)
    requires |ys| == |xs|
    ensures |r| == |xs| && CombinedOn(r, xs, ys, 0, |xs|, a, b, c)
  {
    seq(|xs|, k requires 0 <= k < |xs| => a * xs[k] + b * ys[k] + c)
  }

  /** Every t[k] on the window is a x[k] + b y[k] + c. */
  predicate CombinedOn(t: seq<real>, xs: seq<real>, ys: seq<real>, lo: nat, hi: nat, a: real, b: real, c: real)
    requires lo <= hi <= |t| && hi <= |xs| && hi <= |ys|
  {
    forall k :: lo <= k < hi ==> t[k] == a * xs[k] + b * ys[k] + c
  }

  /** The sum of (a x + b y + c)^2 over m pairs, written with their five sums. */
  function QuadForm(a: real, b: real, c: real, m: real, s: WindowSums): real {
    a * a * s.s00 + b * b * s.s11 + 2.0 * a * b * s.s01 + 2.0 * a * c * s.s0 + 2.0 * b * c * s.s1 + c * c * m
  }

  /** Adding one pair to the sums adds its square of a x + b y + c to the form. */
  lemma QuadFormStep(a: real, b: real, c: real, m: real, m': real, s: WindowSums, s': WindowSums,
                      x: real, y: real, v: real)
    requires m' == m + 1.0 && v == a * x + b * y + c
    requires s' == WindowSums(s.s0 + x, s.s1 + y, s.s00 + x * x, s.s11 + y * y, s.s01 + x * y)
    ensures QuadForm(a, b, c, m', s') == QuadForm(a, b, c, m, s) + v * v
  {
  }

  /** The sum of squares of a x + b y + c over a window is the quadratic form of its sums. */
  lemma {:induction false} QuadSum(t: seq<real>, xs: seq<real>, ys: seq<real>, lo: nat, hi: nat,
                                   a: real, b: real, c: real)
    requires |ys| == |xs| && |t| == |xs| && lo <= hi <= |xs|
    requires CombinedOn(t, xs, ys, lo, hi, a, b, c)
    ensures Sum(Squares(t), lo, hi) == QuadForm(a, b, c, (hi - lo) as real, SumsOn(xs, ys, lo, hi))
  {
    if lo < hi {
      CombinedShrink(t, xs, ys, lo, hi, a, b, c);
      QuadSum(t, xs, ys, lo, hi - 1, a, b, c);
      var x, y, v := xs[hi - 1], ys[hi - 1], t[hi - 1];
      CombinedLast(t, xs, ys, lo, hi, a, b, c, x, y, v);
      var prev := SumsOn(xs, ys, lo, hi - 1);
      var next := SumsOn(xs, ys, lo, hi);
      SumsOnStep(xs, ys, lo, hi, prev, next, x, y);
      QuadFormStep(a, b, c, (hi - 1 - lo) as real, (hi - lo) as real, prev, next, x, y, v);
      SquaresStep(t, lo, hi, v);
    }
  }

  /** Extending a window by one sample adds its square to the sum of squares. */
  lemma SquaresStep(t: seq<real>, lo: nat, hi: nat, v: real)
    requires lo < hi <= |t| && v == t[hi - 1]
    ensures Sum(Squares(t), lo, hi) == Sum(Squares(t), lo, hi - 1) + v * v
  {
  }

  /** A combined window stays combined when its last sample is dropped. */
  lemma CombinedShrink(t: seq<real>, xs: seq<real>, ys: seq<real>, lo: nat, hi: nat, a: real, b: real, c: real)
    requires |ys| == |xs| && |t| == |xs| && lo < hi <= |xs|
    requires CombinedOn(t, xs, ys, lo, hi, a, b, c)
    ensures CombinedOn(t, xs, ys, lo, hi - 1, a, b, c)
  {
  }

  /** The last sample of a combined window is a x + b y + c. */
  lemma CombinedLast(t: seq<real>, xs: seq<real>, ys: seq<real>, lo: nat, hi: nat, a: real, b: real, c: real,
                     x: real, y: real, v: real)
    requires |ys| == |xs| && |t| == |xs| && lo < hi <= |xs|
    requires CombinedOn(t, xs, ys, lo, hi, a, b, c)
    requires x == xs[hi - 1] && y == ys[hi - 1] && v == t[hi - 1]
    ensures v == a * x + b * y + c
  {
  }

  /** Extending a window by one pair adds that pair's terms to the five sums. */
  lemma SumsOnStep(xs: seq<real>, ys: seq<real>, lo: nat, hi: nat, prev: WindowSums, next: WindowSums, x: real, y: real)
    requires |ys| == |xs| && lo < hi <= |xs|
    requires prev == SumsOn(xs, ys, lo, hi - 1) && next == SumsOn(xs, ys, lo, hi)
    requires x == xs[hi - 1] && y == ys[hi - 1]
    ensures next == WindowSums(prev.s0 + x, prev.s1 + y, prev.s00 + x * x, prev.s11 + y * y, prev.s01 + x * y)
  {
  }

  /** A sum of squares is non-negative. */
  lemma SquaresNonNegative(t: seq<real>, lo: nat, hi: nat)
    requires lo <= hi <= |t|
    ensures Sum(Squares(t), lo, hi) >= 0.0
  {
    forall k | lo <= k < hi
      ensures Squares(t)[k] >= 0.0
    {
      if t[k] != 0.0 {
        SquarePos(t[k]);
      }
    }
    SumNonNegative(Squares(t), lo, hi);
  }

  /** The quadratic form a^2 D0 + 2 a b N + b^2 D1 of two variance terms and a covariance term. */
  function Quad(a: real, b: real, d0: real, num: real, d1: real): real {
    a * a * d0 + 2.0 * a * b * num + b * b * d1
  }

  /**
    Centring: with a n, b n and -(a Sx + b Sy) as coefficients the form is
    n times the quadratic form of the two variance terms and the covariance term.
   */
  lemma CenteredQuadForm(a: real, b: real, n: real, s: WindowSums)
    ensures QuadForm(a * n, b * n, -(a * s.s0 + b * s.s1), n, s)
      == n * Quad(a, b, Denom0(n, s), Numerator(n, s), Denom1(n, s))
  {
    CenteredIdentity(a, b, n, s.s0, s.s1, s.s00, s.s11, s.s01);
  }

  /** The centring identity on plain reals. */
  lemma CenteredIdentity(a: real, b: real, n: real, s0: real, s1: real, s00: real, s11: real, s01: real)
    ensures var c := -(a * s0 + b * s1);
      (a * n) * (a * n) * s00 + (b * n) * (b * n) * s11 + 2.0 * (a * n) * (b * n) * s01 +
      2.0 * (a * n) * c * s0 + 2.0 * (b * n) * c * s1 + c * c * n
      == n * ((a * a) * (n * s00 - s0 * s0) + 2.0 * (a * b) * (n * s01 - s0 * s1) + (b * b) * (n * s11 - s1 * s1))
  {
    var c := -(a * s0 + b * s1);
    var aa, ab, bb := a * a, a * b, b * b;
    assert (a * n) * (a * n) * s00 == n * (aa * (n * s00));
    assert (b * n) * (b * n) * s11 == n * (bb * (n * s11));
    assert 2.0 * (a * n) * (b * n) * s01 == n * (2.0 * ab * (n * s01));
    assert c * c == aa * (s0 * s0) + 2.0 * ab * (s0 * s1) + bb * (s1 * s1);
    assert 2.0 * (a * n) * c * s0 == -2.0 * n * (aa * (s0 * s0) + ab * (s0 * s1));
    assert 2.0 * (b * n) * c * s1 == -2.0 * n * (ab * (s0 * s1) + bb * (s1 * s1));
  }

  /** A non-negative multiple n q with n > 0 has q non-negative. */
  lemma NonNegFactor(n: real, q: real)
    requires n > 0.0 && n * q >= 0.0
    ensures q >= 0.0
  {
    if q < 0.0 {
      MulPos(n, -q);
    }
  }

  /**
    Over a window of n >= 1 pairs, a^2 D0 + 2 a b N + b^2 D1 >= 0 for all a, b:
    the variance terms and the covariance term form a non-negative quadratic form.
   */
  lemma WindowQuadNonNegative(xs: seq<real>, ys: seq<real>, period: nat, i: nat, a: real, b: real)
    requires |ys| == |xs|
    requires 1 <= period <= i + 1 <= |xs|
    ensures var n := period as real; var s := SumsAt(xs, ys, period, i);
      Quad(a, b, Denom0(n, s), Numerator(n, s), Denom1(n, s)) >= 0.0
  {
    var n := period as real;
    var s := SumsAt(xs, ys, period, i);
    var lo := i + 1 - period;
    assert s == SumsOn(xs, ys, lo, i + 1);
    var c := -(a * s.s0 + b * s.s1);
    var t := Combine(xs, ys, a * n, b * n, c);
    QuadSum(t, xs, ys, lo, i + 1, a * n, b * n, c);
    SquaresNonNegative(t, lo, i + 1);
    assert (i + 1 - lo) as real == n;
    assert QuadForm(a * n, b * n, c, n, s) >= 0.0;
    CenteredQuadForm(a, b, n, s);
    NonNegFactor(n, Quad(a, b, Denom0(n, s), Numerator(n, s), Denom1(n, s)));
  }

  /**
    Cauchy-Schwarz from the quadratic form: if it is non-negative at (1, 0),
    (0, 1), (N, -D0) and (-(D1 + 1) / 2, N), both variance terms are
    non-negative and N^2 <= D0 D1.
   */
  lemma CauchyFromQuad(d0: real, num: real, d1: real)
    requires Quad(1.0, 0.0, d0, num, d1) >= 0.0 && Quad(0.0, 1.0, d0, num, d1) >= 0.0
    requires Quad(num, -d0, d0, num, d1) >= 0.0
    requires Quad(-(d1 + 1.0) / 2.0, num, d0, num, d1) >= 0.0
    ensures d0 >= 0.0 && d1 >= 0.0 && num * num <= d0 * d1
  {
    assert Quad(num, -d0, d0, num, d1) == d0 * (d0 * d1 - num * num);
    if d0 > 0.0 {
      NonNegFactor(d0, d0 * d1 - num * num);
    } else {
      var sq := num * num;
      assert Quad(-(d1 + 1.0) / 2.0, num, d0, num, d1) == -sq;
      if num != 0.0 {
        SquarePos(num);
      }
    }
  }

  /** Cauchy-Schwarz for the sums of a window of positive length. */
  predicate CauchySchwarz(n: real, s: WindowSums) {
    Denom0(n, s) >= 0.0 && Denom1(n, s) >= 0.0 &&
    Numerator(n, s) * Numerator(n, s) <= Denom0(n, s) * Denom1(n, s)
  }

  /** Zero sums satisfy the inequality with equality. */
  lemma ZeroSumsCauchySchwarz(s: WindowSums)
    requires s == WindowSums(0.0, 0.0, 0.0, 0.0, 0.0)
    ensures CauchySchwarz(0.0, s)
  {
  }

  /** The sums of an empty window are zero. */
  lemma EmptyWindowCauchySchwarz(xs: seq<real>, ys: seq<real>, i: nat)
    requires |ys| == |xs| && i < |xs|
    ensures CauchySchwarz(0.0, SumsAt(xs, ys, 0, i))
  {
    var s := SumsAt(xs, ys, 0, i);
    assert s == WindowSums(0.0, 0.0, 0.0, 0.0, 0.0);
    ZeroSumsCauchySchwarz(s);
  }

  /**
    Cauchy-Schwarz for a window: both variance terms are non-negative and
    the square of the covariance term is at most their product.
   */
  lemma WindowCauchySchwarz(xs: seq<real>, ys: seq<real>, period: nat, i: nat)
    requires |ys| == |xs|
    requires period <= i + 1 <= |xs|
    ensures CauchySchwarz(period as real, SumsAt(xs, ys, period, i))
  {
    if period == 0 {
      EmptyWindowCauchySchwarz(xs, ys, i);
    } else {
      var n := period as real;
      var s := SumsAt(xs, ys, period, i);
      var d0, num, d1 := Denom0(n, s), Numerator(n, s), Denom1(n, s);
      WindowQuadNonNegative(xs, ys, period, i, 1.0, 0.0);
      WindowQuadNonNegative(xs, ys, period, i, 0.0, 1.0);
      WindowQuadNonNegative(xs, ys, period, i, num, -d0);
      WindowQuadNonNegative(xs, ys, period, i, -(d1 + 1.0) / 2.0, num);
      CauchyOfSums(n, s);
    }
  }

  /** The window form of the inequality, from the four values of the quadratic form. */
  lemma CauchyOfSums(n: real, s: WindowSums)
    requires var d0, num, d1 := Denom0(n, s), Numerator(n, s), Denom1(n, s);
      Quad(1.0, 0.0, d0, num, d1) >= 0.0 && Quad(0.0, 1.0, d0, num, d1) >= 0.0 &&
      Quad(num, -d0, d0, num, d1) >= 0.0 && Quad(-(d1 + 1.0) / 2.0, num, d0, num, d1) >= 0.0
    ensures CauchySchwarz(n, s)
  {
    CauchyFromQuad(Denom0(n, s), Numerator(n, s), Denom1(n, s));
  }

  /** A ratio v with v t = N, t > 0 and N^2 <= t^2 lies in [-1, 1]. */
  lemma RatioBounded(v: real, t: real, num: real)
    requires t > 0.0 && v * t == num && num * num <= t * t
    ensures -1.0 <= v <= 1.0
  {
    if v > 1.0 {
      MulPos(v - 1.0, t);
      SquareStrictlyIncreasing(t, num);
    } else if v < -1.0 {
      MulPos(-v - 1.0, t);
      SquareStrictlyIncreasing(t, -num);
    }
  }

  /** When the covariance term squared is at most the variance product, a Pearson value lies in [-1, 1]. */
  lemma PearsonBounded(sqrt: real -> real, n: real, s: WindowSums)
    requires IsSqrt(sqrt)
    requires CauchySchwarz(n, s)
    ensures Pearson(sqrt, n, s).Num? ==> -1.0 <= Pearson(sqrt, n, s).v <= 1.0
  {
    var r := Pearson(sqrt, n, s);
    if r.Num? {
      var d := Denom0(n, s) * Denom1(n, s);
      SqrtPositiveIff(sqrt, d);
      RatioBounded(r.v, sqrt(d), Numerator(n, s));
    }
  }

  /** The correlation the kernel reports at any index is NaN or lies in [-1, 1]. */
  lemma CorrelBounded(sqrt: real -> real, xs: seq<real>, ys: seq<real>, period: nat, i: nat)
    requires IsSqrt(sqrt)
    requires |ys| == |xs|
    requires period <= i + 1 <= |xs|
    ensures CorrelAt(sqrt, xs, ys, period, i).Num? ==> -1.0 <= CorrelAt(sqrt, xs, ys, period, i).v <= 1.0
  {
    WindowCauchySchwarz(xs, ys, period, i);
    PearsonBounded(sqrt, period as real, SumsAt(xs, ys, period, i));
  }

  /** The source's test series x = 1..6, y = 2x with period 3: correlation 1 at every index from 2 on. */
  lemma CorrelTestPerfectPositive(sqrt: real -> real)
    requires IsSqrt(sqrt)
    ensures forall i :: 2 <= i < 6 ==>
      CorrelAt(sqrt, [1.0, 2.0, 3.0, 4.0, 5.0, 6.0], [2.0, 4.0, 6.0, 8.0, 10.0, 12.0], 3, i) == Num(1.0)
  {
    CorrelOfAffineSteps(sqrt, [1.0, 2.0, 3.0, 4.0, 5.0, 6.0], [2.0, 4.0, 6.0, 8.0, 10.0, 12.0], 2.0, 0.0);
  }

  /** The source's test series x = 1..5, y = 9..5 with period 3: correlation -1 at every index from 2 on. */
  lemma CorrelTestPerfectNegative(sqrt: real -> real)
    requires IsSqrt(sqrt)
    ensures forall i :: 2 <= i < 5 ==>
      CorrelAt(sqrt, [1.0, 2.0, 3.0, 4.0, 5.0], [9.0, 8.0, 7.0, 6.0, 5.0], 3, i) == Num(-1.0)
  {
    CorrelOfAffineSteps(sqrt, [1.0, 2.0, 3.0, 4.0, 5.0], [9.0, 8.0, 7.0, 6.0, 5.0], -1.0, 10.0);
  }

  /** The source's test series x = 5, 5, 5, 5, 5 with period 3: NaN at every index from 2 on. */
  lemma CorrelTestNoVariance(sqrt: real -> real)
    requires IsSqrt(sqrt)
    ensures forall i :: 2 <= i < 5 ==>
      CorrelAt(sqrt, [5.0, 5.0, 5.0, 5.0, 5.0], [1.0, 2.0, 3.0, 4.0, 5.0], 3, i) == NaN
  {
    var xs := [5.0, 5.0, 5.0, 5.0, 5.0];
    var ys := [1.0, 2.0, 3.0, 4.0, 5.0];
    forall i | 2 <= i < 5
      ensures CorrelAt(sqrt, xs, ys, 3, i) == NaN
    {
      CorrelOfConstantIsNaN(sqrt, xs, ys, 3, i, 5.0);
    }
  }
}
