/**
  Exponential moving average, as the A/D oscillator uses it
  (kand/src/ta/ohlcv/adosc.rs and the EMA binding's documentation in
  kand-wasm/src/ta/ohlcv/ema.rs): the first value is the mean of the first
  `period` samples, every later one moves the previous value towards the
  new sample by the smoothing factor 2 / (period + 1).
 */
module Ema {
  import opened Kand
  import opened Sums

  /** The default smoothing factor 2 / (period + 1). */
  function K(period: nat): (r: real)
    ensures 0.0 < r <= 2.0
    ensures period >= 1 ==> r <= 1.0
  {
    2.0 / (period + 1) as real
  }

  /**
    One EMA step in the oscillator's form, (x - prev) * k + prev; it is the
    binding documentation's x * k + prev * (1 - k).
   */
  function EmaInc(x: real, prev: real, period: nat): (r: real)
    ensures r == x * K(period) + prev * (1.0 - K(period))
  {
    (x - prev) * K(period) + prev
  }

  /** The EMA at index i: seeded with the mean of the first `period` samples at period - 1. */
  function EmaAt(xs: seq<real>, period: nat, i: nat): real
    requires 1 <= period <= i + 1 <= |xs|
    decreases i
  {
    if i == period - 1 then Sum(xs, 0, period) / period as real
    else EmaInc(xs[i], EmaAt(xs, period, i - 1), period)
  }

  /** The sum of the first `period` samples, the seed of the average. */
  method SeedSum(xs: seq<real>, period: nat) returns (sum: real)
    requires period <= |xs|
    ensures sum == Sum(xs, 0, period)
  {
    sum := 0.0;
    for k := 0 to period
      invariant sum == Sum(xs, 0, k)
    {
      sum := sum + xs[k];
    }
  }

  /**
    The batch EMA: the mean of the first window at period - 1, then one
    step per index. Entries before period - 1 are not specified here.
   */
  method Ema(xs: seq<real>, period: nat, output: array<Val>)
    requires 1 <= period <= |xs| == output.Length
    modifies output
    ensures forall i :: period - 1 <= i < |xs| ==> output[i] == Num(EmaAt(xs, period, i))
  {
    var len := |xs|;
    var lookback := period - 1;
    var sum := SeedSum(xs, period);
    var prev := sum / period as real;
    output[lookback] := Num(prev);
    for i := lookback + 1 to len
      invariant prev == EmaAt(xs, period, i - 1)
      invariant forall j :: lookback <= j < i ==> output[j] == Num(EmaAt(xs, period, j))
    {
      prev := EmaInc(xs[i], prev, period);
      output[i] := Num(prev);
    }
  }

  /** One step from a value in [lo, hi] towards a sample in [lo, hi] stays in [lo, hi]. */
  lemma EmaIncBetween(x: real, prev: real, period: nat, lo: real, hi: real)
    requires period >= 1
    requires lo <= x <= hi && lo <= prev <= hi
    ensures lo <= EmaInc(x, prev, period) <= hi
  {
    var k := K(period);
    var r := EmaInc(x, prev, period);
    assert r - lo == (x - lo) * k + (prev - lo) * (1.0 - k);
    assert hi - r == (hi - x) * k + (hi - prev) * (1.0 - k);
    MulNonNeg(x - lo, k);
    MulNonNeg(prev - lo, 1.0 - k);
    MulNonNeg(hi - x, k);
    MulNonNeg(hi - prev, 1.0 - k);
  }

  /** An EMA stays within the range of the samples it has seen. */
  lemma {:induction false} EmaBetween(xs: seq<real>, period: nat, i: nat, lo: real, hi: real)
    requires 1 <= period <= i + 1 <= |xs|
    requires forall k :: 0 <= k <= i ==> lo <= xs[k] <= hi
    ensures lo <= EmaAt(xs, period, i) <= hi
  {
    if i == period - 1 {
      SumBetween(xs, 0, period, lo, hi);
      MeanBetween(Sum(xs, 0, period), period as real, lo, hi);
    } else {
      EmaBetween(xs, period, i - 1, lo, hi);
      EmaIncBetween(xs[i], EmaAt(xs, period, i - 1), period, lo, hi);
    }
  }

  /** The EMA of a constant series is that constant. */
  lemma EmaOfConstant(xs: seq<real>, period: nat, i: nat, c: real)
    requires 1 <= period <= i + 1 <= |xs|
    requires forall k :: 0 <= k <= i ==> xs[k] == c
    ensures EmaAt(xs, period, i) == c
  {
    EmaBetween(xs, period, i, c, c);
  }

  /** EMA values depend only on the samples up to their own index. */
  lemma {:induction false} EmaPrefix(xs: seq<real>, ys: seq<real>, period: nat, i: nat)
    requires 1 <= period <= i + 1 <= |xs| && i < |ys|
    requires forall k :: 0 <= k <= i ==> xs[k] == ys[k]
    ensures EmaAt(xs, period, i) == EmaAt(ys, period, i)
  {
    if i == period - 1 {
      SumAgree(xs, ys, 0, period);
    } else {
      EmaPrefix(xs, ys, period, i - 1);
    }
  }
}
