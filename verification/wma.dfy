/**
  Weighted moving average (kand/src/ta/ohlcv/wma.rs): over a window of
  `period` samples taken newest to oldest, the newest is weighted `period`,
  the next `period - 1`, down to 1 for the oldest; the weighted sum is
  divided by the total weight period * (period + 1) / 2.
 */
module Wma {
  import opened Kand
  import opened Sums

  /** Lookback with the `check` feature: periods below 2 are rejected; otherwise period - 1. */
  function Lookback(cfg: Config, period: nat): (r: Result<nat>)
    requires cfg.check || period >= 1
    ensures r.Err? <==> cfg.check && period < 2
    ensures r.Err? ==> r.error == InvalidParameter
    ensures r.Ok? ==> r.value + 1 == period
  {
    if cfg.check && period < 2 then Err(InvalidParameter) else Ok(period - 1)
  }

  /** The denominator the source uses: period * (period + 1) / 2. */
  function WeightTotal(period: nat): real {
    (period * (period + 1)) as real / 2.0
  }

  /** The integer weights period, period - 1, ... of the first n samples, summed. */
  function Weights(period: nat, n: nat): int {
    if n == 0 then 0 else Weights(period, n - 1) + (period - (n - 1))
  }

  /**
    The weighted sum of the first n samples of a newest-first window: sample
    j gets weight period - j.
   */
  function WeightedSum(w: seq<real>, period: nat, n: nat): real
    requires n <= |w|
  {
    if n == 0 then 0.0 else WeightedSum(w, period, n - 1) + w[n - 1] * (period - (n - 1)) as real
  }

  /** The WMA of a newest-first window: weights |w| down to 1 over the total weight. */
  function WmaOfWindow(w: seq<real>): real
    requires |w| >= 1
  {
    WeightedSum(w, |w|, |w|) / WeightTotal(|w|)
  }

  /** The window of `period` samples ending at index i, newest first. */
  function Window(xs: seq<real>, period: nat, i: nat): (r: seq<real>)
    requires period <= i + 1 <= |xs|
    ensures |r| == period && forall j :: 0 <= j < period ==> r[j] == xs[i - j]
  {
    seq(period, j requires 0 <= j < period => xs[i - j])
  }

  /** The WMA of the window of `period` samples ending at index i. */
  function WmaAt(xs: seq<real>, period: nat, i: nat): real
    requires 1 <= period <= i + 1 <= |xs|
  {
    WmaOfWindow(Window(xs, period, i))
  }

  /** A sequence in reverse order. */
  function Reverse(s: seq<real>): (r: seq<real>)
    ensures |r| == |s| && forall k :: 0 <= k < |s| ==> r[k] == s[|s| - 1 - k]
  {
    seq(|s|, k requires 0 <= k < |s| => s[|s| - 1 - k])
  }

  /** The checks of `wma`, in the order the source runs them. */
  function Checks(cfg: Config, input: seq<Val>, period: nat, outLen: nat): seq<Check> {
    [ Check(cfg.check && period < 2, InvalidParameter),
      Check(cfg.check && |input| == 0, InvalidData),
      Check(cfg.check && |input| != outLen, LengthMismatch),
      Check(cfg.check && |input| <= period - 1, InsufficientData),
      Check(cfg.checkNan && !NoNaN(input), NaNDetected) ]
  }

  /**
    The batch kernel without validation: NaN before the lookback, then for
    every index a fresh weighted sum over its window, newest first.
   */
  method WmaRaw(xs: seq<real>, period: nat, output: array<Val>)
    requires 1 <= period <= |xs| == output.Length
    modifies output
    ensures forall i :: 0 <= i < period - 1 ==> output[i] == NaN
    ensures forall i :: period - 1 <= i < |xs| ==> output[i] == Num(WmaAt(xs, period, i))
  {
    var len := |xs|;
    var lookback := period - 1;
    var denominator := WeightTotal(period);
    for k := 0 to lookback
      invariant forall j :: 0 <= j < k ==> output[j] == NaN
    {
      output[k] := NaN;
    }
    for i := lookback to len
      invariant forall j :: 0 <= j < lookback ==> output[j] == NaN
      invariant forall j :: lookback <= j < i ==> output[j] == Num(WmaAt(xs, period, j))
    {
      ghost var w := Window(xs, period, i);
      var weightedSum := 0.0;
      var weight := period as real;
      for j := 0 to period
        invariant weight == (period - j) as real
        invariant weightedSum == WeightedSum(w, period, j)
      {
        weightedSum := weightedSum + xs[i - j] * weight;
        weight := weight - 1.0;
      }
      output[i] := Num(weightedSum / denominator);
    }
  }

  /**
    The batch kernel: validation first (nothing is written on error), then
    NaN before the lookback (whatever `allowNan` says) and the WMA from the
    lookback on.
   */
  method Wma(cfg: Config, input: seq<Val>, period: nat, output: array<Val>) returns (r: Result<()>)
    requires !cfg.check ==> 1 <= period <= |input| == output.Length
    requires !cfg.checkNan ==> NoNaN(input)
    modifies output
    ensures r == FirstFailure(Checks(cfg, input, period, output.Length))
    ensures r.Err? ==> output[..] == old(output[..])
    ensures r.Ok? ==> NoNaN(input) && 1 <= period <= |input| == output.Length
    ensures r.Ok? ==> forall i :: 0 <= i < period - 1 ==> output[i] == NaN
    ensures r.Ok? ==> forall i :: period - 1 <= i < |input| ==>
      output[i] == Num(WmaAt(Reals(input), period, i))
  {
    var checks := Checks(cfg, input, period, output.Length);
    r := FirstFailure(checks);
    if r.Err? {
      return;
    }
    assert !checks[1].fails && !checks[2].fails && !checks[3].fails && !checks[4].fails;
    WmaRaw(Reals(input), period, output);
  }

  /**
    One streaming value from a newest-first window. Without `check` the
    window length is not compared with the period and the weights simply
    run period, period - 1, ... over the samples given.
   */
  method WmaInc(cfg: Config, window: seq<Val>, period: nat) returns (r: Result<real>)
    requires cfg.check || period >= 1
    requires !cfg.checkNan ==> NoNaN(window)
    ensures cfg.check && period < 2 ==> r == Err(InvalidParameter)
    ensures cfg.check && period >= 2 && |window| != period ==> r == Err(LengthMismatch)
    ensures !(cfg.check && (period < 2 || |window| != period)) && cfg.checkNan && !NoNaN(window)
      ==> r == Err(NaNDetected)
    ensures r.Err? ==> (cfg.check && (period < 2 || |window| != period)) || (cfg.checkNan && !NoNaN(window))
    ensures r.Ok? ==> NoNaN(window) && r.value == WeightedSum(Reals(window), period, |window|) / WeightTotal(period)
    ensures r.Ok? && |window| == period ==> r.value == WmaOfWindow(Reals(window))
  {
    if cfg.check {
      if period < 2 {
        return Err(InvalidParameter);
      }
      if |window| != period {
        return Err(LengthMismatch);
      }
    }
    if cfg.checkNan {
      for k := 0 to |window|
        invariant forall j :: 0 <= j < k ==> window[j].Num?
      {
        if window[k].NaN? {
          return Err(NaNDetected);
        }
      }
    }
    ghost var w := Reals(window);
    var denominator := WeightTotal(period);
    var weightedSum := 0.0;
    var weight := period as real;
    for k := 0 to |window|
      invariant weight == period as real - k as real
      invariant weightedSum == WeightedSum(w, period, k)
    {
      weightedSum := weightedSum + window[k].v * weight;
      weight := weight - 1.0;
    }
    r := Ok(weightedSum / denominator);
  }

  /** The denominator is the sum of the weights period, period - 1, ..., 1. */
  lemma WeightTotalIsSumOfWeights(period: nat)
    ensures Weights(period, period) as real == WeightTotal(period)
  {
    WeightsClosedForm(period, period);
  }

  lemma {:induction false} WeightsClosedForm(period: nat, n: nat)
    ensures 2 * Weights(period, n) == n * (2 * period - n + 1)
  {
    if n > 0 {
      WeightsClosedForm(period, n - 1);
      assert (n - 1) * (2 * period - n + 2) + 2 * (period - n + 1) == n * (2 * period - n + 1);
    }
  }

  /** `total` lies between lo and hi times `weight`. */
  predicate Scaled(total: real, weight: real, lo: real, hi: real) {
    lo * weight <= total <= hi * weight
  }

  /**
    With positive weights the weighted sum of samples in [lo, hi] lies
    between lo and hi times the summed weights.
   */
  lemma {:induction false} WeightedSumBounds(w: seq<real>, period: nat, n: nat, lo: real, hi: real)
    requires n <= |w| && n <= period
    requires forall j :: 0 <= j < n ==> lo <= w[j] <= hi
    ensures Scaled(WeightedSum(w, period, n), Weights(period, n) as real, lo, hi)
  {
    if n > 0 {
      WeightedSumBounds(w, period, n - 1, lo, hi);
      var weight := (period - (n - 1)) as real;
      var before := Weights(period, n - 1) as real;
      var total := Weights(period, n) as real;
      var prefix := WeightedSum(w, period, n - 1);
      assert WeightedSum(w, period, n) == prefix + w[n - 1] * weight;
      assert total == before + weight;
      WeightedStepBounds(prefix, before, total, w[n - 1], weight, lo, hi);
    } else {
      assert lo * 0.0 == 0.0 && hi * 0.0 == 0.0;
    }
  }

  /** Adding a sample in [lo, hi] with a positive weight keeps a weighted sum within its bounds. */
  lemma WeightedStepBounds(prefix: real, before: real, total: real, x: real, weight: real, lo: real, hi: real)
    requires weight > 0.0 && lo <= x <= hi && total == before + weight
    requires Scaled(prefix, before, lo, hi)
    ensures Scaled(prefix + x * weight, total, lo, hi)
  {
    MulNonNeg(x - lo, weight);
    MulNonNeg(hi - x, weight);
  }

  /** A WMA lies between the smallest and the largest sample of its window. */
  lemma WmaBounds(xs: seq<real>, period: nat, i: nat, lo: real, hi: real)
    requires 1 <= period <= i + 1 <= |xs|
    requires forall k :: i + 1 - period <= k <= i ==> lo <= xs[k] <= hi
    ensures lo <= WmaAt(xs, period, i) <= hi
  {
    var w := Window(xs, period, i);
    WeightedSumBounds(w, period, period, lo, hi);
    WeightTotalIsSumOfWeights(period);
    var t := WeightTotal(period);
    assert t > 0.0;
    var s := WeightedSum(w, period, period);
    assert t * lo <= s <= t * hi;
    MeanBetween(s, t, lo, hi);
  }

  /** The WMA of a constant series is that constant. */
  lemma WmaOfConstant(xs: seq<real>, period: nat, i: nat, c: real)
    requires 1 <= period <= i + 1 <= |xs|
    requires forall k :: i + 1 - period <= k <= i ==> xs[k] == c
    ensures WmaAt(xs, period, i) == c
  {
    WmaBounds(xs, period, i, c, c);
  }

  /**
    The window the batch kernel weighs at index i is the slice ending at i
    reversed, which is what a streaming caller passes as newest-first window.
   */
  lemma WindowIsReversedSlice(xs: seq<real>, period: nat, i: nat)
    requires 1 <= period <= i + 1 <= |xs|
    ensures Window(xs, period, i) == Reverse(xs[i + 1 - period..i + 1])
  {
  }

  /**
    The documented five-sample example with period 3: the code gives
    14/6, 20/6 and 26/6 from index 2 on (the documentation's comment
    claims 2.0 for the first).
   */
  lemma WmaDocExample()
    ensures WmaAt([1.0, 2.0, 3.0, 4.0, 5.0], 3, 2) == 14.0 / 6.0
    ensures WmaAt([1.0, 2.0, 3.0, 4.0, 5.0], 3, 3) == 20.0 / 6.0
    ensures WmaAt([1.0, 2.0, 3.0, 4.0, 5.0], 3, 4) == 26.0 / 6.0
  {
  }

  /** The streaming example: window 5, 4, 3 (newest first) with period 3 gives 26/6. */
  lemma WmaIncDocExample()
    ensures WmaOfWindow([5.0, 4.0, 3.0]) == 26.0 / 6.0
  {
    var w := [5.0, 4.0, 3.0];
    assert WeightedSum(w, 3, 1) == 15.0;
    assert WeightedSum(w, 3, 2) == 23.0;
    assert WeightedSum(w, 3, 3) == 26.0;
  }
}
