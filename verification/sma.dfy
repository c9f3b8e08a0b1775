/**
  Simple moving average (kand/src/ta/ohlcv/sma.rs): the mean of the last
  `period` samples, kept as a sliding sum in batch and updated from the
  previous average in streaming.
 */
module Sma {
  import opened Kand
  import opened Sums

  /** Lookback without validation: period - 1 (the source underflows for period 0). */
  function LookbackRaw(period: nat): (r: nat)
    requires period >= 1
    ensures r + 1 == period
  {
    period - 1
  }

  /** Lookback with the `check` feature: periods below 2 are rejected. */
  function Lookback(cfg: Config, period: nat): (r: Result<nat>)
    requires cfg.check || period >= 1
    ensures r.Err? <==> cfg.check && period < 2
    ensures r.Err? ==> r.error == InvalidParameter
    ensures r.Ok? ==> r.value + 1 == period
  {
    if cfg.check && period < 2 then Err(InvalidParameter) else Ok(period - 1)
  }

  /** The mean of the window of `period` samples ending at index i. */
  function SmaAt(xs: seq<real>, period: nat, i: nat): real
    requires 1 <= period <= i + 1 <= |xs|
  {
    Sum(xs, i + 1 - period, i + 1) / period as real
  }

  /** The checks of `sma`, in the order the source runs them. */
  function Checks(cfg: Config, input: seq<Val>, period: nat, outLen: nat): seq<Check> {
    [ Check(cfg.check && period < 2, InvalidParameter),
      Check(cfg.check && |input| == 0, InvalidData),
      Check(cfg.check && |input| <= period - 1, InsufficientData),
      Check(cfg.check && outLen != |input|, LengthMismatch),
      Check(cfg.checkNan && !NoNaN(input), NaNDetected) ]
  }

  /**
    The batch kernel without validation: a seed sum over the first window,
    then one slide per index. Entries before the lookback are not touched.
   */
  method SmaRaw(input: seq<real>, period: nat, output: array<Val>)
    requires 1 <= period <= |input| == output.Length
    modifies output
    ensures forall i :: period - 1 <= i < |input| ==> output[i] == Num(SmaAt(input, period, i))
    ensures forall i :: 0 <= i < period - 1 ==> output[i] == old(output[i])
  {
    var len := |input|;
    var lookback := LookbackRaw(period);
    var sum := 0.0;
    for k := 0 to period
      invariant sum == Sum(input, 0, k)
    {
      sum := sum + input[k];
    }
    var periodReal := period as real;
    output[lookback] := Num(sum / periodReal);
    for i := lookback + 1 to len
      invariant sum == Sum(input, i - period, i)
      invariant forall k :: lookback <= k < i ==> output[k] == Num(SmaAt(input, period, k))
      invariant forall k :: 0 <= k < lookback ==> output[k] == old(output[k])
    {
      SumSlide(input, i - period, i);
      sum := sum + input[i] - input[i - period];
      output[i] := Num(sum / periodReal);
    }
  }

  /**
    The batch kernel: validation first (nothing is written on error), then
    the sliding sum; with `allowNan` the entries before the lookback become
    NaN, otherwise they keep the caller's contents.
   */
  method Sma(cfg: Config, input: seq<Val>, period: nat, output: array<Val>) returns (r: Result<()>)
    requires !cfg.check ==> 1 <= period <= |input| == output.Length
    requires !cfg.checkNan ==> NoNaN(input)
    modifies output
    ensures r == FirstFailure(Checks(cfg, input, period, output.Length))
    ensures r.Err? ==> output[..] == old(output[..])
    ensures r.Ok? ==> NoNaN(input) && 1 <= period <= |input| == output.Length
    ensures r.Ok? ==> forall i :: period - 1 <= i < |input| ==>
      output[i] == Num(SmaAt(Reals(input), period, i))
    ensures r.Ok? ==> forall i :: 0 <= i < period - 1 ==>
      output[i] == if cfg.allowNan then NaN else old(output[i])
  {
    var checks := Checks(cfg, input, period, output.Length);
    r := FirstFailure(checks);
    if r.Err? {
      return;
    }
    assert !checks[1].fails && !checks[2].fails && !checks[3].fails && !checks[4].fails;
    var lookback := LookbackRaw(period);
    SmaRaw(Reals(input), period, output);
    if cfg.allowNan {
      for k := 0 to lookback
        invariant forall j :: 0 <= j < k ==> output[j] == NaN
        invariant forall j :: lookback <= j < |input| ==> output[j] == Num(SmaAt(Reals(input), period, j))
      {
        output[k] := NaN;
      }
    }
  }

  /** One streaming step without validation: previous mean plus (new - old) / period. */
  function SmaIncRaw(input: real, prevInput: real, prevSma: real, period: nat): (r: real)
    requires period >= 1
    ensures (r - prevSma) * period as real == input - prevInput
    ensures input == prevInput ==> r == prevSma
  {
    prevSma + (input - prevInput) / period as real
  }

  /** One streaming step with the `check` and `check-nan` validation. */
  function SmaInc(cfg: Config, input: Val, prevInput: Val, prevSma: Val, period: nat): (r: Result<real>)
    requires cfg.check || period >= 1
    requires !cfg.checkNan ==> input.Num? && prevInput.Num? && prevSma.Num?
    ensures r.Err? <==> (cfg.check && period < 2) || (cfg.checkNan && (prevSma.NaN? || input.NaN? || prevInput.NaN?))
    ensures cfg.check && period < 2 ==> r == Err(InvalidParameter)
    ensures !(cfg.check && period < 2) && cfg.checkNan && (prevSma.NaN? || input.NaN? || prevInput.NaN?)
      ==> r == Err(NaNDetected)
    ensures r.Ok? ==> r.value == SmaIncRaw(input.v, prevInput.v, prevSma.v, period)
  {
    if cfg.check && period < 2 then Err(InvalidParameter)
    else if cfg.checkNan && (prevSma.NaN? || input.NaN? || prevInput.NaN?) then Err(NaNDetected)
    else Ok(SmaIncRaw(input.v, prevInput.v, prevSma.v, period))
  }

  /**
    Batch/streaming agreement: fed the sample entering the window, the one
    leaving it and the batch mean at i - 1, the streaming step returns the
    batch mean at i.
   */
  lemma SmaIncMatchesBatch(cfg: Config, xs: seq<real>, period: nat, i: nat)
    requires 2 <= period <= i < |xs|
    ensures SmaInc(cfg, Num(xs[i]), Num(xs[i - period]), Num(SmaAt(xs, period, i - 1)), period)
      == Ok(SmaAt(xs, period, i))
  {
    SumSlide(xs, i - period, i);
    var p := period as real;
    DivAdd(Sum(xs, i - period, i), xs[i] - xs[i - period], p);
    calc {
      SmaIncRaw(xs[i], xs[i - period], SmaAt(xs, period, i - 1), period);
      Sum(xs, i - period, i) / p + (xs[i] - xs[i - period]) / p;
      (Sum(xs, i - period, i) + xs[i] - xs[i - period]) / p;
      SmaAt(xs, period, i);
    }
  }

  /** The moving average of a constant series is that constant. */
  lemma SmaOfConstant(xs: seq<real>, period: nat, i: nat, c: real)
    requires 1 <= period <= i + 1 <= |xs|
    requires forall k :: i + 1 - period <= k <= i ==> xs[k] == c
    ensures SmaAt(xs, period, i) == c
  {
    SumConst(xs, i + 1 - period, i + 1, c);
  }
}
