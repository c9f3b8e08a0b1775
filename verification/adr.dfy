/**
  Average daily range (kand/src/ta/ohlcv/adr.rs): the simple moving average
  of the bar ranges high - low, computed by handing the ranges to the SMA
  kernel; the streaming step hands the entering and leaving ranges to the
  SMA streaming step.
 */
module Adr {
  import opened Kand
  import opened Sums
  import Sma

  /** The lookback of the underlying SMA. */
  function Lookback(cfg: Config, period: nat): (r: Result<nat>)
    requires cfg.check || period >= 1
    ensures r.Err? <==> cfg.check && period < 2
    ensures r.Err? ==> r.error == InvalidParameter
    ensures r.Ok? ==> r.value + 1 == period
  {
    Sma.Lookback(cfg, period)
  }

  /** The range high - low of every bar. */
  function Ranges(high: seq<real>, low: seq<real>): (r: seq<real>)
    requires |low| == |high|
    ensures |r| == |high| && forall i :: 0 <= i < |high| ==> r[i] == high[i] - low[i]
  {
    seq(|high|, i requires 0 <= i < |high| => high[i] - low[i])
  }

  /** The ADR at index i: the mean range of the `period` bars ending at i. */
  function AdrAt(high: seq<real>, low: seq<real>, period: nat, i: nat): real
    requires |low| == |high|
    requires 1 <= period <= i + 1 <= |high|
  {
    Sma.SmaAt(Ranges(high, low), period, i)
  }

  /** The checks of `adr`, in the order the source runs them. */
  function Checks(cfg: Config, high: seq<Val>, low: seq<Val>, period: nat, outLen: nat): seq<Check> {
    var len := |high|;
    [ Check(cfg.check && period < 2, InvalidParameter),
      Check(cfg.check && len == 0, InvalidData),
      Check(cfg.check && len <= period - 1, InsufficientData),
      Check(cfg.check && (len != |low| || len != outLen), LengthMismatch),
      Check(cfg.checkNan && !(NoNaN(high) && NoNaN(low)), NaNDetected) ]
  }

  /**
    The batch kernel: its own validation first (nothing is written on
    error), then the SMA kernel over the ranges, whose own validation then
    always passes; the pre-lookback entries follow the SMA's `allowNan` policy.
   */
  method Adr(cfg: Config, high: seq<Val>, low: seq<Val>, period: nat, output: array<Val>) returns (r: Result<()>)
    requires !cfg.check ==> 1 <= period <= |high| && |low| == |high| && output.Length == |high|
    requires !cfg.checkNan ==> NoNaN(high) && NoNaN(low)
    modifies output
    ensures r == FirstFailure(Checks(cfg, high, low, period, output.Length))
    ensures r.Err? ==> output[..] == old(output[..])
    ensures r.Ok? ==> NoNaN(high) && NoNaN(low) && 1 <= period <= |high| && |low| == |high| &&
                      output.Length == |high|
    ensures r.Ok? ==> forall i :: period - 1 <= i < |high| ==>
      output[i] == Num(AdrAt(Reals(high), Reals(low), period, i))
    ensures r.Ok? ==> forall i :: 0 <= i < period - 1 ==>
      output[i] == if cfg.allowNan then NaN else old(output[i])
  {
    var checks := Checks(cfg, high, low, period, output.Length);
    r := FirstFailure(checks);
    if r.Err? {
      return;
    }
    assert !checks[1].fails && !checks[2].fails && !checks[3].fails && !checks[4].fails;
    var ranges := Nums(Ranges(Reals(high), Reals(low)));
    ghost var smaChecks := Sma.Checks(cfg, ranges, period, output.Length);
    assert forall k :: 0 <= k < |smaChecks| ==> !smaChecks[k].fails;
    r := Sma.Sma(cfg, ranges, period, output);
  }

  /**
    One streaming step as the evident intent of the source: the range
    entering the window is high - low of the new bar, the range leaving it
    that of the bar `period` back, and the SMA streaming step updates the
    previous ADR with them.
   */
  function AdrInc(cfg: Config, prevAdr: Val, newHigh: Val, newLow: Val, oldHigh: Val, oldLow: Val,
                  period: nat): (r: Result<real>)
    requires cfg.check || period >= 1
    requires !cfg.checkNan ==> prevAdr.Num? && newHigh.Num? && newLow.Num? && oldHigh.Num? && oldLow.Num?
    ensures r.Err? <==> ((cfg.check && period < 2) ||
      (cfg.checkNan && (newHigh.NaN? || newLow.NaN? || oldHigh.NaN? || oldLow.NaN? || prevAdr.NaN?)))
    ensures cfg.check && period < 2 ==> r == Err(InvalidParameter)
    ensures (!(cfg.check && period < 2) && cfg.checkNan &&
      (newHigh.NaN? || newLow.NaN? || oldHigh.NaN? || oldLow.NaN? || prevAdr.NaN?)) ==> r == Err(NaNDetected)
    ensures !(cfg.check && period < 2) && !(newHigh.NaN? || newLow.NaN? || oldHigh.NaN? || oldLow.NaN? || prevAdr.NaN?)
      ==> r == Ok(prevAdr.v + ((newHigh.v - newLow.v) - (oldHigh.v - oldLow.v)) / period as real)
  {
    if cfg.check && period < 2 then Err(InvalidParameter)
    else if cfg.checkNan && (newHigh.NaN? || newLow.NaN? || oldHigh.NaN? || oldLow.NaN? || prevAdr.NaN?) then
      Err(NaNDetected)
    else
      var newRange := newHigh.v - newLow.v;
      var oldRange := oldHigh.v - oldLow.v;
      Sma.SmaInc(cfg, Num(newRange), Num(oldRange), prevAdr, period)
  }

  /**
    The streaming step as the source writes it: the previous ADR is passed
    where the SMA streaming step expects the entering sample, the new range
    where it expects the leaving sample, and the old range where it expects
    the previous average.
   */
  function AdrIncAsWritten(cfg: Config, prevAdr: Val, newHigh: Val, newLow: Val, oldHigh: Val, oldLow: Val,
                           period: nat): (r: Result<real>)
    requires cfg.check || period >= 1
    requires !cfg.checkNan ==> prevAdr.Num? && newHigh.Num? && newLow.Num? && oldHigh.Num? && oldLow.Num?
    ensures r.Err? <==> ((cfg.check && period < 2) ||
      (cfg.checkNan && (newHigh.NaN? || newLow.NaN? || oldHigh.NaN? || oldLow.NaN? || prevAdr.NaN?)))
    ensures cfg.check && period < 2 ==> r == Err(InvalidParameter)
    ensures (!(cfg.check && period < 2) && cfg.checkNan &&
      (newHigh.NaN? || newLow.NaN? || oldHigh.NaN? || oldLow.NaN? || prevAdr.NaN?)) ==> r == Err(NaNDetected)
    ensures !(cfg.check && period < 2) && !(newHigh.NaN? || newLow.NaN? || oldHigh.NaN? || oldLow.NaN? || prevAdr.NaN?)
      ==> r == Ok((oldHigh.v - oldLow.v) + (prevAdr.v - (newHigh.v - newLow.v)) / period as real)
  {
    if cfg.check && period < 2 then Err(InvalidParameter)
    else if cfg.checkNan && (newHigh.NaN? || newLow.NaN? || oldHigh.NaN? || oldLow.NaN? || prevAdr.NaN?) then
      Err(NaNDetected)
    else
      var newRange := newHigh.v - newLow.v;
      var oldRange := oldHigh.v - oldLow.v;
      Sma.SmaInc(cfg, prevAdr, Num(newRange), Num(oldRange), period)
  }

  /**
    Batch/streaming agreement of the corrected step: fed bar i, bar
    i - period and the batch ADR at i - 1, it returns the batch ADR at i.
   */
  lemma AdrIncMatchesBatch(cfg: Config, high: seq<real>, low: seq<real>, period: nat, i: nat)
    requires |low| == |high|
    requires 2 <= period <= i < |high|
    ensures AdrInc(cfg, Num(AdrAt(high, low, period, i - 1)), Num(high[i]), Num(low[i]),
                   Num(high[i - period]), Num(low[i - period]), period)
      == Ok(AdrAt(high, low, period, i))
  {
    var ranges := Ranges(high, low);
    Sma.SmaIncMatchesBatch(cfg, ranges, period, i);
  }

  /**
    The step as written disagrees with the batch kernel: highs 1, 2, 3 and
    lows 0, 0, 0 with period 2 have batch ADR 1.5 at index 1 and 2.5 at
    index 2, but the step fed 1.5 and bars 2 and 0 returns 0.25.
   */
  lemma AdrIncAsWrittenDiverges(cfg: Config)
    ensures AdrAt([1.0, 2.0, 3.0], [0.0, 0.0, 0.0], 2, 1) == 1.5
    ensures AdrAt([1.0, 2.0, 3.0], [0.0, 0.0, 0.0], 2, 2) == 2.5
    ensures AdrIncAsWritten(cfg, Num(1.5), Num(3.0), Num(0.0), Num(1.0), Num(0.0), 2) == Ok(0.25)
    ensures AdrInc(cfg, Num(1.5), Num(3.0), Num(0.0), Num(1.0), Num(0.0), 2) == Ok(2.5)
  {
    var ranges := Ranges([1.0, 2.0, 3.0], [0.0, 0.0, 0.0]);
    assert ranges == [1.0, 2.0, 3.0];
    assert Sum(ranges, 0, 2) == 3.0;
    assert Sum(ranges, 1, 3) == 5.0 by { SumDropFirst(ranges, 1, 3); }
  }

  /**
    The documented streaming example (previous ADR 3, new bar 15/12, old bar
    10/8, period 14): as written it returns 2, the old range; the intended
    update is 3 + 1/14.
   */
  lemma AdrIncDocExample(cfg: Config)
    ensures AdrIncAsWritten(cfg, Num(3.0), Num(15.0), Num(12.0), Num(10.0), Num(8.0), 14) == Ok(2.0)
    ensures AdrInc(cfg, Num(3.0), Num(15.0), Num(12.0), Num(10.0), Num(8.0), 14) == Ok(3.0 + 1.0 / 14.0)
  {
  }

  /** When no bar's low exceeds its high, the ADR is non-negative. */
  lemma AdrNonNegative(high: seq<real>, low: seq<real>, period: nat, i: nat)
    requires |low| == |high|
    requires 1 <= period <= i + 1 <= |high|
    requires forall k :: i + 1 - period <= k <= i ==> low[k] <= high[k]
    ensures AdrAt(high, low, period, i) >= 0.0
  {
    SumNonNegative(Ranges(high, low), i + 1 - period, i + 1);
  }
}
