/**
  Accumulation/Distribution line (kand/src/ta/ohlcv/ad.rs): a running sum,
  from index 0, of money-flow volume, the money-flow multiplier times the
  volume, where a bar with zero range has multiplier 0.
 */
module Ad {
  import opened Kand
  import opened Sums

  /** A/D has no memory before its first output. */
  function Lookback(): (r: Result<nat>)
    ensures r == Ok(0)
  {
    Ok(0)
  }

  /**
    The money-flow multiplier: where the close sits in the bar's range,
    from -1 (at the low) to +1 (at the high); 0 when the range is empty.
   */
  function Mfm(high: real, low: real, close: real): real {
    var highLowDiff := high - low;
    if highLowDiff == 0.0 then 0.0 else ((close - low) - (high - close)) / highLowDiff
  }

  /** The money-flow volume of every bar. */
  function MoneyFlow(high: seq<real>, low: seq<real>, close: seq<real>, volume: seq<real>): (r: seq<real>)
    requires |low| == |high| && |close| == |high| && |volume| == |high|
    ensures |r| == |high|
    ensures forall i :: 0 <= i < |high| ==> r[i] == Mfm(high[i], low[i], close[i]) * volume[i]
  {
    seq(|high|, i requires 0 <= i < |high| => Mfm(high[i], low[i], close[i]) * volume[i])
  }

  /** The A/D line at index i: the money-flow volumes of bars 0..=i summed. */
  function AdAt(high: seq<real>, low: seq<real>, close: seq<real>, volume: seq<real>, i: nat): real
    requires |low| == |high| && |close| == |high| && |volume| == |high|
    requires i < |high|
  {
    Sum(MoneyFlow(high, low, close, volume), 0, i + 1)
  }

  /** The whole A/D line. */
  function AdLine(high: seq<real>, low: seq<real>, close: seq<real>, volume: seq<real>): (r: seq<real>)
    requires |low| == |high| && |close| == |high| && |volume| == |high|
    ensures |r| == |high|
    ensures forall i :: 0 <= i < |high| ==> r[i] == AdAt(high, low, close, volume, i)
  {
    seq(|high|, i requires 0 <= i < |high| => AdAt(high, low, close, volume, i))
  }

  /** The checks of `ad`, in the order the source runs them. */
  function Checks(cfg: Config, high: seq<Val>, low: seq<Val>, close: seq<Val>, volume: seq<Val>,
                  outLen: nat): seq<Check>
  {
    var len := |high|;
    [ Check(cfg.check && len == 0, InvalidData),
      Check(cfg.check && (len != |low| || len != |close| || len != |volume| || len != outLen), LengthMismatch),
      Check(cfg.checkNan && !(NoNaN(high) && NoNaN(low) && NoNaN(close) && NoNaN(volume)), NaNDetected) ]
  }

  /**
    The batch kernel without validation: accumulates money-flow volume from
    `lookback` on and writes every running total.
   */
  method AdRaw(high: seq<real>, low: seq<real>, close: seq<real>, volume: seq<real>,
               output: array<Val>, lookback: nat)
    requires |low| == |high| && |close| == |high| && |volume| == |high| && output.Length == |high|
    modifies output
    ensures forall i :: lookback <= i < |high| ==>
      output[i] == Num(Sum(MoneyFlow(high, low, close, volume), lookback, i + 1))
    ensures forall i :: 0 <= i < lookback && i < |high| ==> output[i] == old(output[i])
  {
    var len := |high|;
    ghost var flow := MoneyFlow(high, low, close, volume);
    var ad := 0.0;
    if lookback >= len {
      return;
    }
    for i := lookback to len
      invariant ad == Sum(flow, lookback, i)
      invariant forall k :: lookback <= k < i ==> output[k] == Num(Sum(flow, lookback, k + 1))
      invariant forall k :: 0 <= k < lookback ==> output[k] == old(output[k])
    {
      var highLowDiff := high[i] - low[i];
      var mfm := if highLowDiff == 0.0 then 0.0
                 else ((close[i] - low[i]) - (high[i] - close[i])) / highLowDiff;
      ad := mfm * volume[i] + ad;
      output[i] := Num(ad);
    }
  }

  /**
    The batch kernel: validation first (nothing is written on error), then
    every index of the output holds the A/D line.
   */
  method Ad(cfg: Config, high: seq<Val>, low: seq<Val>, close: seq<Val>, volume: seq<Val>,
            output: array<Val>) returns (r: Result<()>)
    requires !cfg.check ==> |low| == |high| && |close| == |high| && |volume| == |high| && output.Length == |high|
    requires !cfg.checkNan ==> NoNaN(high) && NoNaN(low) && NoNaN(close) && NoNaN(volume)
    modifies output
    ensures r == FirstFailure(Checks(cfg, high, low, close, volume, output.Length))
    ensures r.Err? ==> output[..] == old(output[..])
    ensures r.Ok? ==> NoNaN(high) && NoNaN(low) && NoNaN(close) && NoNaN(volume)
    ensures r.Ok? ==> |low| == |high| && |close| == |high| && |volume| == |high| && output.Length == |high|
    ensures r.Ok? ==> forall i :: 0 <= i < |high| ==>
      output[i] == Num(AdAt(Reals(high), Reals(low), Reals(close), Reals(volume), i))
  {
    var lookback := Lookback().value;
    var checks := Checks(cfg, high, low, close, volume, output.Length);
    r := FirstFailure(checks);
    if r.Err? {
      return;
    }
    assert !checks[1].fails && !checks[2].fails;
    AdRaw(Reals(high), Reals(low), Reals(close), Reals(volume), output, lookback);
  }

  /** One streaming step without validation: previous A/D plus this bar's money-flow volume. */
  function AdIncRaw(high: real, low: real, close: real, volume: real, prevAd: real): (r: real)
    ensures r == prevAd + Mfm(high, low, close) * volume
    ensures high == low ==> r == prevAd
  {
    var highLowDiff := high - low;
    var mfm := if highLowDiff == 0.0 then 0.0 else ((close - low) - (high - close)) / highLowDiff;
    mfm * volume + prevAd
  }

  /** One streaming step; its only possible error is `NaNDetected`, and only under `check-nan`. */
  function AdInc(cfg: Config, high: Val, low: Val, close: Val, volume: Val, prevAd: Val): (r: Result<real>)
    requires !cfg.checkNan ==> high.Num? && low.Num? && close.Num? && volume.Num? && prevAd.Num?
    ensures r.Err? <==> cfg.checkNan && (high.NaN? || low.NaN? || close.NaN? || volume.NaN? || prevAd.NaN?)
    ensures r.Err? ==> r.error == NaNDetected
    ensures r.Ok? ==> r.value == prevAd.v + Mfm(high.v, low.v, close.v) * volume.v
  {
    if cfg.checkNan && (high.NaN? || low.NaN? || close.NaN? || volume.NaN? || prevAd.NaN?) then
      Err(NaNDetected)
    else
      Ok(AdIncRaw(high.v, low.v, close.v, volume.v, prevAd.v))
  }

  /** A bar whose high equals its low leaves the A/D line unchanged. */
  lemma ZeroRangeKeepsAd(high: real, close: real, volume: real, prevAd: real)
    ensures Mfm(high, high, close) == 0.0
    ensures AdIncRaw(high, high, close, volume, prevAd) == prevAd
  {
  }

  /** For a well-formed bar with a non-empty range the multiplier lies in [-1, 1]. */
  lemma MfmBounds(high: real, low: real, close: real)
    requires low <= close <= high && low < high
    ensures -1.0 <= Mfm(high, low, close) <= 1.0
  {
    var d := high - low;
    var n := (close - low) - (high - close);
    assert d * -1.0 <= n <= d * 1.0;
    MeanBetween(n, d, -1.0, 1.0);
  }

  /** A close at the low gives multiplier -1; a close at the high gives +1. */
  lemma MfmAtExtremes(high: real, low: real)
    requires low < high
    ensures Mfm(high, low, low) == -1.0
    ensures Mfm(high, low, high) == 1.0
  {
    var d := high - low;
    assert (low - low) - (high - low) == -d;
    assert (-d) / d == -1.0;
    assert (high - low) - (high - high) == d;
    assert d / d == 1.0;
  }

  /**
    Batch/streaming agreement: fed bar i and the batch A/D at i - 1, the
    streaming step returns the batch A/D at i.
   */
  lemma AdIncMatchesBatch(cfg: Config, high: seq<real>, low: seq<real>, close: seq<real>, volume: seq<real>,
                          i: nat)
    requires |low| == |high| && |close| == |high| && |volume| == |high|
    requires 1 <= i < |high|
    ensures AdInc(cfg, Num(high[i]), Num(low[i]), Num(close[i]), Num(volume[i]),
                  Num(AdAt(high, low, close, volume, i - 1)))
      == Ok(AdAt(high, low, close, volume, i))
  {
    var flow := MoneyFlow(high, low, close, volume);
    assert Sum(flow, 0, i + 1) == Sum(flow, 0, i) + flow[i];
    assert AdIncRaw(high[i], low[i], close[i], volume[i], AdAt(high, low, close, volume, i - 1))
      == Mfm(high[i], low[i], close[i]) * volume[i] + Sum(flow, 0, i);
  }

  /** The first output of the source's test series: a close at the low makes it -volume[0]. */
  lemma AdFirstTestValue()
    ensures AdAt([35266.0], [35216.1], [35216.1], [1055.365], 0) == -1055.365
  {
    MfmAtExtremes(35266.0, 35216.1);
  }

  /**
    The three-bar example of the documentation (high 10, 12, 15; low 8, 9, 11;
    close 9, 11, 13; volume 100, 150, 200): the multipliers are 0, 1/3 and 0,
    so the line is 0, 50, 50.
   */
  lemma AdDocExample()
    ensures AdLine([10.0, 12.0, 15.0], [8.0, 9.0, 11.0], [9.0, 11.0, 13.0], [100.0, 150.0, 200.0])
      == [0.0, 50.0, 50.0]
  {
    var flow := MoneyFlow([10.0, 12.0, 15.0], [8.0, 9.0, 11.0], [9.0, 11.0, 13.0], [100.0, 150.0, 200.0]);
    assert flow[0] == 0.0 && flow[1] == 50.0 && flow[2] == 0.0;
  }
}
