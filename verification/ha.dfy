/**
  Heikin-Ashi candles (kand/src/ta/ohlcv/ha.rs): a smoothed candle series in
  which each close is the mean of the bar's four prices, each open is the
  midpoint of the previous smoothed open and close, and high and low widen
  the bar's own range to cover the smoothed open and close.
 */
module Ha {
  import opened Kand

  /** One candle: open, high, low, close. */
  datatype Candle = Candle(open: real, high: real, low: real, close: real)

  /** A candle whose open and close lie within its low..high range. */
  predicate WellFormed(c: Candle) {
    c.low <= c.open <= c.high && c.low <= c.close <= c.high
  }

  function Max(a: real, b: real): (r: real)
    ensures r >= a && r >= b && (r == a || r == b)
  {
    if a >= b then a else b
  }

  function Min(a: real, b: real): (r: real)
    ensures r <= a && r <= b && (r == a || r == b)
  {
    if a <= b then a else b
  }

  /** The lookback is always 1: every candle after the first needs its predecessor. */
  function Lookback(): (r: Result<nat>)
    ensures r == Ok(1)
  {
    Ok(1)
  }

  /**
    One smoothing step without validation. The high is the largest of the
    bar's high and the smoothed open and close, the low the smallest of the
    bar's low and the smoothed open and close.
   */
  function HaIncRaw(bar: Candle, prevHaOpen: real, prevHaClose: real): (r: Candle)
    ensures r.close == (bar.open + bar.high + bar.low + bar.close) / 4.0
    ensures r.open == (prevHaOpen + prevHaClose) / 2.0
    ensures r.high >= bar.high && r.high >= r.open && r.high >= r.close
    ensures r.high == bar.high || r.high == r.open || r.high == r.close
    ensures r.low <= bar.low && r.low <= r.open && r.low <= r.close
    ensures r.low == bar.low || r.low == r.open || r.low == r.close
  {
    var haClose := (bar.open + bar.high + bar.low + bar.close) / 4.0;
    var haOpen := (prevHaOpen + prevHaClose) / 2.0;
    Candle(haOpen, Max(Max(bar.high, haOpen), haClose), Min(Min(bar.low, haOpen), haClose), haClose)
  }

  /** One streaming step; its only possible error is `NaNDetected`, and only under `check-nan`. */
  function HaInc(cfg: Config, open: Val, high: Val, low: Val, close: Val, prevHaOpen: Val, prevHaClose: Val)
    : (r: Result<Candle>)
    requires !cfg.checkNan ==> open.Num? && high.Num? && low.Num? && close.Num? && prevHaOpen.Num? && prevHaClose.Num?
    ensures r.Err? <==> (cfg.checkNan &&
      (open.NaN? || high.NaN? || low.NaN? || close.NaN? || prevHaOpen.NaN? || prevHaClose.NaN?))
    ensures r.Err? ==> r.error == NaNDetected
    ensures r.Ok? ==> r.value == HaIncRaw(Candle(open.v, high.v, low.v, close.v), prevHaOpen.v, prevHaClose.v)
  {
    if cfg.checkNan &&
       (open.NaN? || high.NaN? || low.NaN? || close.NaN? || prevHaOpen.NaN? || prevHaClose.NaN?) then
      Err(NaNDetected)
    else
      Ok(HaIncRaw(Candle(open.v, high.v, low.v, close.v), prevHaOpen.v, prevHaClose.v))
  }

  /**
    The first smoothed candle: the close is the four-price mean, the open the
    midpoint of the bar's own open and close, high and low are the bar's own.
   */
  function HaFirst(bar: Candle): (r: Candle)
    ensures r.close == (bar.open + bar.high + bar.low + bar.close) / 4.0
    ensures r.open == (bar.open + bar.close) / 2.0
    ensures r.high == bar.high && r.low == bar.low
  {
    Candle((bar.open + bar.close) / 2.0, bar.high, bar.low, (bar.open + bar.high + bar.low + bar.close) / 4.0)
  }

  /** The smoothed candle at index i of a bar series. */
  function HaAt(bars: seq<Candle>, i: nat): Candle
    requires i < |bars|
  {
    if i == 0 then HaFirst(bars[0])
    else
      var prev := HaAt(bars, i - 1);
      HaIncRaw(bars[i], prev.open, prev.close)
  }

  /** The bars of four NaN-free price series of equal length. */
  function Bars(open: seq<real>, high: seq<real>, low: seq<real>, close: seq<real>): (r: seq<Candle>)
    requires |high| == |open| && |low| == |open| && |close| == |open|
    ensures |r| == |open|
    ensures forall i :: 0 <= i < |open| ==> r[i] == Candle(open[i], high[i], low[i], close[i])
  {
    seq(|open|, i requires 0 <= i < |open| => Candle(open[i], high[i], low[i], close[i]))
  }

  /** The checks of `ha`, in the order the source runs them. */
  function Checks(cfg: Config, open: seq<Val>, high: seq<Val>, low: seq<Val>, close: seq<Val>,
                  outLen0: nat, outLen1: nat, outLen2: nat, outLen3: nat): seq<Check>
  {
    var len := |open|;
    [ Check(cfg.check && len == 0, InvalidData),
      Check(cfg.check && (len != |high| || len != |low| || len != |close| ||
                          len != outLen0 || len != outLen1 || len != outLen2 || len != outLen3), LengthMismatch),
      Check(cfg.checkNan && !(NoNaN(open) && NoNaN(high) && NoNaN(low) && NoNaN(close)), NaNDetected) ]
  }

  /** The four output buffers hold candle c at index k. */
  ghost predicate CandleAt(outOpen: array<Val>, outHigh: array<Val>, outLow: array<Val>, outClose: array<Val>,
                           k: nat, c: Candle)
    reads outOpen, outHigh, outLow, outClose
  {
    k < outOpen.Length && k < outHigh.Length && k < outLow.Length && k < outClose.Length &&
    outOpen[k] == Num(c.open) && outHigh[k] == Num(c.high) &&
    outLow[k] == Num(c.low) && outClose[k] == Num(c.close)
  }

  /**
    The batch kernel after validation: the first candle, then one streaming
    step per later index, each fed the smoothed open and close just written
    at the previous index.
   */
  method HaRaw(cfg: Config, bars: seq<Candle>,
               outOpen: array<Val>, outHigh: array<Val>, outLow: array<Val>, outClose: array<Val>)
    requires outOpen != outHigh && outOpen != outLow && outOpen != outClose
    requires outHigh != outLow && outHigh != outClose && outLow != outClose
    requires 1 <= |bars|
    requires outOpen.Length == |bars| && outHigh.Length == |bars| &&
             outLow.Length == |bars| && outClose.Length == |bars|
    modifies outOpen, outHigh, outLow, outClose
    ensures forall i :: 0 <= i < |bars| ==> CandleAt(outOpen, outHigh, outLow, outClose, i, HaAt(bars, i))
  {
    var len := |bars|;
    var lookback := Lookback().value;
    outClose[0] := Num((bars[0].open + bars[0].high + bars[0].low + bars[0].close) / 4.0);
    outOpen[0] := Num((bars[0].open + bars[0].close) / 2.0);
    outHigh[0] := Num(bars[0].high);
    outLow[0] := Num(bars[0].low);

    for i := lookback to len
      invariant forall k :: 0 <= k < i ==> CandleAt(outOpen, outHigh, outLow, outClose, k, HaAt(bars, k))
    {
      assert CandleAt(outOpen, outHigh, outLow, outClose, i - 1, HaAt(bars, i - 1));
      var bar := bars[i];
      var c := HaInc(cfg, Num(bar.open), Num(bar.high), Num(bar.low), Num(bar.close),
                     outOpen[i - 1], outClose[i - 1]).value;
      outOpen[i] := Num(c.open);
      outHigh[i] := Num(c.high);
      outLow[i] := Num(c.low);
      outClose[i] := Num(c.close);
      assert CandleAt(outOpen, outHigh, outLow, outClose, i, HaAt(bars, i));
    }
  }

  /**
    The batch kernel: validation first (nothing is written on error), then
    every index of the four outputs holds the smoothed candle.
   */
  method Ha(cfg: Config, open: seq<Val>, high: seq<Val>, low: seq<Val>, close: seq<Val>,
            outOpen: array<Val>, outHigh: array<Val>, outLow: array<Val>, outClose: array<Val>)
    returns (r: Result<()>)
    requires outOpen != outHigh && outOpen != outLow && outOpen != outClose
    requires outHigh != outLow && outHigh != outClose && outLow != outClose
    requires !cfg.check ==> (1 <= |open| && |high| == |open| && |low| == |open| && |close| == |open| &&
      outOpen.Length == |open| && outHigh.Length == |open| && outLow.Length == |open| && outClose.Length == |open|)
    requires !cfg.checkNan ==> NoNaN(open) && NoNaN(high) && NoNaN(low) && NoNaN(close)
    modifies outOpen, outHigh, outLow, outClose
    ensures r == FirstFailure(Checks(cfg, open, high, low, close,
                                     outOpen.Length, outHigh.Length, outLow.Length, outClose.Length))
    ensures r.Err? ==> outOpen[..] == old(outOpen[..]) && outHigh[..] == old(outHigh[..]) &&
                       outLow[..] == old(outLow[..]) && outClose[..] == old(outClose[..])
    ensures r.Ok? ==> NoNaN(open) && NoNaN(high) && NoNaN(low) && NoNaN(close)
    ensures r.Ok? ==> (1 <= |open| && |high| == |open| && |low| == |open| && |close| == |open| &&
      outOpen.Length == |open| && outHigh.Length == |open| && outLow.Length == |open| && outClose.Length == |open|)
    ensures r.Ok? ==> forall i :: 0 <= i < |open| ==>
      CandleAt(outOpen, outHigh, outLow, outClose, i,
               HaAt(Bars(Reals(open), Reals(high), Reals(low), Reals(close)), i))
  {
    var checks := Checks(cfg, open, high, low, close,
                         outOpen.Length, outHigh.Length, outLow.Length, outClose.Length);
    r := FirstFailure(checks);
    if r.Err? {
      return;
    }
    assert !checks[0].fails && !checks[1].fails && !checks[2].fails;
    HaRaw(cfg, Bars(Reals(open), Reals(high), Reals(low), Reals(close)), outOpen, outHigh, outLow, outClose);
  }

  /**
    Batch/streaming agreement: fed bar i and the batch smoothed open and
    close at i - 1, the streaming step returns the batch candle at i.
   */
  lemma HaIncMatchesBatch(cfg: Config, bars: seq<Candle>, i: nat)
    requires 1 <= i < |bars|
    ensures var prev := HaAt(bars, i - 1);
      HaInc(cfg, Num(bars[i].open), Num(bars[i].high), Num(bars[i].low), Num(bars[i].close),
            Num(prev.open), Num(prev.close)) == Ok(HaAt(bars, i))
  {
  }

  /**
    Every smoothed candle is well formed, the first one provided its own bar
    is; every later candle also covers its bar's own high and low.
   */
  lemma HaWellFormed(bars: seq<Candle>, i: nat)
    requires i < |bars|
    requires WellFormed(bars[0])
    ensures WellFormed(HaAt(bars, i))
    ensures HaAt(bars, i).high >= bars[i].high && HaAt(bars, i).low <= bars[i].low
  {
  }

  /** A malformed first bar (open above high) gives a malformed first candle: no widening at index 0. */
  lemma HaFirstNotWidened()
    ensures !WellFormed(HaAt([Candle(12.0, 11.0, 9.0, 11.0)], 0))
  {
  }

  /** The smoothed open follows the previous smoothed candle, not the current bar. */
  lemma HaOpenIgnoresBar(bars: seq<Candle>, bars': seq<Candle>, i: nat)
    requires 1 <= i < |bars| == |bars'|
    requires bars[..i] == bars'[..i]
    ensures HaAt(bars, i).open == HaAt(bars', i).open
  {
    HaPrefix(bars, bars', i - 1);
  }

  /** Candles depend only on the bars up to their own index. */
  lemma {:induction false} HaPrefix(bars: seq<Candle>, bars': seq<Candle>, i: nat)
    requires i < |bars| && i < |bars'|
    requires forall k :: 0 <= k <= i ==> bars[k] == bars'[k]
    ensures HaAt(bars, i) == HaAt(bars', i)
  {
    if i > 0 {
      HaPrefix(bars, bars', i - 1);
    }
  }

  /** The first two candles of the source's five-bar test series. */
  lemma HaTestValues()
    ensures var bars := [Candle(10.0, 11.0, 9.5, 10.8), Candle(10.5, 11.5, 10.2, 11.3),
                         Candle(11.2, 11.8, 10.8, 11.5), Candle(10.8, 11.3, 10.5, 11.0),
                         Candle(11.5, 12.0, 11.3, 11.8)];
      HaAt(bars, 0) == Candle(10.4, 11.0, 9.5, 10.325) &&
      HaAt(bars, 1) == Candle(10.3625, 11.5, 10.2, 10.875)
  {
  }
}
