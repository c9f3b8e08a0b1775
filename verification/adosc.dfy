/**
  Accumulation/Distribution oscillator (kand/src/ta/ohlcv/adosc.rs): the
  fast EMA minus the slow EMA of the A/D line. The batch kernel fills four
  outputs (oscillator, A/D, fast EMA, slow EMA); the streaming step threads
  the state (A/D, fast EMA, slow EMA) from one bar to the next.
 */
module Adosc {
  import opened Kand
  import Ad
  import Ema

  /**
    Lookback: that of the slow EMA, slow - 1; with `check` both periods
    must be at least 2 and fast must be below slow.
   */
  function Lookback(cfg: Config, fast: nat, slow: nat): (r: Result<nat>)
    requires cfg.check || slow >= 1
    ensures r.Err? <==> cfg.check && (fast < 2 || slow < 2 || fast >= slow)
    ensures r.Err? ==> r.error == InvalidParameter
    ensures r.Ok? ==> r.value + 1 == slow
  {
    if cfg.check && (fast < 2 || slow < 2 || fast >= slow) then Err(InvalidParameter)
    else Ok(slow - 1)
  }

  /** The oscillator at index i: fast EMA minus slow EMA of the A/D line. */
  function AdoscAt(ad: seq<real>, fast: nat, slow: nat, i: nat): real
    requires 1 <= fast <= slow <= i + 1 <= |ad|
  {
    Ema.EmaAt(ad, fast, i) - Ema.EmaAt(ad, slow, i)
  }

  /** The checks of `adosc`, in the order the source runs them. */
  function Checks(cfg: Config, high: seq<Val>, low: seq<Val>, close: seq<Val>, volume: seq<Val>,
                  fast: nat, slow: nat, outLen0: nat, outLen1: nat, outLen2: nat, outLen3: nat): seq<Check>
  {
    var len := |high|;
    [ Check(cfg.check && (fast < 2 || slow < 2 || fast >= slow), InvalidParameter),
      Check(cfg.check && len == 0, InvalidData),
      Check(cfg.check && len <= slow - 1, InsufficientData),
      Check(cfg.check && (len != |low| || len != |close| || len != |volume| ||
                          len != outLen0 || len != outLen1 || len != outLen2 || len != outLen3), LengthMismatch),
      Check(cfg.checkNan && !(NoNaN(high) && NoNaN(low) && NoNaN(close) && NoNaN(volume)), NaNDetected) ]
  }

  /** The A/D line of four NaN-free input series. */
  function AdOf(high: seq<Val>, low: seq<Val>, close: seq<Val>, volume: seq<Val>): (r: seq<real>)
    requires NoNaN(high) && NoNaN(low) && NoNaN(close) && NoNaN(volume)
    requires |low| == |high| && |close| == |high| && |volume| == |high|
    ensures |r| == |high|
  {
    Ad.AdLine(Reals(high), Reals(low), Reals(close), Reals(volume))
  }

  /**
    The batch kernel: validation first (nothing is written on error), then
    the A/D kernel into `outAd`, the fast and slow EMAs of that line, and
    their difference from the lookback on; the oscillator's entries before
    the lookback keep the caller's contents.
   */
  method Adosc(cfg: Config, high: seq<Val>, low: seq<Val>, close: seq<Val>, volume: seq<Val>,
               fast: nat, slow: nat,
               outAdosc: array<Val>, outAd: array<Val>, outFast: array<Val>, outSlow: array<Val>)
    returns (r: Result<()>)
    requires outAdosc != outAd && outAdosc != outFast && outAdosc != outSlow
    requires outAd != outFast && outAd != outSlow && outFast != outSlow
    requires !cfg.check ==> (1 <= fast <= slow <= |high| &&
      |low| == |high| && |close| == |high| && |volume| == |high| &&
      outAdosc.Length == |high| && outAd.Length == |high| && outFast.Length == |high| && outSlow.Length == |high|)
    requires !cfg.checkNan ==> NoNaN(high) && NoNaN(low) && NoNaN(close) && NoNaN(volume)
    modifies outAdosc, outAd, outFast, outSlow
    ensures r == FirstFailure(Checks(cfg, high, low, close, volume, fast, slow,
                                     outAdosc.Length, outAd.Length, outFast.Length, outSlow.Length))
    ensures r.Err? ==> outAdosc[..] == old(outAdosc[..]) && outAd[..] == old(outAd[..]) &&
                       outFast[..] == old(outFast[..]) && outSlow[..] == old(outSlow[..])
    ensures r.Ok? ==> NoNaN(high) && NoNaN(low) && NoNaN(close) && NoNaN(volume)
    ensures r.Ok? ==> (1 <= fast <= slow <= |high| &&
      |low| == |high| && |close| == |high| && |volume| == |high| &&
      outAdosc.Length == |high| && outAd.Length == |high| && outFast.Length == |high| && outSlow.Length == |high|)
    ensures r.Ok? ==> forall i :: 0 <= i < |high| ==> outAd[i] == Num(AdOf(high, low, close, volume)[i])
    ensures r.Ok? ==> forall i :: fast - 1 <= i < |high| ==>
      outFast[i] == Num(Ema.EmaAt(AdOf(high, low, close, volume), fast, i))
    ensures r.Ok? ==> forall i :: slow - 1 <= i < |high| ==>
      outSlow[i] == Num(Ema.EmaAt(AdOf(high, low, close, volume), slow, i))
    ensures r.Ok? ==> forall i :: slow - 1 <= i < |high| ==>
      outAdosc[i] == Num(AdoscAt(AdOf(high, low, close, volume), fast, slow, i))
    ensures r.Ok? ==> forall i :: 0 <= i < slow - 1 ==> outAdosc[i] == old(outAdosc[i])
  {
    var len := |high|;
    var checks := Checks(cfg, high, low, close, volume, fast, slow,
                         outAdosc.Length, outAd.Length, outFast.Length, outSlow.Length);
    r := FirstFailure(checks);
    if r.Err? {
      return;
    }
    assert !checks[0].fails && !checks[1].fails && !checks[2].fails && !checks[3].fails && !checks[4].fails;
    ghost var ad := AdOf(high, low, close, volume);

    ghost var adChecks := Ad.Checks(cfg, high, low, close, volume, outAd.Length);
    assert forall k :: 0 <= k < |adChecks| ==> !adChecks[k].fails;
    var adResult := Ad.Ad(cfg, high, low, close, volume, outAd);
    assert adResult.Ok?;
    assert outAd[..] == Nums(ad) by {
      forall i | 0 <= i < len
        ensures outAd[..][i] == Nums(ad)[i]
      {
        assert Nums(ad)[i] == Num(ad[i]);
      }
    }
    var adLine := Reals(outAd[..]);
    assert adLine == ad;
    AdoscRaw(adLine, fast, slow, outAdosc, outFast, outSlow);
  }

  /**
    The EMA and difference half of the kernel on an A/D line: the fast and
    slow EMAs, then their difference from the slow lookback on; the
    oscillator's entries before it keep the caller's contents.
   */
  method AdoscRaw(ad: seq<real>, fast: nat, slow: nat,
                  outAdosc: array<Val>, outFast: array<Val>, outSlow: array<Val>)
    requires outAdosc != outFast && outAdosc != outSlow && outFast != outSlow
    requires 1 <= fast <= slow <= |ad|
    requires outAdosc.Length == |ad| && outFast.Length == |ad| && outSlow.Length == |ad|
    modifies outAdosc, outFast, outSlow
    ensures forall i :: fast - 1 <= i < |ad| ==> outFast[i] == Num(Ema.EmaAt(ad, fast, i))
    ensures forall i :: slow - 1 <= i < |ad| ==> outSlow[i] == Num(Ema.EmaAt(ad, slow, i))
    ensures forall i :: slow - 1 <= i < |ad| ==> outAdosc[i] == Num(AdoscAt(ad, fast, slow, i))
    ensures forall i :: 0 <= i < slow - 1 ==> outAdosc[i] == old(outAdosc[i])
  {
    var lookback := slow - 1;
    Ema.Ema(ad, fast, outFast);
    Ema.Ema(ad, slow, outSlow);
    for i := lookback to |ad|
      modifies outAdosc
      invariant forall j :: lookback <= j < i ==> outAdosc[j] == Num(AdoscAt(ad, fast, slow, j))
      invariant forall j :: 0 <= j < lookback ==> outAdosc[j] == old(outAdosc[j])
    {
      outAdosc[i] := Num(outFast[i].v - outSlow[i].v);
    }
  }

  /** The state the streaming step threads: oscillator, A/D, fast EMA, slow EMA. */
  datatype State = State(adosc: real, ad: real, fast: real, slow: real)

  /** The batch state at index i. */
  function StateAt(ad: seq<real>, fast: nat, slow: nat, i: nat): (r: State)
    requires 1 <= fast <= slow <= i + 1 <= |ad|
    ensures r.adosc == r.fast - r.slow
  {
    State(AdoscAt(ad, fast, slow, i), ad[i], Ema.EmaAt(ad, fast, i), Ema.EmaAt(ad, slow, i))
  }

  /** One streaming step on reals: the A/D step, then both EMA steps on the new A/D. */
  function AdoscStep(high: real, low: real, close: real, volume: real,
                     prevAd: real, prevFast: real, prevSlow: real, fast: nat, slow: nat): (r: State)
    ensures r.ad == prevAd + Ad.Mfm(high, low, close) * volume
    ensures r.fast == Ema.EmaInc(r.ad, prevFast, fast) && r.slow == Ema.EmaInc(r.ad, prevSlow, slow)
    ensures r.adosc == r.fast - r.slow
  {
    var ad := Ad.AdIncRaw(high, low, close, volume, prevAd);
    var fastEma := Ema.EmaInc(ad, prevFast, fast);
    var slowEma := Ema.EmaInc(ad, prevSlow, slow);
    State(fastEma - slowEma, ad, fastEma, slowEma)
  }

  /** The streaming step's own parameter guard: a zero period, or a fast period not below the slow one. */
  predicate StepRejects(cfg: Config, fast: nat, slow: nat) {
    cfg.check && (fast == 0 || slow == 0 || fast >= slow)
  }

  /**
    One streaming step with validation: with `check` a zero period or a
    fast period not below the slow one is rejected, with `check-nan` any
    NaN input; the A/D step then cannot fail.
   */
  function AdoscInc(cfg: Config, high: Val, low: Val, close: Val, volume: Val,
                    prevAd: Val, prevFast: Val, prevSlow: Val, fast: nat, slow: nat): (r: Result<State>)
    requires !cfg.checkNan ==> high.Num? && low.Num? && close.Num? && volume.Num? &&
                               prevAd.Num? && prevFast.Num? && prevSlow.Num?
    ensures r.Err? <==> (StepRejects(cfg, fast, slow) || (cfg.checkNan &&
      (high.NaN? || low.NaN? || close.NaN? || volume.NaN? || prevAd.NaN? || prevFast.NaN? || prevSlow.NaN?)))
    ensures StepRejects(cfg, fast, slow) ==> r == Err(InvalidParameter)
    ensures !StepRejects(cfg, fast, slow) && cfg.checkNan &&
      (high.NaN? || low.NaN? || close.NaN? || volume.NaN? || prevAd.NaN? || prevFast.NaN? || prevSlow.NaN?)
      ==> r == Err(NaNDetected)
    ensures r.Ok? ==> r.value == AdoscStep(high.v, low.v, close.v, volume.v, prevAd.v, prevFast.v, prevSlow.v,
                                           fast, slow)
  {
    if StepRejects(cfg, fast, slow) then Err(InvalidParameter)
    else if cfg.checkNan &&
      (high.NaN? || low.NaN? || close.NaN? || volume.NaN? || prevAd.NaN? || prevFast.NaN? || prevSlow.NaN?) then
      Err(NaNDetected)
    else
      var ad := Ad.AdInc(cfg, high, low, close, volume, prevAd).value;
      var fastEma := Ema.EmaInc(ad, prevFast.v, fast);
      var slowEma := Ema.EmaInc(ad, prevSlow.v, slow);
      Ok(State(fastEma - slowEma, ad, fastEma, slowEma))
  }

  /**
    Batch/streaming agreement: fed bar i and the batch state at i - 1, the
    streaming step returns the batch state at i.
   */
  lemma AdoscIncMatchesBatch(cfg: Config, high: seq<real>, low: seq<real>, close: seq<real>, volume: seq<real>,
                             fast: nat, slow: nat, i: nat)
    requires |low| == |high| && |close| == |high| && |volume| == |high|
    requires 2 <= fast < slow <= i < |high|
    ensures var ad := Ad.AdLine(high, low, close, volume);
      var prev := StateAt(ad, fast, slow, i - 1);
      AdoscInc(cfg, Num(high[i]), Num(low[i]), Num(close[i]), Num(volume[i]),
               Num(prev.ad), Num(prev.fast), Num(prev.slow), fast, slow)
        == Ok(StateAt(ad, fast, slow, i))
  {
    var ad := Ad.AdLine(high, low, close, volume);
    Ad.AdIncMatchesBatch(cfg, high, low, close, volume, i);
  }

  /** The state after streaming bars start + 1 .. start + n from `init`. */
  function Replay(high: seq<real>, low: seq<real>, close: seq<real>, volume: seq<real>,
                  fast: nat, slow: nat, init: State, start: nat, n: nat): State
    requires |low| == |high| && |close| == |high| && |volume| == |high|
    requires start + n < |high|
  {
    if n == 0 then init
    else
      var prev := Replay(high, low, close, volume, fast, slow, init, start, n - 1);
      var j := start + n;
      AdoscStep(high[j], low[j], close[j], volume[j], prev.ad, prev.fast, prev.slow, fast, slow)
  }

  /**
    Seeded with the batch state at the lookback, repeated streaming steps
    reproduce the batch state at every later index.
   */
  lemma {:induction false} ReplayMatchesBatch(high: seq<real>, low: seq<real>, close: seq<real>,
                                              volume: seq<real>, fast: nat, slow: nat, n: nat)
    requires |low| == |high| && |close| == |high| && |volume| == |high|
    requires 2 <= fast < slow && slow - 1 + n < |high|
    ensures var ad := Ad.AdLine(high, low, close, volume);
      Replay(high, low, close, volume, fast, slow, StateAt(ad, fast, slow, slow - 1), slow - 1, n)
        == StateAt(ad, fast, slow, slow - 1 + n)
  {
    if n > 0 {
      ReplayMatchesBatch(high, low, close, volume, fast, slow, n - 1);
      var cfg := Config(false, false, false);
      AdoscIncMatchesBatch(cfg, high, low, close, volume, fast, slow, slow - 1 + n);
    }
  }

  /** Every period pair the streaming guard rejects is rejected by the batch lookback as well. */
  lemma StepGuardWeaker(cfg: Config, fast: nat, slow: nat)
    requires cfg.check || slow >= 1
    ensures StepRejects(cfg, fast, slow) ==> Lookback(cfg, fast, slow).Err?
  {
  }

  /**
    The converse fails: with `check`, periods (1, 3) are rejected by the
    batch lookback but pass the streaming step's own guard.
   */
  lemma AdoscIncAcceptsFastOne(cfg: Config)
    requires cfg.check
    ensures Lookback(cfg, 1, 3).Err?
    ensures !StepRejects(cfg, 1, 3)
  {
  }
}
