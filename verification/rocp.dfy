/**
  Rate of change percentage (kand/src/ta/ohlcv/rocp.rs): the change of the
  price over `period` samples relative to the earlier price,
  (price[i] - price[i - period]) / price[i - period].
 */
module Rocp {
  import opened Kand

  /** Lookback: the period itself; with `check` a period of 0 is rejected. */
  function Lookback(cfg: Config, period: nat): (r: Result<nat>)
    ensures r.Err? <==> cfg.check && period < 1
    ensures r.Err? ==> r.error == InvalidParameter
    ensures r.Ok? ==> r.value == period
  {
    if cfg.check && period < 1 then Err(InvalidParameter) else Ok(period)
  }

  /** The rate of change at index i over `period` samples. */
  function RocpAt(xs: seq<real>, period: nat, i: nat): real
    requires period <= i < |xs|
    requires xs[i - period] != 0.0
  {
    (xs[i] - xs[i - period]) / xs[i - period]
  }

  /** No price that serves as a base of the ratio is zero. */
  predicate NonZeroBases(input: seq<Val>, period: nat) {
    forall j :: 0 <= j && j + period < |input| ==> input[j] != Num(0.0)
  }

  /** The checks of `rocp`, in the order the source runs them. */
  function Checks(cfg: Config, input: seq<Val>, period: nat, outLen: nat): seq<Check> {
    [ Check(cfg.check && period < 1, InvalidParameter),
      Check(cfg.check && |input| == 0, InvalidData),
      Check(cfg.check && |input| <= period, InsufficientData),
      Check(cfg.check && |input| != outLen, LengthMismatch),
      Check(cfg.checkNan && !NoNaN(input), NaNDetected) ]
  }

  /**
    The batch kernel: validation first (nothing is written on error), then
    the rate of change from index `period` on, then NaN for the first
    `period` entries (whatever `allowNan` says). Without `check` nothing
    compares the lengths: the output need only be long enough to index.
   */
  method Rocp(cfg: Config, input: seq<Val>, period: nat, output: array<Val>) returns (r: Result<()>)
    requires !cfg.check ==> |input| <= output.Length
    requires !cfg.checkNan ==> NoNaN(input)
    requires NonZeroBases(input, period)
    modifies output
    ensures r == FirstFailure(Checks(cfg, input, period, output.Length))
    ensures r.Err? ==> output[..] == old(output[..])
    ensures r.Ok? ==> NoNaN(input) && |input| <= output.Length
    ensures r.Ok? && cfg.check ==> 1 <= period < |input| == output.Length
    ensures r.Ok? ==> forall i :: period <= i < |input| ==>
      output[i] == Num(RocpAt(Reals(input), period, i))
    ensures r.Ok? ==> forall i :: 0 <= i < period && i < output.Length ==> output[i] == NaN
    ensures r.Ok? ==> forall i :: period <= i && |input| <= i < output.Length ==> output[i] == old(output[i])
  {
    var checks := Checks(cfg, input, period, output.Length);
    r := FirstFailure(checks);
    if r.Err? {
      return;
    }
    var lookback := Lookback(cfg, period).value;
    assert !checks[2].fails && !checks[3].fails && !checks[4].fails;
    RocpRaw(input, period, output);
    FillNaN(output, lookback);
  }

  /**
    The rate-of-change loop of the kernel: from index `period` to the end
    of the input; every other entry keeps its contents.
   */
  method RocpRaw(input: seq<Val>, period: nat, output: array<Val>)
    requires NoNaN(input) && |input| <= output.Length
    requires NonZeroBases(input, period)
    modifies output
    ensures forall i :: period <= i < |input| ==> output[i] == Num(RocpAt(Reals(input), period, i))
    ensures forall i :: 0 <= i < output.Length && !(period <= i < |input|) ==> output[i] == old(output[i])
  {
    var len := |input|;
    ghost var xs := Reals(input);
    var i := period;
    while i < len
      invariant period <= i && (i == period || i <= len)
      invariant forall k :: period <= k < i && k < len ==> output[k] == Num(RocpAt(xs, period, k))
      invariant forall k :: 0 <= k < output.Length && !(period <= k < i) ==> output[k] == old(output[k])
    {
      assert input[i - period] != Num(0.0);
      output[i] := Num((input[i].v - input[i - period].v) / input[i - period].v);
      i := i + 1;
    }
  }

  /** The NaN fill of the kernel: the first `count` entries (as far as the output reaches) become NaN. */
  method FillNaN(output: array<Val>, count: nat)
    modifies output
    ensures forall j :: 0 <= j < count && j < output.Length ==> output[j] == NaN
    ensures forall j :: count <= j < output.Length ==> output[j] == old(output[j])
  {
    var k := 0;
    while k < count && k < output.Length
      invariant k <= count && k <= output.Length
      invariant forall j :: 0 <= j < k ==> output[j] == NaN
      invariant forall j :: k <= j < output.Length ==> output[j] == old(output[j])
    {
      output[k] := NaN;
      k := k + 1;
    }
  }

  /** One streaming step: the rate of change of `input` against the earlier price `prev`. */
  function RocpInc(cfg: Config, input: Val, prev: Val): (r: Result<real>)
    requires !cfg.checkNan ==> input.Num? && prev.Num?
    requires prev != Num(0.0)
    ensures r.Err? <==> cfg.checkNan && (input.NaN? || prev.NaN?)
    ensures r.Err? ==> r.error == NaNDetected
    ensures r.Ok? ==> r.value * prev.v == input.v - prev.v
  {
    if cfg.checkNan && (input.NaN? || prev.NaN?) then Err(NaNDetected)
    else Ok((input.v - prev.v) / prev.v)
  }

  /** Batch/streaming agreement: fed price i and price i - period, the streaming step returns the batch value. */
  lemma RocpIncMatchesBatch(cfg: Config, xs: seq<real>, period: nat, i: nat)
    requires period <= i < |xs| && xs[i - period] != 0.0
    ensures RocpInc(cfg, Num(xs[i]), Num(xs[i - period])) == Ok(RocpAt(xs, period, i))
  {
  }

  /** The earlier price grown by the rate of change gives back the current price. */
  lemma RocpRecoversPrice(xs: seq<real>, period: nat, i: nat)
    requires period <= i < |xs| && xs[i - period] != 0.0
    ensures xs[i - period] * (1.0 + RocpAt(xs, period, i)) == xs[i]
  {
    var b := xs[i - period];
    var q := RocpAt(xs, period, i);
    assert q * b == xs[i] - b;
    assert b * (1.0 + q) == b + q * b;
  }

  /** For positive prices the rate of change is positive exactly when the price rose. */
  lemma RocpSign(xs: seq<real>, period: nat, i: nat)
    requires period <= i < |xs| && xs[i - period] > 0.0
    ensures RocpAt(xs, period, i) > 0.0 <==> xs[i] > xs[i - period]
    ensures RocpAt(xs, period, i) == 0.0 <==> xs[i] == xs[i - period]
  {
    var b := xs[i - period];
    var q := RocpAt(xs, period, i);
    assert q * b == xs[i] - b;
    if q > 0.0 {
      assert q * b > 0.0;
    }
    if q < 0.0 {
      assert q * b < 0.0;
    }
  }

  /** The first value of the source's test series (period 10): about -0.00116424. */
  lemma RocpTestFirstValue()
    ensures var v := RocpAt([35216.1, 35221.4, 35190.7, 35170.0, 35181.5, 35254.6, 35202.8, 35251.9,
                             35197.6, 35184.7, 35175.1], 10, 10);
      -0.0011642403 < v < -0.0011642402
  {
  }
}
