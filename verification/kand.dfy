/**
  Crate-level vocabulary shared by every indicator kernel: the numeric value
  written to output buffers, the error kinds, the result type, the feature
  flags (as a runtime record) and the "first failing check" validation scheme.
 */
module Kand {

  /** An output or input sample: a real number or the NaN sentinel. */
  datatype Val = Num(v: real) | NaN

  /** The error kinds a kernel can report. */
  datatype KandError =
    | InvalidData
    | LengthMismatch
    | InsufficientData
    | InvalidParameter
    | NaNDetected

  datatype Result<+T> = Ok(value: T) | Err(error: KandError) {
    predicate IsFailure() { Err? }

    function PropagateFailure<U>(): Result<U>
      requires Err?
    {
      Err(error)
    }

    function Extract(): T
      requires Ok?
    {
      value
    }
  }

  /**
    The compile-time features of the crate as a runtime record:
    `check` enables the structural and parameter checks, `checkNan` the NaN
    scans, and `allowNan` the NaN fill of pre-lookback output entries.
   */
  datatype Config = Config(check: bool, checkNan: bool, allowNan: bool)

  /** True when no sample is NaN (what a `check-nan` scan accepts). */
  predicate NoNaN(s: seq<Val>) {
    forall i :: 0 <= i < |s| ==> s[i].Num?
  }

  /** The real values of a NaN-free series. */
  function Reals(s: seq<Val>): (r: seq<real>)
    requires NoNaN(s)
    ensures |r| == |s|
    ensures forall i :: 0 <= i < |s| ==> s[i] == Num(r[i])
  {
    seq(|s|, i requires 0 <= i < |s| => s[i].v)
  }

  /** A series of reals as samples. */
  function Nums(xs: seq<real>): (r: seq<Val>)
    ensures NoNaN(r) && Reals(r) == xs
  {
    var r := seq(|xs|, i requires 0 <= i < |xs| => Num(xs[i]));
    assert Reals(r) == xs;
    r
  }

  /** One validation step: the condition that makes it fail and the error it reports. */
  datatype Check = Check(fails: bool, error: KandError)

  /**
    A kernel's validation: the checks run in order and the first one that
    fails decides the error; when none fails the kernel may run.
   */
  function FirstFailure(checks: seq<Check>): (r: Result<()>)
    ensures r.Ok? <==> forall i :: 0 <= i < |checks| ==> !checks[i].fails
    ensures r.Err? ==>
      exists i :: 0 <= i < |checks| && checks[i].fails && r.error == checks[i].error &&
        forall j :: 0 <= j < i ==> !checks[j].fails
  {
    if |checks| == 0 then Ok(())
    else if checks[0].fails then Err(checks[0].error)
    else
      var r := FirstFailure(checks[1..]);
      assert forall i :: 1 <= i < |checks| ==> checks[i] == checks[1..][i - 1];
      r
  }
}
