/** Failure-carrying result types shared by the governance model, and the
    "ordered chain of checks, first failure wins" shape that every
    `ValidateBasic` of the module follows. */
module Outcomes {

  /** A value that may be absent. */
  datatype Option<+T> = None | Some(value: T)

  /** A computation that either yields a value or fails with an error. */
  datatype Result<+T, +E> = Ok(value: T) | Err(error: E)

  /** A check that either passes or fails with an error (Go's `nil` / `sdk.Error`). */
  datatype Outcome<+E> = Pass | Fail(error: E)

  /** One guard of a validation chain: whether it holds, and the error
      reported when it does not. */
  datatype Check<+E> = Check(holds: bool, error: E)

  /** Runs the checks in order and reports the error of the first one that
      does not hold; passes when all of them hold. */
  function FirstFailure<E>(checks: seq<Check<E>>): (r: Outcome<E>)
    ensures r.Pass? <==> forall i :: 0 <= i < |checks| ==> checks[i].holds
    ensures r.Fail? ==>
      exists i :: 0 <= i < |checks| && !checks[i].holds && checks[i].error == r.error
        && forall j :: 0 <= j < i ==> checks[j].holds
  {
    if |checks| == 0 then Pass
    else if !checks[0].holds then Fail(checks[0].error)
    else
      var rest := FirstFailure(checks[1..]);
      if rest.Fail? then
        ghost var i :| 0 <= i < |checks[1..]| && !checks[1..][i].holds && checks[1..][i].error == rest.error
          && forall j :: 0 <= j < i ==> checks[1..][j].holds;
        assert forall j :: 0 <= j < i + 1 ==> checks[j].holds by {
          forall j | 0 <= j < i + 1 ensures checks[j].holds {
            if j > 0 { assert checks[j] == checks[1..][j - 1]; }
          }
        }
        rest
      else
        assert forall i :: 1 <= i < |checks| ==> checks[i] == checks[1..][i - 1];
        rest
  }

  /** One step of the chain: a failing head decides, a passing head defers
      to the rest. */
  lemma FirstFailureStep<E>(checks: seq<Check<E>>)
    requires |checks| > 0
    ensures FirstFailure(checks) ==
      if checks[0].holds then FirstFailure(checks[1..]) else Fail(checks[0].error)
  {
  }
}
