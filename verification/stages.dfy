/**
 * A fixed sequence of checks that stops at the first failure, as in the
 * sign-in stages and the pre-flight checks of the entry point. Check results
 * are given up front; a check after the first failure is never run, so its
 * result has no influence.
 */
module Stages {
  import opened Wrappers

  /** The index of the first failing check, if any. */
  function FirstFailure(passed: seq<bool>): (r: Option<nat>)
    ensures r.None? <==> forall i :: 0 <= i < |passed| ==> passed[i]
    ensures r.Some? ==> r.value < |passed| && !passed[r.value]
    ensures r.Some? ==> forall i :: 0 <= i < r.value ==> passed[i]
    decreases |passed|
  {
    if passed == [] then None
    else if !passed[0] then Some(0)
    else
      match FirstFailure(passed[1..])
      case None => None
      case Some(i) => Some(i + 1)
  }

  /** How many checks ran. */
  function ChecksRun(passed: seq<bool>): (n: nat)
    ensures n <= |passed|
    ensures FirstFailure(passed).None? ==> n == |passed|
    ensures FirstFailure(passed).Some? ==> n == FirstFailure(passed).value + 1
  {
    match FirstFailure(passed)
    case None => |passed|
    case Some(i) => i + 1
  }

  /** Results of checks after the first failure do not matter. */
  lemma LaterChecksIrrelevant(passed: seq<bool>, other: seq<bool>)
    requires FirstFailure(passed).Some?
    requires |other| == |passed|
    requires forall i :: 0 <= i <= FirstFailure(passed).value ==> other[i] == passed[i]
    ensures FirstFailure(other) == FirstFailure(passed)
  {
  }
}
