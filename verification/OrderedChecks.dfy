/** Checks made in order: the first that fails gives the reason. */
module OrderedChecks {
  import opened Wrappers

  /** Whether the check passes, and the reason if it does not. */
  type Check<R> = (bool, R)

  function FirstFailure<R>(checks: seq<Check<R>>): Option<R> {
    if checks == [] then None
    else if !checks[0].0 then Some(checks[0].1)
    else FirstFailure(checks[1..])
  }

  /** No reason is given exactly when every check passes; any other is that of a failing check after only passing ones. */
  lemma {:induction false} FirstFailureDecides<R>(checks: seq<Check<R>>)
    ensures FirstFailure(checks).None? <==> forall k :: 0 <= k < |checks| ==> checks[k].0
    ensures FirstFailure(checks).Some? ==>
      exists k :: 0 <= k < |checks| && !checks[k].0 && checks[k].1 == FirstFailure(checks).value
               && forall j :: 0 <= j < k ==> checks[j].0
    decreases |checks|
  {
    if checks != [] && checks[0].0 {
      FirstFailureDecides(checks[1..]);
      if FirstFailure(checks[1..]).Some? {
        var k :| 0 <= k < |checks[1..]| && !checks[1..][k].0 && checks[1..][k].1 == FirstFailure(checks[1..]).value
               && forall j :: 0 <= j < k ==> checks[1..][j].0;
        assert !checks[k + 1].0;
        assert forall j :: 0 < j < k + 1 ==> checks[j] == checks[1..][j - 1];
      } else {
        assert forall j :: 0 < j < |checks| ==> checks[j] == checks[1..][j - 1];
      }
    }
  }
}
