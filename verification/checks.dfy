/** Required-field validation, as every validator of the system does it:
    check the fields one after the other and report the first missing one. */
module Checks {
  import opened Wrappers

  /** One check: whether the field is acceptable and the error raised if not. */
  datatype Check = Check(passes: bool, error: string)

  /** Runs the checks in order and stops at the first one that fails. */
  function FirstFailure(checks: seq<Check>): (r: Outcome)
    ensures r.Pass? <==> forall i :: 0 <= i < |checks| ==> checks[i].passes
    ensures r.Fail? ==>
              exists i :: 0 <= i < |checks| && !checks[i].passes && r.error == checks[i].error
                          && forall j :: 0 <= j < i ==> checks[j].passes
  {
    if checks == [] then Pass
    else if !checks[0].passes then Fail(checks[0].error)
    else
      var r := FirstFailure(checks[1..]);
      assert r.Fail? ==> exists i :: 1 <= i < |checks| && !checks[i].passes && r.error == checks[i].error
                                     && forall j :: 0 <= j < i ==> checks[j].passes by {
        if r.Fail? {
          var i :| 0 <= i < |checks[1..]| && !checks[1..][i].passes && r.error == checks[1..][i].error
                   && forall j :: 0 <= j < i ==> checks[1..][j].passes;
          assert forall j :: 1 <= j < i + 1 ==> checks[j].passes by {
            forall j | 1 <= j < i + 1 ensures checks[j].passes {
              assert checks[j] == checks[1..][j - 1];
            }
          }
        }
      }
      r
  }

  /** The error reported is the one of the first failing check, whatever follows it. */
  lemma {:induction false} FirstFailureIgnoresLaterChecks(passing: seq<Check>, failing: Check, rest: seq<Check>)
    requires forall i :: 0 <= i < |passing| ==> passing[i].passes
    requires !failing.passes
    ensures FirstFailure(passing + [failing] + rest) == Fail(failing.error)
  {
    if passing == [] {
      assert passing + [failing] + rest == [failing] + rest;
    } else {
      assert (passing + [failing] + rest)[1..] == passing[1..] + [failing] + rest;
      FirstFailureIgnoresLaterChecks(passing[1..], failing, rest);
    }
  }
}
