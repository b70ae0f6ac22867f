/** The static plan validator (core/safety.py): an allow-list of verbs and a
    block-list of executables. Nothing in the pipeline calls it; it is a
    universal check over the steps of a plan. */
module Safety {
  import opened Wrappers
  import opened Text
  import opened Types

  /** Compared case-sensitively, unlike the permission gate. */
  const ALLOWED_ACTION_TYPES: set<string> := {"OPEN_APP", "TYPE", "CLICK", "READ", "PRESS", "WAIT", "ANSWER"}

  const FORBIDDEN_APPS: set<string> := {"cmd.exe", "powershell.exe", "regedit.exe", "bash.exe"}

  /** The block-list test on a launched application's name. */
  predicate LaunchesForbidden(value: string) {
    exists f | f in FORBIDDEN_APPS :: Contains(Lower(value), f)
  }

  /** Both checks one step must pass. The block-list applies only to an
      OPEN_APP step whose value is neither None nor empty. */
  function StepSafe(step: Step): (ok: bool)
    ensures ok ==> step.actionType in ALLOWED_ACTION_TYPES
    ensures step.actionType in ALLOWED_ACTION_TYPES - {"OPEN_APP"} ==> ok
    ensures step.actionType == "OPEN_APP" && (step.value.None? || step.value == Some("")) ==> ok
  {
    && step.actionType in ALLOWED_ACTION_TYPES
    && !(step.actionType == "OPEN_APP" && Truthy(step.value) && LaunchesForbidden(step.value.value))
  }

  /** `validate_plan`: scans the steps in order and stops at the first that
      fails a check. */
  function ValidatePlan(plan: seq<Step>): (ok: bool)
    ensures ok <==> forall i | 0 <= i < |plan| :: StepSafe(plan[i])
  {
    if plan == [] then true
    else if !StepSafe(plan[0]) then false
    else ValidatePlan(plan[1..])
  }

  lemma EmptyPlanValid()
    ensures ValidatePlan([])
  {
  }

  /** A verb outside the allow-list, in any case other than the listed one,
      invalidates the plan wherever it occurs. */
  lemma UnknownVerbInvalid(plan: seq<Step>, i: int)
    requires 0 <= i < |plan| && plan[i].actionType !in ALLOWED_ACTION_TYPES
    ensures !ValidatePlan(plan)
  {
  }

  /** An OPEN_APP step launching a forbidden executable invalidates the plan. */
  lemma ForbiddenAppInvalid(plan: seq<Step>, i: int)
    requires 0 <= i < |plan| && plan[i].actionType == "OPEN_APP"
    requires Truthy(plan[i].value) && LaunchesForbidden(plan[i].value.value)
    ensures !ValidatePlan(plan)
  {
  }

  /** The check is case-sensitive on the verb: a lower-case "open_app" is rejected. */
  lemma LowerCaseVerbRejected(description: string, value: Option<string>)
    ensures !ValidatePlan([Step(description, "open_app", None, value)])
  {
    assert !StepSafe(Step(description, "open_app", None, value));
  }

  /** An OPEN_APP step with no value, an empty value, or "cmd" without the
      ".exe" suffix passes the block-list. */
  lemma UnlistedOrEmptyLaunchPasses(description: string)
    ensures ValidatePlan([Step(description, "OPEN_APP", None, None)])
    ensures ValidatePlan([Step(description, "OPEN_APP", None, Some(""))])
    ensures ValidatePlan([Step(description, "OPEN_APP", None, Some("cmd"))])
  {
    assert Lower("cmd") == "cmd";
    forall f | f in FORBIDDEN_APPS
      ensures !Contains(Lower("cmd"), f)
    {
      assert |f| > 3;
    }
    assert StepSafe(Step(description, "OPEN_APP", None, Some("cmd")));
  }

  /** ... whereas any case of "CMD.EXE" inside the value is caught. */
  lemma ForbiddenIgnoresCase(description: string)
    ensures !ValidatePlan([Step(description, "OPEN_APP", None, Some("C:\\CMD.EXE"))])
  {
    var v := "C:\\CMD.EXE";
    assert Lower(v) == "c:\\cmd.exe";
    assert OccursAt(Lower(v), "cmd.exe", 3);
    assert !StepSafe(Step(description, "OPEN_APP", None, Some(v)));
  }

  /** The verdict on a concatenation is the conjunction of the verdicts. */
  lemma ValidateConcat(p: seq<Step>, q: seq<Step>)
    ensures ValidatePlan(p + q) <==> ValidatePlan(p) && ValidatePlan(q)
  {
    assert forall i | 0 <= i < |p| :: (p + q)[i] == p[i];
    assert forall i | 0 <= i < |q| :: (p + q)[|p| + i] == q[i];
  }

  /** The verdict does not depend on the order of the steps. */
  lemma OrderIndependent(p: seq<Step>, q: seq<Step>)
    requires multiset(p) == multiset(q)
    ensures ValidatePlan(p) == ValidatePlan(q)
  {
    if ValidatePlan(p) {
      forall i | 0 <= i < |q| ensures StepSafe(q[i]) {
        assert q[i] in multiset(p);
      }
    }
    if ValidatePlan(q) {
      forall i | 0 <= i < |p| ensures StepSafe(p[i]) {
        assert p[i] in multiset(q);
      }
    }
  }
}
