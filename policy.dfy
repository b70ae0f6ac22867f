/** The role policy (core/policy.py): a pure function from an identity and a
    plan to ALLOW, DENY or REQUIRE_APPROVAL. The decision is taken by the FIRST
    step that the identity's role rule reacts to; later steps are not looked at. */
module Policy {
  import opened Wrappers
  import opened Text
  import opened Types
  import opened Identity

  datatype Decision = ALLOW | DENY | REQUIRE_APPROVAL

  const CRITICAL_APPS: set<string> := {"cmd", "powershell", "regedit", "format"}

  /** `_is_destructive`: the verb is exactly DELETE or PRESS, or the step types
      text whose lower-case form contains "del ". */
  function IsDestructive(step: Step): (d: bool)
    ensures step.actionType == "DELETE" || step.actionType == "PRESS" ==> d
    ensures d ==> step.actionType in {"DELETE", "PRESS", "TYPE"}
  {
    || step.actionType == "DELETE"
    || step.actionType == "PRESS"
    || (step.actionType == "TYPE" && Contains(Lower(step.value.GetOr("")), "del "))
  }

  /** `_is_system_critical`: an OPEN_APP whose lower-case value contains a
      critical application name. */
  function IsSystemCritical(step: Step): (c: bool)
    ensures c ==> step.actionType == "OPEN_APP" && step.value.Some? && |step.value.value| >= 3
  {
    && step.actionType == "OPEN_APP"
    && exists crit | crit in CRITICAL_APPS :: Contains(Lower(step.value.GetOr("")), crit)
  }

  /** `evaluate_plan`, as the loop over the plan with early returns. */
  function EvaluatePlan(identity: UserIdentity, plan: seq<Step>): (d: Decision)
    ensures identity.role == GUEST ==> d == ALLOW
    ensures identity.role == ADMIN ==> d != DENY
    ensures identity.role == EMPLOYEE ==> d != REQUIRE_APPROVAL
    decreases |plan|
  {
    if plan == [] then ALLOW
    else
      var step := plan[0];
      match identity.role
      case ADMIN =>
        if IsDestructive(step) then REQUIRE_APPROVAL else EvaluatePlan(identity, plan[1..])
      case MANAGER =>
        if IsDestructive(step) then REQUIRE_APPROVAL
        else if IsSystemCritical(step) then DENY
        else EvaluatePlan(identity, plan[1..])
      case EMPLOYEE =>
        if IsDestructive(step) || IsSystemCritical(step) then DENY
        else EvaluatePlan(identity, plan[1..])
      case GUEST =>
        EvaluatePlan(identity, plan[1..])
  }

  predicate SomeDestructive(plan: seq<Step>) {
    exists i | 0 <= i < |plan| :: IsDestructive(plan[i])
  }

  predicate SomeFlagged(plan: seq<Step>) {
    exists i | 0 <= i < |plan| :: IsDestructive(plan[i]) || IsSystemCritical(plan[i])
  }

  /** The index of the first destructive or system-critical step, or |plan|. */
  function FirstFlagged(plan: seq<Step>): (k: nat)
    ensures k <= |plan|
    ensures forall j :: 0 <= j < k ==> !IsDestructive(plan[j]) && !IsSystemCritical(plan[j])
    ensures k < |plan| ==> IsDestructive(plan[k]) || IsSystemCritical(plan[k])
    decreases |plan|
  {
    if plan == [] then 0
    else if IsDestructive(plan[0]) || IsSystemCritical(plan[0]) then 0
    else 1 + FirstFlagged(plan[1..])
  }

  /** The empty plan is allowed for every role. */
  lemma EmptyPlanAllowed(identity: UserIdentity)
    ensures EvaluatePlan(identity, []) == ALLOW
  {
  }

  /** ADMIN: REQUIRE_APPROVAL exactly when some step is destructive, else ALLOW. */
  lemma {:induction false} AdminDecision(identity: UserIdentity, plan: seq<Step>)
    requires identity.role == ADMIN
    ensures EvaluatePlan(identity, plan) == if SomeDestructive(plan) then REQUIRE_APPROVAL else ALLOW
    decreases |plan|
  {
    if plan != [] {
      AdminDecision(identity, plan[1..]);
      if !IsDestructive(plan[0]) {
        assert SomeDestructive(plan) == SomeDestructive(plan[1..]) by {
          if SomeDestructive(plan) {
            var i :| 0 <= i < |plan| && IsDestructive(plan[i]);
            assert plan[1..][i - 1] == plan[i];
          }
          if SomeDestructive(plan[1..]) {
            var i :| 0 <= i < |plan[1..]| && IsDestructive(plan[1..][i]);
            assert plan[i + 1] == plan[1..][i];
          }
        }
      }
    }
  }

  /** EMPLOYEE: DENY exactly when some step is destructive or system-critical, else ALLOW. */
  lemma {:induction false} EmployeeDecision(identity: UserIdentity, plan: seq<Step>)
    requires identity.role == EMPLOYEE
    ensures EvaluatePlan(identity, plan) == if SomeFlagged(plan) then DENY else ALLOW
    decreases |plan|
  {
    if plan != [] {
      EmployeeDecision(identity, plan[1..]);
      if !(IsDestructive(plan[0]) || IsSystemCritical(plan[0])) {
        assert SomeFlagged(plan) == SomeFlagged(plan[1..]) by {
          if SomeFlagged(plan) {
            var i :| 0 <= i < |plan| && (IsDestructive(plan[i]) || IsSystemCritical(plan[i]));
            assert plan[1..][i - 1] == plan[i];
          }
          if SomeFlagged(plan[1..]) {
            var i :| 0 <= i < |plan[1..]| && (IsDestructive(plan[1..][i]) || IsSystemCritical(plan[1..][i]));
            assert plan[i + 1] == plan[1..][i];
          }
        }
      }
    }
  }

  /** MANAGER: the first destructive-or-critical step decides. It gives
      REQUIRE_APPROVAL when destructive (that test comes first), DENY when only critical,
      and with no such step the plan is allowed. */
  lemma {:induction false} ManagerDecision(identity: UserIdentity, plan: seq<Step>)
    requires identity.role == MANAGER
    ensures var k := FirstFlagged(plan);
            EvaluatePlan(identity, plan) ==
              if k == |plan| then ALLOW
              else if IsDestructive(plan[k]) then REQUIRE_APPROVAL
              else DENY
    decreases |plan|
  {
    if plan != [] {
      ManagerDecision(identity, plan[1..]);
    }
  }

  /** For ADMIN, MANAGER and EMPLOYEE, a plan with a destructive step is never ALLOWed. */
  lemma DestructiveNeverAllowed(identity: UserIdentity, plan: seq<Step>)
    requires identity.role != GUEST
    requires SomeDestructive(plan)
    ensures EvaluatePlan(identity, plan) != ALLOW
  {
    var i :| 0 <= i < |plan| && IsDestructive(plan[i]);
    match identity.role
    case ADMIN => AdminDecision(identity, plan);
    case EMPLOYEE => EmployeeDecision(identity, plan);
    case MANAGER =>
      ManagerDecision(identity, plan);
      assert FirstFlagged(plan) <= i;
  }

  /** Both classifiers read the value case-insensitively: upper-casing the
      value of a step does not change either verdict. */
  lemma ClassifiersIgnoreValueCase(step: Step, v: string)
    requires step.value == Some(v)
    ensures IsDestructive(step.(value := Some(Upper(v)))) == IsDestructive(step)
    ensures IsSystemCritical(step.(value := Some(Upper(v)))) == IsSystemCritical(step)
  {
    LowerOfUpper(v);
  }

  /** The verb test is exact-case: a lower-case "delete" is not destructive. */
  lemma VerbIsCaseSensitive(description: string)
    ensures !IsDestructive(Step(description, "delete", None, None))
    ensures !IsSystemCritical(Step(description, "open_app", None, Some("cmd")))
  {
  }

  /** Only OPEN_APP steps are system-critical, and a missing value never is. */
  lemma CriticalNeedsOpenAppWithValue(step: Step)
    requires IsSystemCritical(step)
    ensures step.actionType == "OPEN_APP" && step.value.Some?
  {
  }

  // ---------------------------------------------------------------------------
  // Comparison with a "most restrictive decision wins" reading of the rule
  // table (DENY > REQUIRE_APPROVAL > ALLOW, and GUEST denied by default).

  function MostRestrictive(role: Role, plan: seq<Step>): Decision {
    match role
    case ADMIN => if SomeDestructive(plan) then REQUIRE_APPROVAL else ALLOW
    case MANAGER =>
      if exists i | 0 <= i < |plan| :: IsSystemCritical(plan[i]) then DENY
      else if SomeDestructive(plan) then REQUIRE_APPROVAL
      else ALLOW
    case EMPLOYEE => if SomeFlagged(plan) then DENY else ALLOW
    case GUEST => DENY
  }

  /** For ADMIN and EMPLOYEE the first-match loop agrees with the most
      restrictive reading; for MANAGER they agree on whether the plan is ALLOWed. */
  lemma AgreesWithMostRestrictive(identity: UserIdentity, plan: seq<Step>)
    requires identity.role != GUEST
    ensures identity.role != MANAGER ==>
              EvaluatePlan(identity, plan) == MostRestrictive(identity.role, plan)
    ensures (EvaluatePlan(identity, plan) == ALLOW) == (MostRestrictive(identity.role, plan) == ALLOW)
  {
    match identity.role
    case ADMIN => AdminDecision(identity, plan);
    case EMPLOYEE => EmployeeDecision(identity, plan);
    case MANAGER =>
      ManagerDecision(identity, plan);
      var k := FirstFlagged(plan);
      if k < |plan| {
        if IsDestructive(plan[k]) { assert SomeDestructive(plan); }
        else { assert IsSystemCritical(plan[k]); }
      } else {
        assert !SomeDestructive(plan);
        assert !exists i | 0 <= i < |plan| :: IsSystemCritical(plan[i]);
      }
  }

  /** Where the two readings differ: a MANAGER plan [DELETE, OPEN_APP cmd] needs
      approval instead of being denied, and a GUEST plan is allowed. */
  lemma FirstMatchDiffers(manager: UserIdentity, guest: UserIdentity, d: string)
    requires manager.role == MANAGER && guest.role == GUEST
    ensures var plan := [Step(d, "DELETE", None, None), Step(d, "OPEN_APP", None, Some("cmd"))];
            EvaluatePlan(manager, plan) == REQUIRE_APPROVAL && MostRestrictive(MANAGER, plan) == DENY
    ensures var plan := [Step(d, "DELETE", None, None)];
            EvaluatePlan(guest, plan) == ALLOW && MostRestrictive(GUEST, plan) == DENY
  {
    var cmd := Step(d, "OPEN_APP", None, Some("cmd"));
    assert Lower("cmd") == "cmd";
    assert OccursAt(Lower("cmd"), "cmd", 0);
    assert IsSystemCritical(cmd);
    var plan := [Step(d, "DELETE", None, None), cmd];
    assert plan[1] == cmd;
  }
}
