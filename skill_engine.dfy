/** The skill dispatcher (core/skill_engine.py): a verb-to-skill map built by
    registration, and a step executor that looks the verb up, consults the
    permission gate and delegates to the skill. */
module Dispatch {
  import opened Wrappers
  import opened Text
  import opened Types
  import opened Permissions
  import opened Skills

  /** The entries one registration writes: every listed verb maps to `skill`. */
  function ActionsFor(actions: seq<string>, skill: Skill): map<string, Skill> {
    map a | a in actions :: skill
  }

  /** The verb map after registering `skills` in order over `m`. */
  function RegisterAll(m: map<string, Skill>, skills: seq<Skill>): (r: map<string, Skill>)
    ensures m.Keys <= r.Keys
  {
    if skills == [] then m
    else RegisterAll(m, skills[..|skills| - 1]) + ActionsFor(skills[|skills| - 1].actions, skills[|skills| - 1])
  }

  /** The skill table after registering `skills` in order over `t`. */
  function NameAll(t: map<string, Skill>, skills: seq<Skill>): map<string, Skill> {
    if skills == [] then t
    else NameAll(t, skills[..|skills| - 1])[skills[|skills| - 1].name := skills[|skills| - 1]]
  }

  /** Registering one more verb is one more map update. */
  lemma ActionsForSnoc(m: map<string, Skill>, actions: seq<string>, a: string, skill: Skill)
    ensures m + ActionsFor(actions + [a], skill) == (m + ActionsFor(actions, skill))[a := skill]
  {
    assert ActionsFor(actions + [a], skill) == ActionsFor(actions, skill)[a := skill];
  }

  const NO_SKILL_PREFIX := "No skill registered for action: "

  function DeniedMessage(action: string, params: Option<string>): string {
    "PERMISSION DENIED: " + action + " for " + PyStr(params) + " requires approval."
  }

  class SkillEngine {
    var skills: map<string, Skill>
    var actionMap: map<string, Skill>
    const permissions: PermissionManager

    /** Registers the eight default skills, in the source's order. */
    constructor ()
      ensures skills == NameAll(map[], DefaultSkills)
      ensures actionMap == RegisterAll(map[], DefaultSkills)
      ensures permissions == DefaultManager
    {
      skills := map[];
      actionMap := map[];
      permissions := DefaultManager;
      new;
      var i := 0;
      while i < |DefaultSkills|
        invariant 0 <= i <= |DefaultSkills|
        invariant skills == NameAll(map[], DefaultSkills[..i])
        invariant actionMap == RegisterAll(map[], DefaultSkills[..i])
        invariant permissions == DefaultManager
      {
        assert DefaultSkills[..i + 1][..i] == DefaultSkills[..i];
        RegisterSkill(DefaultSkills[i]);
        i := i + 1;
      }
      assert DefaultSkills[..i] == DefaultSkills;
    }

    /** `register_skill`: records the skill under its name and maps every verb
        it lists to it, overwriting earlier mappings of those verbs only. */
    method RegisterSkill(skill: Skill)
      modifies this
      ensures skills == old(skills)[skill.name := skill]
      ensures actionMap == old(actionMap) + ActionsFor(skill.actions, skill)
    {
      skills := skills[skill.name := skill];
      var i := 0;
      while i < |skill.actions|
        invariant 0 <= i <= |skill.actions|
        invariant skills == old(skills)[skill.name := skill]
        invariant actionMap == old(actionMap) + ActionsFor(skill.actions[..i], skill)
      {
        assert skill.actions[..i + 1] == skill.actions[..i] + [skill.actions[i]];
        ActionsForSnoc(old(actionMap), skill.actions[..i], skill.actions[i], skill);
        actionMap := actionMap[skill.actions[i] := skill];
        i := i + 1;
      }
      assert skill.actions[..i] == skill.actions;
    }

    /** `execute_step`. The skill's own execution is the external `run`, called
        with the skill, the upper-cased verb, the step's value and the context. */
    function ExecuteStep<C>(step: Step, context: C, run: (Skill, string, Option<string>, C) -> SkillResult): (r: SkillResult)
      reads this
      ensures Upper(step.actionType) !in actionMap ==> !r.success
      ensures r.success ==> Upper(step.actionType) in actionMap && permissions.CheckPermission(Upper(step.actionType), step.value)
    {
      var action := Upper(step.actionType);
      if action !in actionMap then
        SkillResult(false, NO_SKILL_PREFIX + action)
      else
        var params := step.value;
        if !permissions.CheckPermission(action, params) then
          SkillResult(false, DeniedMessage(action, params))
        else
          run(actionMap[action], action, params, context)
    }
  }

  /** Re-registration: the later skill wins every verb it lists, verbs only
      the earlier skill lists keep the earlier skill, and others keep their entry. */
  lemma LastRegistrationWins(m: map<string, Skill>, first: Skill, second: Skill)
    ensures var r := m + ActionsFor(first.actions, first) + ActionsFor(second.actions, second);
            && r.Keys == m.Keys + (set a | a in first.actions) + (set a | a in second.actions)
            && (forall a :: a in second.actions ==> r[a] == second)
            && (forall a :: a in first.actions && a !in second.actions ==> r[a] == first)
            && (forall a :: a in m && a !in first.actions && a !in second.actions ==> r[a] == m[a])
  {
  }

  /** A verb is mapped after a run of registrations exactly when it was
      mapped before or one of the registered skills lists it. */
  lemma {:induction false} RegisterAllKeys(m: map<string, Skill>, skills: seq<Skill>, a: string)
    ensures a in RegisterAll(m, skills) <==> a in m || exists i | 0 <= i < |skills| :: a in skills[i].actions
  {
    if skills != [] {
      var init := skills[..|skills| - 1];
      RegisterAllKeys(m, init, a);
      if exists i | 0 <= i < |skills| :: a in skills[i].actions {
        var i :| 0 <= i < |skills| && a in skills[i].actions;
        if i < |init| {
          assert a in init[i].actions;
        }
      }
      if exists i | 0 <= i < |init| :: a in init[i].actions {
        var i :| 0 <= i < |init| && a in init[i].actions;
        assert a in skills[i].actions;
      }
    }
  }

  /** Registrations whose verb lists are pairwise disjoint leave every listed
      verb mapped to the one skill that lists it. */
  lemma {:induction false} RegisterAllOwner(m: map<string, Skill>, skills: seq<Skill>, i: int, a: string)
    requires forall j, k, v :: 0 <= j < k < |skills| && v in skills[j].actions ==> v !in skills[k].actions
    requires 0 <= i < |skills| && a in skills[i].actions
    ensures a in RegisterAll(m, skills) && RegisterAll(m, skills)[a] == skills[i]
  {
    var init := skills[..|skills| - 1];
    if i < |skills| - 1 {
      assert a in init[i].actions;
      RegisterAllOwner(m, init, i, a);
    }
  }

  /** After construction the verbs READ and DELETE, which the policy and the
      permission gate name, are unmapped: no default skill lists them. */
  lemma DefaultUnmapped()
    ensures "READ" !in RegisterAll(map[], DefaultSkills) && "DELETE" !in RegisterAll(map[], DefaultSkills)
  {
    RegisterAllKeys(map[], DefaultSkills, "READ");
    RegisterAllKeys(map[], DefaultSkills, "DELETE");
  }

  /** After construction BROWSE_OPEN and BROWSE_CLOSE are mapped: the browser skill lists them. */
  lemma BrowserVerbsMapped()
    ensures "BROWSE_OPEN" in RegisterAll(map[], DefaultSkills) && "BROWSE_CLOSE" in RegisterAll(map[], DefaultSkills)
  {
    RegisterAllKeys(map[], DefaultSkills, "BROWSE_OPEN");
    RegisterAllKeys(map[], DefaultSkills, "BROWSE_CLOSE");
    assert "BROWSE_OPEN" in DefaultSkills[5].actions && "BROWSE_CLOSE" in DefaultSkills[5].actions;
  }

  /** After construction the verb map holds exactly the verbs the eight
      default skills list, each mapped to the skill listing it. */
  lemma DefaultOwners(a: string)
    ensures a in RegisterAll(map[], DefaultSkills) <==> exists s :: s in DefaultSkills && a in s.actions
    ensures forall s :: s in DefaultSkills && a in s.actions ==> RegisterAll(map[], DefaultSkills)[a] == s
  {
    RegisterAllKeys(map[], DefaultSkills, a);
    DefaultSkillsDisjoint();
    forall s | s in DefaultSkills && a in s.actions
      ensures RegisterAll(map[], DefaultSkills)[a] == s
    {
      var i :| 0 <= i < |DefaultSkills| && DefaultSkills[i] == s;
      RegisterAllOwner(map[], DefaultSkills, i, a);
    }
  }

  /** An unmapped verb fails with "No skill registered for action: <VERB>",
      whatever the permission gate and the skills would do. */
  lemma UnmappedFailsWithoutRunning<C>(e: SkillEngine, step: Step, context: C,
                                       run: (Skill, string, Option<string>, C) -> SkillResult)
    requires Upper(step.actionType) !in e.actionMap
    ensures e.ExecuteStep(step, context, run) ==
              SkillResult(false, NO_SKILL_PREFIX + Upper(step.actionType))
  {
  }

  /** A mapped verb the gate refuses fails with "PERMISSION DENIED", whatever the skill would do. */
  lemma DeniedFailsWithoutRunning<C>(e: SkillEngine, step: Step, context: C,
                                     run: (Skill, string, Option<string>, C) -> SkillResult)
    requires Upper(step.actionType) in e.actionMap
    requires !e.permissions.CheckPermission(Upper(step.actionType), step.value)
    ensures e.ExecuteStep(step, context, run) ==
              SkillResult(false, DeniedMessage(Upper(step.actionType), step.value))
  {
  }

  /** Otherwise the skill's own result is returned unchanged. */
  lemma AllowedDelegates<C>(e: SkillEngine, step: Step, context: C,
                            run: (Skill, string, Option<string>, C) -> SkillResult)
    requires Upper(step.actionType) in e.actionMap
    requires e.permissions.CheckPermission(Upper(step.actionType), step.value)
    ensures var verb := Upper(step.actionType);
            e.ExecuteStep(step, context, run) == run(e.actionMap[verb], verb, step.value, context)
  {
  }

  /** The dispatcher's outcome depends on the skill only when both the lookup
      and the permission check pass. */
  lemma SkillRunsOnlyWhenMappedAndAllowed<C>(e: SkillEngine, step: Step, context: C,
                                             run1: (Skill, string, Option<string>, C) -> SkillResult,
                                             run2: (Skill, string, Option<string>, C) -> SkillResult)
    requires e.ExecuteStep(step, context, run1) != e.ExecuteStep(step, context, run2)
    ensures Upper(step.actionType) in e.actionMap
    ensures e.permissions.CheckPermission(Upper(step.actionType), step.value)
  {
  }

  /** With the default registrations and gate, BROWSE_OPEN and BROWSE_CLOSE are
      mapped to the browser skill but belong to no permission bucket, so
      they always fail with PERMISSION DENIED. */
  lemma BrowserOpenCloseAlwaysDenied<C>(e: SkillEngine, step: Step, context: C,
                                          run: (Skill, string, Option<string>, C) -> SkillResult)
    requires e.actionMap == RegisterAll(map[], DefaultSkills) && e.permissions == DefaultManager
    requires Upper(step.actionType) == "BROWSE_OPEN" || Upper(step.actionType) == "BROWSE_CLOSE"
    ensures !e.ExecuteStep(step, context, run).success
  {
    var verb := Upper(step.actionType);
    BrowserVerbsMapped();
    BrowserOpenCloseUnbucketed();
    UpperIdempotent(step.actionType);
    assert Upper(verb) == verb;
    assert !e.permissions.CheckPermission(verb, step.value);
  }
}
