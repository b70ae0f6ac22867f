/** What the command pipeline guarantees, stated over the model in
    coordinator.dfy: the outcome of each branch of `_handle_command`, the
    shape of an execution trail, at-most-once execution of an approved
    request, and three end-to-end runs. */
module CoordinatorProperties {
  import opened Wrappers
  import opened Text
  import opened Types
  import opened Identity
  import opened Policy
  import opened AccessControl
  import opened Audit
  import opened Coordination

  // ---------------------------------------------------------------------
  // The branches of `_handle_command`

  /** An unknown sender is dropped: nothing is sent, planned, stored or audited. */
  lemma UnknownSenderDropped(w: World, db: map<string, Role>, c: UserCommand, planned: seq<Step>, freshId: string, env: Env)
    requires c.senderId !in db
    ensures Handle(w, db, c, planned, freshId, env) == w
  {
  }

  /** An APPROVE command never reaches the planner or the policy: its outcome
      is the same whatever plan the planner would produce, and it creates no request. */
  lemma ApproveBypassesPlanner(w: World, db: map<string, Role>, c: UserCommand, env: Env,
                               planned1: seq<Step>, freshId1: string, planned2: seq<Step>, freshId2: string)
    requires IsApprove(c.rawText)
    ensures Handle(w, db, c, planned1, freshId1, env) == Handle(w, db, c, planned2, freshId2, env)
    ensures Handle(w, db, c, planned1, freshId1, env).requests.Keys == w.requests.Keys
  {
  }

  /** An APPROVE naming no pending request changes nothing and sends nothing. */
  lemma FailedApprovalSilent(w: World, db: map<string, Role>, c: UserCommand, planned: seq<Step>, freshId: string, env: Env)
    requires c.senderId in db && IsApprove(c.rawText)
    requires var id := ApproveTarget(c.rawText); !(id in w.requests && w.requests[id].status == PENDING)
    ensures Handle(w, db, c, planned, freshId, env) == w
  {
  }

  /** An APPROVE naming a pending request marks it APPROVED, tells the
      request's original sender, and runs the stored plan for the stored
      command. No role is required of the approver. */
  lemma ApprovalResumes(w: World, db: map<string, Role>, c: UserCommand, planned: seq<Step>, freshId: string, env: Env)
    requires c.senderId in db && IsApprove(c.rawText)
    requires var id := ApproveTarget(c.rawText); id in w.requests && w.requests[id].status == PENDING
    ensures var id := ApproveTarget(c.rawText);
            var req := w.requests[id];
            Handle(w, db, c, planned, freshId, env) ==
              Execute(World(w.requests[id := req.(status := APPROVED)], w.log,
                            w.sent + [Notification(req.command.senderId, ResumeNotice(id))]),
                      req.plan, req.command, env)
  {
  }

  /** An empty plan sends exactly "Could not generate a plan." and changes nothing else. */
  lemma EmptyPlanOutcome(w: World, db: map<string, Role>, c: UserCommand, freshId: string, env: Env)
    requires c.senderId in db && !IsApprove(c.rawText)
    ensures Handle(w, db, c, [], freshId, env) ==
              World(w.requests, w.log, w.sent + [Notification(c.senderId, NO_PLAN)])
  {
  }

  /** DENY sends "Access Denied by Policy."; nothing runs and nothing is audited. */
  lemma DenyOutcome(w: World, db: map<string, Role>, c: UserCommand, planned: seq<Step>, freshId: string, env: Env)
    requires c.senderId in db && !IsApprove(c.rawText) && planned != []
    requires EvaluatePlan(Lookup(db, c.senderId).value, planned) == DENY
    ensures Handle(w, db, c, planned, freshId, env) ==
              World(w.requests, w.log, w.sent + [Notification(c.senderId, ACCESS_DENIED)])
  {
  }

  /** The approval prompt names the request's id. */
  lemma PromptNamesId(id: string)
    ensures Contains(ApprovalPrompt(id), id)
  {
    var prefix := "\U{26A0}\U{FE0F} Approval Required. Reply with '" + APPROVE_PREFIX;
    var p := ApprovalPrompt(id);
    assert p == prefix + id + "' to proceed.";
    assert p[|prefix|..|prefix| + |id|] == id;
    assert OccursAt(p, id, |prefix|);
  }

  /** REQUIRE_APPROVAL stores one pending request holding the command, the
      identity and the plan, sends one message naming its id, and runs nothing. */
  lemma RequireApprovalOutcome(w: World, db: map<string, Role>, c: UserCommand, planned: seq<Step>, freshId: string, env: Env)
    requires c.senderId in db && !IsApprove(c.rawText) && planned != []
    requires EvaluatePlan(Lookup(db, c.senderId).value, planned) == REQUIRE_APPROVAL
    ensures var r := Handle(w, db, c, planned, freshId, env);
            && r.log == w.log
            && r.requests == w.requests[freshId := ApprovalRequest(freshId, c, Lookup(db, c.senderId).value, planned, PENDING)]
            && r.sent == w.sent + [Notification(c.senderId, ApprovalPrompt(freshId))]
            && Contains(ApprovalPrompt(freshId), freshId)
  {
    PromptNamesId(freshId);
  }

  /** ALLOW runs the plan at once and leaves the approval table alone. */
  lemma AllowOutcome(w: World, db: map<string, Role>, c: UserCommand, planned: seq<Step>, freshId: string, env: Env)
    requires c.senderId in db && !IsApprove(c.rawText) && planned != []
    requires EvaluatePlan(Lookup(db, c.senderId).value, planned) == ALLOW
    ensures Handle(w, db, c, planned, freshId, env) == Execute(w, planned, c, env)
    ensures Handle(w, db, c, planned, freshId, env).requests == w.requests
  {
  }

  /** Only an ALLOW decision or an approval writes to the audit log. */
  lemma AuditOnlyOnExecution(w: World, db: map<string, Role>, c: UserCommand, planned: seq<Step>, freshId: string, env: Env)
    requires Handle(w, db, c, planned, freshId, env).log != w.log
    ensures c.senderId in db
    ensures IsApprove(c.rawText) ||
              (planned != [] && EvaluatePlan(Lookup(db, c.senderId).value, planned) == ALLOW)
  {
  }

  // ---------------------------------------------------------------------
  // The execution trail

  /** The first step at or after `i` where the loop breaks, or |plan|. */
  function FirstStop(plan: seq<Step>, env: Env, i: nat): (k: nat)
    ensures i <= |plan| ==> i <= k <= |plan|
    ensures i > |plan| ==> k == |plan|
    ensures forall j | i <= j < k && j < |plan| :: !Stops(plan, env, j)
    ensures k < |plan| ==> Stops(plan, env, k)
    decreases |plan| - i
  {
    if i >= |plan| then |plan|
    else if Stops(plan, env, i) then i
    else FirstStop(plan, env, i + 1)
  }

  /** One audit entry per step run: up to and including the first failure,
      or every step when none fails. */
  lemma {:induction false} TrailLength(plan: seq<Step>, c: UserCommand, env: Env, i: nat)
    requires i <= |plan|
    ensures var k := FirstStop(plan, env, i);
            |StepsFrom(plan, c, env, i).entries| == (if k < |plan| then k - i + 1 else |plan| - i)
    decreases |plan| - i
  {
    if i < |plan| {
      StepsFromSplit(plan, c, env, i);
      if !Stops(plan, env, i) {
        TrailLength(plan, c, env, i + 1);
      }
    }
  }

  /** Entry `j - i` of the trail from `i` is step `j`'s own entry. */
  lemma {:induction false} TrailEntryAt(plan: seq<Step>, c: UserCommand, env: Env, i: nat, j: nat)
    requires i <= j && i <= |plan| && j - i < |StepsFrom(plan, c, env, i).entries|
    ensures j < |plan| && StepsFrom(plan, c, env, i).entries[j - i] == Own(plan, c, env, j).entries[0]
    decreases j - i
  {
    assert i < |plan|;
    StepsFromSplit(plan, c, env, i);
    var own := Own(plan, c, env, i).entries;
    assert |own| == 1;
    if i < j {
      assert !Stops(plan, env, i);
      var rest := StepsFrom(plan, c, env, i + 1).entries;
      assert StepsFrom(plan, c, env, i).entries[j - i] == rest[j - (i + 1)];
      TrailEntryAt(plan, c, env, i + 1, j);
    }
  }

  /** The entries follow plan order: entry `n` is step `i + n`'s own entry. */
  lemma TrailOrder(plan: seq<Step>, c: UserCommand, env: Env, i: nat)
    requires i <= |plan|
    ensures var t := StepsFrom(plan, c, env, i);
            forall n | 0 <= n < |t.entries| :: i + n < |plan| && t.entries[n] == Own(plan, c, env, i + n).entries[0]
  {
    forall n | 0 <= n < |StepsFrom(plan, c, env, i).entries|
      ensures i + n < |plan| && StepsFrom(plan, c, env, i).entries[n] == Own(plan, c, env, i + n).entries[0]
    {
      TrailEntryAt(plan, c, env, i, i + n);
    }
  }

  /** Each entry records its step's verb, and SUCCESS exactly for the steps
      before the first failure. */
  lemma EntryContents(plan: seq<Step>, c: UserCommand, env: Env, j: nat)
    requires j < |plan|
    ensures var e := Own(plan, c, env, j).entries[0];
            && e.eventType == ACTION_EXECUTION && e.userId == c.senderId
            && e.details["action"] == plan[j].actionType
            && (e.details["status"] == "SUCCESS" <==> !Stops(plan, env, j))
  {
  }

  /** When step `k` is the first failure from `i` on, its notice is the last
      thing the loop sends. */
  lemma {:induction false} FailureNoticeLast(plan: seq<Step>, c: UserCommand, env: Env, i: nat, k: nat)
    requires i <= k < |plan| && Stops(plan, env, k)
    requires forall j | i <= j < k :: !Stops(plan, env, j)
    ensures var notes := StepsFrom(plan, c, env, i).notes;
            notes != [] && notes[|notes| - 1] == Notification(c.senderId, STEP_FAILED_PREFIX + plan[k].description)
    decreases k - i
  {
    StepsFromSplit(plan, c, env, i);
    if i < k {
      FailureNoticeLast(plan, c, env, i + 1, k);
      var own := Own(plan, c, env, i).notes;
      var rest := StepsFrom(plan, c, env, i + 1).notes;
      assert (own + rest)[|own + rest| - 1] == rest[|rest| - 1];
    }
  }

  /** Without a failure, every notice the loop sends is an answer. */
  lemma {:induction false} AnswersOnly(plan: seq<Step>, c: UserCommand, env: Env, i: nat)
    requires i <= |plan|
    requires forall j | i <= j < |plan| :: !Stops(plan, env, j)
    ensures forall n | n in StepsFrom(plan, c, env, i).notes :: StartsWith(n.text, ANSWER_PREFIX)
    decreases |plan| - i
  {
    if i < |plan| {
      StepsFromSplit(plan, c, env, i);
      AnswersOnly(plan, c, env, i + 1);
      var own := Own(plan, c, env, i).notes;
      var rest := StepsFrom(plan, c, env, i + 1).notes;
      if plan[i].actionType == ANSWER {
        AnswerTagged(env(i).answer);
        assert own == [Notification(c.senderId, ANSWER_PREFIX + env(i).answer)];
      } else {
        assert own == [];
      }
      assert StepsFrom(plan, c, env, i).notes == own + rest;
    }
  }

  lemma AnswerTagged(answer: string)
    ensures StartsWith(ANSWER_PREFIX + answer, ANSWER_PREFIX)
  {
    assert (ANSWER_PREFIX + answer)[..|ANSWER_PREFIX|] == ANSWER_PREFIX;
  }

  /** A failure's notice is the last thing the loop sends. Without a failure,
      every notice the loop sends is an answer. */
  lemma TrailNotices(plan: seq<Step>, c: UserCommand, env: Env, i: nat)
    requires i <= |plan|
    ensures var t := StepsFrom(plan, c, env, i);
            var k := FirstStop(plan, env, i);
            && (k < |plan| ==> (t.notes != [] &&
                  t.notes[|t.notes| - 1] == Notification(c.senderId, STEP_FAILED_PREFIX + plan[k].description)))
            && (k == |plan| ==> forall n | n in t.notes :: StartsWith(n.text, ANSWER_PREFIX))
  {
    if FirstStop(plan, env, i) < |plan| {
      FailureNoticeLast(plan, c, env, i, FirstStop(plan, env, i));
    } else {
      AnswersOnly(plan, c, env, i);
    }
  }

  /** "Job Complete." is always the last notification of an execution, after
      a failure too, and the log grows by exactly the trail's entries. */
  lemma ExecuteAlwaysCompletes(w: World, plan: seq<Step>, c: UserCommand, env: Env)
    ensures var r := Execute(w, plan, c, env);
            && r.requests == w.requests
            && r.log == w.log + StepsFrom(plan, c, env, 0).entries
            && |r.sent| > |w.sent| && r.sent[..|w.sent|] == w.sent
            && r.sent[|r.sent| - 1] == Notification(c.senderId, JOB_COMPLETE)
  {
  }

  // ---------------------------------------------------------------------
  // At-most-once execution of an approved request

  /** The input resumes request `id`: a known sender approves it while it is pending. */
  predicate ResumesAt(w: World, db: map<string, Role>, input: Input, id: string) {
    && input.command.senderId in db
    && IsApprove(input.command.rawText)
    && ApproveTarget(input.command.rawText) == id
    && id in w.requests && w.requests[id].status == PENDING
  }

  function Step1(w: World, db: map<string, Role>, input: Input): World {
    Handle(w, db, input.command, input.planned, input.freshId, input.env)
  }

  /** How many inputs of the run resume request `id`. */
  function Resumptions(w: World, db: map<string, Role>, inputs: seq<Input>, id: string): nat
    decreases |inputs|
  {
    if inputs == [] then 0
    else (if ResumesAt(w, db, inputs[0], id) then 1 else 0) + Resumptions(Step1(w, db, inputs[0]), db, inputs[1..], id)
  }

  /** Every request id the run would create is new when it is drawn, as a
      random eight-hex-digit id is taken to be. */
  predicate FreshAlong(w: World, db: map<string, Role>, inputs: seq<Input>)
    decreases |inputs|
  {
    inputs == [] ||
    (inputs[0].freshId !in w.requests && FreshAlong(Step1(w, db, inputs[0]), db, inputs[1..]))
  }

  /** A request that is no longer pending is never changed by a later command. */
  lemma ResolvedUntouched(w: World, db: map<string, Role>, input: Input, id: string)
    requires id in w.requests && w.requests[id].status != PENDING
    requires input.freshId !in w.requests
    ensures id in Step1(w, db, input).requests
    ensures Step1(w, db, input).requests[id] == w.requests[id]
  {
  }

  /** Approving a pending request leaves it APPROVED. */
  lemma ResumeApproves(w: World, db: map<string, Role>, input: Input, id: string)
    requires ResumesAt(w, db, input, id)
    ensures id in Step1(w, db, input).requests && Step1(w, db, input).requests[id].status == APPROVED
  {
  }

  lemma {:induction false} NeverResumedAgain(w: World, db: map<string, Role>, inputs: seq<Input>, id: string)
    requires id in w.requests && w.requests[id].status != PENDING
    requires FreshAlong(w, db, inputs)
    ensures Resumptions(w, db, inputs, id) == 0
    decreases |inputs|
  {
    if inputs != [] {
      ResolvedUntouched(w, db, inputs[0], id);
      NeverResumedAgain(Step1(w, db, inputs[0]), db, inputs[1..], id);
    }
  }

  /** Over any run of commands, a request's plan is resumed at most once. */
  lemma {:induction false} AtMostOnce(w: World, db: map<string, Role>, inputs: seq<Input>, id: string)
    requires FreshAlong(w, db, inputs)
    ensures Resumptions(w, db, inputs, id) <= 1
    decreases |inputs|
  {
    if inputs != [] {
      if ResumesAt(w, db, inputs[0], id) {
        ResumeApproves(w, db, inputs[0], id);
        NeverResumedAgain(Step1(w, db, inputs[0]), db, inputs[1..], id);
      } else {
        AtMostOnce(Step1(w, db, inputs[0]), db, inputs[1..], id);
      }
    }
  }

  /** Draining the queue handles the first command first: the run the
      coordinator's queue loop performs is the one `Resumptions` counts over. */
  lemma {:induction false} HandleAllFirst(w: World, db: map<string, Role>, inputs: seq<Input>)
    requires inputs != []
    ensures HandleAll(w, db, inputs) == HandleAll(Step1(w, db, inputs[0]), db, inputs[1..])
    decreases |inputs|
  {
    if |inputs| > 1 {
      var init := inputs[..|inputs| - 1];
      HandleAllFirst(w, db, init);
      assert init[1..] == inputs[1..][..|inputs[1..]| - 1];
    } else {
      assert inputs[..0] == [];
    }
  }

  // ---------------------------------------------------------------------
  // Replying to the approval prompt

  /** A reply of the form the prompt asks for, "APPROVE" in any case, one
      space and the id, is an APPROVE command naming exactly that id. */
  lemma ReplyNamesId(word: string, id: string)
    requires Upper(word) == "APPROVE"
    requires id != [] && forall j | 0 <= j < |id| :: !IsSpace(id[j])
    ensures IsApprove(word + " " + id)
    ensures ApproveTarget(word + " " + id) == id
  {
    var raw := word + " " + id;
    UpperConcat(word, " " + id);
    assert Upper(raw)[..|APPROVE_PREFIX|] == APPROVE_PREFIX;
    forall k | 0 <= k < |word|
      ensures word[k] != ' '
    {
      assert Upper(word)[k] != ' ';
    }
    SplitNoSep(word, ' ');
    SplitNoSep(id, ' ');
    assert raw == word + [' '] + id;
    SplitConcat(word, id, ' ');
    StripUnchanged(id);
  }

  // ---------------------------------------------------------------------
  // End-to-end runs

  function CalculatorPlan(): seq<Step> {
    [Step("Open calculator", "OPEN_APP", None, Some("calc")), Step("Type 5", "TYPE", None, Some("5"))]
  }

  /** Opening the calculator and typing 5 is not destructive: an ADMIN is allowed it. */
  lemma CalculatorAllowed(userId: string)
    ensures EvaluatePlan(UserIdentity(userId, ADMIN, None), CalculatorPlan()) == ALLOW
  {
    var plan := CalculatorPlan();
    assert !Contains(Lower("5"), "del ");
    assert !IsDestructive(plan[0]) && !IsDestructive(plan[1]);
    AdminDecision(UserIdentity(userId, ADMIN, None), plan);
  }

  /** An ADMIN asks to open the calculator and type 5: both steps run at
      once and are audited in order. */
  lemma AdminCalculatorRun(w: World, c: UserCommand, freshId: string, env: Env)
    requires !IsApprove(c.rawText)
    requires env(0).result.success && env(1).result.success
    ensures var r := Handle(w, map[c.senderId := ADMIN], c, CalculatorPlan(), freshId, env);
            && r.requests == w.requests
            && r.log == w.log + [ActionEntry(env(0).at, c.senderId, "OPEN_APP", "calc", "SUCCESS", env(0).result.message),
                                 ActionEntry(env(1).at, c.senderId, "TYPE", "5", "SUCCESS", env(1).result.message)]
            && r.sent == w.sent + [Notification(c.senderId, JOB_COMPLETE)]
  {
    CalculatorAllowed(c.senderId);
    AllowOutcome(w, map[c.senderId := ADMIN], c, CalculatorPlan(), freshId, env);
    CalculatorTrail(c, env);
  }

  /** Both calculator steps succeed: two SUCCESS entries in order and no notice. */
  lemma CalculatorTrail(c: UserCommand, env: Env)
    requires env(0).result.success && env(1).result.success
    ensures StepsFrom(CalculatorPlan(), c, env, 0) ==
              Trail([ActionEntry(env(0).at, c.senderId, "OPEN_APP", "calc", "SUCCESS", env(0).result.message),
                     ActionEntry(env(1).at, c.senderId, "TYPE", "5", "SUCCESS", env(1).result.message)], [])
  {
    var plan := CalculatorPlan();
    StepsFromSplit(plan, c, env, 0);
    StepsFromSplit(plan, c, env, 1);
  }

  /** An EMPLOYEE asks to open cmd: the policy denies it and nothing runs. */
  lemma EmployeeCmdDenied(w: World, c: UserCommand, freshId: string, env: Env)
    requires !IsApprove(c.rawText)
    ensures var plan := [Step("Open terminal", "OPEN_APP", None, Some("cmd"))];
            Handle(w, map[c.senderId := EMPLOYEE], c, plan, freshId, env) ==
              World(w.requests, w.log, w.sent + [Notification(c.senderId, ACCESS_DENIED)])
  {
    var plan := [Step("Open terminal", "OPEN_APP", None, Some("cmd"))];
    assert Lower("cmd") == "cmd";
    assert OccursAt(Lower("cmd"), "cmd", 0);
    assert IsSystemCritical(plan[0]);
    DenyOutcome(w, map[c.senderId := EMPLOYEE], c, plan, freshId, env);
  }

  /** An ADMIN asks to delete a file: the request is parked as PENDING and the
      prompt names its id; nothing runs and nothing is audited. */
  lemma AdminDeleteParked(w: World, c: UserCommand, id: string, env: Env)
    requires !IsApprove(c.rawText)
    ensures var db := map[c.senderId := ADMIN];
            var plan := [Step("Delete the report", "DELETE", Some("report.txt"), None)];
            var w1 := Handle(w, db, c, plan, id, env);
            && w1.log == w.log
            && w1.sent == w.sent + [Notification(c.senderId, ApprovalPrompt(id))]
            && w1.requests == w.requests[id := ApprovalRequest(id, c, UserIdentity(c.senderId, ADMIN, None), plan, PENDING)]
  {
    var db := map[c.senderId := ADMIN];
    var plan := [Step("Delete the report", "DELETE", Some("report.txt"), None)];
    AdminDecision(Lookup(db, c.senderId).value, plan);
    assert IsDestructive(plan[0]);
    RequireApprovalOutcome(w, db, c, plan, id, env);
  }

  /** The reply the prompt asks for, from any known sender, runs the parked
      plan for the original command after the resume notice; the same reply
      sent again does nothing. */
  lemma ReplyResumesOnce(w: World, db: map<string, Role>, id: string, reply: UserCommand,
                         planned: seq<Step>, freshId: string, env2: Env, env3: Env)
    requires id in w.requests && w.requests[id].status == PENDING
    requires id != [] && forall j | 0 <= j < |id| :: !IsSpace(id[j])
    requires reply.senderId in db && reply.rawText == "APPROVE " + id
    ensures var req := w.requests[id];
            var w2 := Handle(w, db, reply, planned, freshId, env2);
            && w2 == Execute(World(w.requests[id := req.(status := APPROVED)], w.log,
                                   w.sent + [Notification(req.command.senderId, ResumeNotice(id))]),
                             req.plan, req.command, env2)
            && Handle(w2, db, reply, planned, freshId, env3) == w2
  {
    assert Upper("APPROVE") == "APPROVE";
    ReplyNamesId("APPROVE", id);
    assert "APPROVE" + " " + id == reply.rawText;
    ApprovalResumes(w, db, reply, planned, freshId, env2);
    var req := w.requests[id];
    var mid := World(w.requests[id := req.(status := APPROVED)], w.log,
                     w.sent + [Notification(req.command.senderId, ResumeNotice(id))]);
    ExecuteAlwaysCompletes(mid, req.plan, req.command, env2);
    FailedApprovalSilent(Handle(w, db, reply, planned, freshId, env2), db, reply, planned, freshId, env3);
  }
}
