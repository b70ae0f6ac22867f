/** The command pipeline (core/coordinator.py): identity lookup, the APPROVE
    shortcut, planning, the policy decision, and plan execution with audit
    entries and notifications. The planner's output, the action agent's
    results, the knowledge agent's answers, the clock and the request-id
    generator are inputs. */
module Coordination {
  import opened Wrappers
  import opened Text
  import opened Types
  import opened Identity
  import opened Policy
  import opened AccessControl
  import opened Audit

  /** One `_notify_user` call: the sender id of the command it answers, and the text. */
  datatype Notification = Notification(recipient: string, text: string)

  /** What the outside world supplies while step `i` of a plan runs: the
      action agent's result, the knowledge agent's answer (read only for an
      ANSWER step) and the clock reading for the audit entry. */
  datatype StepEnv = StepEnv(result: AgentResult, answer: string, at: Time)

  type Env = nat -> StepEnv

  /** The state the pipeline changes: the approval table, the audit log and
      the notifications sent so far. */
  datatype World = World(requests: Table, log: seq<AuditEntry>, sent: seq<Notification>)

  const ANSWER := "ANSWER"
  const NO_PLAN := "Could not generate a plan."
  const ACCESS_DENIED := "Access Denied by Policy."
  const JOB_COMPLETE := "Job Complete."
  const ANSWER_PREFIX := "\U{1F4A1} **Answer**: "
  const STEP_FAILED_PREFIX := "Step failed: "
  const APPROVE_PREFIX := "APPROVE "

  function ApprovalPrompt(id: string): string {
    "\U{26A0}\U{FE0F} Approval Required. Reply with '" + APPROVE_PREFIX + id + "' to proceed."
  }

  function ResumeNotice(id: string): string {
    "Request " + id + " Approved. Executing..."
  }

  /** The audited target: the step's value when it is neither None nor
      empty, otherwise the text of its target element (None prints as "None"). */
  function StepTarget(step: Step): string {
    if Truthy(step.value) then step.value.value else PyStr(step.targetElement)
  }

  /** What executing steps `i..` adds: audit entries and notifications. */
  datatype Trail = Trail(entries: seq<AuditEntry>, notes: seq<Notification>)

  /** Whether the loop breaks at step `i`: a non-ANSWER step that failed. */
  predicate Stops(plan: seq<Step>, env: Env, i: nat)
    requires i < |plan|
  {
    plan[i].actionType != ANSWER && !env(i).result.success
  }

  /** One pass of the loop body over step `i`. An ANSWER step is answered and
      audited as a success; any other step is audited with its result, and a
      failure adds its "Step failed" notice. */
  function Own(plan: seq<Step>, c: UserCommand, env: Env, i: nat): Trail
    requires i < |plan|
  {
    var step := plan[i];
    if step.actionType == ANSWER then
      Trail([ActionEntry(env(i).at, c.senderId, ANSWER, "RAG", "SUCCESS", "Answered")],
            [Notification(c.senderId, ANSWER_PREFIX + env(i).answer)])
    else
      var res := env(i).result;
      Trail([ActionEntry(env(i).at, c.senderId, step.actionType, StepTarget(step),
                         if res.success then "SUCCESS" else "FAILURE", res.message)],
            if res.success then [] else [Notification(c.senderId, STEP_FAILED_PREFIX + step.description)])
  }

  /** The execution loop from step `i` on: each step's pass, and the loop
      ends after the first step where it breaks. */
  function StepsFrom(plan: seq<Step>, c: UserCommand, env: Env, i: nat): Trail
    decreases |plan| - i
  {
    if i >= |plan| then Trail([], [])
    else
      var own := Own(plan, c, env, i);
      if Stops(plan, env, i) then own
      else
        var rest := StepsFrom(plan, c, env, i + 1);
        Trail(own.entries + rest.entries, own.notes + rest.notes)
  }

  /** The trail from `i` is step `i`'s own part, followed by the rest unless the loop stops there. */
  lemma StepsFromSplit(plan: seq<Step>, c: UserCommand, env: Env, i: nat)
    requires i < |plan|
    ensures Stops(plan, env, i) ==> StepsFrom(plan, c, env, i) == Own(plan, c, env, i)
    ensures !Stops(plan, env, i) ==>
              && StepsFrom(plan, c, env, i).entries == Own(plan, c, env, i).entries + StepsFrom(plan, c, env, i + 1).entries
              && StepsFrom(plan, c, env, i).notes == Own(plan, c, env, i).notes + StepsFrom(plan, c, env, i + 1).notes
  {
  }

  /** `_execute_plan`: the loop's trail, then "Job Complete." in every case. */
  function Execute(w: World, plan: seq<Step>, c: UserCommand, env: Env): (r: World)
    ensures r.requests == w.requests
    ensures w.log <= r.log
    ensures w.sent <= r.sent && |r.sent| > |w.sent|
    ensures r.sent[|r.sent| - 1] == Notification(c.senderId, JOB_COMPLETE)
  {
    var t := StepsFrom(plan, c, env, 0);
    w.(log := w.log + t.entries, sent := w.sent + t.notes + [Notification(c.senderId, JOB_COMPLETE)])
  }

  /** `_resume_execution`: for a stored request, notify its original sender
      and run its stored plan on behalf of its stored command. */
  function Resume(w: World, id: string, env: Env): (r: World)
    ensures id !in w.requests ==> r == w
    ensures r.requests == w.requests
    ensures id in w.requests ==>
              && |r.sent| > |w.sent| + 1
              && r.sent[|w.sent|] == Notification(w.requests[id].command.senderId, ResumeNotice(id))
  {
    if id in w.requests then
      var req := w.requests[id];
      Execute(w.(sent := w.sent + [Notification(req.command.senderId, ResumeNotice(id))]), req.plan, req.command, env)
    else w
  }

  /** Upper-casing keeps spaces where they are and makes no new ones. */
  lemma UpperKeepsSpace(s: string, k: nat)
    requires k < |s| && Upper(s)[k] == ' '
    ensures s[k] == ' '
  {
  }

  /** The APPROVE test: the upper-cased text starts with "APPROVE ", so the
      eighth character of the text itself is a space. */
  function IsApprove(raw: string): (b: bool)
    ensures b ==> |raw| >= 8 && raw[7] == ' '
  {
    if StartsWith(Upper(raw), APPROVE_PREFIX) then
      assert Upper(raw)[7] == ' ';
      UpperKeepsSpace(raw, 7);
      true
    else false
  }

  /** The id an APPROVE command names: its second space-separated field,
      stripped. The field exists because the eighth character is a space. */
  function ApproveTarget(raw: string): (id: string)
    requires IsApprove(raw)
    ensures id == [] || (!IsSpace(id[0]) && !IsSpace(id[|id| - 1]))
  {
    SplitHasTwoFields(raw, ' ', 7);
    Strip(Split(raw, ' ')[1])
  }

  /** `_handle_command`. `planned` is what the planner returns for the
      command's text and `freshId` the id a new approval request would get. */
  function Handle(w: World, db: map<string, Role>, c: UserCommand, planned: seq<Step>, freshId: string, env: Env): (r: World)
    ensures c.senderId !in db ==> r == w
    ensures w.log <= r.log && w.sent <= r.sent
    ensures r.requests.Keys <= w.requests.Keys + {freshId}
    ensures w.requests.Keys <= r.requests.Keys
  {
    var identity := Lookup(db, c.senderId);
    if identity.None? then w
    else if IsApprove(c.rawText) then
      var id := ApproveTarget(c.rawText);
      var r := Resolve(w.requests, id, APPROVED);
      if r.0 then Resume(w.(requests := r.1), id, env) else w
    else if planned == [] then
      w.(sent := w.sent + [Notification(c.senderId, NO_PLAN)])
    else
      match EvaluatePlan(identity.value, planned)
      case DENY => w.(sent := w.sent + [Notification(c.senderId, ACCESS_DENIED)])
      case REQUIRE_APPROVAL =>
        w.(requests := Created(w.requests, freshId, c, identity.value, planned),
           sent := w.sent + [Notification(c.senderId, ApprovalPrompt(freshId))])
      case ALLOW => Execute(w, planned, c, env)
  }

  /** One queued command with what the outside world supplies for it. */
  datatype Input = Input(command: UserCommand, planned: seq<Step>, freshId: string, env: Env)

  /** The queue drained in order. */
  function HandleAll(w: World, db: map<string, Role>, inputs: seq<Input>): (r: World)
    ensures w.log <= r.log && w.sent <= r.sent
    ensures w.requests.Keys <= r.requests.Keys
    ensures forall id | id in r.requests && id !in w.requests :: exists k | 0 <= k < |inputs| :: inputs[k].freshId == id
  {
    if inputs == [] then w
    else
      var last := inputs[|inputs| - 1];
      Handle(HandleAll(w, db, inputs[..|inputs| - 1]), db, last.command, last.planned, last.freshId, last.env)
  }

  class Coordinator {
    const identities: IdentityManager
    const approvals: ApprovalService
    const audit: AuditLogger
    /** The notifications sent so far, in order. */
    var sent: seq<Notification>

    function State(): World
      reads this, approvals, audit
    {
      World(approvals.requests, audit.entries, sent)
    }

    constructor (identities: IdentityManager, approvals: ApprovalService, audit: AuditLogger)
      ensures this.identities == identities && this.approvals == approvals && this.audit == audit
      ensures sent == []
    {
      this.identities := identities;
      this.approvals := approvals;
      this.audit := audit;
      sent := [];
    }

    /** `_notify_user`: one message to the command's sender. */
    method NotifyUser(command: UserCommand, message: string)
      modifies this
      ensures sent == old(sent) + [Notification(command.senderId, message)]
    {
      sent := sent + [Notification(command.senderId, message)];
    }

    /** An ANSWER step: the answer is sent and a success is audited. */
    method AnswerStep(command: UserCommand, e: StepEnv)
      modifies this, audit
      ensures audit.entries == old(audit.entries) + [ActionEntry(e.at, command.senderId, ANSWER, "RAG", "SUCCESS", "Answered")]
      ensures sent == old(sent) + [Notification(command.senderId, ANSWER_PREFIX + e.answer)]
    {
      NotifyUser(command, ANSWER_PREFIX + e.answer);
      audit.LogAction(command.senderId, ANSWER, "RAG", "SUCCESS", "Answered", e.at, true);
    }

    /** Any other step: its result is audited, and a failure is reported. */
    method ActStep(step: Step, command: UserCommand, e: StepEnv)
      modifies this, audit
      ensures audit.entries == old(audit.entries) +
                [ActionEntry(e.at, command.senderId, step.actionType, StepTarget(step),
                             if e.result.success then "SUCCESS" else "FAILURE", e.result.message)]
      ensures e.result.success ==> sent == old(sent)
      ensures !e.result.success ==> sent == old(sent) + [Notification(command.senderId, STEP_FAILED_PREFIX + step.description)]
    {
      var res := e.result;
      var status := if res.success then "SUCCESS" else "FAILURE";
      audit.LogAction(command.senderId, step.actionType, StepTarget(step), status, res.message, e.at, true);
      if !res.success {
        NotifyUser(command, STEP_FAILED_PREFIX + step.description);
      }
    }

    /** One pass of the execution loop over step `i`. */
    method RunStep(plan: seq<Step>, i: nat, command: UserCommand, env: Env) returns (stop: bool)
      requires i < |plan|
      modifies this, audit
      ensures stop == Stops(plan, env, i)
      ensures audit.entries == old(audit.entries) + Own(plan, command, env, i).entries
      ensures sent == old(sent) + Own(plan, command, env, i).notes
    {
      var step := plan[i];
      if step.actionType == ANSWER {
        AnswerStep(command, env(i));
        stop := false;
      } else {
        ActStep(step, command, env(i));
        stop := !env(i).result.success;
      }
    }

    /** `_execute_plan`. Every audit write is taken to succeed. */
    method ExecutePlan(plan: seq<Step>, command: UserCommand, env: Env)
      modifies this, audit
      ensures State() == Execute(old(State()), plan, command, env)
    {
      ghost var log0 := audit.entries;
      ghost var sent0 := sent;
      ghost var all := StepsFrom(plan, command, env, 0);
      var i := 0;
      while i < |plan|
        invariant 0 <= i <= |plan|
        invariant audit.entries + StepsFrom(plan, command, env, i).entries == log0 + all.entries
        invariant sent + StepsFrom(plan, command, env, i).notes == sent0 + all.notes
      {
        ghost var before := audit.entries;
        ghost var sentBefore := sent;
        var stop := RunStep(plan, i, command, env);
        StepsFromSplit(plan, command, env, i);
        if stop {
          assert audit.entries == log0 + all.entries;
          assert sent == sent0 + all.notes;
          break;
        }
        ghost var own := Own(plan, command, env, i);
        ghost var rest := StepsFrom(plan, command, env, i + 1);
        ConcatAssoc(before, own.entries, rest.entries);
        ConcatAssoc(sentBefore, own.notes, rest.notes);
        i := i + 1;
      }
      NotifyUser(command, JOB_COMPLETE);
    }

    /** `_resume_execution`. */
    method ResumeExecution(id: string, env: Env)
      modifies this, audit
      ensures State() == Resume(old(State()), id, env)
    {
      var req := approvals.GetRequest(id);
      if req.Some? {
        NotifyUser(req.value.command, ResumeNotice(id));
        ExecutePlan(req.value.plan, req.value.command, env);
      }
    }

    /** `_handle_command`. */
    method HandleCommand(command: UserCommand, planned: seq<Step>, freshId: string, env: Env)
      modifies this, approvals, audit
      ensures State() == Handle(old(State()), identities.userDb, command, planned, freshId, env)
    {
      var identity := identities.GetIdentity(command.senderId);
      if identity.None? {
        return;
      }
      if IsApprove(command.rawText) {
        var reqId := ApproveTarget(command.rawText);
        var ok := approvals.ApproveRequest(reqId);
        if ok {
          ResumeExecution(reqId, env);
        }
        return;
      }
      var plan := planned;
      if plan == [] {
        NotifyUser(command, NO_PLAN);
        return;
      }
      var decision := EvaluatePlan(identity.value, plan);
      if decision == DENY {
        NotifyUser(command, ACCESS_DENIED);
        return;
      }
      if decision == REQUIRE_APPROVAL {
        var reqId := approvals.CreateRequest(command, identity.value, plan, freshId);
        NotifyUser(command, ApprovalPrompt(reqId));
        return;
      }
      ExecutePlan(plan, command, env);
    }

    /** Drains a finite queue of commands in order. */
    method ProcessQueue(inputs: seq<Input>)
      modifies this, approvals, audit
      ensures State() == HandleAll(old(State()), identities.userDb, inputs)
    {
      var i := 0;
      while i < |inputs|
        invariant 0 <= i <= |inputs|
        invariant State() == HandleAll(old(State()), identities.userDb, inputs[..i])
      {
        assert inputs[..i + 1][..i] == inputs[..i];
        var input := inputs[i];
        HandleCommand(input.command, input.planned, input.freshId, input.env);
        i := i + 1;
      }
      assert inputs[..i] == inputs;
    }
  }
}
