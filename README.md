# GhostDesk authorization and execution pipeline in Dafny

GhostDesk is a desktop-automation assistant. The pipeline turns a language
model's plan into actions on the host. This project models it and proves
properties of the model. Each source file of the pipeline has a matching
Dafny module:

- `Identity` (core/identity.py): the directory that maps a sender id to a
  role. Every configured allowed user is an ADMIN. An unknown sender gets
  `None`, and the coordinator drops the command.
- `Policy` (core/policy.py): `evaluate_plan` and its two step classifiers.
  It is a pure function from an identity and a plan to ALLOW, DENY or
  REQUIRE_APPROVAL.
- `Permissions` (core/permissions.py): the dispatch-time gate. It sorts
  verbs into SAFE, RISKY and DANGEROUS, and has a substring whitelist for
  OPEN_APP.
- `AccessControl` (core/access_control.py): the approval store. It is a
  class holding a table of requests that moves one way, from PENDING to
  APPROVED or REJECTED.
- `Skills` and `Dispatch` (core/skill_engine.py): the eight default skills
  with the verbs each claims, and the `SkillEngine` class. The class fills
  its verb map by registration, and its `execute_step` does the lookup,
  then the permission check, then hands off to the skill.
- `Audit` (core/audit.py): `AuditLogger`, an append-only sequence of
  structured entries.
- `Coordination` (core/coordinator.py): the `Coordinator` class. Its
  stages are:
  - the identity gate;
  - the `APPROVE <id>` control command;
  - planning, then the policy decision;
  - parking the request for approval, or running it at once;
  - the fail-fast step loop, which audits every step it runs and notifies
    the sender.

  Each method is proved against a pure transition function over a
  `World`: the approval table, the audit log and the notifications sent.
  `CoordinatorProperties` states what that function guarantees.
- `Safety` (core/safety.py): the allow-list and block-list plan validator.
- `Config` (core/config.py): parsing of `ALLOWED_USERS`, and `validate`.
- `Intent` (core/intent.py): what happens to the model's reply after it
  arrives.
- `Planner` (agents/planner.py): what happens around the model call:
  - building the history block;
  - stripping code fences;
  - turning JSON items into steps;
  - failure means an empty plan.
- `Text`, `Types` and `Wrappers`: the Python `str` operations the code
  relies on, the pipeline's records, and `Option`.

Things outside the program are passed in as parameters:

- the model's reply, and the JSON decoder as a function;
- the action agent's result and the knowledge agent's answer for each step;
- the clock reading for each audit entry;
- the id a new approval request receives;
- the skill's own execution.

Where the code behaves differently from what its names and comments
suggest, the model follows the code:

- `evaluate_plan` is decided by the FIRST step the role's rule reacts to.
  It is not a "most restrictive decision wins" rule. `Policy.FirstMatchDiffers`
  exhibits a MANAGER plan where the two readings differ, and
  `Policy.AgreesWithMostRestrictive` shows where they agree.
- The policy has no GUEST branch, so every GUEST plan is ALLOWed. The
  role's comment, "very limited access" (core/identity.py:10), suggests otherwise.
- The coordinator runs steps through the action agent without asking the
  permission gate. `SkillEngine` is not wired into the coordinator.
  - The model keeps this separation: the model of `_execute_plan` takes the
    executor's result as input and has no permission check.
- BROWSE_OPEN and BROWSE_CLOSE are registered by the browser skill but
  belong to no permission bucket. Through `execute_step` they therefore
  always fail with PERMISSION DENIED (`Dispatch.BrowserOpenCloseAlwaysDenied`).

## Model

| member | source | states |
|---|---|---|
| Identity.Lookup | core/identity.py:33-37 | a known id yields an identity with that user id and its stored role; an unknown id yields None |
| Identity.ConfiguredDb | core/identity.py:20-25 | the directory built from the allowed users has exactly those ids as keys, and every one maps to ADMIN |
| Identity.ConfiguredOnlyAdmins | core/identity.py:20-37 | the directory built from configuration knows exactly the configured ids and yields only ADMIN identities |
| Identity.IdentityManager.constructor | core/identity.py:20-25 | the fill loop maps every configured allowed user to ADMIN |
| Identity.IdentityManager.GetIdentity | core/identity.py:33-37 | lookup in the constant directory: Some exactly for known ids, with the stored role |
| Policy.IsDestructive | core/policy.py:53-60 | every DELETE or PRESS step is destructive; only DELETE, PRESS and TYPE steps can be |
| Policy.IsSystemCritical | core/policy.py:62-68 | a system-critical step is an OPEN_APP with a value of at least three characters, the shortest critical name |
| Policy.EvaluatePlan | core/policy.py:23-50 | GUEST always gets ALLOW, ADMIN never gets DENY, EMPLOYEE never gets REQUIRE_APPROVAL |
| Policy.FirstFlagged | core/policy.py:37-42 | the index of the first destructive or system-critical step, or the plan's length when there is none |
| Policy.EmptyPlanAllowed | core/policy.py:24-50 | the empty plan is allowed for every role |
| Policy.AdminDecision | core/policy.py:30-34 | ADMIN: REQUIRE_APPROVAL exactly when some step is destructive, otherwise ALLOW |
| Policy.EmployeeDecision | core/policy.py:45-48 | EMPLOYEE: DENY exactly when some step is destructive or system-critical, otherwise ALLOW |
| Policy.ManagerDecision | core/policy.py:37-42 | MANAGER: the first flagged step decides, REQUIRE_APPROVAL when it is destructive, else DENY; ALLOW when no step is flagged |
| Policy.DestructiveNeverAllowed | core/policy.py:28-48 | for ADMIN, MANAGER and EMPLOYEE, a plan with a destructive step is never ALLOWed |
| Policy.ClassifiersIgnoreValueCase | core/policy.py:53-68 | both classifiers lower-case the step's value, so the value's case never changes either verdict |
| Policy.VerbIsCaseSensitive | core/policy.py:53-68 | the verb comparison is exact: "delete" is not destructive and "open_app" is not system-critical |
| Policy.CriticalNeedsOpenAppWithValue | core/policy.py:63-68 | only an OPEN_APP step that has a value can be system-critical |
| Policy.AgreesWithMostRestrictive | core/policy.py:24-50 | for ADMIN and EMPLOYEE the first-match loop equals the most-restrictive reading; for MANAGER the two agree on whether a plan is ALLOWed |
| Policy.FirstMatchDiffers | core/policy.py:24-50 | MANAGER [DELETE, OPEN_APP cmd] gets REQUIRE_APPROVAL where most-restrictive says DENY; a GUEST DELETE plan is ALLOWed |
| Permissions.PermissionManager.CheckPermission | core/permissions.py:31-53 | every SAFE verb is allowed; an allowed verb is SAFE, or RISKY with `auto_approve_risky` set, or OPEN_APP |
| Permissions.BucketsDisjoint | core/permissions.py:10-12 | the SAFE, RISKY and DANGEROUS sets are pairwise disjoint |
| Permissions.OrderOfTestsIrrelevant | core/permissions.py:31-53 | testing the buckets in the reverse order gives the same answer |
| Permissions.VerbCaseInsensitive | core/permissions.py:31 | two verbs with the same upper-case form get the same answer |
| Permissions.LowerVerbLikeUpper | core/permissions.py:31 | a lower-cased verb gets the same answer as the original |
| Permissions.SafeAlwaysAllowed | core/permissions.py:33-34 | a SAFE verb is allowed whatever the parameters and the risky flag |
| Permissions.RiskyFollowsFlag | core/permissions.py:36-39 | a RISKY verb gets exactly `auto_approve_risky` |
| Permissions.OpenAppNeedsWhitelist | core/permissions.py:41-49 | OPEN_APP is allowed exactly when a whitelisted name occurs in the lower-cased `str(params)` |
| Permissions.OtherVerbsRefused | core/permissions.py:41-53 | DELETE_FILE, RUN_SHELL and every verb in no bucket are refused |
| Permissions.BrowserOpenCloseUnbucketed | core/permissions.py:10-12 | BROWSE_OPEN and BROWSE_CLOSE are in none of the three buckets |
| Permissions.DefaultExamples | core/permissions.py:14-53 | with the default configuration, "type" and OPEN_APP "Calc" are allowed and OPEN_APP "cmd" is not |
| AccessControl.Created | core/access_control.py:29-39 | adds exactly the new id, holding a PENDING request with the given command, identity and plan; other requests are unchanged |
| AccessControl.Resolve | core/access_control.py:44-58 | succeeds exactly when the id is present and PENDING, then changes only that request's status; the id set is unchanged |
| AccessControl.ResolvedIsTerminal | core/access_control.py:44-58 | after a successful approval or rejection, no further approval or rejection succeeds and the status stays |
| AccessControl.ExactlyOneWins | core/access_control.py:44-58 | of two resolutions of one pending request in sequence, exactly the first succeeds |
| AccessControl.UnknownIdUnresolvable | core/access_control.py:44-58 | an unknown id cannot be approved or rejected, and the table is unchanged |
| AccessControl.CreateThenApprove | core/access_control.py:29-50 | approving a just-created id succeeds and leaves it APPROVED with the original command, identity and plan |
| AccessControl.ApprovalService.constructor | core/access_control.py:20-21 | the table starts empty |
| AccessControl.ApprovalService.CreateRequest | core/access_control.py:29-39 | stores a PENDING request under the supplied id and returns that id |
| AccessControl.ApprovalService.GetRequest | core/access_control.py:41-42 | the stored request, or None exactly for an unknown id |
| AccessControl.ApprovalService.ApproveRequest | core/access_control.py:44-50 | returns and performs exactly `Resolve` with APPROVED; no id is removed |
| AccessControl.ApprovalService.RejectRequest | core/access_control.py:52-58 | returns and performs exactly `Resolve` with REJECTED; no id is removed |
| Audit.ActionDetails | core/audit.py:43-49 | the details hold exactly the keys action, target, status and result, with the given values |
| Audit.ActionEntry | core/audit.py:43-49 | an ACTION_EXECUTION entry for the user, with those details and the clock reading |
| Audit.AuditLogger.constructor | core/audit.py:13-17 | an absent log starts empty; an existing log is kept as it is |
| Audit.AuditLogger.LogEvent | core/audit.py:25-41 | a successful write appends exactly one entry; a failed write appends nothing and does not raise; earlier entries are never rewritten |
| Audit.AuditLogger.LogAction | core/audit.py:43-49 | appends one ACTION_EXECUTION entry with the four details, or nothing when the write fails |
| Skills.DefaultSkillsDisjoint | core/skill_engine.py:28-35 | no two default skills claim the same verb or share a name |
| Dispatch.RegisterAll | core/skill_engine.py:37-40 | registering skills in order never unmaps a verb |
| Dispatch.SkillEngine.constructor | core/skill_engine.py:22-35 | the eight default skills are registered in the source's order, and the engine uses the default permission manager |
| Dispatch.SkillEngine.RegisterSkill | core/skill_engine.py:37-41 | records the skill under its name and maps each verb it lists to it; all other entries are unchanged |
| Dispatch.SkillEngine.ExecuteStep | core/skill_engine.py:43-59 | an unmapped verb always fails; a success comes only from a mapped verb that the permission gate allows |
| Dispatch.LastRegistrationWins | core/skill_engine.py:37-40 | on re-registration the later skill wins the verbs it lists; verbs only the earlier lists keep it; others keep their entry |
| Dispatch.RegisterAllKeys | core/skill_engine.py:37-40 | after a run of registrations, a verb is mapped exactly when it was mapped before or some registered skill lists it |
| Dispatch.RegisterAllOwner | core/skill_engine.py:37-40 | with disjoint verb lists, each listed verb maps to the one skill listing it |
| Dispatch.DefaultUnmapped | core/skill_engine.py:28-35 | after construction READ and DELETE are unmapped |
| Dispatch.BrowserVerbsMapped | core/skill_engine.py:28-35 | after construction BROWSE_OPEN and BROWSE_CLOSE are mapped |
| Dispatch.DefaultOwners | core/skill_engine.py:28-35 | after construction the mapped verbs are exactly those the eight skills list, each mapped to the skill listing it |
| Dispatch.UnmappedFailsWithoutRunning | core/skill_engine.py:43-48 | an unmapped upper-cased verb fails with "No skill registered for action: VERB", whatever the skill would do |
| Dispatch.DeniedFailsWithoutRunning | core/skill_engine.py:50-56 | a mapped verb the gate refuses fails with the PERMISSION DENIED message, whatever the skill would do |
| Dispatch.AllowedDelegates | core/skill_engine.py:58-59 | otherwise the mapped skill's result is returned unchanged, called with the upper-cased verb, the value and the context |
| Dispatch.SkillRunsOnlyWhenMappedAndAllowed | core/skill_engine.py:43-59 | the result can depend on the skill only when the verb is mapped and the gate allows it |
| Dispatch.BrowserOpenCloseAlwaysDenied | core/skill_engine.py:43-56 | with the default registrations and gate, a BROWSE_OPEN or BROWSE_CLOSE step always fails |
| Safety.StepSafe | core/safety.py:33-42 | a safe step has an allow-listed verb; every allow-listed verb except OPEN_APP is safe whatever its value, and so is OPEN_APP with no value or an empty one |
| Safety.ValidatePlan | core/safety.py:26-44 | true exactly when every step has an allowed verb and is not an OPEN_APP that launches a forbidden executable |
| Safety.EmptyPlanValid | core/safety.py:31-44 | the empty plan is valid |
| Safety.UnknownVerbInvalid | core/safety.py:33-35 | a step with a verb outside the allow-list makes the plan invalid, wherever it is |
| Safety.ForbiddenAppInvalid | core/safety.py:38-42 | an OPEN_APP step whose non-empty value contains a forbidden executable makes the plan invalid |
| Safety.LowerCaseVerbRejected | core/safety.py:33-35 | the verb check is case-sensitive: "open_app" is rejected |
| Safety.UnlistedOrEmptyLaunchPasses | core/safety.py:38-40 | OPEN_APP with no value, an empty value, or "cmd" without ".exe" passes |
| Safety.ForbiddenIgnoresCase | core/safety.py:38-40 | "C:\\CMD.EXE" is caught, because the value is lower-cased |
| Safety.ValidateConcat | core/safety.py:31-44 | a concatenation is valid exactly when both parts are |
| Safety.OrderIndependent | core/safety.py:31-44 | plans that are permutations of each other get the same verdict |
| Config.Cleaned | core/config.py:9 | the comprehension yields at most one entry per piece |
| Config.ParseAllowedUsers | core/config.py:8-10 | the variable yields at most one user more than it has characters |
| Config.CleanedMembership | core/config.py:8-10 | the user list holds exactly the non-blank stripped pieces |
| Config.CleanedConcat | core/config.py:8-10 | cleaning keeps the pieces' order: it distributes over concatenation |
| Config.EntriesClean | core/config.py:8-10 | no entry is empty or has leading or trailing whitespace |
| Config.UnsetOrEmptyGivesNoUsers | core/config.py:8-10 | an unset or empty variable gives no users |
| Config.CleanedIdentity | core/config.py:8-10 | pieces that are already clean are kept as they are, in order |
| Config.AllowedUsersRoundTrip | core/config.py:8-10 | clean ids without commas, joined with ",", parse back to the same list, the empty list included |
| Config.Validate | core/config.py:14-18 | raises with "Missing TELEGRAM_TOKEN in .env" exactly when the token is empty; with a token and no users it only warns |
| Config.UnsetTokenRaises | core/config.py:7-16 | an unset token variable reads as "" and so raises |
| Intent.Classify | core/intent.py:30-40 | only a present, non-empty reply is TASK or QUERY; QUERY only when the cleaned reply lacks TASK; a TASK reply has at least four characters |
| Intent.ClassifyByKeyword | core/intent.py:31-40 | the class is TASK when the upper-cased reply contains "TASK", else QUERY when it contains "QUERY", else CHAT; stripping changes nothing |
| Intent.MissingOrEmptyIsChat | core/intent.py:31-32 | a missing or empty reply is CHAT |
| Intent.TaskBeatsQuery | core/intent.py:34-36 | a reply containing "TASK" is TASK even when it also contains "QUERY" |
| Intent.CaseInsensitive | core/intent.py:34 | replies with the same upper-case form are classified alike |
| Intent.LowerCaseReply | core/intent.py:34 | lower-casing a reply does not change its class |
| Intent.TaskExample | core/intent.py:34-36 | "task." is TASK |
| Intent.QueryExample | core/intent.py:37-38 | "Query" is QUERY |
| Planner.HistoryLines | agents/planner.py:51-57 | no lines without history; otherwise the header and then one line per item, in order |
| Planner.BuildHistory | agents/planner.py:50-57 | the append loop yields the newline join of exactly those lines |
| Planner.HistoryLineNoNewline | agents/planner.py:55 | an item whose values hold no newline gives a line without a newline |
| Planner.HistoryLinesNoNewline | agents/planner.py:51-57 | when no role or content holds a newline, no line of the block does |
| Planner.HistoryRecoverable | agents/planner.py:51-57 | when no value holds a newline, splitting the block on newlines gives back the header and item lines |
| Planner.StripFences | agents/planner.py:73-77 | the cleaned reply is one contiguous slice of the stripped reply: only a prefix and a suffix are dropped |
| Planner.FencedReplyYieldsBody | agents/planner.py:73-77 | a reply fenced as ```json ... ``` yields exactly its body |
| Planner.UnfencedReplyOnlyStripped | agents/planner.py:73-77 | a reply without fences is only stripped |
| Planner.UntaggedFenceKeepsOpening | agents/planner.py:73-77 | a fence without the json tag keeps its opening backquotes |
| Planner.ItemToStep | agents/planner.py:81-87 | only an object converts; a present description or action type is taken as the string it holds, and an absent one gets "Unknown Step" or "UNKNOWN"; an absent value is None |
| Planner.ItemsToSteps | agents/planner.py:80-88 | all or nothing: steps exactly when every item converts, then one step per item, in order |
| Planner.ToSteps | agents/planner.py:80-88 | the append loop, with its early failure, gives exactly `ItemsToSteps` |
| Planner.PlanFromReply | agents/planner.py:67-94 | a missing or empty reply gives no plan; a non-empty plan comes from a reply that decodes to a list and has one step per element |
| Planner.CreatePlan | agents/planner.py:46-94 | the plan is the post-processing of the model's reply to the user's intent under the full system prompt |
| Planner.FailuresYieldNoPlan | agents/planner.py:67-94 | a missing or empty reply, a decoder failure, or a decoded value that is not a list gives [] |
| Planner.EmptyObjectDefaults | agents/planner.py:82-87 | missing fields default to "Unknown Step", "UNKNOWN", None and None |
| Planner.PlanAllOrNothing | agents/planner.py:79-94 | a decoded list gives one step per element, in order, when all convert; otherwise [] |
| Planner.FencedPlanLikeBare | agents/planner.py:72-79 | a ```json-fenced list gives the plan the bare list would |
| Coordination.StepsFrom | core/coordinator.py:107-140 | the execution loop from a given step on: an ANSWER step is answered and audited as SUCCESS and the loop goes on; another step is audited with its result, and a failure sends "Step failed" and ends the loop |
| Coordination.Stops | core/coordinator.py:118-140 | the loop breaks at a step exactly when it is not ANSWER and its result failed |
| Coordination.Execute | core/coordinator.py:105-145 | the store is unchanged, the log and the messages only grow, and the last message is "Job Complete." |
| Coordination.Resume | core/coordinator.py:99-103 | an unknown id changes nothing; a stored id sends the resume notice to its original sender first and then runs more; the store is unchanged |
| Coordination.IsApprove | core/coordinator.py:70 | an APPROVE command has at least eight characters and its eighth is a space, so the split yields a second field |
| Coordination.ApproveTarget | core/coordinator.py:71 | the id is the second space-separated field, stripped: it has no surrounding whitespace |
| Coordination.Handle | core/coordinator.py:60-97 | an unknown sender changes nothing; the log and messages only grow; no request is removed, and the only request that can be added is the fresh id |
| Coordination.HandleAll | core/coordinator.py:53-58 | over a run of commands the log and messages only grow, no request is removed, and every new request id is one of the run's fresh ids |
| Coordination.StepsFromSplit | core/coordinator.py:107-140 | the trail from a step is that step's own part, followed by the rest of the trail unless the loop breaks there |
| Coordination.Coordinator.constructor | core/coordinator.py:21-36 | holds the directory, approval store and audit logger; nothing is sent yet |
| Coordination.Coordinator.NotifyUser | core/coordinator.py:147-151 | exactly one message, to the command's sender |
| Coordination.Coordinator.AnswerStep | core/coordinator.py:118-122 | an ANSWER step sends the answer and audits ANSWER/RAG/SUCCESS |
| Coordination.Coordinator.ActStep | core/coordinator.py:124-140 | audits the verb, `str(value or target_element)` and SUCCESS or FAILURE; a failure also sends "Step failed: description" |
| Coordination.Coordinator.RunStep | core/coordinator.py:107-140 | one loop pass adds exactly the step's own entry and notes, and reports whether the loop breaks |
| Coordination.Coordinator.ExecutePlan | core/coordinator.py:105-145 | the store, log and notifications end as the `Execute` transition says |
| Coordination.Coordinator.ResumeExecution | core/coordinator.py:99-103 | the store, log and notifications end as the `Resume` transition says |
| Coordination.Coordinator.HandleCommand | core/coordinator.py:60-97 | the store, log and notifications end as the `Handle` transition says |
| Coordination.Coordinator.ProcessQueue | core/coordinator.py:53-58 | draining a finite queue in order ends as `HandleAll` says |
| CoordinatorProperties.UnknownSenderDropped | core/coordinator.py:64-67 | an unknown sender changes nothing: no message, request or audit entry |
| CoordinatorProperties.ApproveBypassesPlanner | core/coordinator.py:70-74 | an APPROVE command's outcome does not depend on the planner, and it creates no request |
| CoordinatorProperties.FailedApprovalSilent | core/coordinator.py:70-74 | an APPROVE naming no pending request changes nothing and sends nothing |
| CoordinatorProperties.ApprovalResumes | core/coordinator.py:69-103 | an APPROVE naming a pending request marks it APPROVED, tells its original sender, and runs its stored plan for its stored command, whatever the approver's role |
| CoordinatorProperties.EmptyPlanOutcome | core/coordinator.py:77-80 | an empty plan sends exactly "Could not generate a plan." and changes nothing else |
| CoordinatorProperties.DenyOutcome | core/coordinator.py:86-88 | DENY sends exactly "Access Denied by Policy."; nothing runs and nothing is audited |
| CoordinatorProperties.PromptNamesId | core/coordinator.py:92 | the approval prompt contains the request's id |
| CoordinatorProperties.RequireApprovalOutcome | core/coordinator.py:90-94 | REQUIRE_APPROVAL stores one pending request with the command, identity and plan, sends one message naming its id, and audits nothing |
| CoordinatorProperties.AllowOutcome | core/coordinator.py:96-97 | ALLOW executes the plan at once and leaves the store unchanged |
| CoordinatorProperties.AuditOnlyOnExecution | core/coordinator.py:60-97 | the log changes only for a known sender whose command is an APPROVE, or whose non-empty plan is ALLOWed |
| CoordinatorProperties.FirstStop | core/coordinator.py:137-140 | the first step at or after a start index where the loop breaks, or the plan's length |
| CoordinatorProperties.TrailLength | core/coordinator.py:107-140 | one audit entry per step run: up to and including the first failure, or every step when none fails |
| CoordinatorProperties.TrailEntryAt | core/coordinator.py:107-140 | entry j - i of the trail from step i is the own entry of step j |
| CoordinatorProperties.TrailOrder | core/coordinator.py:107-140 | the audit entries follow plan order, one per step |
| CoordinatorProperties.EntryContents | core/coordinator.py:118-135 | each entry is an ACTION_EXECUTION by the sender, records its step's verb, and has status SUCCESS exactly when the loop does not break there |
| CoordinatorProperties.FailureNoticeLast | core/coordinator.py:137-140 | when step k is the first failure from step i on, "Step failed: description" of step k is the loop's last notice |
| CoordinatorProperties.AnswersOnly | core/coordinator.py:118-122 | when no step from i on fails, every notice the loop sends is an answer |
| CoordinatorProperties.TrailNotices | core/coordinator.py:118-145 | after a failure, the loop's last notice is "Step failed: description" of the failing step; without a failure every notice is an answer |
| CoordinatorProperties.ExecuteAlwaysCompletes | core/coordinator.py:105-145 | the log grows by exactly the trail; earlier messages are kept; "Job Complete." is always last, after a failure too; the store is unchanged |
| CoordinatorProperties.ResolvedUntouched | core/coordinator.py:69-74 | a request that is no longer pending is left as it is by any later command |
| CoordinatorProperties.ResumeApproves | core/coordinator.py:70-73 | resuming a request leaves it APPROVED |
| CoordinatorProperties.NeverResumedAgain | core/coordinator.py:70-74 | once a request is resolved, no later run of commands resumes it |
| CoordinatorProperties.AtMostOnce | core/coordinator.py:69-103 | over any run of commands with fresh request ids, a request's plan is resumed at most once |
| CoordinatorProperties.HandleAllFirst | core/coordinator.py:53-58 | draining the queue handles the first command first, then the rest |
| CoordinatorProperties.ReplyNamesId | core/coordinator.py:70-71 | "APPROVE", in any case, then one space and a space-free id, is an APPROVE command naming exactly that id |
| CoordinatorProperties.CalculatorAllowed | core/policy.py:30-34 | an ADMIN plan to open the calculator and type 5 is ALLOWed |
| CoordinatorProperties.CalculatorTrail | core/coordinator.py:107-140 | when both calculator steps succeed, the loop audits them in order as SUCCESS and sends no notice |
| CoordinatorProperties.AdminCalculatorRun | core/coordinator.py:60-145 | an ADMIN's two-step calculator plan runs at once; both steps are audited in order as SUCCESS; then "Job Complete." |
| CoordinatorProperties.EmployeeCmdDenied | core/coordinator.py:83-88 | an EMPLOYEE's plan to open cmd is denied; nothing runs |
| CoordinatorProperties.AdminDeleteParked | core/coordinator.py:90-94 | an ADMIN's DELETE plan is parked as PENDING, the prompt is sent, and nothing is audited |
| CoordinatorProperties.ReplyResumesOnce | core/coordinator.py:69-103 | the prompted reply runs the parked plan for the original command after the resume notice; the same reply again does nothing |

## Left out

- Threads, `start`, `stop` and the polling `_loop` are concurrency. The queue is a finite sequence drained in order (`ProcessQueue`).
- Language-model and network calls are inputs:
  - the planner's plan, reached through `create_plan` in the coordinator;
  - the intent reply;
  - the knowledge agent's answer.
- The planner's fixed system prompt text is a parameter of `CreatePlan`. The model is a function of both the intent and the system prompt.
- JSON decoding is a function parameter. It yields the decoded value or a failure.
- Screen capture and element location feed only the executor's context.
  `env` supplies the executor's result directly, so the vision agent is not modelled.
- The verifier agent is a mock and is not modelled.
- Skill effects and the action agent are external. The skill's execution is a function parameter of `ExecuteStep`.
- The `data` payload of results is not modelled; only success and message are.
- `print`, logging and the notification callback's delivery are not modelled. A notification is the recipient and the text.
- Coordination.Coordinator.ExecutePlan: every audit write the coordinator makes is taken to succeed. Write failures are modelled in `AuditLogger.LogEvent`.
- Coordination.Coordinator.ExecutePlan, Coordination.Coordinator.HandleCommand and Coordination.Coordinator.ProcessQueue: every collaborator call is taken to return. In the source an exception escapes `_handle_command` from these calls, and `_loop` (core/coordinator.py:53-58) has no `try`, so the worker thread ends: "Job Complete." is not sent and later queued commands are not handled. The calls are:
  - the knowledge agent's `answer_question` (core/coordinator.py:119);
  - the language-model call in `create_plan`, which comes before the planner's `try` (agents/planner.py:61-65);
  - the notification callback (core/coordinator.py:148-149).
  `CoordinatorProperties.ExecuteAlwaysCompletes`, `Coordination.HandleAll` and the lemmas about draining the queue hold only under this assumption.
- Audit entries are values in a sequence. Their JSON serialisation and file format are not modelled.
- The clock reading is an input.
- Upper- and lower-casing are ASCII-only. Python's full Unicode case mapping is not modelled.
- Request ids are inputs. The uuid generator is replaced by a freshness assumption in `AtMostOnce`, because a colliding id would overwrite a stored request.
- Planner.ItemToStep: decoded values are assumed to follow pydantic v2's default validation, which accepts only strings for a `str` field. A non-string in a string field becomes a validation failure, not a coerced value.
- Planner.HistoryLines: history items are maps from strings to strings. Non-string values formatted by Python's f-string are not modelled.
- The singleton `get_instance` accessors are not modelled: a single instance is passed explicitly.
- core/brain.py, core/privacy.py, core/memory.py, core/rag.py, the gateways and the adapters are not part of this model.
