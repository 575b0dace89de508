# Verification of the approval-gated worker runtime

A Dafny model of the protocols that let several workers and HTTP retries share one database while
they perform side effects that must not happen twice, with proofs about every run of them.

Each protocol is modelled twice where the source changes state in place: as a class or a method that
works the way the source does, proved equal to a specification function, and as a step system in
which every database call is one atomic event and anything may happen between two of them: other
workers, crashes, lost replies, the clock. The main results are statements about every run of the
step system, every input, or every error stream.

| file | what it holds |
|---|---|
| `Sanitizer.dfy` | credential stripping over JSON trees, four filters and how they relate |
| `ApprovalGateway.dfy` | the approval row: compare-and-set and in-memory gateways |
| `PublishLedger.dfy`, `PublishWorker.dfy` | the publish ledger and the connector's method, imperative and in atomic steps |
| `PublishProtocol.dfy`, `PublishSafety.dfy`, `PublishTheorems.dfy`, `PublishAnswers.dfy`, `PublishProgress.dfy` | approve, resume and publish by any number of workers; invariant; theorems; whose approval is published, and what each guard answers; progress |
| `StepClaims.dfy` | step claims with leases and fencing tokens |
| `PlanProtocol.dfy`, `PlanTheorems.dfy`, `PlanLeases.dfy`, `PlanApprovals.dfy`, `PlanAnswers.dfy` | any number of plan runners on one execution; invariant; theorems; what the lease protects; approvals among them; what each event does, and progress |
| `PlanValidator.dfy`, `PlanRunner.dfy` | plan validation, and the runner's loop as a refinement of the protocol |
| `MissionStates.dfy`, `MissionOrchestration.dfy`, `MissionAnswers.dfy` | the mission table, readiness, scores, selection and runs; what each leaves behind |
| `MissionRuns.dfy`, `MissionTheorems.dfy`, `MissionLeases.dfy`, `MissionBudget.dfy`, `MissionSteps.dfy` | concurrent runs; dependencies; leases; the attempt budget; what each call writes, whatever it meets |
| `OAuthCheckpoint.dfy`, `OAuthAnswers.dfy` | the OAuth callback checkpoint and concurrent callbacks; what an exchange has passed, and what callbacks answer |
| `RetryCategories.dfy`, `RetryRecursion.dfy` | failure categories and the engine's mutual recursion |
| `Wrappers.dfy` | Option, Result, and broken connections |

## Premises

- Publishing: the provider answers 200 with an id only for a Pin it made, and 4xx only when it will
  never make one; it may also make a Pin and never answer. That a lost answer must not lead to a
  blind repetition is section 9.2.2 of RFC 9110.
- Plans: every run of a mission is given the same plan, with distinct step names. The attempt index
  is read, and used in a claim later, as two events. A claim is one atomic event, as in the branch
  under the memory lock, and an update is the token-guarded one of the database branch; the
  in-memory update does not look at the token.
- Missions: a transition is two events, the read of the status and the unguarded write; only a run makes a
  mission active; anybody may make any other transition of the edge table at any time. The repository has
  writers outside this premise. The mission engine's `update_status`, `complete_mission` and `fail_mission`
  (`backend/app/services/mission_engine.py:150-175` and after) write the same table's status without the edge
  table and without looking at dependencies; they are called at `backend/app/routers/missions.py:239-265`,
  `backend/app/services/worker_runtime.py:77` and `backend/app/services/employee_engine.py:1120`. The
  marketing service moves its lead missions to active along the edge table but not by a run
  (`backend/app/services/hape_marketing_os.py:303`).
- OAuth: authorization codes are single use (section 4.1.2 of RFC 6749) and the state parameter binds
  the callback (section 10.12 of RFC 6749).
- Identifiers generated as random UUIDs are fresh. Composite string keys are tuples. Time is a
  monotone integer clock.

## Where the code does less than it says

The model follows the code in each of these.

- The connector answers `duplicate_record` where the resume service looks for `duplicate`; a first
  uncertain publish therefore ends as `resume_failed`, and the mission is not moved to waiting_human.
- A pending approval past its deadline can still be approved (`ApprovalGateway.ApprovalIgnoresTheClock`).
- A runner that stalls past its lease runs its tool all the same
  (`PlanTheorems.StaleRunnerMayRepeatACompletedStep`).
- A resume forgets a dynamically appended onboarding step (`PlanTheorems.ResumeForgetsTheAppendedStep`),
  and the approval resume claims outside the attempt discipline
  (`StepClaims.GrantKeepsDisciplineExactlyOnTheNextAttempt`).
- An ended execution is set running again through its constant idempotency key
  (`PlanRunner.EmployeeVerticalSlice.Run`).
- `waiting_dependency` is accepted by the guard of a run but cannot become active, an exhausted
  mission fails only from retrying, and a refused reschedule still overwrites the times
  (`MissionOrchestration`).
- A mission's status is written without a guard on the status that was read, so a cancelled mission can be
  started (`MissionTheorems.CancelledMissionIsStarted`; exactly when such states are final is
  `MissionTheorems.FinalStaysExactlyWhen`); a start may come before a time written since the guard
  (`MissionTheorems.StartsEarlyExactlyWhen`).
- The result of the attempt count's write is dropped, and the count written is one read earlier: attempts
  are lost and the budget exceeded (`MissionBudget.NoAttemptIsLostExactlyWhen`,
  `MissionBudget.LostCountExceedsTheBudget`, `MissionBudget.InterleavedRunsExceedTheBudget`).
- The general completion and failure of a checkpoint write back metadata read earlier, and may erase the
  consumed flag (`OAuthCheckpoint.ConsumedFlagIsErased`).
- The comment at the reconciliation after a failed exchange says the checkpoint is reopened; it is not
  (`OAuthCheckpoint.NeverReopened`). A denied authorization usually changes nothing. A winner whose owner
  cannot be resolved, or whose claim's reply is lost, leaves the checkpoint processing without an exchange
  (`OAuthAnswers.FailedCheckAnswers`, `OAuthAnswers.LoneLostClaim`).
- `NON_RETRYABLE_CATEGORIES` is not imported where the engine uses it; the model takes the set of the
  retry classifier. The engine consults the category the step carries, not the one of the failure,
  and the execution's retry count does not accumulate: it is written back from the value first read.

## Model

| member | source | states |
|---|---|---|
| `PublishTheorems.AtMostOnePinPerApproval` | backend/app/services/connectors/pinterest_connector.py:911-1068 | at any point of any run of any number of workers, two create requests for one approval that both made a Pin are the same request |
| `PublishTheorems.LedgerConservation` | backend/app/services/connectors/pinterest_connector.py:938-957 | for each key: reservations number the failed settlements, plus one while the row is not failed; create requests never exceed reservations, so they are at most one plus the failed settlements |
| `PublishTheorems.SettledForever` | backend/app/services/connectors/pinterest_connector.py:1089-1113 | a published or uncertain ledger row is the same row in every later state |
| `PublishTheorems.DecidedForever` | backend/app/services/approval_gateway.py:306-366 | a decided approval, with actor, time and reason, is the same in every later state |
| `PublishTheorems.SentOnlyWhenApproved` | backend/app/services/approval_resume_service.py:156-190 | every create request belongs to an approval that is approved, was inside its deadline when `resume` checked it, and stays approved in every later state |
| `PublishTheorems.RefusedApprovalIsNeverPublished` | backend/app/services/approval_resume_service.py:165-190 | an approval that is rejected or expired at any point of a run has no create request at any point of it, earlier or later |
| `PublishTheorems.SuccessNamesTheRecordedPin` | backend/app/services/connectors/pinterest_connector.py:1056-1105 | a worker told of a publish is told the pin of a published row, which the provider made for that approval |
| `PublishTheorems.ReportsAgree` | backend/app/services/connectors/pinterest_connector.py:1096-1104 | no two workers ever report different pins for one approval |
| `PublishTheorems.CompletedMissionHasItsPin` | backend/app/routers/approvals.py:94-134 | a mission the approve route moved to completed has a published row with a pin made for the approval it acted for, and the approval names that mission |
| `PublishTheorems.AbandonedKeyIsQuarantined` | backend/app/services/connectors/pinterest_connector.py:1106-1113 | a reservation whose worker is gone stays publishing for ever and nobody sends another create request for it |
| `PublishProgress.AnApprovedPinIsPublished` | backend/app/routers/approvals.py:175-207 | progress, from every state: the owner's approval of a pending request inside its deadline, whose key was never reserved, may run through; the approval then is in the owner's name, one request has been sent, by the owner, its Pin stands in the ledger and is reported, and the waiting mission is completed |
| `PublishAnswers.LedgerIsTheOwners` | backend/app/services/approval_resume_service.py:141-154 | in every state of every run the ledger row of an approval that has an owner is that owner's |
| `PublishAnswers.OnlyTheOwnerSends` | backend/app/services/approval_resume_service.py:141-154 | in every state of every run every create request for an approval that has an owner was sent by that owner |
| `PublishAnswers.StrangersAreTurnedAway` | backend/app/services/approval_resume_service.py:141-154 | in every run a worker that is answered anything but "not found" or the route's refusal is answered "unauthorized" exactly when somebody else owns the approval |
| `PublishAnswers.OnlyTheOwnerApproves` | backend/app/routers/approvals.py:175-207 | in every run whoever gets past the approving of the approve route owns the approval |
| `PublishAnswers.ApprovalGuardAnswers` | backend/app/services/approval_resume_service.py:131-190 | what `resume` answers from the approval row, outcome by outcome, and on exactly which rows it goes on |
| `PublishAnswers.LedgerGuardAnswers` | backend/app/services/approval_resume_service.py:779-890 | what `resume` answers from the ledger row, status by status, and on exactly which rows it goes on |
| `PublishAnswers.RouteApproves` | backend/app/routers/approvals.py:175-207 | the approve route writes the approval exactly when it is the user's own and pending, and stops exactly when it is neither pending nor approved or not the user's |
| `PublishAnswers.CheckAnswers` | backend/app/services/connectors/pinterest_connector.py:793-910 | a defective call ends with its defect and touches nothing; any other goes on to its claim |
| `PublishAnswers.ResultIsReported` | backend/app/services/approval_resume_service.py:583-740 | the outcome reported for each result of the connector |
| `PublishAnswers.MissionIsRead` | backend/app/routers/approvals.py:94-134 | what the approve route makes of the mission for each outcome, read from the mission's status |
| `PublishAnswers.MissionIsWritten` | backend/app/routers/approvals.py:94-134 | the mission's new status, written without another look at the row |
| `PublishSafety.RunKeeps` | backend/app/services/connectors/pinterest_connector.py:911-1070 | the inductive invariant behind these theorems holds in every state of every run |
| `PublishWorker.PinterestConnector.PublishContent` | backend/app/services/connectors/pinterest_connector.py:793-1070 | a defective call touches nothing and sends nothing; any other call, undisturbed, ends with the row, the result and the number of requests that the six atomic steps of the protocol end with |
| `PublishWorker.PinterestConnector.Reserve` | backend/app/services/connectors/pinterest_connector.py:911-957 | takes the operation key from nothing or over a failed row, as the protocol's claim and reclaim do, or answers what its holder has come to |
| `PublishWorker.PinterestConnector.SendAndSettle` | backend/app/services/connectors/pinterest_connector.py:959-1070 | with the reservation held: the settlement matches the provider's answer branch by branch |
| `PublishWorker.UndisturbedPromises` | backend/app/services/connectors/pinterest_connector.py:919-1070 | one undisturbed call sends at most one request, and only for a new key or one that failed; success names the pin in a published row; published, uncertain and publishing rows are left alone |
| `PublishWorker.DefectIsTheFirst` | backend/app/services/connectors/pinterest_connector.py:793-910 | which defect a call is refused for: the first in the order of the checks |
| `PublishWorker.RefusedCallAnswers` | backend/app/services/connectors/pinterest_connector.py:911-957 | what a call that does not take the key answers, from the status of the row it found |
| `PublishWorker.HoldingCallAnswers` | backend/app/services/connectors/pinterest_connector.py:959-1070 | the row and the answer a call that took the key leaves: failed with nothing sent for an unusable board or token, and by the provider's answer otherwise |
| `PublishLedger.PinPublishStore.Claim` | backend/app/services/stores/pin_publish_store.py:226-234 | insert-if-absent on the unique operation key, then a read restricted to the owner; a lost reply confirms nothing |
| `PublishLedger.PinPublishStore.Transition` | backend/app/services/stores/pin_publish_store.py:235-275 | compare-and-set on owner, key and status; the updated row or nothing |
| `PublishLedger.PinPublishStore.GetByOperationKey` | backend/app/services/stores/pin_publish_store.py:182-224 | the row under the key if the owner owns it |
| `ApprovalGateway.GatewaysAgree` | backend/app/services/approval_gateway.py:835-959 | for every sequence of create, approve, reject and expiry checks the in-memory gateway and the compare-and-set gateway return the same replies and hold the same rows |
| `ApprovalGateway.RecordIsFirstDecision` | backend/app/services/approval_gateway.py:835-904 | after every such sequence the row shows exactly the first decision of the sequence, computed independently by scanning it |
| `ApprovalGateway.DecisionIsFinal` | backend/app/services/approval_gateway.py:306-366 | once decided, no continuation changes the decision, its actor or its time |
| `ApprovalGateway.RecordKeepsItsCreation` | backend/app/services/approval_gateway.py:460-530 | after every sequence of calls a row has the owner, the mission and the deadline of the call that created it, found by scanning the calls |
| `ApprovalGateway.AnswerFollowsFirstDecision` | backend/app/services/approval_gateway.py:599-680 | what approving and rejecting answer after every sequence of calls, from the first decision of the sequence |
| `ApprovalGateway.ApprovalIgnoresTheClock` | backend/app/services/approval_gateway.py:599-638 | approving succeeds exactly on a pending or already approved request: the deadline is not consulted, so a pending request past it is approved |
| `ApprovalGateway.Gateway.CreateRequest` | backend/app/services/approval_gateway.py:460-530 | the created row, pending with its deadline, in the store that is configured |
| `ApprovalGateway.Gateway.CompareAndSet` | backend/app/services/approval_gateway.py:306-366 | UPDATE guarded by the expected status: the new table and whether a row was hit |
| `ApprovalGateway.Gateway.Transition` | backend/app/services/approval_gateway.py:835-904 | the transition with its idempotent repeat, its loser's reread and its refusals |
| `ApprovalGateway.Gateway.ApproveRequest` | backend/app/services/approval_gateway.py:599-638 | database or memory, the same step of the specification |
| `ApprovalGateway.Gateway.RejectRequest` | backend/app/services/approval_gateway.py:640-680 | database or memory, the same step of the specification |
| `ApprovalGateway.Gateway.CheckIsExpired` | backend/app/services/approval_gateway.py:688-735 | the expiry check, which also marks a pending request past its deadline |
| `StepClaims.MissionExecutionService.ClaimStep` | backend/app/services/mission_execution_service.py:663-707 | idempotency key first, then the latest attempt of the operation: refused while completed or leased, failed and stripped of its token when stale, and then the new attempt |
| `StepClaims.MissionExecutionService.UpdateStep` | backend/app/services/mission_execution_service.py:520-545 | an update guarded by row, execution and claim token; a row whose token is gone is not touched |
| `StepClaims.MissionExecutionService.NextAttemptIndex` | backend/app/services/employee_vertical_slice.py:689-695 | one more than the largest attempt recorded under the step's name |
| `StepClaims.MissionExecutionService.LoadCompleted` | backend/app/services/employee_vertical_slice.py:350-356 | the names recorded completed |
| `StepClaims.DisciplineMeans` | backend/app/services/mission_execution_service.py:663-707 | in a disciplined table the attempts of an operation are 0, 1, ... without gaps or repeats, at most one is completed and at most one in progress |
| `StepClaims.ClaimKeepsDiscipline` | backend/app/services/mission_execution_service.py:663-707 | a claim whose attempt follows a recorded one keeps the discipline, however stale the read that chose it |
| `StepClaims.ClaimedAttemptIsNew` | backend/app/services/mission_execution_service.py:663-681 | a granted attempt is larger than every recorded one of its operation |
| `StepClaims.ClaimGrantedExactlyWhen` | backend/app/services/mission_execution_service.py:663-707 | a claim is granted if and only if no row of the owner holds its key and the operation's last attempt, the first of those with the largest index, is neither completed nor in progress under a lease |
| `StepClaims.FailedAttemptIsRetried` | backend/app/services/mission_execution_service.py:663-707 | after a failed last attempt a claim under a new key is always granted |
| `StepClaims.GrantedRowIs` | backend/app/services/mission_execution_service.py:684-707 | the granted row, field by field, with its token and the end of its lease |
| `StepClaims.RefusalNames` | backend/app/services/mission_execution_service.py:664-675 | a refused claim is answered with the first row of its key, or else with the last attempt |
| `StepClaims.UpdateReaches` | backend/app/services/mission_execution_service.py:520-545 | an update hits exactly when a row of that id and execution holds the token, and changes at most one, in nothing but its status and name |
| `StepClaims.GrantKeepsDisciplineExactlyOnTheNextAttempt` | backend/app/services/employee_vertical_slice.py:628-639 | a granted claim keeps the discipline if and only if its attempt is the number already recorded: the fixed attempt 0 of the approval resume keeps it exactly when nothing was recorded |
| `StepClaims.NothingClaimableAfterCompletion` | backend/app/services/mission_execution_service.py:670-672 | after a completed attempt no claim of the operation is granted, whatever attempt it asks for and whenever |
| `StepClaims.SettlementKeepsDiscipline` | backend/app/services/mission_execution_service.py:526-536 | settling the attempt in progress keeps the discipline |
| `StepClaims.GrantAppends` | backend/app/services/mission_execution_service.py:673-707 | a granted claim adds one row and fails at most one, in progress and past its lease |
| `StepClaims.StaleClaimRecoveredExactlyWhenRenamed` | supabase/migrations/000000000014_fix_claim_mission_step_lookup.sql:95-107 | the database names a claimed row "claimed_step" until its claimant renames it, and attempts are counted by name: whatever attempts came before, a stale claim is recovered by the next runner exactly when it had been renamed, and otherwise the same claim is asked for again and nothing changes |
| `PlanTheorems.CompletedStepsFormAPrefix` | backend/app/services/employee_vertical_slice.py:350-389 | over any crashes, takeovers and resumes by any number of runners, the completed steps are exactly the first n of the plan |
| `PlanTheorems.OnlyPlannedStepsRun` | backend/app/services/employee_vertical_slice.py:424-430 | no row is ever recorded for a step outside the plan and its onboarding step |
| `PlanTheorems.AttemptsAreDisciplined` | backend/app/services/mission_execution_service.py:663-707 | in every run every attempt's index, the first one's included, is the number of attempts of the step granted before it, and every earlier attempt of the step has failed |
| `PlanTheorems.CompletionIsFinal` | backend/app/services/mission_execution_service.py:670-672 | a completed attempt never changes in any continuation, and its step is never claimed again |
| `PlanTheorems.RecoveredStaysFailed` | backend/app/services/mission_execution_service.py:677-683 | a claim recovered as stale stays failed, without a token, in every continuation |
| `PlanTheorems.LateSettlementChangesNothing` | backend/app/services/mission_execution_service.py:526-536 | the late settlement of a runner whose claim was taken over changes no row, whatever the new claimant did, and stops the runner |
| `PlanTheorems.ToolsRunOnlyUncompletedSteps` | backend/app/services/employee_vertical_slice.py:359-402 | a tool execution of a step already recorded completed was made on a claim taken over after its lease; a runner that still holds its claim never runs a completed step |
| `PlanTheorems.RepeatsExactlyWhenItsGuardWouldRefuse` | backend/app/services/mission_execution_service.py:663-672 | a runner about to execute a tool repeats a completed step if and only if the claim it passed before, asked again now, would be refused as completed; its own row has then lost token and lease |
| `PlanLeases.LeasedClaimIsNotRepeated` | backend/app/services/mission_execution_service.py:673-683 | while no time passes, no continuation by other runners makes a runner with an unexpired claim repeat a completed step |
| `PlanLeases.RepeatableExactlyWhenTheLeaseIsOver` | backend/app/services/mission_execution_service.py:673-683 | at a step of the plan, a runner that still holds its row can be made to repeat a completed step, with no time passing, if and only if its lease has run out |
| `PlanTheorems.StaleRunnerMayRepeatACompletedStep` | backend/app/services/employee_vertical_slice.py:390-402 | the lease fences the rows and not the tool: a run exists in which a stalled runner executes the tool of a completed step |
| `PlanTheorems.EachAttemptRunsItsToolOnce` | backend/app/services/employee_vertical_slice.py:369-402 | each granted attempt executes its tool at most once |
| `PlanTheorems.ResumeForgetsTheAppendedStep` | backend/app/services/employee_vertical_slice.py:573-601 | a resumed run never takes up an appended onboarding step, and marks the execution completed exactly when every step of the original plan is |
| `PlanApprovals.ApprovedStepsFormAPrefix` | backend/app/services/employee_vertical_slice.py:603-660 | with any number of approvals claiming and settling the onboarding step at attempt 0 among the runners, the completed steps still are exactly the first n of the plan |
| `PlanApprovals.ToolsRunInOrder` | backend/app/services/employee_vertical_slice.py:350-389 | among such approvals too, a tool is executed only when every earlier step of the plan is completed |
| `PlanApprovals.ApprovedRunKeeps` | backend/app/services/employee_vertical_slice.py:628-660 | the order of the plan, which does not depend on the attempt discipline, is kept by every run with approvals |
| `PlanApprovals.ApprovalClaims` | backend/app/services/employee_vertical_slice.py:628-639 | an approval's claim of onboarding, field by field: asked for only after the onboarding tool has run, granted exactly when its key is new and the last attempt neither completed nor leased |
| `PlanApprovals.ApprovalSettles` | backend/app/services/employee_vertical_slice.py:645-656 | an approval settles its row exactly while it still holds it |
| `PlanProtocol.HeldStepIsNotDone` | backend/app/services/mission_execution_service.py:663-707 | a step with an attempt in progress is not completed |
| `PlanProtocol.RunKeeps` | backend/app/services/employee_vertical_slice.py:342-571 | the inductive invariant behind the plan theorems holds after every run |
| `PlanProtocol.RunGrows` | backend/app/services/mission_execution_service.py:493-553 | continuing a run only adds rows; a row that has left in-progress never changes again |
| `PlanAnswers.LeftAloneARunnerCompletes` | backend/app/services/employee_vertical_slice.py:342-571 | progress, after every run: when nobody is at work, a runner that starts or resumes and is left alone, its tools succeeding and no reply lost, stops with every step of the plan completed, having run exactly the open steps, each once, in the order of the plan |
| `PlanAnswers.StartAnswers` | backend/app/services/employee_vertical_slice.py:573-601 | a start takes up the whole plan, a resume exactly the positions not completed, in order |
| `PlanAnswers.LoadAnswers` | backend/app/services/employee_vertical_slice.py:350-356 | the steps a runner knows completed are those recorded so |
| `PlanAnswers.TestAnswers` | backend/app/services/employee_vertical_slice.py:358-366 | the loop test: stop past the end, pass over a step known completed, ask otherwise for the attempt after the largest recorded |
| `PlanAnswers.ClaimAnswers` | backend/app/services/employee_vertical_slice.py:366-388 | the claim that is asked for, field by field, and where each of its answers leads |
| `PlanAnswers.MarkAnswers` | backend/app/services/employee_vertical_slice.py:389-398 | only the holder of the claimed row goes on to the tool |
| `PlanAnswers.ToolAnswers` | backend/app/services/employee_vertical_slice.py:399-470 | what a tool execution logs, when onboarding joins the plan, and when the plan goes on |
| `PlanAnswers.SettlementAnswers` | backend/app/services/employee_vertical_slice.py:484-510 | the holder's result is recorded, and only then does a plan that goes on go on |
| `PlanRunner.EmployeeVerticalSlice.ExecutePlan` | backend/app/services/employee_vertical_slice.py:342-571 | the loop is a run of the protocol by this runner alone; it terminates although it appends to the plan; it executes at most one tool more than the plan has steps, each step's once and none already completed; not ended early means every step completed and the execution succeeded; ended early by a tool, the flags and category of the last tool's result say if and only if in which status the execution is left |
| `PlanRunner.EmployeeVerticalSlice.WorkThrough` | backend/app/services/employee_vertical_slice.py:358-571 | the while loop: onboarding is appended at most once, only steps of the plan and onboarding are executed, and the run stops early only at a step that was not completed |
| `PlanRunner.EmployeeVerticalSlice.TakeStep` | backend/app/services/employee_vertical_slice.py:358-571 | one turn of the loop: a step known completed is passed over, any other attempted, and the loop still stands |
| `PlanRunner.EmployeeVerticalSlice.AttemptStep` | backend/app/services/employee_vertical_slice.py:366-546 | claim, mark, tool, settle: the protocol's events, with the runner's plan and the log growing as it says |
| `PlanRunner.EmployeeVerticalSlice.RunTool` | backend/app/services/employee_vertical_slice.py:400-470 | the tool's result appends onboarding only when asked for, not completed and not planned, and the decision is made on the grown plan |
| `PlanRunner.EmployeeVerticalSlice.Conclude` | backend/app/services/employee_vertical_slice.py:511-566 | the execution row's status after each decision; a retry is granted only below the decision bound and otherwise fails |
| `PlanRunner.EmployeeVerticalSlice.Run` | backend/app/services/employee_vertical_slice.py:292-340 | an invalid plan changes nothing; a valid one runs at most 51 tools, each for a step of that plan that passed the validation or for onboarding; the call resumes exactly when the execution has not ended and otherwise restarts it under its constant key; it completes every step and the execution, or stops early with the status the last tool's result calls for; repeating a mission whose steps are all completed runs nothing and completes it again |
| `PlanRunner.EmployeeVerticalSlice.RemainingSteps` | backend/app/services/employee_vertical_slice.py:582-590 | the plan without its completed steps, in order |
| `PlanRunner.FollowsOnlySuccess` | backend/app/services/employee_vertical_slice.py:987-1044 | the runner moves on only from a success, to a step that exists |
| `PlanRunner.CompletesEarlyExactlyWhen` | backend/app/services/employee_vertical_slice.py:1020-1036 | completion is decided with steps left exactly when an unblocked success reports an unlisted status, or a connection before an onboarding step |
| `PlanRunner.DraftNeverCompletesAGatedMission` | backend/app/services/employee_vertical_slice.py:1012-1018 | the draft step of an approval-gated Pin neither completes the mission nor moves on |
| `PlanRunner.DecidesExactlyWhen` | backend/app/services/employee_vertical_slice.py:987-1044 | each of the six decisions, for every result, step, next step and goal, if and only if a condition on the result's flags and its category |
| `PlanValidator.Validate` | backend/app/services/plan_validator.py:23-63 | no error exactly on plans of 1 to 50 valid steps with discovery done; otherwise exactly the faults of the steps are reported, each under its own name |
| `PlanValidator.CheckStep` | backend/app/services/plan_validator.py:42-61 | no error exactly for a known, available tool with a conforming payload and approval not waived; otherwise exactly the step's faults |
| `PlanValidator.ValidateInputSchema` | backend/app/services/p1_7_contracts.py:30-61 | no error exactly when the payload conforms; the first failing check is reported with its field: the first missing one, the first unexpected one in the order of names, the first property of the wrong type |
| `PlanValidator.FitsExactlyItsTypes` | backend/app/services/p1_7_contracts.py:48-61 | the types each kind of value fits: a boolean is no number, null fits only the unconstrained type |
| `PlanValidator.ConformsExactlyWhen` | backend/app/services/p1_7_contracts.py:30-61 | which payloads conform to a schema, field by field |
| `PlanValidator.AtMostBranches` | backend/app/services/p1_7_contracts.py:43-47 | the order of names is the character order at the first difference |
| `PlanValidator.AcceptedStepIs` | backend/app/services/plan_validator.py:42-61 | which steps are valid; so a plan that waives approval of a destructive or externally writing tool is refused |
| `PlanValidator.AcceptedPlanIs` | backend/app/services/plan_validator.py:31-40 | a valid plan has 1 to 50 steps, all valid, and its discovery was done |
| `PlanValidator.ClassifiesAs` | backend/app/services/p1_7_contracts.py:170-176 | always approve exactly the destructive tools; no approval exactly for what neither writes outside nor destroys nor asks for it |
| `MissionOrchestration.MissionOrchestrationService.Transition` | backend/app/services/mission_orchestration.py:212-239 | the edge table, the self move, and the event of a real move |
| `MissionOrchestration.MissionOrchestrationService.ReadinessFor` | backend/app/services/mission_orchestration.py:276-293 | the first reason a mission is not ready, with exactly those of its dependencies that are not completed |
| `MissionOrchestration.MissionOrchestrationService.Resume` | backend/app/services/mission_orchestration.py:244-249 | back to scheduled while its time is ahead, to pending otherwise |
| `MissionOrchestration.MissionOrchestrationService.Schedule` | backend/app/services/mission_orchestration.py:251-268 | the new times are written first, then the move to scheduled is tried |
| `MissionOrchestration.MissionOrchestrationService.ClaimMission` | backend/app/services/mission_orchestration.py:440-469 | refused on a terminal mission or a running lease, granted with a token and a 60 second lease otherwise |
| `MissionOrchestration.MissionOrchestrationService.ReleaseMission` | backend/app/services/mission_orchestration.py:471-487 | clears the claim exactly when the token is the releaser's |
| `MissionOrchestration.MissionOrchestrationService.RunMission` | backend/app/services/mission_orchestration.py:341-386 | a whole run by itself: guard, claim, count, start, report, record, release |
| `MissionOrchestration.MissionOrchestrationService.SelectNext` | backend/app/services/mission_orchestration.py:318-330 | none exactly when none of the 100 newest is ready; otherwise a ready one that no ready one outranks by score and creation time, nor by two priority levels, the first listed of equals; exactly the blocked pending and retrying ones are set waiting |
| `MissionOrchestration.PriorityDecidesAtTwoLevels` | backend/app/services/mission_orchestration.py:295-308 | everything but the priority is worth at most 179 points, so two priority levels always decide |
| `MissionOrchestration.OnePriorityLevelLosesExactlyWhen` | backend/app/services/mission_orchestration.py:295-308 | one priority level loses exactly to a rest of the score greater by more than 100; only a more urgent mission reaches that, and with one urgency level between them only one three grades more important |
| `MissionOrchestration.OnePriorityLevelMayLose` | backend/app/services/mission_orchestration.py:300-308 | that happens: a mission one level up that scores less |
| `MissionOrchestration.ListingIsNewest` | backend/app/services/mission_orchestration.py:184-197 | no mission left out of the listing is newer than one in it |
| `MissionOrchestration.NewestFirstIs` | backend/app/services/mission_orchestration.py:196-197 | the listing order holds every mission, newest first |
| `MissionAnswers.MovesInto` | backend/app/services/mission_orchestration.py:28-40 | the edge table read backwards: the states from which each state is entered |
| `MissionAnswers.MoveLeaves` | backend/app/services/mission_orchestration.py:212-239 | when a transition is accepted, and the row and log it leaves |
| `MissionAnswers.ScheduleLeaves` | backend/app/services/mission_orchestration.py:251-268 | a rescheduling is accepted from exactly four states and writes its times on any mission |
| `MissionAnswers.ReadinessNames` | backend/app/services/mission_orchestration.py:276-293 | each reason of readiness, and being ready, if and only if a condition on status, times and dependencies |
| `MissionAnswers.BlockedExactlyWhen` | backend/app/services/mission_orchestration.py:318-323 | which missions a selection sets waiting |
| `MissionAnswers.ClaimLeaves` | backend/app/services/mission_orchestration.py:440-469 | when a claim is granted, and the row it leaves with its sixty seconds |
| `MissionAnswers.ReleaseLeaves` | backend/app/services/mission_orchestration.py:471-487 | a release by the holder clears the claim, any other changes nothing |
| `MissionAnswers.LevelsAreWorth` | backend/app/services/mission_orchestration.py:42-42 | each level of priority is worth a hundred points |
| `MissionAnswers.GradesAreWorth` | backend/app/services/mission_orchestration.py:300-306 | each level of urgency is worth thirty points and each grade of importance ten |
| `MissionAnswers.BonusesAreWorth` | backend/app/services/mission_orchestration.py:297-306 | the points of a retry, of a schedule that has come and of each hour of age up to a day, and the least score |
| `MissionAnswers.HigherPriorityIsSelected` | backend/app/services/mission_orchestration.py:318-330 | of two ready missions the selected one is never two levels of priority below, and not one when only the priority tells them apart |
| `MissionAnswers.SelectedIsBest` | backend/app/services/mission_orchestration.py:318-330 | no ready mission of the listing scores more than the selected one, nor as much while being younger |
| `MissionAnswers.RunLeaves` | backend/app/services/mission_orchestration.py:341-386 | a run that started leaves the mission in the state each report calls for, with one attempt more, no claim, after a retry the time of the next run, and its two moves at the end of the log; other missions are untouched |
| `MissionAnswers.RefusalNames` | backend/app/services/mission_orchestration.py:341-361 | why a run is refused, reason by reason, and that a refusal changes nothing unless the attempts are exhausted |
| `MissionOrchestration.RunsExactlyWhen` | backend/app/services/mission_orchestration.py:341-367 | the employee runs exactly when the mission is ready, within its budget, unclaimed, and not waiting for a dependency |
| `MissionOrchestration.RunSpendsTheBudget` | backend/app/services/mission_orchestration.py:354-362 | a run past its claim costs one attempt, never goes beyond the budget, and touches no other mission |
| `MissionOrchestration.ExhaustedFailsExactlyWhenRetrying` | backend/app/services/mission_orchestration.py:354-357 | a mission out of attempts is moved to failed exactly when it was retrying, and otherwise left as it is |
| `MissionOrchestration.WaitingDependencyBurnsAttempts` | backend/app/services/mission_orchestration.py:361-365 | waiting_dependency passes the guard but has no edge to active: the run costs an attempt and leaves its claim behind |
| `MissionOrchestration.RefusedScheduleOverwritesExactlyWhen` | backend/app/services/mission_orchestration.py:261-268 | rescheduling is refused and still overwrites times exactly on a state without an edge to scheduled whose times change |
| `MissionOrchestration.ScheduleCutsRetryDelayExactlyWhen` | backend/app/services/mission_orchestration.py:261-268 | a retrying mission inside its retry delay becomes ready by a refused reschedule exactly when the new time is due and its dependencies are completed; one that lists itself never does |
| `MissionTheorems.CompletionsAreTopologicallyOrdered` | backend/app/services/mission_orchestration.py:276-293 | in every run, however its transitions' reads and writes interleave, when a mission completed each of its dependencies had completed before |
| `MissionTheorems.StartsAreReady` | backend/app/services/mission_orchestration.py:341-367 | every start is traced to the guard of the same run: the times of the row the guard read were due, and by the time of the start every dependency had been completed |
| `MissionTheorems.StartsEarlyExactlyWhen` | backend/app/services/mission_orchestration.py:251-268 | a start comes before its row's own schedule or retry time if and only if the one last written between the guard's read and the start, by a reschedule or by a retry report, lies after the start |
| `MissionTheorems.StartBeforeItsSchedule` | backend/app/services/mission_orchestration.py:251-268 | that happens: a mission rescheduled between the read and the write of its start is started before its time |
| `MissionTheorems.FinalStaysExactlyWhen` | backend/app/services/mission_orchestration.py:212-239 | a completed or cancelled mission stays so over a continuation if and only if every status write that lands on it had read that status, or writes it again: the UPDATE does not look at the row |
| `MissionTheorems.CancelledMissionIsStarted` | backend/app/services/mission_orchestration.py:217-229 | that happens: a mission cancelled between the read and the write of its start is started and active |
| `MissionTheorems.NothingStuckIsStarted` | backend/app/services/mission_orchestration.py:287-292 | no mission is started that depends on a member of a set each of which is missing, was cancelled and never completed, or depends on another member |
| `MissionTheorems.StuckIsNeverCompleted` | backend/app/services/mission_orchestration.py:287-292 | no member of such a set is ever completed |
| `MissionTheorems.NothingOnACycleIsStarted` | backend/app/services/mission_orchestration.py:287-292 | no mission on a dependency cycle is ever started |
| `MissionRuns.WholeRunIsRunMission` | backend/app/services/mission_orchestration.py:341-386 | the database calls of the concurrent model, made one after the other and answered, are the run the service performs |
| `MissionRuns.RunKeeps` | backend/app/services/mission_orchestration.py:212-239 | the dependency invariant holds after every run |
| `MissionSteps.GuardReads` | backend/app/services/mission_orchestration.py:341-357 | the guard's read of the row: when it goes on, and where |
| `MissionSteps.DependencyAnswers` | backend/app/services/mission_orchestration.py:286-293 | its look at the next dependency: on exactly when that is completed |
| `MissionSteps.ClaimAnswers` | backend/app/services/mission_orchestration.py:440-469 | the claim with a lost request or reply, or on a row claimed since: what is written, and whether the run goes on |
| `MissionSteps.CountAnswers` | backend/app/services/mission_orchestration.py:362-362 | the attempt count is written from what the guard read, and the run goes on whether or not it was written |
| `MissionSteps.StartReads` | backend/app/services/mission_orchestration.py:215-221 | the start goes on only from a status that may become active |
| `MissionSteps.StartWrites` | backend/app/services/mission_orchestration.py:222-239 | the start's write, whatever the row is by now, its log entry, and when the employee runs |
| `MissionSteps.ReportLeads` | backend/app/services/mission_orchestration.py:371-384 | where each report of the employee leads |
| `MissionSteps.DelayAnswers` | backend/app/services/mission_orchestration.py:378-381 | the retry time, the mission's own delay within 1 and 3600 seconds |
| `MissionSteps.ReportReads` | backend/app/services/mission_orchestration.py:215-221 | the report's move goes on only along an edge, and the claim is released otherwise too |
| `MissionSteps.ReportWrites` | backend/app/services/mission_orchestration.py:222-239 | the report's write, whatever the row is by now, and its log entry |
| `MissionSteps.ReleaseAnswers` | backend/app/services/mission_orchestration.py:471-487 | the release clears the claim exactly on the run's own token |
| `MissionSteps.OthersRead` | backend/app/services/mission_orchestration.py:212-221 | whose transitions, from which states to which, may be under way |
| `MissionSteps.OthersWrite` | backend/app/services/mission_orchestration.py:222-239 | their write, without another look at the row |
| `MissionSteps.Creates` | backend/app/services/mission_orchestration.py:127-158 | a new mission is untried and unclaimed, scheduled exactly when it has a time |
| `MissionLeases.AtMostOneHolder` | backend/app/services/mission_orchestration.py:440-469 | at any time at most one worker holds an unexpired lease on a mission |
| `MissionLeases.LateReleaseClearsNothing` | backend/app/services/mission_orchestration.py:471-487 | a release by a worker whose lease was taken over leaves the holder's claim in place |
| `MissionBudget.NoAttemptIsLostExactlyWhen` | backend/app/services/mission_orchestration.py:358-362 | in every run, however interleaved and whatever it loses, the recorded attempts number the count writes tried for the mission if and only if each was made and found the count its run had read; they number those made if and only if each of those found it |
| `MissionBudget.StartsAreCounted` | backend/app/services/mission_orchestration.py:354-367 | in every run the count stays within the budget and the employee is started at most once for each count write tried; so at most as often as the budget allows if no attempt was lost |
| `MissionBudget.BudgetIsNeverExceeded` | backend/app/services/mission_orchestration.py:341-386 | with the runs of this mission taken one at a time, those of all others interleaving freely, the count is the number of writes made and stays within the budget, and the employee is started at most that often plus the writes lost: within the budget when none was |
| `MissionBudget.InterleavedRunsExceedTheBudget` | backend/app/services/mission_orchestration.py:358-362 | interleaved runs write a count read earlier: a run without a lost write exists that starts the employee more often than the budget allows |
| `MissionBudget.LostCountExceedsTheBudget` | backend/app/services/mission_orchestration.py:489-497 | a failed count write is not looked at: a run that takes the mission's runs one at a time exists that starts the employee more often than the budget allows |
| `MissionBudget.RunKeepsCounts` | backend/app/services/mission_orchestration.py:341-386 | the invariant that ties the count, its writes and the starts holds after every run |
| `OAuthCheckpoint.HumanInterventionManager.ClaimOauthCallback` | backend/app/services/human_intervention.py:334-421 | only an awaiting checkpoint is claimed, and becomes processing; every other state is answered and left |
| `OAuthCheckpoint.HumanInterventionManager.CompleteOauthCallback` | backend/app/services/human_intervention.py:423-489 | processing becomes completed and consumed; nothing else changes |
| `OAuthCheckpoint.HumanInterventionManager.FailOauthCallback` | backend/app/services/human_intervention.py:491-555 | processing becomes failed; nothing else changes |
| `OAuthCheckpoint.HumanInterventionManager.ReconcileOauthCallback` | backend/app/services/human_intervention.py:557-585 | reports whether the checkpoint is processing and changes nothing |
| `OAuthCheckpoint.HumanInterventionManager.CompleteCheckpoint` | backend/app/services/human_intervention.py:637-695 | the general completion, whatever the status |
| `OAuthCheckpoint.HumanInterventionManager.FailCheckpoint` | backend/app/services/human_intervention.py:697-754 | the general failure, whatever the status |
| `OAuthCheckpoint.AtMostOneExchange` | backend/app/routers/connectors.py:743-871 | across concurrent and repeated callbacks, crashes and lost replies, at most one callback claims a checkpoint, at most one token exchange is made, by that one, and at most one connection is stored |
| `OAuthCheckpoint.NeverReopened` | backend/app/services/human_intervention.py:557-585 | once claimed a checkpoint is never open again in any continuation |
| `OAuthCheckpoint.ConsumedExactlyWhenCompleted` | backend/app/services/human_intervention.py:388-553 | under the OAuth operations a consumed state is exactly a completed one, and a callback that answered connected answered the truth |
| `OAuthCheckpoint.GeneralOperationsKeepConsumptionExactlyWhen` | backend/app/services/human_intervention.py:637-754 | in every run the last general operation decides the checkpoint, with the consumed flag it had read before its write and whatever happened in between; it leaves consumed and completed in step if and only if it completes what it had read consumed or fails what it had read unconsumed |
| `OAuthCheckpoint.ConsumedFlagIsErased` | backend/app/services/human_intervention.py:651-675 | a general completion that had read before the callback completed erases the flag: completed, connection stored, not consumed |
| `OAuthCheckpoint.OpenIsUnconsumed` | backend/app/services/human_intervention.py:443-480 | a checkpoint that is awaiting or processing is not consumed, so the guarded OAuth operations write no stale flag back |
| `OAuthCheckpoint.CompletedExactlyWhenStored` | database/migrations/sprint7_2f_complete_oauth_callback.sql:213-264 | when only callbacks complete it, a checkpoint is completed exactly when its connection is stored |
| `OAuthCheckpoint.DenialFailsExactlyWhenProcessing` | backend/app/routers/connectors.py:720-735 | in every run, whatever interleaves with it, a denied callback that arrives with a valid state marks the checkpoint failed exactly when another callback is processing it by then |
| `OAuthCheckpoint.DenialsAloneLeaveItOpen` | backend/app/routers/connectors.py:720-735 | a checkpoint that meets nothing but denials, however many, is unchanged |
| `OAuthCheckpoint.UnreachableProviderStrandsTheCheckpoint` | backend/app/routers/connectors.py:868-871 | after a network failure of the exchange, with no denial under way, the checkpoint stays processing in every continuation of undenied callbacks and crashes: none claims it and no further token is exchanged |
| `OAuthCheckpoint.StrandedStays` | backend/app/routers/connectors.py:743-760 | a processing checkpoint that no callback can complete or fail is the same in every such continuation |
| `OAuthAnswers.ExchangesWereEntitled` | backend/app/routers/connectors.py:814-851 | over every run each exchange was preceded by an action of the same callback, taken when it had won, that found its owner resolved, its state valid and the connector configured |
| `OAuthAnswers.ConnectionsWereObtained` | backend/app/routers/connectors.py:853-940 | over every run a stored connection was preceded by the one exchange, answered with a token for a workflow, and by a completion of that callback that the store took |
| `OAuthAnswers.FailedCheckBarsTheExchange` | backend/app/routers/connectors.py:814-846 | over every run, after a winner whose owner is unresolved, state invalid or connector not configured, no token is ever exchanged and no connection stored |
| `OAuthAnswers.FailedCheckAnswers` | backend/app/routers/connectors.py:814-846 | such a winner fails a checkpoint that is still processing, unless its owner was unresolved, and answers 400 or 503 |
| `OAuthAnswers.LateCallbackAnswers` | backend/app/routers/connectors.py:743-812 | a callback that finds the checkpoint claimed answers from its status and changes nothing |
| `OAuthAnswers.ClaimAnswers` | backend/app/services/human_intervention.py:373-425 | of the callbacks that read the open checkpoint the first to claim it wins; the others change nothing |
| `OAuthAnswers.ExchangeAnswers` | backend/app/routers/connectors.py:853-905 | the exchange is made once; only a token for a workflow goes on to the completion |
| `OAuthAnswers.CompletionAnswers` | backend/app/routers/connectors.py:907-940 | the connection is stored exactly when the checkpoint is still processing and the store takes it; what is answered then |
| `OAuthAnswers.InvalidDenialChangesNothing` | backend/app/routers/connectors.py:720-735 | a denial whose state is invalid is answered 400 and changes nothing |
| `OAuthAnswers.CrashAnswers` | backend/app/routers/connectors.py:710-945 | a crashed callback never acts again |
| `OAuthAnswers.ManagerAnswers` | backend/app/services/human_intervention.py:443-500 | the manager's own completion and failure write only onto a processing checkpoint |
| `OAuthAnswers.GeneralAnswers` | backend/app/services/human_intervention.py:637-754 | a general operation writes whatever the status, with the consumed flag it had read |
| `OAuthAnswers.LoneFailedCheck` | backend/app/routers/connectors.py:710-846 | a lone callback on a fresh checkpoint, from arrival to answer, when a check fails: the owner, the state, the configuration, in this order |
| `OAuthAnswers.LoneFailedExchange` | backend/app/routers/connectors.py:710-905 | the same when the exchange brings no token for a workflow |
| `OAuthAnswers.LoneCompletion` | backend/app/routers/connectors.py:710-945 | the same when all goes well up to the completion: connected exactly when the store takes it and the reply arrives |
| `RetryRecursion.EmployeeEngine.ExecuteStep` | backend/app/services/employee_engine.py:450-533 | the mutual recursion terminates on every error stream; the attempts executed, the result and the persisted retry count are those of the last attempt tried |
| `RetryRecursion.EmployeeEngine.ClassifyAndPersistFailure` | backend/app/services/employee_engine.py:539-602 | from a failed attempt on: the same, without that attempt |
| `RetryRecursion.EmployeeEngine.RetryStep` | backend/app/services/employee_engine.py:604-652 | the next index, with the count written from the snapshot |
| `RetryRecursion.EmployeeEngine.HandleStepFailure` | backend/app/services/employee_engine.py:654-707 | gives up or retries by the category the step carries |
| `RetryRecursion.EmployeeEngine.ExecuteNextStep` | backend/app/services/employee_engine.py:384-446 | the attempts run are those up to the last tried; the persisted retry count never accumulates: it ends where it was, or one above exactly when a retry wrote it and the write-back failed or was skipped for a step that waits |
| `RetryRecursion.LastTriedIsUnique` | backend/app/services/employee_engine.py:539-652 | there is exactly one last attempt, within the step bound |
| `RetryRecursion.AttemptsAreBounded` | backend/app/services/employee_engine.py:580-707 | from attempt k with bound N at most max(1, N + 1 - k) attempts run, with consecutive indices from k |
| `RetryRecursion.BoundIsReached` | backend/app/services/employee_engine.py:580-652 | a tool that always fails transiently is tried exactly N + 1 - k times |
| `RetryRecursion.NonRetryableRetriedExactlyWhen` | backend/app/services/employee_engine.py:674-707 | a failure that must never be retried is retried exactly when the step carries no non-retryable category of its own and both bounds allow it |
| `RetryRecursion.HumanWaitsAreNotRetried` | backend/app/services/employee_engine.py:587-597 | an approval or missing-input failure is never retried |
| `RetryRecursion.ResultsAre` | backend/app/services/employee_engine.py:450-707 | each result of the last attempt tried, if and only if a condition on what that attempt met |
| `RetryRecursion.ContinuesExactlyWhen` | backend/app/services/employee_engine.py:580-707 | another attempt follows if and only if all of this one was stored and its failure asks for it within both bounds |
| `RetryRecursion.CountWrittenExactlyWhen` | backend/app/services/employee_engine.py:604-640 | the retry count was written if and only if some attempt wrote it |
| `RetryRecursion.CountEndsHigherExactlyWhen` | backend/app/services/employee_engine.py:384-446 | the count ends one higher if and only if some attempt wrote it and it was not written back |
| `RetryRecursion.RunsExactlyTheClaimed` | backend/app/services/employee_engine.py:450-470 | every attempt before the last one tried ran its tool, and the last exactly when it was claimed |
| `RetryRecursion.DefaultBounds` | backend/app/services/retry_classifier.py:260-280 | by default at most four attempts of a fresh step, and one of a final failure after five retries |
| `RetryCategories.CategoriesPartition` | backend/app/services/retry_classifier.py:26-43 | every category is retryable, a wait for a human, or non-retryable, and only one of them |
| `RetryCategories.CategoriesAre` | backend/app/services/retry_classifier.py:37-43 | which categories are retried, wait for a human, or are final |
| `Sanitizer.SanitizeKeepsExactlyTheSafePaths` | backend/app/services/p1_7_contracts.py:17-27 | looking up a path in the sanitized tree gives the sanitized value if no key on the path is sensitive, and nothing otherwise |
| `Sanitizer.SanitizeIsIdempotentAndFixesExactlyCleanTrees` | backend/app/services/p1_7_contracts.py:17-27 | sanitizing twice is sanitizing once, and changes exactly the trees that hold a sensitive key |
| `Sanitizer.SanitizedIsClean` | backend/app/services/p1_7_contracts.py:17-27 | no sensitive key is left at any depth |
| `Sanitizer.KeptExactlyWhen` | backend/app/services/p1_7_contracts.py:8-27 | a key is kept if and only if it is a string that is none of the fifteen credential names in any mix of cases |
| `Sanitizer.SpelledCredentialIsRemoved` | backend/app/services/p1_7_contracts.py:17-27 | nothing under a credential's name, whatever the case of its letters, is found at any path of the output of either deep filter |
| `Sanitizer.GatewayFilterIsTheContractFilter` | backend/app/services/approval_gateway.py:104-127 | the gateway's filter is the contract's on dictionaries, and an empty dictionary otherwise |
| `Sanitizer.SanitizerAbsorbsConnectorFilter` | backend/app/services/connectors/pinterest_connector.py:1147-1160 | the connector's smaller filter changes nothing in a sanitized tree |
| `Sanitizer.HumanRaises` | backend/app/services/connectors/pinterest_connector.py:1147-1160 | the connector's filter raises exactly on trees with a key that is not a string; otherwise what it removes the sanitizer would have removed |
| `Sanitizer.HumanInputIs` | backend/app/services/connectors/pinterest_connector.py:1147-1160 | what the connector's filter makes of any human input, dictionary or not |
| `Sanitizer.HumanFilterPasses` | backend/app/services/connectors/pinterest_connector.py:1147-1160 | the three credentials the connector's filter does not know |
| `Sanitizer.ShallowFilterIsCleanExactlyOnCleanValues` | backend/app/services/connectors/pinterest_connector.py:1136-1145 | the connector's last, shallow filter yields a clean value exactly when the values it keeps are clean |
| `Sanitizer.ShallowFilterMissesNestedCredential` | backend/app/services/connectors/pinterest_connector.py:1136-1145 | a nested credential that passes the shallow filter |
| `Sanitizer.StoredContentReachesConnectorClean` | backend/app/services/approval_gateway.py:104-127 | content stored through the gateway and passed through the shallow filter is clean at every depth |

## Left out

- PlanTheorems.ToolsRunOnlyUncompletedSteps: does not say that no tool ever runs for a completed step,
  because a runner that stalls past its lease does just that;
  `PlanTheorems.RepeatsExactlyWhenItsGuardWouldRefuse` gives the exact condition on the table, and
  `PlanLeases.RepeatableExactlyWhenTheLeaseIsOver` the one on the lease.
- PlanLeases.RepeatableExactlyWhenTheLeaseIsOver: speaks of steps of the original plan, because a resumed
  runner forgets an appended onboarding step and so cannot take it over; that an unexpired lease protects
  it too is `PlanLeases.LeasedClaimIsNotRepeated`.
- MissionBudget.BudgetIsNeverExceeded: speaks of a mission whose own runs are taken one at a time, and up to
  the count writes lost, because otherwise the budget is exceeded
  (`MissionBudget.InterleavedRunsExceedTheBudget`, `MissionBudget.LostCountExceedsTheBudget`); what holds
  of every run is `MissionBudget.NoAttemptIsLostExactlyWhen` and `MissionBudget.StartsAreCounted`.
- Supabase, HTTP, JWT and row-level security, FastAPI request models: the database is replaced by
  maps and sequences with atomic insert-if-absent and guarded updates. Of its failures the model keeps
  lost requests and lost replies.
- The resume service, the approve route and the OAuth callback handler as methods: each is a sequence of
  database and provider calls and is modelled as the steps of its protocol, on values; what a method
  would add, their response payloads and messages, is not captured.
- Encryption, hashing, random tokens, UUID collisions.
- Regex and keyword matching (failure patterns, goal intent): an arbitrary category or flag. Characters
  outside ASCII in the lower-casing of keys.
- The resume service's process-local cache of executed requests, its other action types and
  connectors, and the ledger's in-memory fallback, which is keyed per owner.
- The Meta connector: it has no publish ledger, so the at-most-one theorem does not cover it.
- PlanApprovals.ApprovedStepsFormAPrefix: of the theorems on the plan, the order of the steps is proved with
  the approval's own claim among the runners; the attempt discipline and what rests on it are not, because
  that claim breaks it (`StepClaims.GrantKeepsDisciplineExactlyOnTheNextAttempt` says exactly when). The
  approval is asked for by the onboarding tool; who else could ask for one is not part of this model.
- The database function's name for a claimed row inside the plan protocol, which uses the step's own
  name from the start; `StepClaims.StaleClaimRecoveredExactlyWhenRenamed` says what the difference is.
- Failing updates of the execution row in the plan runner, and the report it assembles.
- The writers of a mission's status outside the orchestration (see the premises): the dependency order
  does not hold of a mission they complete or activate.
- A mission's metadata, recurrence and idempotency key, and the events other than transitions; the log of
  transitions is history, written with the status.
- Nested payload schemas, which the code does not look into either. Of a tool's name the runner keeps
  whether it is one of the three it distinguishes; that a name merely contains the words of the draft
  tool is part of the arbitrary tool result.
- The rest of the employee engine: recovery of ambiguous running steps, progress, completion criteria.
- LLM providers, content drafting, image search, marketplace ranking, lead scoring, freelancer and chat
  services, the onboarding counter: wrappers, text, or only easy members.
