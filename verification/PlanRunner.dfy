/** One plan runner, as the loop that the slice executes. The loop may append an onboarding step
    to the plan it is iterating over.

    The loop is proved to take exactly the protocol's steps, so what holds in every run of the
    protocol holds of it; beside that it terminates and bounds its tool executions. */
module PlanRunner {
  import opened Wrappers
  import opened RetryCategories
  import opened StepClaims
  import opened PlanProtocol
  import opened PlanValidator

  datatype Tool = AccountStatus | StartOnboarding | PrepareContent | OtherTool

  datatype Reported = Connected | NotStarted | NeedsReconnect | ConnectionFailed | OnboardingUnderway | Unlisted

  datatype PlanStep = PlanStep(name: StepName, tool: Tool)

  datatype ToolResult = ToolResult(
    success: bool,
    status: Reported,
    pendingApproval: bool,
    awaitingHuman: bool,
    samplePin: bool,
    category: Category)

  /** What keyword matching found in the goal, and whether the Pin's inputs were supplied. */
  datatype Goal = Goal(approvalGated: bool, affiliate: bool, inputsComplete: bool)

  datatype Decision = Complete | FollowUp | WaitForApproval | WaitForHumanInput | Retry | Fail

  datatype Outcome = Finished(decision: Decision) | ClaimedElsewhere | StoreFailed

  /** The mission's execution row, of which there is at most one. */
  datatype ExecutionStatus =
    ABSENT | PENDING | RUNNING | RETRYING | WAITING_APPROVAL | WAITING_INPUT | SUCCEEDED | FAILED | CANCELLED

  /** How the loop goes on after a step. */
  datatype Verdict = Advance | Stop(outcome: Outcome)

  /** What the n-th operation meets: the tool's result, the time it takes, a lost reply. */
  datatype Env = Env(result: nat -> ToolResult, elapsed: nat -> nat, lost: nat -> bool)

  const CHECK_STEP: StepName := "check_connection_status"
  const PREPARE_STEP: StepName := "prepare_affiliate_content"
  const DRAFT_STEP: StepName := "prepare_pinterest_pin_draft"

  predicate DraftStep(step: PlanStep) {
    step.name == PREPARE_STEP || step.name == DRAFT_STEP || step.tool == PrepareContent
  }

  function NextDecision(result: ToolResult, step: PlanStep, next: Option<PlanStep>, goal: Goal,
          maxDecisions: nat): Decision {
    if result.pendingApproval then WaitForApproval
    else if result.awaitingHuman then WaitForHumanInput
    else if DraftStep(step) && goal.approvalGated then WaitForHumanInput
    else if result.success then
      if result.status in {NotStarted, NeedsReconnect, ConnectionFailed, OnboardingUnderway} && next.Some? then FollowUp
      else if next.Some? && result.status == Connected && next.value.tool != StartOnboarding then FollowUp
      else if step.name == CHECK_STEP && result.status == Connected && next == None && goal.affiliate
      then WaitForHumanInput
      else Complete
    else if result.category == MissingInput then WaitForHumanInput
    else if result.category == Approval then WaitForApproval
    else if result.category in RETRYABLE_CATEGORIES && maxDecisions > 0 then Retry
    else Fail
  }

  /** An approval-gated Pin mission never completes on a draft alone. */
  function Decide(result: ToolResult, step: PlanStep, next: Option<PlanStep>, goal: Goal, maxDecisions: nat): Decision {
    if result.success && goal.approvalGated && (result.samplePin || step.tool == PrepareContent) && !goal.inputsComplete
    then WaitForHumanInput
    else NextDecision(result, step, next, goal, maxDecisions)
  }

  // ------------------------------------------------------------------
  // What each decision is taken on, read from the result's flags and category
  // ------------------------------------------------------------------

  /** The draft of a Pin whose publication the user wants to approve. */
  predicate GatedDraft(step: PlanStep, goal: Goal) {
    goal.approvalGated
    && (step.name in {"prepare_affiliate_content", "prepare_pinterest_pin_draft"} || step.tool == PrepareContent)
  }

  /** A gated mission has produced a draft, and the inputs to publish it are missing. This comes before
      all else, even before an approval the tool reports pending. */
  predicate LacksInputs(result: ToolResult, step: PlanStep, goal: Goal) {
    goal.approvalGated && !goal.inputsComplete && result.success && (result.samplePin || step.tool == PrepareContent)
  }

  /** The result waits for nobody, and the step is not a gated draft. */
  predicate Settles(result: ToolResult, step: PlanStep, goal: Goal) {
    !result.pendingApproval && !result.awaitingHuman && !GatedDraft(step, goal) && !LacksInputs(result, step, goal)
  }

  /** The connection was only checked, for a user whose affiliate niche is still unknown. */
  predicate AsksForNiche(result: ToolResult, step: PlanStep, next: Option<PlanStep>, goal: Goal) {
    result.success && result.status == Connected && step.name == "check_connection_status" && next == None
    && goal.affiliate
  }

  predicate AwaitsApproval(result: ToolResult, step: PlanStep, goal: Goal) {
    (result.pendingApproval && !LacksInputs(result, step, goal))
    || (Settles(result, step, goal) && !result.success && result.category == Approval)
  }

  predicate AwaitsHuman(result: ToolResult, step: PlanStep, next: Option<PlanStep>, goal: Goal) {
    LacksInputs(result, step, goal)
    || (!result.pendingApproval && (result.awaitingHuman || GatedDraft(step, goal)))
    || (Settles(result, step, goal) && AsksForNiche(result, step, next, goal))
    || (Settles(result, step, goal) && !result.success && result.category == MissingInput)
  }

  /** A failure that another attempt may mend. */
  predicate Mendable(result: ToolResult, step: PlanStep, goal: Goal) {
    Settles(result, step, goal) && !result.success && result.category in {Transient, Validation, Execution}
  }

  predicate Hopeless(result: ToolResult, step: PlanStep, goal: Goal) {
    Settles(result, step, goal) && !result.success && result.category in {Authorization, ToolNotFound, Permanent}
  }

  /** The plan goes on: to the next step, whichever it is, while the connection is not up, and past a
      connection to anything but onboarding. */
  predicate GoesOn(result: ToolResult, step: PlanStep, next: Option<PlanStep>, goal: Goal) {
    Settles(result, step, goal) && result.success && next.Some?
    && (if result.status == Connected then next.value.tool != StartOnboarding else result.status != Unlisted)
  }

  predicate Completes(result: ToolResult, step: PlanStep, next: Option<PlanStep>, goal: Goal) {
    Settles(result, step, goal) && result.success && !GoesOn(result, step, next, goal)
    && !AsksForNiche(result, step, next, goal)
  }

  /** Exactly when: for every result, step, next step and goal, each decision is taken if and only if
      the flags and the category say so. */
  lemma DecidesExactlyWhen(result: ToolResult, step: PlanStep, next: Option<PlanStep>, goal: Goal, maxDecisions: nat)
    ensures var decision := Decide(result, step, next, goal, maxDecisions);
            (decision == WaitForApproval <==> AwaitsApproval(result, step, goal))
            && (decision == WaitForHumanInput <==> AwaitsHuman(result, step, next, goal))
            && (decision == Retry <==> Mendable(result, step, goal) && maxDecisions > 0)
            && (decision == Fail
                <==> Hopeless(result, step, goal) || (Mendable(result, step, goal) && maxDecisions == 0))
            && (decision == FollowUp <==> GoesOn(result, step, next, goal))
            && (decision == Complete <==> Completes(result, step, next, goal))
  {
    assert result.category in RETRYABLE_CATEGORIES <==> result.category in {Transient, Validation, Execution};
  }

  /** What ended a run: the last tool's step, what followed it in the plan, its result and its attempt. */
  datatype Ending = Ending(step: PlanStep, next: Option<PlanStep>, result: ToolResult, attempt: nat)

  /** How a run that a tool's result ended leaves the execution: its answer and the row's status. */
  predicate Leaves(e: Ending, goal: Goal, maxDecisions: nat, answer: Decision, status: ExecutionStatus) {
    (status == WAITING_APPROVAL <==> AwaitsApproval(e.result, e.step, goal))
    && (status == WAITING_INPUT <==> AwaitsHuman(e.result, e.step, e.next, goal))
    && (status == RETRYING <==> Mendable(e.result, e.step, goal) && e.attempt < maxDecisions)
    && (status == FAILED
        <==> Hopeless(e.result, e.step, goal) || (Mendable(e.result, e.step, goal) && e.attempt >= maxDecisions))
    && (status == SUCCEEDED <==> Completes(e.result, e.step, e.next, goal))
    && !GoesOn(e.result, e.step, e.next, goal)
    && (answer == WaitForApproval <==> status == WAITING_APPROVAL)
    && (answer == WaitForHumanInput <==> status == WAITING_INPUT)
    && (answer == Retry <==> status == RETRYING)
    && (answer == Fail <==> status == FAILED)
    && (answer == Complete <==> status == SUCCEEDED)
  }

  /** The decision, recorded, leaves the execution so. */
  lemma ConcludesSo(e: Ending, goal: Goal, maxDecisions: nat, decision: Decision, answer: Decision)
    requires decision == Decide(e.result, e.step, e.next, goal, maxDecisions) && decision != FollowUp
    requires answer == if decision == Retry && !(e.result.category in RETRYABLE_CATEGORIES && e.attempt < maxDecisions)
                       then Fail else decision
    ensures Leaves(e, goal, maxDecisions, answer, StatusAfter(answer))
  {
    DecidesExactlyWhen(e.result, e.step, e.next, goal, maxDecisions);
  }

  /** The step after the `i`-th, if there is one. */
  function NextOf(plan: seq<PlanStep>, i: nat): Option<PlanStep> {
    if i + 1 < |plan| then Some(plan[i + 1]) else None
  }

  /** The last tool was that of `plan[i]`; the plan is the given one, or that one and onboarding. */
  predicate EndsAt(e: Ending, initial: seq<PlanStep>, plan: seq<PlanStep>, i: nat, executed: seq<StepName>) {
    i < |plan| && e.step == plan[i] && e.next == (if i + 1 < |plan| then Some(plan[i + 1]) else None)
    && (plan == initial || plan == initial + [PlanStep(ONBOARDING, StartOnboarding)])
    && executed != [] && executed[|executed| - 1] == e.step.name
  }

  /** The runner moves on only from a success, and only to a step that exists. */
  lemma FollowsOnlySuccess(result: ToolResult, step: PlanStep, next: Option<PlanStep>, goal: Goal, maxDecisions: nat)
    ensures Decide(result, step, next, goal, maxDecisions) == FollowUp ==> result.success && next.Some?
  {
  }

  /** Completion is decided before the plan's end exactly when a success that waits for nobody
      reports a connection and the next step would only start onboarding, or reports a status the
      decision does not list. */
  lemma CompletesEarlyExactlyWhen(result: ToolResult, step: PlanStep, next: PlanStep, goal: Goal, maxDecisions: nat)
    ensures Decide(result, step, Some(next), goal, maxDecisions) == Complete
       <==> (result.success && !result.pendingApproval && !result.awaitingHuman
             && !(goal.approvalGated && (DraftStep(step) || (result.samplePin && !goal.inputsComplete)))
             && (result.status == Unlisted || (result.status == Connected && next.tool == StartOnboarding)))
  {
  }

  /** A plan that holds the draft of an approval-gated Pin without its inputs never completes on it. */
  lemma DraftNeverCompletesAGatedMission(result: ToolResult, step: PlanStep, next: Option<PlanStep>, goal: Goal,
          maxDecisions: nat)
    requires goal.approvalGated && DraftStep(step)
    ensures Decide(result, step, next, goal, maxDecisions) != Complete
    ensures Decide(result, step, next, goal, maxDecisions) != FollowUp
  {
  }

  function StatusAfter(decision: Decision): ExecutionStatus {
    match decision
    case Complete => SUCCEEDED
    case WaitForApproval => WAITING_APPROVAL
    case WaitForHumanInput => WAITING_INPUT
    case Retry => RETRYING
    case _ => FAILED
  }

  predicate HasStep(plan: seq<PlanStep>, name: StepName) {
    exists i :: 0 <= i < |plan| && plan[i].name == name
  }

  predicate DistinctSteps(plan: seq<PlanStep>) {
    forall i, j :: 0 <= i < j < |plan| ==> plan[i].name != plan[j].name
  }

  predicate DistinctSeq(names: seq<StepName>) {
    forall i, j :: 0 <= i < j < |names| ==> names[i] != names[j]
  }

  /** The runner's plan, named by the protocol as positions. */
  predicate Matches(c: Ctx, positions: seq<nat>, plan: seq<PlanStep>) {
    |positions| == |plan| && forall i :: 0 <= i < |plan| ==> plan[i].name == NameAt(c, positions[i])
  }

  /** Every event is the runner's own action, or time passing. */
  predicate OwnEvents(t: Token, trace: seq<Event>) {
    forall i :: 0 <= i < |trace| ==> trace[i].Tick? || (trace[i].Step? && trace[i].token == t)
  }

  predicate WantsOnboarding(step: PlanStep, result: ToolResult) {
    result.success && step.tool == AccountStatus && result.status in {NotStarted, NeedsReconnect}
  }

  /** The tool executions logged since `log`, by step name. */
  predicate Logged(c: Ctx, log: seq<ToolRun>, log': seq<ToolRun>, executed: seq<StepName>) {
    log <= log' && |log'| == |log| + |executed|
    && forall i :: 0 <= i < |executed| ==> NameAt(c, log'[|log| + i].position) == executed[i]
  }

  /** The trace is a run of the protocol from `s0` to `s`, all of it this runner's. */
  ghost predicate RunTo(c: Ctx, t: Token, s0: State, trace: seq<Event>, s: State) {
    s == From(c, s0, trace) && OwnEvents(t, trace)
  }

  /** Extending a run by one event of the runner. */
  lemma Extend(c: Ctx, t: Token, s0: State, trace: seq<Event>, s: State, e: Event)
    requires RunTo(c, t, s0, trace, s) && (e.Tick? || (e.Step? && e.token == t))
    ensures RunTo(c, t, s0, trace + [e], Apply(c, s, e))
  {
    FromOne(c, s0, trace, e);
  }

  lemma RunOfOne(c: Ctx, t: Token, s0: State, e: Event)
    requires e.Step? && e.token == t
    ensures RunTo(c, t, s0, [e], Apply(c, s0, e))
  {
    assert RunTo(c, t, s0, [], s0);
    Extend(c, t, s0, [], s0, e);
    assert [] + [e] == [e];
  }

  /** Positions of a plan name distinct steps. */
  lemma PlanIsDistinct(c: Ctx, rows: seq<StepRow>, w: Runner, plan: seq<PlanStep>)
    requires DistinctNames(c) && PlanInv(c, rows, w) && Matches(c, w.plan, plan)
    ensures DistinctSteps(plan)
  {
    forall i, j | 0 <= i < j < |plan| ensures plan[i].name != plan[j].name {
      if plan[i].name == plan[j].name {
        ExtendedIsDistinct(c, w.plan[i], w.plan[j]);
      }
    }
  }

  lemma PlannedIsHasStep(c: Ctx, w: Runner, plan: seq<PlanStep>, name: StepName)
    requires Matches(c, w.plan, plan)
    ensures Planned(c, w, name) <==> HasStep(plan, name)
  {
    if Planned(c, w, name) {
      var i :| 0 <= i < |w.plan| && NameAt(c, w.plan[i]) == name;
      assert plan[i].name == name;
    }
    if HasStep(plan, name) {
      var i :| 0 <= i < |plan| && plan[i].name == name;
      assert NameAt(c, w.plan[i]) == name;
    }
  }

  ghost predicate AllDone(rows: seq<StepRow>, steps: seq<PlanStep>) {
    forall i :: 0 <= i < |steps| ==> Done(rows, steps[i].name)
  }

  /** The runner has passed the end of a plan that begins with `initial`. */
  predicate AtEnd(c: Ctx, w: Runner, initial: seq<PlanStep>) {
    w.index == |w.plan| && |initial| <= |w.plan|
    && forall i :: 0 <= i < |initial| ==> initial[i].name == NameAt(c, w.plan[i])
  }

  /** At the end of its plan the runner knows every step of it completed. */
  lemma EndOfPlan(c: Ctx, rows: seq<StepRow>, w: Runner, initial: seq<PlanStep>)
    requires PlanInv(c, rows, w) && AtEnd(c, w, initial)
    ensures AllDone(rows, initial)
  {
  }

  lemma EndOfRun(c: Ctx, s0: State, trace: seq<Event>, s: State, t: Token, w: Runner, initial: seq<PlanStep>)
    requires DistinctNames(c) && Inv(c, s0) && s == From(c, s0, trace)
    requires t in s.runners && s.runners[t] == w && AtEnd(c, w, initial)
    ensures AllDone(s.rows, initial)
  {
    FromKeeps(c, s0, trace);
    EndOfPlan(c, s.rows, w, initial);
  }

  /** A plan that has an onboarding step of its own never gets a second one. */
  predicate OnboardingKnown(c: Ctx, plan: seq<PlanStep>, done: set<StepName>) {
    ONBOARDING in c.names ==> ONBOARDING in done || HasStep(plan, ONBOARDING)
  }

  lemma OnboardingIsCovered(c: Ctx, rows: seq<StepRow>, w: Runner)
    requires PlanInv(c, rows, w) && Underway(w)
    ensures ONBOARDING in c.names ==> ONBOARDING in w.done || Planned(c, w, ONBOARDING)
  {
    if ONBOARDING in c.names {
      var q :| 0 <= q < |c.names| && c.names[q] == ONBOARDING;
      if q in w.plan {
        var i :| 0 <= i < |w.plan| && w.plan[i] == q;
        assert NameAt(c, w.plan[i]) == ONBOARDING;
      }
    }
  }

  const QUIET := Reply(false, false, false, false)

  /** The executed steps are distinct steps of the plan before `index`, none completed at the start. */
  predicate Executed(plan: seq<PlanStep>, index: nat, done0: set<StepName>, executed: seq<StepName>) {
    index <= |plan| && |executed| <= index && DistinctSeq(executed)
    && (forall e :: e in executed ==> e !in done0 && exists i :: 0 <= i < index && plan[i].name == e)
  }

  /** What the loop keeps about the plan it works through, which onboarding may have joined. */
  predicate Progress(c: Ctx, initial: seq<PlanStep>, plan: seq<PlanStep>, index: nat, done0: set<StepName>,
        done: set<StepName>, executed: seq<StepName>) {
    initial <= plan && DistinctSteps(plan)
    && (plan == initial || (plan == initial + [PlanStep(ONBOARDING, StartOnboarding)] && executed != []))
    && OnboardingKnown(c, plan, done) && done0 <= done && Executed(plan, index, done0, executed)
    && (executed != [] ==> HasStep(initial, executed[0]))
  }

  // ------------------------------------------------------------------
  // From a validated plan to the steps that run
  // ------------------------------------------------------------------

  function KindOf(tool: string): Tool {
    if tool == "pinterest.get_account_status" then AccountStatus
    else if tool == "start_platform_onboarding" then StartOnboarding
    else if tool == "prepare_affiliate_content" then PrepareContent
    else OtherTool
  }

  /** The runner executes the steps it validated: same name, same tool, same order. */
  function PlanOf(steps: seq<RawStep>): (plan: seq<PlanStep>)
    requires forall i :: 0 <= i < |steps| ==> steps[i].ToolStep?
    ensures |plan| == |steps|
    ensures forall i :: 0 <= i < |plan| ==>
              plan[i].name == steps[i].name
              && (plan[i].tool == AccountStatus <==> steps[i].tool == "pinterest.get_account_status")
              && (plan[i].tool == StartOnboarding <==> steps[i].tool == "start_platform_onboarding")
              && (plan[i].tool == PrepareContent <==> steps[i].tool == "prepare_affiliate_content")
  {
    seq(|steps|, i requires 0 <= i < |steps| => PlanStep(steps[i].name, KindOf(steps[i].tool)))
  }

  /** The steps are the plan that the protocol knows by name. */
  predicate Names(c: Ctx, steps: seq<RawStep>) {
    |steps| == |c.names| && forall i :: 0 <= i < |steps| && steps[i].ToolStep? ==> steps[i].name == c.names[i]
  }

  predicate Validated(registry: map<string, ToolContract>, discovery: Discovery, steps: seq<RawStep>, name: StepName) {
    exists i :: 0 <= i < |steps| && ValidStep(registry, discovery, steps[i]) && steps[i].name == name
  }

  lemma ValidatedWhenPlanned(registry: map<string, ToolContract>, discovery: Discovery, steps: seq<RawStep>,
        executed: seq<StepName>)
    requires ValidPlan(registry, discovery, steps)
    requires forall name :: name in executed ==> name == ONBOARDING || HasStep(PlanOf(steps), name)
    ensures forall name :: name in executed ==> name == ONBOARDING || Validated(registry, discovery, steps, name)
  {
    forall name | name in executed && name != ONBOARDING ensures Validated(registry, discovery, steps, name) {
      var i :| 0 <= i < |steps| && PlanOf(steps)[i].name == name;
      assert ValidStep(registry, discovery, steps[i]);
    }
  }

  class EmployeeVerticalSlice {
    const ctx: Ctx
    const token: Token
    const maxDecisions: nat
    const service: MissionExecutionService
    var now: Time
    var status: ExecutionStatus
    var retryCount: nat

    constructor (ctx: Ctx, token: Token, maxDecisions: nat, service: MissionExecutionService, now: Time)
      ensures this.ctx == ctx && this.token == token && this.maxDecisions == maxDecisions
      ensures this.service == service && this.now == now && status == ABSENT && retryCount == 0
    {
      this.ctx := ctx;
      this.token := token;
      this.maxDecisions := maxDecisions;
      this.service := service;
      this.now := now;
      this.status := ABSENT;
      this.retryCount := 0;
    }

    /** The protocol's state is the store's rows, the clock and this runner at `w`. */
    ghost predicate Mirrors(s: State, w: Runner)
      reads this, service
    {
      s.rows == service.steps && s.now == now && token in s.runners && s.runners[token] == w
    }

    /** Time passes. */
    method Wait(seconds: nat, ghost s0: State, ghost trace: seq<Event>, ghost s: State, ghost w: Runner)
      returns (ghost trace': seq<Event>, ghost s': State)
      requires RunTo(ctx, token, s0, trace, s) && Mirrors(s, w)
      modifies this`now
      ensures RunTo(ctx, token, s0, trace', s') && Mirrors(s', w) && s'.log == s.log
    {
      Extend(ctx, token, s0, trace, s, Tick(seconds));
      now := now + seconds;
      s', trace' := Apply(ctx, s, Tick(seconds)), trace + [Tick(seconds)];
    }

    /** Claim an attempt of the plan's current step. */
    method ClaimCurrent(name: StepName, attempt: nat, lost: bool,
                        ghost s0: State, ghost trace: seq<Event>, ghost s: State, ghost w: Runner)
      returns (answer: ClaimReply, row: nat, ghost trace': seq<Event>, ghost s': State)
      requires RunTo(ctx, token, s0, trace, s) && Mirrors(s, w)
      requires w.pc == Claiming(attempt) && name == Current(ctx, w)
      modifies service
      ensures RunTo(ctx, token, s0, trace', s') && Mirrors(s', Claimed(ctx, w, row, answer, lost)) && s'.log == s.log
    {
      ghost var e := Step(token, Reply(lost, false, false, false));
      Extend(ctx, token, s0, trace, s, e);
      row := |service.steps|;
      answer := service.ClaimStep(Request(ctx, row, name, attempt, token), now);
      s', trace' := Apply(ctx, s, e), trace + [e];
    }

    /** Rename the claimed row to the step. */
    method Mark(name: StepName, row: nat, lost: bool,
                ghost s0: State, ghost trace: seq<Event>, ghost s: State, ghost w: Runner)
      returns (updated: bool, ghost trace': seq<Event>, ghost s': State)
      requires RunTo(ctx, token, s0, trace, s) && Mirrors(s, w)
      requires w.pc == Marking(row) && name == Current(ctx, w)
      modifies service
      ensures RunTo(ctx, token, s0, trace', s') && s'.log == s.log
      ensures Mirrors(s', w.(pc := if updated && !lost then Running(row) else Stopped))
    {
      ghost var e := Step(token, Reply(lost, false, false, false));
      Extend(ctx, token, s0, trace, s, e);
      updated := service.UpdateStep(ctx.execution, row, Some(name), token, InProgress);
      s', trace' := Apply(ctx, s, e), trace + [e];
    }

    /** Settle the claimed row with the tool's result. */
    method Settle(row: nat, ok: bool, ghost follow: bool, lost: bool,
                  ghost s0: State, ghost trace: seq<Event>, ghost s: State, ghost w: Runner)
      returns (updated: bool, ghost trace': seq<Event>, ghost s': State)
      requires RunTo(ctx, token, s0, trace, s) && Mirrors(s, w)
      requires w.pc == Settling(row, ok, follow)
      modifies service
      ensures RunTo(ctx, token, s0, trace', s') && Mirrors(s', Followed(w, updated && !lost && follow))
      ensures s'.log == s.log
    {
      ghost var e := Step(token, Reply(lost, false, false, false));
      Extend(ctx, token, s0, trace, s, e);
      updated := service.UpdateStep(ctx.execution, row, None, token, if ok then Completed else Failed);
      s', trace' := Apply(ctx, s, e), trace + [e];
    }

    /** Run the tool of the current step, append onboarding to the plan if the result asks for it,
        and decide how to go on. */
    method RunTool(step: PlanStep, plan: seq<PlanStep>, index: nat, result: ToolResult, done: set<StepName>, goal: Goal,
                   ghost s0: State, ghost trace: seq<Event>, ghost s: State, ghost w: Runner)
      returns (plan': seq<PlanStep>, decision: Decision, ghost trace': seq<Event>, ghost s': State, ghost w': Runner)
      requires RunTo(ctx, token, s0, trace, s) && Mirrors(s, w)
      requires w.pc.Running? && Matches(ctx, w.plan, plan) && w.done == done && w.index == index
      requires index < |plan| && plan[index] == step && OnboardingKnown(ctx, plan, done)
      ensures RunTo(ctx, token, s0, trace', s')
      ensures w'.done == done && w'.index == index && w'.pc == Settling(w.pc.row, result.success, decision == FollowUp)
      ensures Mirrors(s', w') && Matches(ctx, w'.plan, plan')
      ensures plan' == if result.success && step.tool == AccountStatus && result.status in {NotStarted, NeedsReconnect}
                          && ONBOARDING !in done && !HasStep(plan, ONBOARDING)
                       then plan + [PlanStep(ONBOARDING, StartOnboarding)] else plan
      ensures decision
              == Decide(result, step, NextOf(plan', index), goal, maxDecisions)
      ensures Logged(ctx, s.log, s'.log, [step.name])
    {
      PlannedIsHasStep(ctx, w, plan, ONBOARDING);
      plan' := plan;
      if WantsOnboarding(step, result) && ONBOARDING !in done && !HasStep(plan, ONBOARDING) {
        plan' := plan + [PlanStep(ONBOARDING, StartOnboarding)];
      }
      var next := NextOf(plan', index);
      decision := Decide(result, step, next, goal, maxDecisions);
      FollowsOnlySuccess(result, step, next, goal, maxDecisions);
      ghost var reply := Reply(false, result.success, WantsOnboarding(step, result), decision == FollowUp);
      Extend(ctx, token, s0, trace, s, Step(token, reply));
      s', trace' := Apply(ctx, s, Step(token, reply)), trace + [Step(token, reply)];
      w' := Ran(ctx, w, w.pc.row, reply);
    }

    /** Record the decision that ends the run in the execution row. */
    method Conclude(decision: Decision, result: ToolResult, attempt: nat) returns (outcome: Outcome)
      requires decision != FollowUp
      modifies this`status, this`retryCount
      ensures outcome.Finished? && status == StatusAfter(outcome.decision)
      ensures outcome.decision
           == if decision == Retry && !(result.category in RETRYABLE_CATEGORIES && attempt < maxDecisions) then Fail
              else decision
      ensures retryCount == if outcome.decision == Retry then attempt + 1 else old(retryCount)
    {
      if decision == Complete {
        status := SUCCEEDED;
        return Finished(Complete);
      }
      if decision == WaitForApproval {
        status := WAITING_APPROVAL;
        return Finished(WaitForApproval);
      }
      if decision == WaitForHumanInput {
        status := WAITING_INPUT;
        return Finished(WaitForHumanInput);
      }
      if decision == Retry {
        if result.category in RETRYABLE_CATEGORIES && attempt < maxDecisions {
          status, retryCount := RETRYING, attempt + 1;
          return Finished(Retry);
        }
      }
      status := FAILED;
      return Finished(Fail);
    }

    /** A step that advances, or is stopped by the store or another worker, leaves the execution row alone;
        a tool's result that ends the run leaves it as its flags and category say. */
    ghost predicate EndsAs(e: Ending, goal: Goal, verdict: Verdict, status0: ExecutionStatus, retries0: nat)
      reads this
    {
      if verdict.Stop? && verdict.outcome.Finished?
      then Leaves(e, goal, maxDecisions, verdict.outcome.decision, status)
           && retryCount == if status == RETRYING then e.attempt + 1 else retries0
      else status == status0 && retryCount == retries0
    }

    /** Claim the current step, run its tool and settle it: everything between the loop test and
        the next one. */
    method AttemptStep(step: PlanStep, plan: seq<PlanStep>, index: nat, done: set<StepName>, attempt: nat, goal: Goal,
            env: Env, n: nat,
                       ghost s0: State, ghost trace: seq<Event>, ghost s: State, ghost w: Runner)
      returns (verdict: Verdict, plan': seq<PlanStep>, done': set<StepName>, ran: bool,
               ghost trace': seq<Event>, ghost s': State, ghost w': Runner)
      requires RunTo(ctx, token, s0, trace, s) && Mirrors(s, w)
      requires w.pc == Claiming(attempt) && w.index == index && w.done == done && Matches(ctx, w.plan, plan)
      requires index < |plan| && plan[index] == step && OnboardingKnown(ctx, plan, done)
      modifies this`now, this`status, this`retryCount, service
      ensures RunTo(ctx, token, s0, trace', s') && Mirrors(s', w')
      ensures Matches(ctx, w'.plan, plan') && w'.done == done'
      ensures plan' == plan
              || (ran && plan' == plan + [PlanStep(ONBOARDING, StartOnboarding)] && !HasStep(plan, ONBOARDING))
      ensures done <= done' <= done + {step.name}
      ensures Logged(ctx, s.log, s'.log, if ran then [step.name] else [])
      ensures verdict.Advance? ==> w'.pc == Looping && w'.index == index + 1
      ensures verdict.Stop? ==> w'.pc == Stopped
      ensures EndsAs(Ending(step, NextOf(plan', index), env.result(n), attempt),
                     goal, verdict, old(status), old(retryCount))
      ensures verdict.Stop? && verdict.outcome.Finished? ==> ran
    {
      plan', done', ran := plan, done, false;
      trace', s' := Wait(env.elapsed(n), s0, trace, s, w);
      var answer, row;
      answer, row, trace', s' := ClaimCurrent(step.name, attempt, env.lost(n), s0, trace', s', w);
      w' := Claimed(ctx, w, row, answer, env.lost(n));
      if env.lost(n) {
        return Stop(StoreFailed), plan', done', ran, trace', s', w';
      }
      if !answer.claimed && answer.row.status == Completed {
        done' := done + {step.name};
        return Advance, plan', done', ran, trace', s', w';
      }
      if !answer.claimed {
        return Stop(ClaimedElsewhere), plan', done', ran, trace', s', w';
      }
      verdict, plan', ran, trace', s', w' := PerformStep(step, plan, index, done, row, attempt,
                                                         goal, env, n, s0, trace', s', w');
    }

    /** Rename the claimed row, run the tool, settle the row, and decide. */
    method PerformStep(step: PlanStep, plan: seq<PlanStep>, index: nat, done: set<StepName>, row: nat, attempt: nat,
            goal: Goal, env: Env, n: nat,
                       ghost s0: State, ghost trace: seq<Event>, ghost s: State, ghost w: Runner)
      returns (verdict: Verdict, plan': seq<PlanStep>, ran: bool,
               ghost trace': seq<Event>, ghost s': State, ghost w': Runner)
      requires RunTo(ctx, token, s0, trace, s) && Mirrors(s, w)
      requires w.pc == Marking(row) && w.index == index && w.done == done && Matches(ctx, w.plan, plan)
      requires index < |plan| && plan[index] == step && OnboardingKnown(ctx, plan, done)
      modifies this`now, this`status, this`retryCount, service
      ensures RunTo(ctx, token, s0, trace', s') && Mirrors(s', w')
      ensures Matches(ctx, w'.plan, plan') && w'.done == done
      ensures plan' == plan
              || (ran && plan' == plan + [PlanStep(ONBOARDING, StartOnboarding)] && !HasStep(plan, ONBOARDING))
      ensures Logged(ctx, s.log, s'.log, if ran then [step.name] else [])
      ensures verdict.Advance? ==> w'.pc == Looping && w'.index == index + 1
      ensures verdict.Stop? ==> w'.pc == Stopped
      ensures EndsAs(Ending(step, NextOf(plan', index), env.result(n), attempt),
                     goal, verdict, old(status), old(retryCount))
      ensures verdict.Stop? && verdict.outcome.Finished? ==> ran
    {
      plan', ran := plan, false;
      var updated;
      updated, trace', s' := Mark(step.name, row, env.lost(n + 1), s0, trace, s, w);
      w' := w.(pc := if updated && !env.lost(n + 1) then Running(row) else Stopped);
      if !updated || env.lost(n + 1) {
        return Stop(StoreFailed), plan', ran, trace', s', w';
      }
      var result := env.result(n);
      var decision;
      plan', decision, trace', s', w' := RunTool(step, plan, index, result, done, goal, s0, trace', s', w');
      ran := true;
      verdict, trace', s', w' := SettleStep(row, Ending(step, NextOf(plan', index), result, attempt), decision, goal,
                                            env.lost(n + 2), s0, trace', s', w');
    }

    /** Settle the row and, unless the plan goes on, record the decision. */
    method SettleStep(row: nat, e: Ending, decision: Decision, goal: Goal, lost: bool,
                      ghost s0: State, ghost trace: seq<Event>, ghost s: State, ghost w: Runner)
      returns (verdict: Verdict, ghost trace': seq<Event>, ghost s': State, ghost w': Runner)
      requires RunTo(ctx, token, s0, trace, s) && Mirrors(s, w)
      requires w.pc == Settling(row, e.result.success, decision == FollowUp)
      requires decision == Decide(e.result, e.step, e.next, goal, maxDecisions)
      modifies this`status, this`retryCount, service
      ensures RunTo(ctx, token, s0, trace', s') && Mirrors(s', w') && s'.log == s.log
      ensures w'.plan == w.plan && w'.done == w.done
      ensures verdict.Advance? ==> w'.pc == Looping && w'.index == w.index + 1
      ensures verdict.Stop? ==> w'.pc == Stopped
      ensures EndsAs(e, goal, verdict, old(status), old(retryCount))
    {
      var updated;
      updated, trace', s' := Settle(row, e.result.success, decision == FollowUp, lost, s0, trace, s, w);
      w' := Followed(w, updated && !lost && decision == FollowUp);
      if !updated || lost {
        return Stop(StoreFailed), trace', s', w';
      }
      if decision == FollowUp {
        return Advance, trace', s', w';
      }
      var outcome := Conclude(decision, e.result, e.attempt);
      ConcludesSo(e, goal, maxDecisions, decision, outcome.decision);
      return Stop(outcome), trace', s', w';
    }

    /** The loop test: skip a step known completed, or read which attempt comes next. */
    method TestStep(step: PlanStep, done: set<StepName>, ghost s0: State, ghost trace: seq<Event>, ghost s: State,
            ghost w: Runner)
      returns (skip: bool, attempt: nat, ghost trace': seq<Event>, ghost s': State)
      requires RunTo(ctx, token, s0, trace, s) && Mirrors(s, w)
      requires w.pc == Looping && w.index < |w.plan| && Current(ctx, w) == step.name && w.done == done
      ensures skip <==> step.name in done
      ensures RunTo(ctx, token, s0, trace', s') && s'.log == s.log
      ensures Mirrors(s', if skip then w.(index := w.index + 1) else w.(pc := Claiming(attempt)))
    {
      Extend(ctx, token, s0, trace, s, Step(token, QUIET));
      s', trace' := Apply(ctx, s, Step(token, QUIET)), trace + [Step(token, QUIET)];
      skip := step.name in done;
      attempt := service.NextAttemptIndex(ctx.execution, ctx.owner, step.name);
    }

    /** Past the last step: the execution is completed. */
    method FinishPlan(ghost s0: State, ghost trace: seq<Event>, ghost s: State, ghost w: Runner)
      returns (ghost trace': seq<Event>, ghost s': State)
      requires RunTo(ctx, token, s0, trace, s) && Mirrors(s, w) && w.pc == Looping && w.index == |w.plan|
      modifies this`status
      ensures RunTo(ctx, token, s0, trace', s') && s'.log == s.log && Mirrors(s', w.(pc := Stopped))
      ensures status == SUCCEEDED
    {
      Extend(ctx, token, s0, trace, s, Step(token, QUIET));
      s', trace' := Apply(ctx, s, Step(token, QUIET)), trace + [Step(token, QUIET)];
      status := SUCCEEDED;
    }

    /** Where the loop stands: its progress, the run of the protocol so far, and the tools it ran. */
    ghost predicate Stands(initial: seq<PlanStep>, plan: seq<PlanStep>, index: nat, done0: set<StepName>,
          done: set<StepName>, executed: seq<StepName>, log: seq<ToolRun>,
          s0: State, trace: seq<Event>, s: State, w: Runner)
      reads this, service
    {
      Progress(ctx, initial, plan, index, done0, done, executed) && Logged(ctx, log, s.log, executed)
      && RunTo(ctx, token, s0, trace, s) && Mirrors(s, w) && w.done == done && Matches(ctx, w.plan, plan)
    }

    /** One turn of the loop: a step known completed is passed over, any other is attempted. */
    method TakeStep(initial: seq<PlanStep>, plan: seq<PlanStep>, index: nat, ghost done0: set<StepName>,
            done: set<StepName>, executed: seq<StepName>, goal: Goal, env: Env, n: nat,
            ghost log: seq<ToolRun>, ghost s0: State, ghost trace: seq<Event>, ghost s: State, ghost w: Runner)
      returns (verdict: Verdict, plan': seq<PlanStep>, done': set<StepName>, executed': seq<StepName>,
               ghost ending: Ending, ghost trace': seq<Event>, ghost s': State, ghost w': Runner)
      requires Stands(initial, plan, index, done0, done, executed, log, s0, trace, s, w)
      requires index < |plan| && w.pc == Looping && w.index == index
      modifies this`now, this`status, this`retryCount, service
      ensures Stands(initial, plan', index + 1, done0, done', executed', log, s0, trace', s', w')
      ensures verdict.Advance? ==> w'.pc == Looping && w'.index == index + 1
      ensures verdict.Stop? ==> w'.pc == Stopped
      ensures EndsAs(ending, goal, verdict, old(status), old(retryCount))
      ensures verdict.Stop? && verdict.outcome.Finished? ==>
                ending.result == env.result(n) && EndsAt(ending, initial, plan', index, executed')
      ensures verdict.Stop? ==> exists i :: 0 <= i < |initial| && initial[i].name !in done0
    {
      var step := plan[index];
      var skip, attempt;
      skip, attempt, trace', s' := TestStep(step, done, s0, trace, s, w);
      ending := Ending(step, NextOf(plan, index), env.result(n), attempt);
      if skip {
        ProgressKept(ctx, initial, plan, plan, index, done0, done, done, executed, step, false);
        assert executed + [] == executed;
        return Advance, plan, done, executed, ending, trace', s', w.(index := w.index + 1);
      }
      var ran;
      verdict, plan', done', ran, trace', s', w' :=
        AttemptStep(step, plan, index, done, attempt, goal, env, n, s0, trace', s', w.(pc := Claiming(attempt)));
      executed' := executed + if ran then [step.name] else [];
      ending := Ending(step, NextOf(plan', index), env.result(n), attempt);
      TurnKeeps(ctx, initial, plan, plan', index, done0, done, done', executed, step, ran, log, s.log, s'.log);
    }

    /** The while loop, from a runner that has read the completed steps. */
    method WorkThrough(initial: seq<PlanStep>, done0: set<StepName>, goal: Goal, env: Env,
                       ghost s0: State, ghost trace0: seq<Event>, ghost s1: State, ghost w1: Runner)
      returns (outcome: Outcome, early: bool, executed: seq<StepName>,
               ghost ending: Ending, ghost trace: seq<Event>, ghost s: State, ghost w: Runner)
      requires RunTo(ctx, token, s0, trace0, s1) && Mirrors(s1, w1)
      requires w1.index == 0 && w1.done == done0 && w1.pc == Looping && Matches(ctx, w1.plan, initial)
      requires DistinctSteps(initial) && OnboardingKnown(ctx, initial, done0)
      modifies this`now, this`status, this`retryCount, service
      ensures RunTo(ctx, token, s0, trace, s) && Mirrors(s, w) && w.pc == Stopped
      ensures Logged(ctx, s1.log, s.log, executed)
      ensures |executed| <= |initial| + 1 && DistinctSeq(executed)
      ensures forall name :: name in executed ==> name !in done0
      ensures executed != [] ==> HasStep(initial, executed[0])
      ensures forall name :: name in executed ==> name == ONBOARDING || HasStep(initial, name)
      ensures early ==> exists i :: 0 <= i < |initial| && initial[i].name !in done0
      ensures early ==> EndsAs(ending, goal, Stop(outcome), old(status), old(retryCount))
      ensures early && outcome.Finished? ==> EndedBy(ending, initial, env, executed)
      ensures !early ==> status == SUCCEEDED && retryCount == old(retryCount)
      ensures !early ==> outcome == Finished(Complete) && AtEnd(ctx, w, initial)
    {
      early := false;
      executed := [];
      var plan, n, index, done := initial, 0, 0, done0;
      ending := Ending(PlanStep("", OtherTool), None, env.result(0), 0);
      trace, s, w := trace0, s1, w1;
      while index < |plan|
        invariant Stands(initial, plan, index, done0, done, executed, s1.log, s0, trace, s, w)
        invariant w.pc == Looping && w.index == index
        invariant status == old(status) && retryCount == old(retryCount)
        decreases |initial| + 1 - index
      {
        var verdict;
        verdict, plan, done, executed, ending, trace, s, w :=
          TakeStep(initial, plan, index, done0, done, executed, goal, env, n, s1.log, s0, trace, s, w);
        if verdict.Stop? {
          outcome, early := verdict.outcome, true;
          ExecutedIsPlanned(ctx, initial, plan, index + 1, done0, done, executed);
          return;
        }
        index, n := index + 1, n + 3;
      }
      ExecutedIsPlanned(ctx, initial, plan, index, done0, done, executed);
      trace, s := FinishPlan(s0, trace, s, w);
      w := w.(pc := Stopped);
      outcome := Finished(Complete);
    }

    /** The run completed the execution; or it stopped early, and left it as `EndsAs` says. */
    ghost predicate EndsOr(early: bool, outcome: Outcome, e: Ending, goal: Goal, env: Env, executed: seq<StepName>,
          retries0: nat)
      reads this
    {
      if !early then outcome == Finished(Complete) && status == SUCCEEDED && retryCount == retries0
      else
        EndsAs(e, goal, Stop(outcome), RUNNING, retries0)
        && (outcome.Finished? ==> (exists n :: e.result == env.result(n))
                                  && executed != [] && executed[|executed| - 1] == e.step.name)
    }

    /** The run was ended by the result of the last tool it executed. */
    ghost predicate EndedBy(e: Ending, initial: seq<PlanStep>, env: Env, executed: seq<StepName>) {
      (exists n :: e.result == env.result(n)) && exists plan, i :: EndsAt(e, initial, plan, i, executed)
    }

    /** Read the completed steps. */
    method LoadPlan(initial: seq<PlanStep>, ghost positions: seq<nat>, ghost s0: State)
      returns (done: set<StepName>, ghost trace: seq<Event>, ghost s: State, ghost w: Runner)
      requires DistinctNames(ctx) && Inv(ctx, s0)
      requires Mirrors(s0, Runner(positions, 0, {}, Loading)) && Matches(ctx, positions, initial)
      ensures w == Runner(positions, 0, done, Looping)
      ensures RunTo(ctx, token, s0, trace, s) && Mirrors(s, w) && s.log == s0.log
      ensures OnboardingKnown(ctx, initial, done) && DistinctSteps(initial)
      ensures forall name :: name in done <==> Done(service.steps, name)
    {
      done := service.LoadCompleted(ctx.execution, ctx.owner);
      w := Runner(positions, 0, done, Looping);
      ghost var e := Step(token, QUIET);
      s, trace := Apply(ctx, s0, e), [e];
      RunOfOne(ctx, token, s0, e);
      StartIsCovered(ctx, token, s0, trace, s, w, initial);
      LoadedAreDone(ctx, s0, done);
    }

    /** Read the completed steps, then work through the plan. */
    method ExecutePlan(initial: seq<PlanStep>, goal: Goal, env: Env, ghost positions: seq<nat>, ghost s0: State)
      returns (outcome: Outcome, early: bool, executed: seq<StepName>,
               ghost ending: Ending, ghost trace: seq<Event>, ghost s: State)
      requires DistinctNames(ctx) && Inv(ctx, s0)
      requires Mirrors(s0, Runner(positions, 0, {}, Loading)) && Matches(ctx, positions, initial)
      modifies this`now, this`status, this`retryCount, service
      // The loop is a run of the protocol by this runner alone, from its start to its stop.
      ensures RunTo(ctx, token, s0, trace, s)
      ensures s.rows == service.steps && s.now == now && token in s.runners && s.runners[token].pc == Stopped
      ensures Logged(ctx, s0.log, s.log, executed)
      // However the plan grows, each step's tool runs at most once, and never for a step known completed.
      ensures |executed| <= |initial| + 1 && DistinctSeq(executed)
      ensures forall name :: name in executed ==> !Done(old(service.steps), name)
      ensures executed != [] ==> HasStep(initial, executed[0])
      ensures forall name :: name in executed ==> name == ONBOARDING || HasStep(initial, name)
      ensures AllDone(old(service.steps), initial) ==> executed == [] && !early
      // What the execution row says afterwards: nothing new when another worker or the store stopped the
      // run, and otherwise what the flags and the category of the last tool's result call for.
      ensures early ==> EndsAs(ending, goal, Stop(outcome), old(status), old(retryCount))
      ensures early && outcome.Finished? ==> EndedBy(ending, initial, env, executed)
                                             && ending.step in initial + [PlanStep(ONBOARDING, StartOnboarding)]
      // Unless a decision ended the run before the plan's end, every step is completed.
      ensures !early ==> outcome == Finished(Complete) && status == SUCCEEDED && retryCount == old(retryCount)
      ensures !early ==> AllDone(service.steps, initial)
    {
      ghost var w;
      var done;
      done, trace, s, w := LoadPlan(initial, positions, s0);
      outcome, early, executed, ending, trace, s, w := WorkThrough(initial, done, goal, env, s0, trace, s, w);
      if !early {
        EndOfRun(ctx, s0, trace, s, token, w, initial);
      } else if outcome.Finished? {
        ghost var plan, i :| EndsAt(ending, initial, plan, i, executed);
      }
      if executed != [] {
        assert executed[0] in executed;
      }
    }

    /** The plan's steps that are not completed, as positions and as steps. */
    method RemainingSteps(plan: seq<PlanStep>) returns (remaining: seq<PlanStep>)
      requires |plan| == |ctx.names| && forall i :: 0 <= i < |plan| ==> plan[i].name == ctx.names[i]
      ensures Matches(ctx, Remaining(ctx, service.steps, |ctx.names|), remaining) && |remaining| <= |plan|
      ensures forall i :: 0 <= i < |remaining| ==> remaining[i] in plan
    {
      var completed := service.LoadCompleted(ctx.execution, ctx.owner);
      ghost var rows := service.steps;
      remaining := [];
      for i := 0 to |plan|
        invariant Matches(ctx, Remaining(ctx, rows, i), remaining) && |remaining| <= i
        invariant forall j :: 0 <= j < |remaining| ==> remaining[j] in plan
      {
        ghost var before := remaining;
        if plan[i].name !in completed {
          remaining := remaining + [plan[i]];
        }
        assert Matches(ctx, Remaining(ctx, rows, i + 1), remaining) by {
          RemainingGrows(ctx, rows, i, before, plan[i]);
        }
      }
    }

    /** Validate the plan, then resume the mission's execution, or start it: the first time, and
        again after it has ended, because its idempotency key is always the same. */
    method Run(steps: seq<RawStep>, registry: map<string, ToolContract>, discovery: Discovery, goal: Goal, env: Env,
               ghost s0: State)
      returns (errors: seq<PlanError>, outcome: Outcome, early: bool, executed: seq<StepName>,
               ghost ending: Ending, ghost events: seq<Event>, ghost s: State)
      requires DistinctNames(ctx) && Inv(ctx, s0) && s0.rows == service.steps && s0.now == now
      requires token in s0.runners ==> s0.runners[token].pc == Stopped
      requires Names(ctx, steps)
      modifies this`now, this`status, this`retryCount, service
      // An invalid plan changes nothing.
      ensures errors == [] <==> ValidPlan(registry, discovery, steps)
      ensures errors != [] ==> s == s0 && executed == [] && service.steps == old(service.steps) && status == old(status)
      // Otherwise the call is a run of the protocol, resumed exactly when the execution had not ended.
      ensures errors == [] ==>
                events != [] && events[0] == Start(token, old(status) !in {ABSENT, SUCCEEDED, FAILED, CANCELLED})
      ensures s == From(ctx, s0, events) && s.rows == service.steps && s.now == now
      ensures Logged(ctx, s0.log, s.log, executed)
      // At most 51 tools run, each step's at most once, none for a step already completed, and each
      // for a step that passed the validation or for the onboarding step.
      ensures |executed| <= MAX_PLAN_STEPS + 1 && DistinctSeq(executed)
      ensures forall name :: name in executed ==> !Done(old(service.steps), name)
      ensures forall name :: name in executed ==> name == ONBOARDING || Validated(registry, discovery, steps, name)
      // It completes every step and the execution, or it stops early: the execution is then left as the
      // result of its last tool calls for, or running when the store or another worker stopped it.
      ensures errors == [] ==> EndsOr(early, outcome, ending, goal, env, executed, old(retryCount))
      ensures errors == [] && early && outcome.Finished? ==>
                ending.step in PlanOf(steps) + [PlanStep(ONBOARDING, StartOnboarding)]
      ensures errors == [] && !early ==> forall name :: name in ctx.names ==> Done(service.steps, name)
      // Repeating a mission whose steps are all completed runs no tool and completes it again.
      ensures errors == [] && (forall name :: name in ctx.names ==> Done(old(service.steps), name)) ==>
                executed == [] && !early
    {
      executed, events, s := [], [], s0;
      outcome, early, ending := StoreFailed, true, Ending(PlanStep("", OtherTool), None, env.result(0), 0);
      errors := Validate(registry, discovery, steps);
      if errors != [] {
        return;
      }
      outcome, early, executed, ending, events, s := Proceed(PlanOf(steps), goal, env, s0);
      ValidatedWhenPlanned(registry, discovery, steps, executed);
    }

    /** Go on with the steps that remain of an execution that has not ended, or start it afresh. */
    method Proceed(plan: seq<PlanStep>, goal: Goal, env: Env, ghost s0: State)
      returns (outcome: Outcome, early: bool, executed: seq<StepName>,
               ghost ending: Ending, ghost events: seq<Event>, ghost s: State)
      requires DistinctNames(ctx) && Inv(ctx, s0) && s0.rows == service.steps && s0.now == now
      requires token in s0.runners ==> s0.runners[token].pc == Stopped
      requires |plan| == |ctx.names| && forall i :: 0 <= i < |plan| ==> plan[i].name == ctx.names[i]
      modifies this`now, this`status, this`retryCount, service
      ensures events != [] && events[0] == Start(token, old(status) !in {ABSENT, SUCCEEDED, FAILED, CANCELLED})
      ensures s == From(ctx, s0, events) && s.rows == service.steps && s.now == now
      ensures Logged(ctx, s0.log, s.log, executed)
      ensures |executed| <= |plan| + 1 && DistinctSeq(executed)
      ensures forall name :: name in executed ==> !Done(old(service.steps), name)
      ensures forall name :: name in executed ==> name == ONBOARDING || HasStep(plan, name)
      ensures (forall name :: name in ctx.names ==> Done(old(service.steps), name)) ==> executed == [] && !early
      ensures EndsOr(early, outcome, ending, goal, env, executed, old(retryCount))
      ensures early && outcome.Finished? ==> ending.step in plan + [PlanStep(ONBOARDING, StartOnboarding)]
      ensures !early ==> forall name :: name in ctx.names ==> Done(service.steps, name)
    {
      var resumed := Resumable(status);
      var rest := plan;
      if resumed {
        rest := RemainingSteps(plan);
      }
      outcome, early, executed, ending, events, s := Launch(rest, resumed, goal, env, s0);
    }

    /** Start the runner on these steps; with none left, the execution is completed at once. */
    method Launch(steps: seq<PlanStep>, resumed: bool, goal: Goal, env: Env, ghost s0: State)
      returns (outcome: Outcome, early: bool, executed: seq<StepName>,
               ghost ending: Ending, ghost events: seq<Event>, ghost s: State)
      requires DistinctNames(ctx) && Inv(ctx, s0) && s0.rows == service.steps && s0.now == now
      requires token in s0.runners ==> s0.runners[token].pc == Stopped
      requires Matches(ctx, Begin(ctx, s0.rows, resumed).plan, steps)
      modifies this`now, this`status, this`retryCount, service
      ensures events != [] && events[0] == Start(token, resumed)
      ensures s == From(ctx, s0, events) && s.rows == service.steps && s.now == now
      ensures Logged(ctx, s0.log, s.log, executed)
      ensures |executed| <= |steps| + 1 && DistinctSeq(executed)
      ensures forall name :: name in executed ==> !Done(old(service.steps), name)
      ensures forall name :: name in executed ==> name == ONBOARDING || HasStep(steps, name)
      ensures AllDone(old(service.steps), steps) ==> executed == [] && !early
      ensures EndsOr(early, outcome, ending, goal, env, executed, old(retryCount))
      ensures early && outcome.Finished? ==> ending.step in steps + [PlanStep(ONBOARDING, StartOnboarding)]
      ensures !early ==> forall name :: name in ctx.names ==> Done(service.steps, name)
    {
      ghost var w := Begin(ctx, s0.rows, resumed);
      ghost var s1 := Apply(ctx, s0, Start(token, resumed));
      if resumed && steps == [] {
        status := SUCCEEDED;
        outcome, early, executed := Finished(Complete), false, [];
        ending := Ending(PlanStep("", OtherTool), None, env.result(0), 0);
        FromFirst(ctx, s0, Start(token, resumed), []);
        events, s := [Start(token, resumed)] + [], s1;
        GrowsOn(s0.rows, s0.rows, s0.rows);
        LaunchCompletes(ctx, s0.rows, resumed, steps, s.rows);
        return;
      }
      EventKeeps(ctx, s0, Start(token, resumed));
      outcome, early, executed, ending, events, s := Engage(steps, resumed, goal, env, s0, s1);
    }

    /** Mark the execution running and work through the steps. */
    method Engage(steps: seq<PlanStep>, resumed: bool, goal: Goal, env: Env, ghost s0: State, ghost s1: State)
      returns (outcome: Outcome, early: bool, executed: seq<StepName>,
               ghost ending: Ending, ghost events: seq<Event>, ghost s: State)
      requires DistinctNames(ctx) && AllShaped(ctx, s0.rows) && Inv(ctx, s1) && s1.rows == s0.rows
      requires s1 == Apply(ctx, s0, Start(token, resumed)) && Mirrors(s1, Begin(ctx, s0.rows, resumed))
      requires Begin(ctx, s0.rows, resumed).pc == Loading && Matches(ctx, Begin(ctx, s0.rows, resumed).plan, steps)
      modifies this`now, this`status, this`retryCount, service
      ensures events != [] && events[0] == Start(token, resumed)
      ensures s == From(ctx, s0, events) && s.rows == service.steps && s.now == now
      ensures Logged(ctx, s0.log, s.log, executed)
      ensures |executed| <= |steps| + 1 && DistinctSeq(executed)
      ensures forall name :: name in executed ==> !Done(old(service.steps), name)
      ensures forall name :: name in executed ==> name == ONBOARDING || HasStep(steps, name)
      ensures AllDone(old(service.steps), steps) ==> executed == [] && !early
      ensures EndsOr(early, outcome, ending, goal, env, executed, old(retryCount))
      ensures early && outcome.Finished? ==> ending.step in steps + [PlanStep(ONBOARDING, StartOnboarding)]
      ensures !early ==> forall name :: name in ctx.names ==> Done(service.steps, name)
    {
      ghost var w := Begin(ctx, s0.rows, resumed);
      status := RUNNING;
      ghost var trace;
      outcome, early, executed, ending, trace, s := ExecutePlan(steps, goal, env, w.plan, s1);
      FromFirst(ctx, s0, Start(token, resumed), trace);
      events := [Start(token, resumed)] + trace;
      if !early {
        FromGrows(ctx, s1, trace);
        LaunchCompletes(ctx, s0.rows, resumed, steps, s.rows);
      }
    }
  }

  /** With the steps completed that a run takes up, all those of the plan are. */
  lemma LaunchCompletes(c: Ctx, rows: seq<StepRow>, resumed: bool, steps: seq<PlanStep>, rows': seq<StepRow>)
    requires AllShaped(c, rows) && Matches(c, Begin(c, rows, resumed).plan, steps) && Grows(rows, rows')
    requires AllDone(rows', steps)
    ensures forall name :: name in c.names ==> Done(rows', name)
  {
    forall name | name in c.names ensures Done(rows', name) {
      var q :| 0 <= q < |c.names| && c.names[q] == name;
      LaunchedIsDone(c, rows, resumed, steps, rows', q);
    }
  }

  lemma LaunchedIsDone(c: Ctx, rows: seq<StepRow>, resumed: bool, steps: seq<PlanStep>, rows': seq<StepRow>, q: nat)
    requires AllShaped(c, rows) && Matches(c, Begin(c, rows, resumed).plan, steps) && Grows(rows, rows')
    requires AllDone(rows', steps) && q < |c.names|
    ensures Done(rows', c.names[q])
  {
    var plan := Begin(c, rows, resumed).plan;
    if !resumed {
      assert steps[q].name == NameAt(c, q) == c.names[q];
    } else if q in plan {
      var i :| 0 <= i < |plan| && plan[i] == q;
      assert steps[i].name == NameAt(c, q) == c.names[q];
    } else {
      LeftOutIsDone(c, rows, q);
      DoneStays(rows, rows', c.names[q]);
    }
  }

  predicate Resumable(status: ExecutionStatus) {
    status !in {ABSENT, SUCCEEDED, FAILED, CANCELLED}
  }

  lemma LoadedAreDone(c: Ctx, s: State, done: set<StepName>)
    requires Inv(c, s) && done == CompletedNow(c, s.rows)
    ensures forall name :: name in done <==> Done(s.rows, name)
  {
    forall name ensures name in done <==> Done(s.rows, name) {
      CompletedMeansDone(c, s.rows, name);
    }
  }

  lemma RemainingGrows(c: Ctx, rows: seq<StepRow>, i: nat, remaining: seq<PlanStep>, step: PlanStep)
    requires i < |c.names| && step.name == c.names[i] && Matches(c, Remaining(c, rows, i), remaining)
    ensures Matches(c, Remaining(c, rows, i + 1),
                    if step.name in CompletedNow(c, rows) then remaining else remaining + [step])
  {
    assert NameAt(c, i) == c.names[i];
  }

  lemma StartIsCovered(c: Ctx, t: Token, s0: State, trace: seq<Event>, s: State, w: Runner, plan: seq<PlanStep>)
    requires DistinctNames(c) && Inv(c, s0) && RunTo(c, t, s0, trace, s)
    requires t in s.runners && s.runners[t] == w && w.pc == Looping && Matches(c, w.plan, plan)
    ensures OnboardingKnown(c, plan, w.done) && DistinctSteps(plan)
  {
    FromKeeps(c, s0, trace);
    PlanIsDistinct(c, s.rows, w, plan);
    OnboardingIsCovered(c, s.rows, w);
    PlannedIsHasStep(c, w, plan, ONBOARDING);
  }

  lemma ExecutedIsPlanned(c: Ctx, initial: seq<PlanStep>, plan: seq<PlanStep>, index: nat, done0: set<StepName>,
        done: set<StepName>, executed: seq<StepName>)
    requires Progress(c, initial, plan, index, done0, done, executed)
    ensures forall name :: name in executed ==> name == ONBOARDING || HasStep(initial, name)
  {
    forall name | name in executed ensures name == ONBOARDING || HasStep(initial, name) {
      var i :| 0 <= i < index && plan[i].name == name;
      if i < |initial| {
        assert initial[i].name == name;
      }
    }
  }

  /** A turn of the loop keeps its progress. */
  lemma ProgressKept(c: Ctx, initial: seq<PlanStep>, plan: seq<PlanStep>, plan': seq<PlanStep>, index: nat,
        done0: set<StepName>, done: set<StepName>, done': set<StepName>, executed: seq<StepName>, step: PlanStep,
        ran: bool)
    requires Progress(c, initial, plan, index, done0, done, executed) && index < |plan| && plan[index] == step
    requires done <= done' && (ran ==> step.name !in done)
    requires plan' == plan
          || (ran && plan' == plan + [PlanStep(ONBOARDING, StartOnboarding)] && !HasStep(plan, ONBOARDING))
    ensures Progress(c, initial, plan', index + 1, done0, done', executed + if ran then [step.name] else [])
  {
    Appended(c, plan, plan', index, done, done');
    if plan != initial {
      assert plan[|initial|].name == ONBOARDING;
    }
    ExecutedGrows(plan, plan', index, done0, executed, step, ran);
    if ran {
      SomeStepWasOpen(initial, plan, index, done0, executed, step, ran);
    }
  }

  /** After a turn of the loop that attempted a step. */
  lemma TurnKeeps(c: Ctx, initial: seq<PlanStep>, plan: seq<PlanStep>, plan': seq<PlanStep>, index: nat,
        done0: set<StepName>, done: set<StepName>, done': set<StepName>, executed: seq<StepName>, step: PlanStep,
        ran: bool, log: seq<ToolRun>, log1: seq<ToolRun>, log2: seq<ToolRun>)
    requires Progress(c, initial, plan, index, done0, done, executed) && index < |plan| && plan[index] == step
    requires done <= done' && step.name !in done
    requires plan' == plan
          || (ran && plan' == plan + [PlanStep(ONBOARDING, StartOnboarding)] && !HasStep(plan, ONBOARDING))
    requires Logged(c, log, log1, executed) && Logged(c, log1, log2, if ran then [step.name] else [])
    ensures var executed' := executed + if ran then [step.name] else [];
            Progress(c, initial, plan', index + 1, done0, done', executed') && Logged(c, log, log2, executed')
            && (ran ==> executed' != [] && executed'[|executed'| - 1] == step.name)
    ensures (plan' == initial || plan' == initial + [PlanStep(ONBOARDING, StartOnboarding)])
            && index < |plan'| && plan'[index] == step
    ensures exists i :: 0 <= i < |initial| && initial[i].name !in done0
  {
    ProgressKept(c, initial, plan, plan', index, done0, done, done', executed, step, ran);
    SomeStepWasOpen(initial, plan, index, done0, executed, step, ran);
    LoggedOn(c, log, log1, log2, executed, if ran then [step.name] else []);
  }

  /** A run that stops before the plan's end met a step of the given plan that was not completed. */
  lemma SomeStepWasOpen(initial: seq<PlanStep>, plan: seq<PlanStep>, index: nat, done0: set<StepName>,
          executed: seq<StepName>, step: PlanStep, ran: bool)
    requires index < |plan| && plan[index] == step && step.name !in done0 && Executed(plan, index, done0, executed)
    requires plan == initial || executed != []
    requires executed != [] ==> HasStep(initial, executed[0])
    ensures exists i :: 0 <= i < |initial| && initial[i].name !in done0
    ensures var all := executed + if ran then [step.name] else []; all != [] ==> HasStep(initial, all[0])
  {
    if executed != [] {
      assert executed[0] in executed;
      var i :| 0 <= i < |initial| && initial[i].name == executed[0];
    } else {
      assert initial[index].name == step.name;
    }
  }

  lemma Appended(c: Ctx, plan: seq<PlanStep>, plan': seq<PlanStep>, index: nat, done: set<StepName>,
          done': set<StepName>)
    requires index < |plan| && DistinctSteps(plan) && OnboardingKnown(c, plan, done) && done <= done'
    requires plan' == plan || (plan' == plan + [PlanStep(ONBOARDING, StartOnboarding)] && !HasStep(plan, ONBOARDING))
    ensures plan <= plan' && DistinctSteps(plan') && (HasStep(plan, ONBOARDING) ==> HasStep(plan', ONBOARDING))
    ensures plan' != plan ==> HasStep(plan', ONBOARDING) && !HasStep(plan, ONBOARDING)
    ensures OnboardingKnown(c, plan', done')
  {
    if plan' != plan {
      assert plan'[|plan|].name == ONBOARDING;
    }
    if HasStep(plan, ONBOARDING) {
      var i :| 0 <= i < |plan| && plan[i].name == ONBOARDING;
      assert plan'[i].name == ONBOARDING;
    }
  }

  lemma ExecutedGrows(plan: seq<PlanStep>, plan': seq<PlanStep>, index: nat, done0: set<StepName>,
          executed: seq<StepName>, step: PlanStep, ran: bool)
    requires index < |plan| && plan <= plan' && DistinctSteps(plan) && plan[index] == step
    requires ran ==> step.name !in done0
    requires Executed(plan, index, done0, executed)
    ensures Executed(plan', index + 1, done0, executed + if ran then [step.name] else [])
  {
    var executed' := executed + if ran then [step.name] else [];
    forall e | e in executed ensures e != step.name && exists i :: 0 <= i < index + 1 && plan'[i].name == e {
      var i :| 0 <= i < index && plan[i].name == e;
      assert plan'[i].name == e;
    }
    assert plan'[index].name == step.name;
    forall e | e in executed' ensures e !in done0 && exists i :: 0 <= i < index + 1 && plan'[i].name == e {
      assert e in executed || e == step.name;
    }
  }

  lemma LoggedOn(c: Ctx, a: seq<ToolRun>, b: seq<ToolRun>, d: seq<ToolRun>, first: seq<StepName>, second: seq<StepName>)
    requires Logged(c, a, b, first) && Logged(c, b, d, second) && b <= d
    ensures Logged(c, a, d, first + second)
  {
  }
}
