/** What holds in every run of any number of plan runners on one execution, whatever crashes,
    lost replies, expired leases and resumes it contains. */
module PlanTheorems {
  import opened Wrappers
  import opened StepClaims
  import opened PlanProtocol

  // ------------------------------------------------------------------
  // Completed steps form a prefix
  // ------------------------------------------------------------------

  /** The completed steps are exactly the first `n` of the extended plan. */
  ghost predicate DoneExactlyTo(c: Ctx, rows: seq<StepRow>, n: nat) {
    n <= |Extended(c)| && forall p :: 0 <= p < |Extended(c)| ==> (Done(rows, Extended(c)[p]) <==> p < n)
  }

  lemma LaterIsNotDone(c: Ctx, rows: seq<StepRow>, p: nat, q: nat)
    requires InOrder(c, rows) && q < p < |Extended(c)| && !Done(rows, Extended(c)[q])
    ensures !Done(rows, Extended(c)[p])
  {
  }

  lemma OrderedIsPrefix(c: Ctx, rows: seq<StepRow>)
    requires InOrder(c, rows)
    ensures exists n :: DoneExactlyTo(c, rows, n)
  {
    var n := 0;
    while n < |Extended(c)| && Done(rows, Extended(c)[n])
      invariant n <= |Extended(c)|
      invariant forall p :: 0 <= p < n ==> Done(rows, Extended(c)[p])
    {
      n := n + 1;
    }
    forall p | n <= p < |Extended(c)| ensures !Done(rows, Extended(c)[p]) {
      if n < p {
        LaterIsNotDone(c, rows, p, n);
      }
    }
    assert DoneExactlyTo(c, rows, n);
  }

  /** After every run the completed steps form a prefix of the plan. */
  lemma CompletedStepsFormAPrefix(c: Ctx, events: seq<Event>)
    requires DistinctNames(c)
    ensures exists n :: DoneExactlyTo(c, After(c, events).rows, n)
  {
    RunKeeps(c, events);
    OrderedIsPrefix(c, After(c, events).rows);
  }

  /** Nothing outside the plan and its onboarding step is ever recorded. */
  lemma OnlyPlannedStepsRun(c: Ctx, events: seq<Event>, k: nat)
    requires DistinctNames(c) && k < |After(c, events).rows|
    ensures After(c, events).rows[k].name in Extended(c)
  {
    RunKeeps(c, events);
    assert Shaped(c, After(c, events).rows[k], k);
  }

  // ------------------------------------------------------------------
  // Attempts
  // ------------------------------------------------------------------

  /** How many of the first `n` rows are attempts of the step. */
  function Attempts(rows: seq<StepRow>, n: nat, name: StepName): nat
    requires n <= |rows|
  {
    if n == 0 then 0 else Attempts(rows, n - 1, name) + (if rows[n - 1].name == name then 1 else 0)
  }

  lemma {:induction false} NoAttemptsBetween(rows: seq<StepRow>, m: nat, n: nat, name: StepName)
    requires m <= n <= |rows| && forall k :: m <= k < n ==> rows[k].name != name
    ensures Attempts(rows, n, name) == Attempts(rows, m, name)
  {
    if m < n {
      NoAttemptsBetween(rows, m, n - 1, name);
    }
  }

  /** The attempt discipline, told by step name. */
  ghost predicate RisingByName(rows: seq<StepRow>) {
    forall i, j :: 0 <= i < j < |rows| && rows[i].name == rows[j].name ==> rows[i].attempt < rows[j].attempt
  }

  ghost predicate Backed(rows: seq<StepRow>, i: nat) {
    i < |rows| && (rows[i].attempt > 0 ==> Attempted(rows, rows[i].name, rows[i].attempt - 1))
  }

  ghost predicate BackedByName(rows: seq<StepRow>) {
    forall i :: 0 <= i < |rows| ==> Backed(rows, i)
  }

  lemma DisciplineByName(c: Ctx, rows: seq<StepRow>)
    requires AllShaped(c, rows) && Ordered(rows) && Contiguous(rows)
    ensures RisingByName(rows) && BackedByName(rows)
  {
    forall i, j | 0 <= i < j < |rows| && rows[i].name == rows[j].name ensures rows[i].attempt < rows[j].attempt {
      assert Shaped(c, rows[i], i) && Shaped(c, rows[j], j);
      assert Related(rows[j], rows[i].execution, rows[i].owner, rows[i].operation);
    }
    forall i | 0 <= i < |rows| ensures Backed(rows, i) {
      if rows[i].attempt > 0 {
        BackedRow(c, rows, i);
      }
    }
  }

  lemma BackedRow(c: Ctx, rows: seq<StepRow>, i: nat)
    requires AllShaped(c, rows) && Contiguous(rows) && i < |rows| && rows[i].attempt > 0
    ensures Attempted(rows, rows[i].name, rows[i].attempt - 1)
  {
    var row := rows[i];
    assert Recorded(rows, row.execution, row.owner, row.operation, row.attempt - 1);
    var j :| 0 <= j < |rows| && Related(rows[j], row.execution, row.owner, row.operation)
             && rows[j].attempt == row.attempt - 1;
    assert Shaped(c, rows[j], j) && Shaped(c, row, i);
  }

  /** An attempt's index is the number of attempts of the same step recorded before it. */
  lemma {:induction false} AttemptIsItsRank(rows: seq<StepRow>, i: nat)
    requires RisingByName(rows) && BackedByName(rows) && i < |rows|
    ensures rows[i].attempt == Attempts(rows, i, rows[i].name)
    decreases rows[i].attempt
  {
    if rows[i].attempt == 0 {
      FirstAttempt(rows, i);
    } else {
      var j := Previous(rows, i);
      AttemptIsItsRank(rows, j);
      NoAttemptsBetween(rows, j + 1, i, rows[i].name);
    }
  }

  lemma FirstAttempt(rows: seq<StepRow>, i: nat)
    requires RisingByName(rows) && i < |rows| && rows[i].attempt == 0
    ensures Attempts(rows, i, rows[i].name) == 0
  {
    NoAttemptsBetween(rows, 0, i, rows[i].name);
  }

  lemma Previous(rows: seq<StepRow>, i: nat) returns (j: nat)
    requires RisingByName(rows) && BackedByName(rows) && i < |rows| && rows[i].attempt > 0
    ensures j < i && rows[j].name == rows[i].name && rows[j].attempt == rows[i].attempt - 1
    ensures forall k :: j < k < i ==> rows[k].name != rows[i].name
  {
    assert Backed(rows, i);
    j :| 0 <= j < |rows| && rows[j].name == rows[i].name && rows[j].attempt == rows[i].attempt - 1;
  }

  /** In every run every attempt's index is the number of attempts of its step granted before it, so
      they are numbered 0, 1, 2, ...; and every one but the last has failed: at most one is completed,
      at most one is leased. */
  lemma AttemptsAreDisciplined(c: Ctx, events: seq<Event>, j: nat)
    requires DistinctNames(c) && j < |After(c, events).rows|
    ensures var s := After(c, events);
            && s.rows[j].attempt == Attempts(s.rows, j, s.rows[j].name)
            && (forall i :: 0 <= i < j && s.rows[i].name == s.rows[j].name ==>
                  s.rows[i].attempt < s.rows[j].attempt && s.rows[i].status == Failed && !Leased(s.rows[i], s.now))
  {
    RunKeeps(c, events);
    var s := After(c, events);
    DisciplineByName(c, s.rows);
    AttemptIsItsRank(s.rows, j);
    forall i | 0 <= i < j && s.rows[i].name == s.rows[j].name
      ensures s.rows[i].attempt < s.rows[j].attempt && s.rows[i].status == Failed
    {
      assert Shaped(c, s.rows[i], i) && Shaped(c, s.rows[j], j);
    }
  }

  /** A completed attempt never changes, and its step is never claimed again. */
  lemma CompletionIsFinal(c: Ctx, events: seq<Event>, more: seq<Event>, k: nat, j: nat)
    requires DistinctNames(c) && k < |After(c, events).rows| && After(c, events).rows[k].status == Completed
    ensures k < |After(c, events + more).rows| && After(c, events + more).rows[k] == After(c, events).rows[k]
    ensures |After(c, events).rows| <= j < |After(c, events + more).rows| ==>
              After(c, events + more).rows[j].name != After(c, events).rows[k].name
  {
    RunGrows(c, events, more);
    RunKeeps(c, events + more);
    var rows' := After(c, events + more).rows;
    if |After(c, events).rows| <= j < |rows'| {
      assert Shaped(c, rows'[k], k) && Shaped(c, rows'[j], j);
      assert rows'[k].status == Completed;
      assert !Related(rows'[j], rows'[k].execution, rows'[k].owner, rows'[k].operation);
    }
  }

  // ------------------------------------------------------------------
  // Fencing
  // ------------------------------------------------------------------

  /** A claim recovered as stale stays failed, without a token, for ever. */
  lemma RecoveredStaysFailed(c: Ctx, events: seq<Event>, more: seq<Event>, k: nat)
    requires DistinctNames(c) && k < |After(c, events).rows|
    requires After(c, events).rows[k].token == None
    ensures After(c, events).rows[k].status == Failed
    ensures k < |After(c, events + more).rows| && After(c, events + more).rows[k] == After(c, events).rows[k]
  {
    RunKeeps(c, events);
    assert Shaped(c, After(c, events).rows[k], k);
    RunGrows(c, events, more);
  }

  /** In every run, the late settlement of a runner whose claim was taken over changes no row,
      whatever the new claimant has done since, and the runner stops. */
  lemma LateSettlementChangesNothing(c: Ctx, events: seq<Event>, t: Token, reply: Reply)
    requires DistinctNames(c) && t in After(c, events).runners && After(c, events).runners[t].pc.Settling?
    requires var s := After(c, events); var row := s.runners[t].pc.row;
             row >= |s.rows| || s.rows[row].token != Some(t)
    ensures After(c, events + [Step(t, reply)]).rows == After(c, events).rows
    ensures After(c, events + [Step(t, reply)]).runners[t].pc == Stopped
  {
    RunKeeps(c, events);
    assert (events + [Step(t, reply)])[..|events|] == events;
    LateSettlement(c, After(c, events), t, reply);
  }

  lemma LateSettlement(c: Ctx, s: State, t: Token, reply: Reply)
    requires Inv(c, s) && t in s.runners && s.runners[t].pc.Settling?
    requires var row := s.runners[t].pc.row; row >= |s.rows| || s.rows[row].token != Some(t)
    ensures Apply(c, s, Step(t, reply)).rows == s.rows && Apply(c, s, Step(t, reply)).runners[t].pc == Stopped
  {
    var w := s.runners[t];
    assert PcInv(c, s.rows, s.now, t, w);
    SettleHits(c, s.rows, w.pc.row, None, t, if w.pc.ok then Completed else Failed);
  }

  // ------------------------------------------------------------------
  // Tool executions
  // ------------------------------------------------------------------

  /** In every run, a tool execution of a step already recorded completed was made on a claim that
      had been taken over after its lease ran out. A runner that still holds its claim never runs
      a completed step. */
  lemma ToolsRunOnlyUncompletedSteps(c: Ctx, events: seq<Event>, i: nat)
    requires DistinctNames(c) && i < |After(c, events).log|
    ensures var s := After(c, events); var run := s.log[i];
            run.row < |s.rows| && s.rows[run.row].lease.Some?
            && (run.recorded ==> !run.held && s.rows[run.row].lease.value <= run.at)
  {
    RunKeeps(c, events);
    assert Excused(After(c, events).rows, After(c, events).log[i]);
  }

  /** The code's own guard, asked once more: claiming the step's next attempt would be refused, with a
      completed attempt for an answer. */
  predicate ClaimIsRefused(c: Ctx, rows: seq<StepRow>, now: Time, name: StepName, t: Token) {
    var attempt := NextAttempt(rows, |rows|, c.execution, c.owner, name);
    var reply := GrantClaim(rows, Request(c, |rows|, name, attempt, t), now).1;
    !reply.claimed && reply.row.status == Completed
  }

  /** The next attempt's key is not yet taken. */
  lemma NextAttemptIsUnknown(c: Ctx, rows: seq<StepRow>, name: StepName, t: Token)
    requires AllShaped(c, rows)
    ensures var attempt := NextAttempt(rows, |rows|, c.execution, c.owner, name);
            FindKey(rows, |rows|, c.owner, Request(c, |rows|, name, attempt, t).key) == None
  {
    var attempt := NextAttempt(rows, |rows|, c.execution, c.owner, name);
    forall k | 0 <= k < |rows| ensures rows[k].key != PlanKey(c.execution, name, attempt) {
      assert Shaped(c, rows[k], k);
    }
  }

  lemma RefusedExactlyWhenDone(c: Ctx, rows: seq<StepRow>, now: Time, name: StepName, t: Token)
    requires AllShaped(c, rows) && Ordered(rows)
    ensures ClaimIsRefused(c, rows, now, name, t) <==> Done(rows, name)
  {
    var attempt := NextAttempt(rows, |rows|, c.execution, c.owner, name);
    var r := Request(c, |rows|, name, attempt, t);
    if ClaimIsRefused(c, rows, now, name, t) {
      RefusedByCompletion(c, rows, now, name, attempt, t);
    }
    if Done(rows, name) {
      var k :| 0 <= k < |rows| && rows[k].name == name && rows[k].status == Completed;
      assert Shaped(c, rows[k], k);
      NextAttemptIsUnknown(c, rows, name, t);
      NothingClaimableAfterCompletion(rows, k, r, now);
      CompletedIsLatest(rows, k, r);
    }
  }

  lemma CompletedIsLatest(rows: seq<StepRow>, k: nat, r: ClaimRequest)
    requires Ordered(rows) && k < |rows| && rows[k].status == Completed
    requires Related(rows[k], r.execution, r.owner, r.operation)
    ensures Latest(rows, |rows|, r.execution, r.owner, r.operation) == Some(k)
  {
    assert Latest(rows, |rows|, r.execution, r.owner, r.operation).Some?;
  }

  /** The runner's next action executes the tool of a step that is already completed. */
  ghost predicate WouldRepeat(c: Ctx, s: State, t: Token) {
    t in s.runners && s.runners[t].pc.Running? && Done(s.rows, Current(c, s.runners[t]))
  }

  /** Exactly when: in every run, a runner about to execute its tool repeats a completed step if and
      only if the guard it passed before would now refuse it. Its own claim is then lost. */
  lemma RepeatsExactlyWhenItsGuardWouldRefuse(c: Ctx, events: seq<Event>, t: Token)
    requires DistinctNames(c) && t in After(c, events).runners && After(c, events).runners[t].pc.Running?
    ensures var s := After(c, events);
            WouldRepeat(c, s, t) <==> ClaimIsRefused(c, s.rows, s.now, Current(c, s.runners[t]), t)
    ensures var s := After(c, events); var row := s.runners[t].pc.row;
            WouldRepeat(c, s, t) ==> row < |s.rows| && !HoldsRow(s.rows[row], s.now)
  {
    RunKeeps(c, events);
    var s := After(c, events);
    var w := s.runners[t];
    assert PcInv(c, s.rows, s.now, t, w);
    RefusedExactlyWhenDone(c, s.rows, s.now, Current(c, w), t);
    RepeatedIsLost(c, s.rows, s.now, t, w, w.pc.row);
  }

  predicate HoldsRow(row: StepRow, now: Time) {
    row.token.Some? || (row.lease.Some? && row.lease.value > now)
  }

  lemma RepeatedIsLost(c: Ctx, rows: seq<StepRow>, now: Time, t: Token, w: Runner, row: nat)
    requires RowsInv(c, rows) && AtRow(c, rows, now, t, w, row)
    ensures Done(rows, Current(c, w)) ==> !HoldsRow(rows[row], now)
  {
    if rows[row].status == InProgress {
      HeldStepIsNotDone(c, rows, row);
    }
  }

  predicate Ahead(pc: Pc, row: nat) {
    (pc.Marking? || pc.Running?) && pc.row == row
  }

  predicate LogDistinct(log: seq<ToolRun>) {
    forall i, j :: 0 <= i < j < |log| ==> log[i].row != log[j].row
  }

  /** No row is about to be run twice. */
  predicate Once(s: State) {
    LogDistinct(s.log)
    && (forall i :: 0 <= i < |s.log| ==> s.log[i].row < |s.rows|)
    && (forall t :: t in s.runners && (s.runners[t].pc.Marking? || s.runners[t].pc.Running?) ==>
          s.runners[t].pc.row < |s.rows|
          && (forall i :: 0 <= i < |s.log| ==> s.log[i].row != s.runners[t].pc.row)
          && (forall u :: u in s.runners && u != t ==> !Ahead(s.runners[u].pc, s.runners[t].pc.row)))
  }

  lemma OnceMoves(s: State, s': State, t: Token, w': Runner)
    requires Once(s) && t in s.runners && |s.rows| <= |s'.rows|
    requires s'.log == s.log && s'.runners == s.runners[t := w']
    requires w'.pc.Marking? || w'.pc.Running? ==>
               Ahead(s.runners[t].pc, w'.pc.row) || w'.pc.row == |s.rows| < |s'.rows|
    ensures Once(s')
  {
  }

  lemma OnceIdles(s: State, t: Token, w': Runner)
    requires Once(s) && !w'.pc.Marking? && !w'.pc.Running?
    ensures Once(s.(runners := s.runners[t := w']))
  {
  }

  lemma OnceRuns(s: State, s': State, t: Token, w': Runner, run: ToolRun)
    requires Once(s) && t in s.runners && s.runners[t].pc.Running? && run.row == s.runners[t].pc.row
    requires s'.rows == s.rows && s'.log == s.log + [run] && s'.runners == s.runners[t := w'] && w'.pc.Settling?
    ensures Once(s')
  {
    forall u | u in s'.runners && (s'.runners[u].pc.Marking? || s'.runners[u].pc.Running?)
      ensures run.row != s'.runners[u].pc.row
    {
      assert u != t && !Ahead(s.runners[u].pc, run.row);
    }
  }

  lemma StepKeepsOnce(c: Ctx, s: State, t: Token, reply: Reply)
    requires DistinctNames(c) && Inv(c, s) && Once(s) && t in s.runners
    ensures Once(Act(c, s, t, s.runners[t], reply))
  {
    var w := s.runners[t];
    var s' := Act(c, s, t, w, reply);
    assert Grows(s.rows, s'.rows) by { StepKeeps(c, s, t, reply); }
    if w.pc.Running? {
      OnceRuns(s, s', t, Ran(c, w, w.pc.row, reply), LogEntry(c, s, t, w, w.pc.row));
    } else if !w.pc.Stopped? {
      NewAheadIsOldOrAdded(c, s, t, reply);
      OnceMoves(s, s', t, s'.runners[t]);
    }
  }

  lemma NewAheadIsOldOrAdded(c: Ctx, s: State, t: Token, reply: Reply)
    requires t in s.runners && !s.runners[t].pc.Running?
    ensures var s' := Act(c, s, t, s.runners[t], reply);
            s'.log == s.log && t in s'.runners && s'.runners == s.runners[t := s'.runners[t]]
            && (s'.runners[t].pc.Marking? || s'.runners[t].pc.Running? ==>
                  Ahead(s.runners[t].pc, s'.runners[t].pc.row) || s'.runners[t].pc.row == |s.rows| < |s'.rows|)
  {
    var w := s.runners[t];
    if w.pc.Claiming? {
      var r := Request(c, |s.rows|, Current(c, w), w.pc.attempt, t);
      if GrantClaim(s.rows, r, s.now).1.claimed {
        GrantAppends(s.rows, r, s.now);
      }
    } else if w.pc.Stopped? {
      assert s.runners[t := w] == s.runners;
    }
  }

  lemma EventKeepsOnce(c: Ctx, s: State, e: Event)
    requires DistinctNames(c) && Inv(c, s) && Once(s)
    ensures Once(Apply(c, s, e))
  {
    match e
    case Tick(_) =>
    case Start(t, resumed) =>
      if Apply(c, s, e) != s {
        OnceIdles(s, t, Begin(c, s.rows, resumed));
      }
    case Crash(t) =>
      if t in s.runners {
        OnceIdles(s, t, s.runners[t].(pc := Stopped));
      }
    case Step(t, reply) =>
      if t in s.runners {
        StepKeepsOnce(c, s, t, reply);
      }
  }

  lemma {:induction false} RunKeepsOnce(c: Ctx, events: seq<Event>)
    requires DistinctNames(c)
    ensures Once(After(c, events))
  {
    if events == [] {
    } else {
      var n := |events| - 1;
      RunKeeps(c, events[..n]);
      RunKeepsOnce(c, events[..n]);
      EventKeepsOnce(c, After(c, events[..n]), events[n]);
    }
  }

  /** In every run, each granted attempt executes its tool at most once. */
  lemma EachAttemptRunsItsToolOnce(c: Ctx, events: seq<Event>, i: nat, j: nat)
    requires DistinctNames(c) && i < j < |After(c, events).log|
    ensures After(c, events).log[i].row < |After(c, events).rows|
    ensures After(c, events).log[i].row != After(c, events).log[j].row
  {
    RunKeepsOnce(c, events);
  }

  // ------------------------------------------------------------------
  // Resuming
  // ------------------------------------------------------------------

  /** A resumed run never takes up an onboarding step that an earlier run had appended: its plan
      is empty, and the execution is marked completed, exactly when every step of the original
      plan is completed, whether or not onboarding was still owed. */
  lemma ResumeForgetsTheAppendedStep(c: Ctx, events: seq<Event>)
    requires DistinctNames(c) && ONBOARDING !in c.names
    ensures var w := Begin(c, After(c, events).rows, true);
            |c.names| !in w.plan
            && (w.pc == Stopped <==> forall q :: 0 <= q < |c.names| ==> Done(After(c, events).rows, c.names[q]))
  {
    RunKeeps(c, events);
    ResumedPlan(c, After(c, events).rows);
  }

  lemma RemainingIsUndone(c: Ctx, rows: seq<StepRow>, q: nat)
    requires AllShaped(c, rows) && q < |c.names|
    ensures q in Remaining(c, rows, |c.names|) <==> !Done(rows, c.names[q])
  {
    RemainingIs(c, rows, |c.names|);
    CompletedMeansDone(c, rows, c.names[q]);
  }

  lemma ResumedPlan(c: Ctx, rows: seq<StepRow>)
    requires AllShaped(c, rows)
    ensures var plan := Remaining(c, rows, |c.names|);
            |c.names| !in plan && (plan == [] <==> forall q :: 0 <= q < |c.names| ==> Done(rows, c.names[q]))
  {
    var plan := Remaining(c, rows, |c.names|);
    RemainingIs(c, rows, |c.names|);
    if plan == [] {
      forall q | 0 <= q < |c.names| ensures Done(rows, c.names[q]) {
        RemainingIsUndone(c, rows, q);
      }
    } else {
      assert plan[0] in plan;
      RemainingIsUndone(c, rows, plan[0]);
    }
  }

  // ------------------------------------------------------------------
  // A lease is no fence around the tool
  // ------------------------------------------------------------------

  const ONE_STEP := Ctx(0, 0, 0, ["a"])
  const SUCCESS := Reply(false, true, false, false)

  ghost predicate Reachable(s: State) {
    exists events :: After(ONE_STEP, events) == s
  }

  lemma Reach(s: State, e: Event, s': State)
    requires Reachable(s) && Apply(ONE_STEP, s, e) == s'
    ensures Reachable(s')
  {
    var events :| After(ONE_STEP, events) == s;
    assert (events + [e])[..|events|] == events;
    assert After(ONE_STEP, events + [e]) == s';
  }

  function Attempt(attempt: nat, t: Token, granted: Time): StepRow {
    NewRow(Request(ONE_STEP, attempt, "a", attempt, t), granted)
  }

  function At(pc: Pc): Runner {
    Runner([0], 0, {}, pc)
  }

  /** Runner 1 claims the step and stalls before its tool, past its lease. */
  lemma FirstRunnerStalls()
    ensures Reachable(State(60, [Attempt(0, 1, 0)], map[1 := At(Running(0))], []))
  {
    assert After(ONE_STEP, []) == INITIAL;
    assert Begin(ONE_STEP, [], false) == At(Loading);
    var rows := [Attempt(0, 1, 0)];
    Reach(INITIAL, Start(1, false), State(0, [], map[1 := At(Loading)], []));
    FirstRunnerLoads();
    Reach(State(0, [], map[1 := At(Looping)], []), Step(1, SUCCESS), State(0, [], map[1 := At(Claiming(0))], []));
    Reach(State(0, [], map[1 := At(Claiming(0))], []), Step(1, SUCCESS), State(0, rows, map[1 := At(Marking(0))], []));
    FirstRunnerMarks(rows);
    Reach(State(0, rows, map[1 := At(Running(0))], []), Tick(60), State(60, rows, map[1 := At(Running(0))], []));
  }

  lemma FirstRunnerLoads()
    requires Reachable(State(0, [], map[1 := At(Loading)], []))
    ensures Reachable(State(0, [], map[1 := At(Looping)], []))
  {
    Reach(State(0, [], map[1 := At(Loading)], []), Step(1, SUCCESS), State(0, [], map[1 := At(Looping)], []));
  }

  lemma FirstRunnerMarks(rows: seq<StepRow>)
    requires rows == [Attempt(0, 1, 0)] && Reachable(State(0, rows, map[1 := At(Marking(0))], []))
    ensures Reachable(State(0, rows, map[1 := At(Running(0))], []))
  {
    SettleHits(ONE_STEP, rows, 0, Some("a"), 1, InProgress);
    assert rows[0 := rows[0]] == rows;
    Reach(State(0, rows, map[1 := At(Marking(0))], []), Step(1, SUCCESS), State(0, rows, map[1 := At(Running(0))], []));
  }

  function Both(pc: Pc): map<Token, Runner> {
    map[1 := At(Running(0)), 2 := At(pc)]
  }

  /** Runner 2 takes the step over. */
  lemma SecondRunnerLoads()
    ensures Reachable(State(60, [Attempt(0, 1, 0)], Both(Looping), []))
  {
    FirstRunnerStalls();
    var rows := [Attempt(0, 1, 0)];
    assert Begin(ONE_STEP, rows, false) == At(Loading);
    assert CompletedNow(ONE_STEP, rows) == {};
    Reach(State(60, rows, map[1 := At(Running(0))], []), Start(2, false), State(60, rows, Both(Loading), []));
    Reach(State(60, rows, Both(Loading), []), Step(2, SUCCESS), State(60, rows, Both(Looping), []));
  }

  lemma SecondRunnerClaims()
    ensures Reachable(State(60, TAKEN_OVER, Both(Marking(1)), []))
  {
    SecondRunnerLoads();
    var rows := [Attempt(0, 1, 0)];
    assert NextAttempt(rows, 1, 0, 0, "a") == 1;
    Reach(State(60, rows, Both(Looping), []), Step(2, SUCCESS), State(60, rows, Both(Claiming(1)), []));
    SecondClaimIsGranted();
    Reach(State(60, rows, Both(Claiming(1)), []), Step(2, SUCCESS), State(60, TAKEN_OVER, Both(Marking(1)), []));
  }

  lemma SecondClaimIsGranted()
    ensures GrantClaim([Attempt(0, 1, 0)], Request(ONE_STEP, 1, "a", 1, 2), 60)
         == ([Recovered(Attempt(0, 1, 0)), Attempt(1, 2, 60)], ClaimReply(Attempt(1, 2, 60), true))
  {
    var rows := [Attempt(0, 1, 0)];
    assert Latest(rows, 1, 0, 0, Operation(ONE_STEP, "a")) == Some(0);
    assert rows[0 := Recovered(rows[0])] + [Attempt(1, 2, 60)] == [Recovered(Attempt(0, 1, 0)), Attempt(1, 2, 60)];
  }

  const TAKEN_OVER := [Recovered(Attempt(0, 1, 0)), Attempt(1, 2, 60)]
  const COMPLETED := [Recovered(Attempt(0, 1, 0)), Attempt(1, 2, 60).(status := Completed)]
  const SECOND_RUN := ToolRun(0, 2, 1, 60, false, true)
  const FIRST_RUN := ToolRun(0, 1, 0, 60, true, false)

  /** Runner 2 runs the tool and completes the step. */
  lemma SecondRunnerMarks()
    ensures Reachable(State(60, TAKEN_OVER, Both(Running(1)), []))
  {
    SecondRunnerClaims();
    SettleHits(ONE_STEP, TAKEN_OVER, 1, Some("a"), 2, InProgress);
    assert TAKEN_OVER[1 := TAKEN_OVER[1]] == TAKEN_OVER;
    Reach(State(60, TAKEN_OVER, Both(Marking(1)), []), Step(2, SUCCESS), State(60, TAKEN_OVER, Both(Running(1)), []));
  }

  lemma SecondRunnerRuns()
    ensures Reachable(State(60, TAKEN_OVER, Both(Settling(1, true, false)), [SECOND_RUN]))
  {
    SecondRunnerMarks();
    assert CompletedNow(ONE_STEP, TAKEN_OVER) == {};
    Reach(State(60, TAKEN_OVER, Both(Running(1)), []), Step(2, SUCCESS),
          State(60, TAKEN_OVER, Both(Settling(1, true, false)), [SECOND_RUN]));
  }

  lemma SecondRunnerCompletes()
    ensures Reachable(State(60, COMPLETED, Both(Stopped), [SECOND_RUN]))
  {
    SecondRunnerRuns();
    SettleHits(ONE_STEP, TAKEN_OVER, 1, None, 2, Completed);
    assert TAKEN_OVER[1 := Settled(TAKEN_OVER[1], None, Completed)] == COMPLETED;
    Reach(State(60, TAKEN_OVER, Both(Settling(1, true, false)), [SECOND_RUN]), Step(2, SUCCESS),
          State(60, COMPLETED, Both(Stopped), [SECOND_RUN]));
  }

  /** The lease fences the rows, not the tool: some run executes the tool of a step already
      recorded completed. */
  lemma StaleRunnerMayRepeatACompletedStep()
    ensures exists events, i: nat :: i < |After(ONE_STEP, events).log| && After(ONE_STEP, events).log[i].recorded
  {
    SecondRunnerCompletes();
    assert "a" in CompletedNow(ONE_STEP, COMPLETED);
    var s := State(60, COMPLETED, map[1 := At(Settling(0, true, false)), 2 := At(Stopped)], [SECOND_RUN, FIRST_RUN]);
    Reach(State(60, COMPLETED, Both(Stopped), [SECOND_RUN]), Step(1, SUCCESS), s);
    var events :| After(ONE_STEP, events) == s;
    assert After(ONE_STEP, events).log[1].recorded;
  }
}
