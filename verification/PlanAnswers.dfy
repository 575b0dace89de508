/** What each event of a plan runner does, whatever it meets; and progress: a runner that is left alone, and
    whose tools succeed, completes the plan. */
module PlanAnswers {
  import opened Wrappers
  import opened StepClaims
  import opened PlanProtocol

  // ------------------------------------------------------------------
  // Each event
  // ------------------------------------------------------------------

  /** The steps by position: those of the plan, then onboarding unless the plan holds it. */
  lemma NamesAre(c: Ctx, p: nat)
    ensures p < |c.names| ==> NameAt(c, p) == c.names[p]
    ensures p == |c.names| && "start_onboarding" !in c.names ==> NameAt(c, p) == "start_onboarding"
    ensures p > |c.names| || (p == |c.names| && "start_onboarding" in c.names) ==> NameAt(c, p) == ""
  {
  }

  /** The runner alone has changed, and not its plan. */
  predicate OnlyMoved(s: State, s': State, t: Token) {
    t in s.runners && t in s'.runners && s' == s.(runners := s.runners[t := s'.runners[t]])
    && s'.runners[t].plan == s.runners[t].plan
  }

  predicate Keeps(w: Runner, w': Runner) {
    w'.plan == w.plan && w'.index == w.index && w'.done == w.done
  }

  /** Reading the completed steps. */
  lemma LoadAnswers(c: Ctx, s: State, t: Token, r: Reply)
    requires t in s.runners && s.runners[t].pc == Loading
    ensures var s' := Apply(c, s, Step(t, r));
            OnlyMoved(s, s', t) && s'.runners[t].pc == Looping && s'.runners[t].index == s.runners[t].index
            && forall name :: name in s'.runners[t].done
                              <==> exists k :: 0 <= k < |s.rows| && s.rows[k].name == name
                                               && s.rows[k].status == Completed
                                               && s.rows[k].execution == c.execution && s.rows[k].owner == c.owner
  {
  }

  /** The loop test: stop past the end, pass over a step known completed, and ask otherwise for the attempt
      after the largest recorded under the step's name. */
  lemma TestAnswers(c: Ctx, s: State, t: Token, r: Reply)
    requires t in s.runners && s.runners[t].pc == Looping
    ensures var w, s' := s.runners[t], Apply(c, s, Step(t, r));
            OnlyMoved(s, s', t) && s'.runners[t].done == w.done
            && (s'.runners[t].pc == Stopped <==> w.index >= |w.plan|)
            && (s'.runners[t].pc == Looping <==> w.index < |w.plan| && NameAt(c, w.plan[w.index]) in w.done)
            && (s'.runners[t].pc.Claiming? <==> w.index < |w.plan| && NameAt(c, w.plan[w.index]) !in w.done)
            && s'.runners[t].index == w.index + (if s'.runners[t].pc == Looping then 1 else 0)
            && (s'.runners[t].pc.Claiming? ==>
                  IsNext(c, s.rows, NameAt(c, w.plan[w.index]), s'.runners[t].pc.attempt))
  {
  }

  predicate OfStep(c: Ctx, row: StepRow, name: StepName) {
    row.execution == c.execution && row.owner == c.owner && row.name == name
  }

  ghost predicate IsNext(c: Ctx, rows: seq<StepRow>, name: StepName, attempt: nat) {
    (forall k :: 0 <= k < |rows| && OfStep(c, rows[k], name) ==> rows[k].attempt < attempt)
    && (attempt > 0 ==> exists k :: 0 <= k < |rows| && OfStep(c, rows[k], name) && rows[k].attempt + 1 == attempt)
  }

  /** The claim of the step, under its key and for sixty seconds: granted, the runner goes on to its row;
      refused as completed, it passes over the step; refused otherwise, or without a reply, it stops. */
  lemma ClaimAnswers(c: Ctx, s: State, t: Token, r: Reply)
    requires t in s.runners && s.runners[t].pc.Claiming? && s.runners[t].index < |s.runners[t].plan|
    ensures var w, s' := s.runners[t], Apply(c, s, Step(t, r));
            var name := NameAt(c, w.plan[w.index]);
            var (rows', answer) := GrantClaim(s.rows, ClaimRequest(|s.rows|, c.execution, c.owner, name, w.pc.attempt,
                                                                   PlanKey(c.execution, name, w.pc.attempt),
                                                                   OperationKey(c.mission, c.execution, name),
                                                                   t, 60), s.now);
            OnlyMoved(s.(rows := rows'), s', t)
            && (s'.runners[t].pc == Marking(|s.rows|) <==> !r.lost && answer.claimed)
            && (s'.runners[t].pc == Looping <==> !r.lost && !answer.claimed && answer.row.status == Completed)
            && (s'.runners[t].pc in {Marking(|s.rows|), Looping, Stopped})
            && (if s'.runners[t].pc == Looping
                then s'.runners[t].index == w.index + 1 && s'.runners[t].done == w.done + {name}
                else Keeps(w, s'.runners[t]))
  {
  }

  /** The update that names the claimed row: its holder goes on to the tool, anybody else stops. */
  lemma MarkAnswers(c: Ctx, s: State, t: Token, r: Reply)
    requires t in s.runners && s.runners[t].pc.Marking? && AllShaped(c, s.rows) && s.runners[t].pc.row < |s.rows|
    ensures var w, s' := s.runners[t], Apply(c, s, Step(t, r));
            var row, held := w.pc.row, s.rows[w.pc.row].token == Some(t);
            var marked := s.rows[row].(status := InProgress, name := Current(c, w));
            OnlyMoved(s.(rows := if held then s.rows[row := marked] else s.rows), s', t)
            && Keeps(w, s'.runners[t])
            && s'.runners[t].pc == if held && !r.lost then Running(row) else Stopped
  {
    SettleHits(c, s.rows, s.runners[t].pc.row, Some(Current(c, s.runners[t])), t, InProgress);
  }

  /** The tool: it is logged as run, for the step and row the runner is at, and a successful status check that
      asks for onboarding appends it, unless it is completed or planned. */
  lemma ToolAnswers(c: Ctx, s: State, t: Token, r: Reply)
    requires t in s.runners && s.runners[t].pc.Running? && s.runners[t].index < |s.runners[t].plan|
    ensures var w, s' := s.runners[t], Apply(c, s, Step(t, r));
            var w' := s'.runners[t];
            var wants := r.ok && r.onboard && "start_onboarding" !in w.done
                         && forall i :: 0 <= i < |w.plan| ==> NameAt(c, w.plan[i]) != "start_onboarding";
            s' == s.(runners := s.runners[t := w'], log := s'.log)
            && w'.plan == w.plan + (if wants then [|c.names|] else []) && w'.index == w.index && w'.done == w.done
            && w'.pc == Settling(w.pc.row, r.ok, r.ok && r.follow && w.index + 1 < |w'.plan|)
            && |s'.log| == |s.log| + 1 && s.log <= s'.log
            && s'.log[|s.log|].position == w.plan[w.index] && s'.log[|s.log|].token == t
            && s'.log[|s.log|].row == w.pc.row && s'.log[|s.log|].at == s.now
  {
    assert s.runners[t].plan + [] == s.runners[t].plan;
  }

  /** The settlement: its holder's result is recorded, and only then does a plan that goes on go on. */
  lemma SettlementAnswers(c: Ctx, s: State, t: Token, r: Reply)
    requires t in s.runners && s.runners[t].pc.Settling? && AllShaped(c, s.rows) && s.runners[t].pc.row < |s.rows|
    ensures var w, s' := s.runners[t], Apply(c, s, Step(t, r));
            var row, held := w.pc.row, s.rows[w.pc.row].token == Some(t);
            var settled := s.rows[row].(status := if w.pc.ok then Completed else Failed);
            OnlyMoved(s.(rows := if held then s.rows[row := settled] else s.rows), s', t)
            && s'.runners[t].done == w.done
            && if held && !r.lost && w.pc.follow then s'.runners[t].pc == Looping && s'.runners[t].index == w.index + 1
               else s'.runners[t].pc == Stopped && s'.runners[t].index == w.index
  {
    SettleHits(c, s.rows, s.runners[t].pc.row, None, t, if s.runners[t].pc.ok then Completed else Failed);
  }

  /** A start: with the whole plan or, resuming, with the positions of the steps that are not completed. */
  lemma StartAnswers(c: Ctx, s: State, t: Token, resumed: bool)
    requires t in s.runners ==> s.runners[t].pc == Stopped
    ensures var s' := Apply(c, s, Start(t, resumed));
            t in s'.runners && s' == s.(runners := s.runners[t := s'.runners[t]])
            && s'.runners[t].index == 0 && s'.runners[t].done == {} && Rising(s'.runners[t].plan, |c.names|)
            && (forall p: nat :: p in s'.runners[t].plan
                                 <==> p < |c.names| && !(resumed && c.names[p] in CompletedNow(c, s.rows)))
            && s'.runners[t].pc == if resumed && s'.runners[t].plan == [] then Stopped else Loading
  {
    if resumed {
      RemainingIs(c, s.rows, |c.names|);
    } else {
      var plan := Begin(c, s.rows, false).plan;
      forall p: nat | p < |c.names| ensures p in plan {
        assert plan[p] == p;
      }
    }
  }

  /** A runner under way is not started again; a crash stops it, and only it; a tick changes the time alone. */
  lemma OtherEventsAnswer(c: Ctx, s: State, t: Token, resumed: bool, seconds: nat)
    ensures t in s.runners && s.runners[t].pc != Stopped ==> Apply(c, s, Start(t, resumed)) == s
    ensures t in s.runners ==> Apply(c, s, Crash(t)) == s.(runners := s.runners[t := s.runners[t].(pc := Stopped)])
    ensures t !in s.runners ==> Apply(c, s, Crash(t)) == s
    ensures Apply(c, s, Tick(seconds)) == s.(now := s.now + seconds)
  {
  }

  // ------------------------------------------------------------------
  // Progress
  // ------------------------------------------------------------------

  /** A tool succeeds, the plan goes on, and no reply is lost. */
  const SMOOTH := Reply(false, true, false, true)

  function Next(c: Ctx, s: State, t: Token): State {
    Apply(c, s, Step(t, SMOOTH))
  }

  predicate Smooth(events: seq<Event>, t: Token) {
    forall k :: 0 <= k < |events| ==> events[k] == Step(t, SMOOTH)
  }

  /** Nobody is working on a step. */
  predicate Quiet(rows: seq<StepRow>) {
    forall k :: 0 <= k < |rows| ==> rows[k].status != InProgress
  }

  /** Some run comes to this state. */
  ghost predicate Reached(c: Ctx, s: State) {
    exists events :: After(c, events) == s
  }

  lemma ReachedHolds(c: Ctx, s: State)
    requires DistinctNames(c) && Reached(c, s)
    ensures Inv(c, s)
  {
    var events :| After(c, events) == s;
    RunKeeps(c, events);
  }

  lemma ReachedOn(c: Ctx, s: State, more: seq<Event>)
    requires Reached(c, s)
    ensures Reached(c, From(c, s, more))
  {
    var events :| After(c, events) == s;
    Continued(c, events, more);
  }

  /** The runner is at the head of its loop, and nobody holds a step. */
  ghost predicate AtHead(c: Ctx, s: State, t: Token) {
    Reached(c, s) && t in s.runners && s.runners[t].pc == Looping && Quiet(s.rows)
  }

  /** The attempt asked for is new: no row holds its key. */
  lemma NextAttemptIsNew(c: Ctx, rows: seq<StepRow>, name: StepName, t: Token)
    requires AllShaped(c, rows)
    ensures !HasKey(rows, Request(c, |rows|, name, NextAttempt(rows, |rows|, c.execution, c.owner, name), t))
  {
    var r := Request(c, |rows|, name, NextAttempt(rows, |rows|, c.execution, c.owner, name), t);
    assert forall i :: 0 <= i < |rows| ==> Shaped(c, rows[i], i);
  }

  /** With nobody at work, a step that is not completed is granted to whoever asks. */
  lemma OpenStepIsGranted(c: Ctx, rows: seq<StepRow>, now: Time, name: StepName, t: Token)
    requires RowsInv(c, rows) && Quiet(rows) && !Done(rows, name)
    ensures var r := Request(c, |rows|, name, NextAttempt(rows, |rows|, c.execution, c.owner, name), t);
            GrantClaim(rows, r, now) == (rows + [NewRow(r, now)], ClaimReply(NewRow(r, now), true))
  {
    var r := Request(c, |rows|, name, NextAttempt(rows, |rows|, c.execution, c.owner, name), t);
    NextAttemptIsNew(c, rows, name, t);
    forall i: nat | IsLast(rows, i, r) ensures rows[i].status == Failed {
      assert Shaped(c, rows[i], i);
    }
    ClaimGrantedExactlyWhen(rows, r, now);
  }

  /** A completed one is refused as completed. */
  lemma CompletedStepIsRefused(c: Ctx, rows: seq<StepRow>, now: Time, name: StepName, t: Token)
    requires RowsInv(c, rows) && Done(rows, name)
    ensures var r := Request(c, |rows|, name, NextAttempt(rows, |rows|, c.execution, c.owner, name), t);
            var (rows', answer) := GrantClaim(rows, r, now);
            rows' == rows && !answer.claimed && answer.row.status == Completed
  {
    var r := Request(c, |rows|, name, NextAttempt(rows, |rows|, c.execution, c.owner, name), t);
    NextAttemptIsNew(c, rows, name, t);
    var k :| 0 <= k < |rows| && rows[k].name == name && rows[k].status == Completed;
    assert Shaped(c, rows[k], k);
    NothingClaimableAfterCompletion(rows, k, r, now);
    forall j | 0 <= j < |rows| && Related(rows[j], r.execution, r.owner, r.operation)
      ensures rows[j].attempt < rows[k].attempt || (rows[j].attempt == rows[k].attempt && k <= j)
    {
      DisciplineMeans(rows, k, j);
    }
    assert IsLast(rows, k, r);
    RefusalNames(rows, r, now, k);
  }

  // ------------------------------------------------------------------
  // The five events of a step that is not completed
  // ------------------------------------------------------------------

  function Moved(s: State, t: Token, w: Runner): State {
    s.(runners := s.runners[t := w])
  }

  lemma TestOfOpenStep(c: Ctx, s: State, t: Token, w: Runner)
    requires t in s.runners && s.runners[t] == w && w.pc == Looping && w.index < |w.plan| && Current(c, w) !in w.done
    ensures Next(c, s, t)
         == Moved(s, t, w.(pc := Claiming(NextAttempt(s.rows, |s.rows|, c.execution, c.owner, Current(c, w)))))
  {
  }

  /** The claim of a step, by what it is answered. */
  lemma ClaimLeads(c: Ctx, s: State, t: Token, w: Runner, rows': seq<StepRow>, answer: ClaimReply)
    requires t in s.runners && s.runners[t] == w && w.pc.Claiming?
    requires (rows', answer) == GrantClaim(s.rows, Request(c, |s.rows|, Current(c, w), w.pc.attempt, t), s.now)
    ensures answer.claimed ==> Next(c, s, t) == Moved(s.(rows := rows'), t, w.(pc := Marking(|s.rows|)))
    ensures !answer.claimed && answer.row.status == Completed ==>
              Next(c, s, t) == Moved(s.(rows := rows'), t,
                                     w.(done := w.done + {Current(c, w)}, index := w.index + 1, pc := Looping))
  {
  }

  lemma ClaimOfOpenStep(c: Ctx, s: State, t: Token, w: Runner)
    requires t in s.runners && s.runners[t] == w && RowsInv(c, s.rows) && Quiet(s.rows) && !Done(s.rows, Current(c, w))
    requires w.pc == Claiming(NextAttempt(s.rows, |s.rows|, c.execution, c.owner, Current(c, w)))
    ensures Next(c, s, t)
         == Moved(s.(rows := s.rows + [NewRow(Request(c, |s.rows|, Current(c, w), w.pc.attempt, t), s.now)]), t,
                  w.(pc := Marking(|s.rows|)))
  {
    var r := Request(c, |s.rows|, Current(c, w), w.pc.attempt, t);
    OpenStepIsGranted(c, s.rows, s.now, Current(c, w), t);
    ClaimLeads(c, s, t, w, s.rows + [NewRow(r, s.now)], ClaimReply(NewRow(r, s.now), true));
  }

  lemma ClaimOfCompletedStep(c: Ctx, s: State, t: Token, w: Runner)
    requires t in s.runners && s.runners[t] == w && RowsInv(c, s.rows) && Done(s.rows, Current(c, w))
    requires w.pc == Claiming(NextAttempt(s.rows, |s.rows|, c.execution, c.owner, Current(c, w)))
    ensures Next(c, s, t) == Moved(s, t, w.(done := w.done + {Current(c, w)}, index := w.index + 1, pc := Looping))
  {
    CompletedStepIsRefused(c, s.rows, s.now, Current(c, w), t);
    var (rows', answer) := GrantClaim(s.rows, Request(c, |s.rows|, Current(c, w), w.pc.attempt, t), s.now);
    ClaimLeads(c, s, t, w, rows', answer);
  }

  lemma MarkLeads(c: Ctx, s: State, t: Token, w: Runner, row: nat, rows': seq<StepRow>)
    requires t in s.runners && s.runners[t] == w && w.pc == Marking(row)
    requires SettleHeld(s.rows, c.execution, row, Some(Current(c, w)), t, InProgress) == (rows', true)
    ensures Next(c, s, t) == Moved(s.(rows := rows'), t, w.(pc := Running(row)))
  {
  }

  lemma MarkOfClaimedStep(c: Ctx, s: State, t: Token, w: Runner, row: nat)
    requires t in s.runners && s.runners[t] == w && w.pc == Marking(row) && AllShaped(c, s.rows) && row < |s.rows|
    requires s.rows[row].token == Some(t) && s.rows[row].name == Current(c, w) && s.rows[row].status == InProgress
    ensures Next(c, s, t) == Moved(s, t, w.(pc := Running(row)))
  {
    SettleHits(c, s.rows, row, Some(Current(c, w)), t, InProgress);
    assert Settled(s.rows[row], Some(Current(c, w)), InProgress) == s.rows[row];
    assert s.rows[row := s.rows[row]] == s.rows;
    MarkLeads(c, s, t, w, row, s.rows);
  }

  lemma ToolOfMarkedStep(c: Ctx, s: State, t: Token, w: Runner, row: nat)
    requires t in s.runners && s.runners[t] == w && w.pc == Running(row) && w.index < |w.plan|
    ensures Next(c, s, t).now == s.now && Next(c, s, t).rows == s.rows
    ensures Next(c, s, t).runners == s.runners[t := w.(pc := Settling(row, true, w.index + 1 < |w.plan|))]
    ensures |Next(c, s, t).log| == |s.log| + 1 && s.log <= Next(c, s, t).log
            && Next(c, s, t).log[|s.log|].position == w.plan[w.index]
  {
  }

  lemma SettlementLeads(c: Ctx, s: State, t: Token, w: Runner, row: nat, follow: bool, rows': seq<StepRow>)
    requires t in s.runners && s.runners[t] == w && w.pc == Settling(row, true, follow)
    requires SettleHeld(s.rows, c.execution, row, None, t, Completed) == (rows', true)
    ensures Next(c, s, t) == Moved(s.(rows := rows'), t, if follow then w.(index := w.index + 1, pc := Looping)
                                                         else w.(pc := Stopped))
  {
  }

  lemma SettlementOfStep(c: Ctx, s: State, t: Token, w: Runner, row: nat, follow: bool)
    requires t in s.runners && s.runners[t] == w && w.pc == Settling(row, true, follow) && AllShaped(c, s.rows)
    requires row < |s.rows| && s.rows[row].token == Some(t)
    ensures Next(c, s, t)
         == Moved(s.(rows := s.rows[row := s.rows[row].(status := Completed)]), t,
                  if follow then w.(index := w.index + 1, pc := Looping) else w.(pc := Stopped))
  {
    SettleHits(c, s.rows, row, None, t, Completed);
    SettlementLeads(c, s, t, w, row, follow, s.rows[row := Settled(s.rows[row], None, Completed)]);
  }

  // ------------------------------------------------------------------
  // One turn of the loop
  // ------------------------------------------------------------------

  /** After the turn of a step the runner is at the next one; after the last it has stopped or is at the end. */
  predicate TurnedRunner(w: Runner, w': Runner) {
    w'.plan == w.plan
    && ((w'.pc == Looping && w'.index == w.index + 1) || (w'.pc == Stopped && w.index + 1 == |w.plan|))
  }

  /** The step, and no other, has become completed. */
  ghost predicate Completes(rows: seq<StepRow>, rows': seq<StepRow>, name: StepName) {
    forall other :: Done(rows', other) <==> Done(rows, other) || other == name
  }

  /** Its tool ran, exactly if it was not completed before. */
  ghost predicate RanIfOpen(c: Ctx, s: State, w: Runner, s': State) {
    s.log <= s'.log
    && if Done(s.rows, Current(c, w)) then s'.log == s.log
       else |s'.log| == |s.log| + 1 && w.index < |w.plan| && s'.log[|s.log|].position == w.plan[w.index]
  }

  ghost predicate Turned(c: Ctx, s: State, t: Token, w: Runner, s': State) {
    t in s'.runners && TurnedRunner(w, s'.runners[t]) && Quiet(s'.rows) && Completes(s.rows, s'.rows, Current(c, w))
    && RanIfOpen(c, s, w, s')
  }

  /** A step the runner knows completed is passed over. */
  lemma KnownStepTurns(c: Ctx, s: State, t: Token, w: Runner)
    requires DistinctNames(c) && AtHead(c, s, t) && s.runners[t] == w && w.index < |w.plan| && Current(c, w) in w.done
    ensures Turned(c, s, t, w, Next(c, s, t))
  {
    ReachedHolds(c, s);
  }

  /** One that others completed is claimed, refused and then passed over. */
  lemma CompletedStepTurns(c: Ctx, s: State, t: Token, w: Runner)
    requires DistinctNames(c) && AtHead(c, s, t) && s.runners[t] == w && w.index < |w.plan|
    requires Current(c, w) !in w.done && Done(s.rows, Current(c, w))
    ensures Turned(c, s, t, w, From(c, s, Twice(t)))
  {
    ReachedHolds(c, s);
    TestOfOpenStep(c, s, t, w);
    var s1 := Next(c, s, t);
    ClaimOfCompletedStep(c, s1, t, s1.runners[t]);
    TwiceIs(c, s, t, s1, Next(c, s1, t));
  }

  function Twice(t: Token): seq<Event> {
    [Step(t, SMOOTH)] + [Step(t, SMOOTH)]
  }

  lemma OnceIs(c: Ctx, s: State, t: Token)
    ensures From(c, s, [Step(t, SMOOTH)]) == Next(c, s, t)
  {
    assert From(c, s, []) == s;
    FromOne(c, s, [], Step(t, SMOOTH));
    assert [] + [Step(t, SMOOTH)] == [Step(t, SMOOTH)];
  }

  lemma TwiceIs(c: Ctx, s: State, t: Token, s1: State, s2: State)
    requires s1 == Next(c, s, t) && s2 == Next(c, s1, t)
    ensures From(c, s, Twice(t)) == s2
  {
    OnceIs(c, s, t);
    FromOne(c, s, [Step(t, SMOOTH)], Step(t, SMOOTH));
  }

  /** Any other is first tested and claimed ... */
  lemma OpenStepIsClaimed(c: Ctx, s: State, t: Token, w: Runner)
    requires DistinctNames(c) && AtHead(c, s, t) && s.runners[t] == w && w.index < |w.plan|
    requires !Done(s.rows, Current(c, w))
    ensures var s2 := From(c, s, Twice(t));
            |s2.rows| == |s.rows| + 1
            && s2 == Moved(s.(rows := s.rows + [s2.rows[|s.rows|]]), t, w.(pc := Marking(|s.rows|)))
            && AllShaped(c, s2.rows) && s2.rows[|s.rows|].name == Current(c, w)
            && s2.rows[|s.rows|].status == InProgress && s2.rows[|s.rows|].token == Some(t)
  {
    ReachedHolds(c, s);
    TestOfOpenStep(c, s, t, w);
    var s1 := Next(c, s, t);
    ClaimOfOpenStep(c, s1, t, s1.runners[t]);
    GrantStaysShaped(c, s.rows, s.now, Current(c, w), s1.runners[t].pc.attempt, t);
    OpenStepIsGranted(c, s.rows, s.now, Current(c, w), t);
    TwiceIs(c, s, t, s1, Next(c, s1, t));
  }

  /** ... then marked and run ... */
  lemma ClaimedStepIsRun(c: Ctx, s: State, t: Token, w: Runner, row: nat)
    requires t in s.runners && s.runners[t] == w && w.pc == Marking(row) && AllShaped(c, s.rows) && row < |s.rows|
    requires s.rows[row].token == Some(t) && s.rows[row].name == Current(c, w) && s.rows[row].status == InProgress
    requires w.index < |w.plan|
    ensures var s2 := From(c, s, Twice(t));
            s2.now == s.now && s2.rows == s.rows
            && s2.runners == s.runners[t := w.(pc := Settling(row, true, w.index + 1 < |w.plan|))]
            && |s2.log| == |s.log| + 1 && s.log <= s2.log && s2.log[|s.log|].position == w.plan[w.index]
  {
    MarkOfClaimedStep(c, s, t, w, row);
    var s1 := Next(c, s, t);
    ToolOfMarkedStep(c, s1, t, s1.runners[t], row);
    TwiceIs(c, s, t, s1, Next(c, s1, t));
  }

  /** ... and settled. */
  lemma OpenStepTurns(c: Ctx, s: State, t: Token, w: Runner)
    requires DistinctNames(c) && AtHead(c, s, t) && s.runners[t] == w && w.index < |w.plan|
    requires !Done(s.rows, Current(c, w))
    ensures Turned(c, s, t, w, From(c, From(c, From(c, s, Twice(t)), Twice(t)), [Step(t, SMOOTH)]))
  {
    var n := |s.rows|;
    OpenStepIsClaimed(c, s, t, w);
    var s2 := From(c, s, Twice(t));
    ClaimedStepIsRun(c, s2, t, s2.runners[t], n);
    var s4 := From(c, s2, Twice(t));
    SettlementOfStep(c, s4, t, s4.runners[t], n, w.index + 1 < |w.plan|);
    OnceIs(c, s4, t);
    var completed := s2.rows[n].(status := Completed);
    assert Next(c, s4, t).rows == s.rows + [completed];
    CompletedRowCompletes(s.rows, completed);
  }

  lemma CompletedRowCompletes(rows: seq<StepRow>, row: StepRow)
    requires row.status == Completed
    ensures Completes(rows, rows + [row], row.name) && (Quiet(rows) ==> Quiet(rows + [row]))
  {
    var rows' := rows + [row];
    assert rows'[|rows|] == row;
    forall other ensures Done(rows', other) <==> Done(rows, other) || other == row.name {
      if Done(rows, other) {
        var k :| 0 <= k < |rows| && rows[k].name == other && rows[k].status == Completed;
        assert rows'[k] == rows[k];
      }
    }
  }

  lemma {:induction false} FromSum(c: Ctx, s: State, a: seq<Event>, b: seq<Event>)
    ensures From(c, s, a + b) == From(c, From(c, s, a), b)
  {
    if b == [] {
      assert a + b == a;
    } else {
      var n := |b| - 1;
      FromSum(c, s, a, b[..n]);
      FromOne(c, s, a + b[..n], b[n]);
      assert a + b == a + b[..n] + [b[n]];
    }
  }

  lemma FromThree(c: Ctx, s: State, a: seq<Event>, b: seq<Event>, d: seq<Event>)
    ensures From(c, s, a + b + d) == From(c, From(c, From(c, s, a), b), d)
  {
    FromSum(c, s, a, b);
    FromSum(c, s, a + b, d);
  }

  lemma KnownTurn(c: Ctx, s: State, t: Token, w: Runner) returns (events: seq<Event>)
    requires DistinctNames(c) && AtHead(c, s, t) && s.runners[t] == w && w.index < |w.plan| && Current(c, w) in w.done
    ensures Smooth(events, t) && Turned(c, s, t, w, From(c, s, events))
  {
    events := [Step(t, SMOOTH)];
    KnownStepTurns(c, s, t, w);
    OnceIs(c, s, t);
  }

  lemma OpenTurn(c: Ctx, s: State, t: Token, w: Runner) returns (events: seq<Event>)
    requires DistinctNames(c) && AtHead(c, s, t) && s.runners[t] == w
             && w.index < |w.plan| && !Done(s.rows, Current(c, w))
    ensures Smooth(events, t) && Turned(c, s, t, w, From(c, s, events))
  {
    var one, two := [Step(t, SMOOTH)], Twice(t);
    OpenStepTurns(c, s, t, w);
    FromThree(c, s, two, two, one);
    events := two + two + one;
  }

  /** So every turn goes on. */
  lemma TurnGoesOn(c: Ctx, s: State, t: Token, w: Runner) returns (events: seq<Event>)
    requires DistinctNames(c) && AtHead(c, s, t) && s.runners[t] == w && w.index < |w.plan|
    ensures Smooth(events, t) && Turned(c, s, t, w, From(c, s, events)) && Reached(c, From(c, s, events))
  {
    if Current(c, w) in w.done {
      events := KnownTurn(c, s, t, w);
    } else if Done(s.rows, Current(c, w)) {
      events := Twice(t);
      CompletedStepTurns(c, s, t, w);
    } else {
      events := OpenTurn(c, s, t, w);
    }
    ReachedOn(c, s, events);
  }

  // ------------------------------------------------------------------
  // The whole plan
  // ------------------------------------------------------------------

  /** The steps of the plan from the `i`-th on that are not completed, in the order of the plan. */
  ghost function OpenFrom(c: Ctx, rows: seq<StepRow>, plan: seq<nat>, i: nat): seq<nat>
    requires i <= |plan|
    decreases |plan| - i
  {
    if i == |plan| then []
    else (if Done(rows, NameAt(c, plan[i])) then [] else [plan[i]]) + OpenFrom(c, rows, plan, i + 1)
  }

  /** Completing an earlier step leaves the open steps as they are. */
  lemma {:induction false} OpenStays(c: Ctx, rows: seq<StepRow>, rows': seq<StepRow>, plan: seq<nat>, i: nat, j: nat)
    requires DistinctNames(c) && i < j <= |plan| && Completes(rows, rows', NameAt(c, plan[i]))
    requires forall k :: 0 <= k < |plan| ==> plan[k] < |Extended(c)|
    requires forall k, m :: 0 <= k < m < |plan| ==> plan[k] < plan[m]
    ensures OpenFrom(c, rows', plan, j) == OpenFrom(c, rows, plan, j)
    decreases |plan| - j
  {
    if j < |plan| {
      if NameAt(c, plan[j]) == NameAt(c, plan[i]) {
        ExtendedIsDistinct(c, plan[j], plan[i]);
      }
      OpenStays(c, rows, rows', plan, i, j + 1);
    }
  }

  /** The tools logged since `log` are those of these steps, in this order. */
  predicate RanInOrder(log: seq<ToolRun>, log': seq<ToolRun>, positions: seq<nat>) {
    log <= log' && |log'| == |log| + |positions|
    && forall i :: 0 <= i < |positions| ==> log'[|log| + i].position == positions[i]
  }

  lemma RunsJoin(a: seq<ToolRun>, b: seq<ToolRun>, d: seq<ToolRun>, first: seq<nat>, second: seq<nat>)
    requires RanInOrder(a, b, first) && RanInOrder(b, d, second)
    ensures RanInOrder(a, d, first + second)
  {
  }

  /** The step the runner is at, if it is open. */
  ghost function Due(c: Ctx, rows: seq<StepRow>, w: Runner): seq<nat>
    requires w.index < |w.plan|
  {
    if Done(rows, Current(c, w)) then [] else [w.plan[w.index]]
  }

  lemma TurnRuns(c: Ctx, s: State, t: Token, w: Runner, s1: State)
    requires DistinctNames(c) && AtHead(c, s, t) && s.runners[t] == w && w.index < |w.plan| && Turned(c, s, t, w, s1)
    ensures Reached(c, s1) && s1.runners[t].pc != Stopped ==>
              AtHead(c, s1, t) && s1.runners[t].plan == w.plan && s1.runners[t].index == w.index + 1
    ensures s1.runners[t].pc == Stopped ==> w.index + 1 == |w.plan| && Finished(c, s1, t)
    ensures RanInOrder(s.log, s1.log, Due(c, s.rows, w))
    ensures OpenFrom(c, s.rows, w.plan, w.index) == Due(c, s.rows, w) + OpenFrom(c, s1.rows, w.plan, w.index + 1)
  {
    ReachedHolds(c, s);
    OpenStays(c, s.rows, s1.rows, w.plan, w.index, w.index + 1);
    if s1.runners[t].pc == Stopped {
      LastTurnAllDone(c, s.rows, s1.rows, w);
    }
  }

  /** All is done: the runner has stopped and every step of the plan is completed. */
  ghost predicate Finished(c: Ctx, s: State, t: Token) {
    t in s.runners && s.runners[t].pc == Stopped && forall q :: 0 <= q < |c.names| ==> Done(s.rows, c.names[q])
  }

  /** Events of this runner alone, none of them disturbed, lead from one state to the other. */
  ghost predicate Leads(c: Ctx, s: State, t: Token, s': State) {
    exists events :: Smooth(events, t) && From(c, s, events) == s'
  }

  lemma LeadsOn(c: Ctx, s: State, t: Token, s1: State, s2: State)
    requires Leads(c, s, t, s1) && Leads(c, s1, t, s2)
    ensures Leads(c, s, t, s2)
  {
    var a :| Smooth(a, t) && From(c, s, a) == s1;
    var b :| Smooth(b, t) && From(c, s1, b) == s2;
    FromSum(c, s, a, b);
    assert Smooth(a + b, t);
  }

  lemma TurnIsMade(c: Ctx, s: State, t: Token, w: Runner) returns (s1: State)
    requires DistinctNames(c) && AtHead(c, s, t) && s.runners[t] == w && w.index < |w.plan|
    ensures Leads(c, s, t, s1) && t in s1.runners
    ensures s1.runners[t].pc != Stopped ==>
              AtHead(c, s1, t) && s1.runners[t].plan == w.plan && s1.runners[t].index == w.index + 1
    ensures s1.runners[t].pc == Stopped ==> w.index + 1 == |w.plan| && Finished(c, s1, t)
    ensures RanInOrder(s.log, s1.log, Due(c, s.rows, w))
    ensures OpenFrom(c, s.rows, w.plan, w.index) == Due(c, s.rows, w) + OpenFrom(c, s1.rows, w.plan, w.index + 1)
  {
    var turn := TurnGoesOn(c, s, t, w);
    s1 := From(c, s, turn);
    TurnRuns(c, s, t, w, s1);
  }

  /** From the head of its loop a runner left alone comes to an end with every step of the plan completed,
      and has run exactly the open steps, each once, in the order of the plan. */
  lemma {:induction false} RunsToTheEnd(c: Ctx, s: State, t: Token, w: Runner) returns (s2: State)
    requires DistinctNames(c) && AtHead(c, s, t) && s.runners[t] == w && w.index <= |w.plan|
    ensures Leads(c, s, t, s2) && Finished(c, s2, t)
    ensures RanInOrder(s.log, s2.log, OpenFrom(c, s.rows, w.plan, w.index))
    decreases |w.plan| - w.index
  {
    if w.index == |w.plan| {
      s2 := EndsAtOnce(c, s, t, w);
    } else {
      var s1 := TurnIsMade(c, s, t, w);
      if s1.runners[t].pc == Stopped {
        s2 := s1;
      } else {
        s2 := RunsToTheEnd(c, s1, t, s1.runners[t]);
        LeadsOn(c, s, t, s1, s2);
        RunsJoin(s.log, s1.log, s2.log, Due(c, s.rows, w), OpenFrom(c, s1.rows, w.plan, w.index + 1));
      }
    }
  }

  lemma EndsAtOnce(c: Ctx, s: State, t: Token, w: Runner) returns (s2: State)
    requires DistinctNames(c) && AtHead(c, s, t) && s.runners[t] == w && w.index == |w.plan|
    ensures Leads(c, s, t, s2) && Finished(c, s2, t)
    ensures RanInOrder(s.log, s2.log, OpenFrom(c, s.rows, w.plan, w.index))
  {
    OnceIs(c, s, t);
    s2 := From(c, s, [Step(t, SMOOTH)]);
    AtEndAllDone(c, s, t, w);
  }

  lemma AtEndAllDone(c: Ctx, s: State, t: Token, w: Runner)
    requires DistinctNames(c) && AtHead(c, s, t) && s.runners[t] == w && w.index == |w.plan|
    ensures Finished(c, Next(c, s, t), t) && Next(c, s, t).log == s.log
  {
    ReachedHolds(c, s);
    forall q | 0 <= q < |c.names| ensures Done(s.rows, c.names[q]) {
      if q in w.plan {
        var i :| 0 <= i < |w.plan| && w.plan[i] == q;
        assert Done(s.rows, NameAt(c, w.plan[i]));
      }
    }
  }

  lemma LastTurnAllDone(c: Ctx, rows: seq<StepRow>, rows': seq<StepRow>, w: Runner)
    requires PlanInv(c, rows, w) && w.pc == Looping && w.index + 1 == |w.plan|
    requires Completes(rows, rows', Current(c, w))
    ensures forall q :: 0 <= q < |c.names| ==> Done(rows', c.names[q])
  {
    forall q | 0 <= q < |c.names| ensures Done(rows', c.names[q]) {
      DoneByTheEnd(c, rows, w, q);
    }
  }

  lemma DoneByTheEnd(c: Ctx, rows: seq<StepRow>, w: Runner, q: nat)
    requires PlanInv(c, rows, w) && w.pc == Looping && w.index + 1 == |w.plan| && q < |c.names|
    ensures Done(rows, c.names[q]) || c.names[q] == Current(c, w)
  {
    if q in w.plan {
      var i :| 0 <= i < |w.plan| && w.plan[i] == q;
      assert i < w.index ==> Done(rows, NameAt(c, w.plan[i]));
    }
  }

  // ------------------------------------------------------------------
  // From the start
  // ------------------------------------------------------------------

  /** The positions of the open steps of the plan, in its order. */
  ghost predicate AreOpen(c: Ctx, rows: seq<StepRow>, positions: seq<nat>) {
    Rising(positions, |c.names|) && forall q: nat :: q < |c.names| ==> (q in positions <==> !Done(rows, c.names[q]))
  }

  lemma {:induction false} OpenFromHolds(c: Ctx, rows: seq<StepRow>, plan: seq<nat>, i: nat, q: nat)
    requires i <= |plan| && Rising(plan, |c.names|)
    ensures q in OpenFrom(c, rows, plan, i) <==> q in plan[i..] && q < |c.names| && !Done(rows, c.names[q])
    decreases |plan| - i
  {
    if i < |plan| {
      OpenFromHolds(c, rows, plan, i + 1, q);
      assert plan[i..] == [plan[i]] + plan[i + 1..];
      assert NameAt(c, plan[i]) == c.names[plan[i]];
    }
  }

  lemma {:induction false} OpenFromRises(c: Ctx, rows: seq<StepRow>, plan: seq<nat>, i: nat)
    requires i <= |plan| && Rising(plan, |c.names|)
    ensures Rising(OpenFrom(c, rows, plan, i), |c.names|)
    decreases |plan| - i
  {
    if i < |plan| {
      OpenFromRises(c, rows, plan, i + 1);
      var rest := OpenFrom(c, rows, plan, i + 1);
      forall k | 0 <= k < |rest| ensures plan[i] < rest[k] {
        OpenFromHolds(c, rows, plan, i + 1, rest[k]);
        assert rest[k] in plan[i + 1..];
      }
    }
  }

  /** A runner that starts takes up the whole plan or, resuming, what is not completed of it. */
  lemma BeginTakesUp(c: Ctx, rows: seq<StepRow>, resumed: bool)
    requires AllShaped(c, rows)
    ensures var w := Begin(c, rows, resumed);
            w.index == 0 && Rising(w.plan, |c.names|) && AreOpen(c, rows, OpenFrom(c, rows, w.plan, 0))
            && (w.pc == Loading
                || (w.pc == Stopped && w.plan == [] && forall name :: name in c.names ==> Done(rows, name)))
  {
    var w := Begin(c, rows, resumed);
    RemainingRises(c, rows, |c.names|);
    OpenFromRises(c, rows, w.plan, 0);
    assert w.plan[0..] == w.plan;
    forall q: nat ensures q in OpenFrom(c, rows, w.plan, 0)
                          <==> q in w.plan && q < |c.names| && !Done(rows, c.names[q])
    {
      OpenFromHolds(c, rows, w.plan, 0, q);
    }
    forall q: nat | q < |c.names| ensures q in w.plan || Done(rows, c.names[q]) {
      if resumed {
        LeftOutIsDone(c, rows, q);
      } else {
        assert w.plan[q] == q;
      }
    }
  }

  lemma LoadComesToHead(c: Ctx, s: State, t: Token, w: Runner)
    requires Reached(c, s) && t in s.runners && s.runners[t] == w && w.pc == Loading && Quiet(s.rows)
    ensures var s1 := From(c, s, [Step(t, SMOOTH)]);
            AtHead(c, s1, t) && s1.rows == s.rows && s1.log == s.log
            && s1.runners[t].plan == w.plan && s1.runners[t].index == w.index
  {
    OnceIs(c, s, t);
    ReachedOn(c, s, [Step(t, SMOOTH)]);
  }

  lemma BegunComesToTheEnd(c: Ctx, s: State, t: Token, resumed: bool) returns (s2: State, open: seq<nat>)
    requires DistinctNames(c) && Reached(c, s) && Quiet(s.rows) && t in s.runners
    requires s.runners[t] == Begin(c, s.rows, resumed)
    ensures Leads(c, s, t, s2) && AreOpen(c, s.rows, open) && Finished(c, s2, t) && RanInOrder(s.log, s2.log, open)
  {
    var w := s.runners[t];
    ReachedHolds(c, s);
    BeginTakesUp(c, s.rows, resumed);
    open := OpenFrom(c, s.rows, w.plan, 0);
    if w.pc == Loading {
      LoadComesToHead(c, s, t, w);
      var s1 := From(c, s, [Step(t, SMOOTH)]);
      s2 := RunsToTheEnd(c, s1, t, s1.runners[t]);
      LeadsOn(c, s, t, s1, s2);
    } else {
      s2 := s;
      assert Smooth([], t) && From(c, s, []) == s;
      forall q | 0 <= q < |c.names| ensures Done(s.rows, c.names[q]) {
        assert c.names[q] in c.names;
      }
    }
  }

  lemma StartBegins(c: Ctx, events: seq<Event>, t: Token, resumed: bool)
    requires t in After(c, events).runners ==> After(c, events).runners[t].pc == Stopped
    ensures var s := After(c, events);
            After(c, events + [Start(t, resumed)])
            == s.(runners := s.runners[t := Begin(c, s.rows, resumed)])
  {
    assert (events + [Start(t, resumed)])[..|events|] == events;
  }

  /** Progress, after every run: when nobody is at work, a runner that starts or resumes and is left alone,
      its tools succeeding and no reply lost, comes to an end with every step of the plan completed, and has
      run exactly the steps that were open, each once, in the order of the plan. */
  lemma LeftAloneARunnerCompletes(c: Ctx, events: seq<Event>, t: Token, resumed: bool)
    requires DistinctNames(c) && Quiet(After(c, events).rows)
    requires t in After(c, events).runners ==> After(c, events).runners[t].pc == Stopped
    ensures exists more, open ::
              Smooth(more, t) && AreOpen(c, After(c, events).rows, open)
              && Finished(c, After(c, events + [Start(t, resumed)] + more), t)
              && RanInOrder(After(c, events).log, After(c, events + [Start(t, resumed)] + more).log, open)
  {
    var started := events + [Start(t, resumed)];
    StartBegins(c, events, t, resumed);
    var s2, open := BegunComesToTheEnd(c, After(c, started), t, resumed);
    var more :| Smooth(more, t) && From(c, After(c, started), more) == s2;
    Continued(c, started, more);
  }
}
