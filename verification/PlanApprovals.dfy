/** The approval's own claim of the onboarding step, among the plan runners. It asks for attempt 0
    under a key of its own, whatever was attempted before, so it is outside the attempt discipline;
    the order of the plan does not depend on that discipline. */
module PlanApprovals {
  import opened Wrappers
  import opened StepClaims
  import opened PlanProtocol
  import opened PlanTheorems

  /** Each approver has a token of its own, and the row it has claimed. */
  datatype System = System(plan: State, approvers: map<Token, nat>)

  datatype Move =
    | Plan(event: Event)
    | Approve(token: Token)
    | Settle(token: Token, ok: bool)

  function ApprovalRequest(c: Ctx, id: nat, t: Token): ClaimRequest {
    ClaimRequest(id, c.execution, c.owner, ONBOARDING, 0, ApprovalKey(c.execution), Operation(c, ONBOARDING), t,
                 DEFAULT_CLAIM_LEASE_SECONDS)
  }

  /** The onboarding tool has been executed: it is what asks for the approval. */
  predicate OnboardingRan(c: Ctx, s: State) {
    exists i :: 0 <= i < |s.log| && NameAt(c, s.log[i].position) == ONBOARDING
  }

  function ApproveStep(c: Ctx, s: System, t: Token): System {
    var (rows', answer) := GrantClaim(s.plan.rows, ApprovalRequest(c, |s.plan.rows|, t), s.plan.now);
    if answer.claimed then System(s.plan.(rows := rows'), s.approvers[t := |s.plan.rows|]) else s
  }

  function SettleStep(c: Ctx, s: System, t: Token, row: nat, ok: bool): System {
    var rows' := SettleHeld(s.plan.rows, c.execution, row, None, t, if ok then Completed else Failed).0;
    System(s.plan.(rows := rows'), s.approvers - {t})
  }

  function Next(c: Ctx, s: System, m: Move): System {
    match m
    case Plan(e) => if !e.Tick? && e.token in s.approvers then s else s.(plan := Apply(c, s.plan, e))
    case Approve(t) =>
      if t in s.plan.runners || t in s.approvers || !OnboardingRan(c, s.plan) then s else ApproveStep(c, s, t)
    case Settle(t, ok) => if t !in s.approvers then s else SettleStep(c, s, t, s.approvers[t], ok)
  }

  function Run(c: Ctx, moves: seq<Move>): System {
    if moves == [] then System(INITIAL, map[]) else Next(c, Run(c, moves[..|moves| - 1]), moves[|moves| - 1])
  }

  // ------------------------------------------------------------------
  // What an approval does
  // ------------------------------------------------------------------

  /** The approval has been claimed before, or the last attempt of onboarding is completed or at work. */
  ghost predicate Barred(c: Ctx, rows: seq<StepRow>, r: ClaimRequest, now: Time) {
    (exists i :: 0 <= i < |rows| && rows[i].owner == c.owner && rows[i].key == ApprovalKey(c.execution))
    || exists i: nat :: IsLast(rows, i, r)
                        && (rows[i].status == Completed
                            || (rows[i].status == InProgress && rows[i].lease.Some? && now < rows[i].lease.value))
  }

  /** The approval's claim: attempt 0 of onboarding, under the execution's one approval key, for a minute. It
      is asked for only after the onboarding tool has run, and granted exactly when nothing bars it. */
  lemma ApprovalClaims(c: Ctx, s: System, t: Token)
    requires t !in s.plan.runners && t !in s.approvers
    ensures var n, s' := |s.plan.rows|, Next(c, s, Approve(t));
            var r := ClaimRequest(n, c.execution, c.owner, "start_onboarding", 0, ApprovalKey(c.execution),
                                  OperationKey(c.mission, c.execution, "start_onboarding"), t, 60);
            var asked := exists i :: 0 <= i < |s.plan.log| && NameAt(c, s.plan.log[i].position) == "start_onboarding";
            (s' != s ==> s' == System(s.plan.(rows := s'.plan.rows), s.approvers[t := n]) && |s'.plan.rows| == n + 1
                         && s'.plan.rows[n] == NewRow(r, s.plan.now))
            && (s' != s <==> asked && !Barred(c, s.plan.rows, r, s.plan.now))
  {
    var r := ApprovalRequest(c, |s.plan.rows|, t);
    ClaimGrantedExactlyWhen(s.plan.rows, r, s.plan.now);
    assert HasKey(s.plan.rows, r)
      <==> exists i :: 0 <= i < |s.plan.rows| && s.plan.rows[i].owner == c.owner
                       && s.plan.rows[i].key == ApprovalKey(c.execution);
    if GrantClaim(s.plan.rows, r, s.plan.now).1.claimed {
      GrantAppends(s.plan.rows, r, s.plan.now);
    }
  }

  /** It settles its row, in a shaped table, exactly while it still holds it. */
  lemma ApprovalSettles(c: Ctx, s: System, t: Token, ok: bool)
    requires t in s.approvers && AllShaped(c, s.plan.rows) && s.approvers[t] < |s.plan.rows|
    ensures var row, rows, s' := s.approvers[t], s.plan.rows, Next(c, s, Settle(t, ok));
            var settled := rows[row].(status := if ok then Completed else Failed);
            s' == System(s.plan.(rows := if rows[row].token == Some(t) then rows[row := settled] else rows),
                         s.approvers - {t})
  {
    SettleHits(c, s.plan.rows, s.approvers[t], None, t, if ok then Completed else Failed);
  }

  /** Approvers are no runners; anybody else's event is the protocol's own. */
  lemma PlanEventsAnswer(c: Ctx, s: System, e: Event)
    ensures Next(c, s, Plan(e)) == if !e.Tick? && e.token in s.approvers then s else s.(plan := Apply(c, s.plan, e))
    ensures forall t :: t in s.plan.runners || t in s.approvers ==> Next(c, s, Approve(t)) == s
    ensures forall t, ok :: t !in s.approvers ==> Next(c, s, Settle(t, ok)) == s
  {
  }

  // ------------------------------------------------------------------
  // The invariant
  // ------------------------------------------------------------------

  predicate ApproverOk(s: State, t: Token, row: nat) {
    t !in s.runners && row < |s.rows| && s.rows[row].name == ONBOARDING && HeldBy(s.rows[row], t, s.now)
  }

  ghost predicate AllBefore(c: Ctx, rows: seq<StepRow>, p: nat) {
    p < |Extended(c)| && forall q :: 0 <= q < p ==> Done(rows, Extended(c)[q])
  }

  /** When a tool was executed every earlier step was completed. */
  ghost predicate LogInOrder(c: Ctx, s: State) {
    forall i :: 0 <= i < |s.log| ==> AllBefore(c, s.rows, s.log[i].position)
  }

  ghost predicate SystemInv(c: Ctx, s: System) {
    Core(c, s.plan) && LogInOrder(c, s.plan) && forall t :: t in s.approvers ==> ApproverOk(s.plan, t, s.approvers[t])
  }

  lemma AllBeforeStays(c: Ctx, rows: seq<StepRow>, rows': seq<StepRow>, p: nat)
    requires Grows(rows, rows') && AllBefore(c, rows, p)
    ensures AllBefore(c, rows', p)
  {
    forall q | 0 <= q < p ensures Done(rows', Extended(c)[q]) {
      DoneStays(rows, rows', Extended(c)[q]);
    }
  }

  lemma LogStaysInOrder(c: Ctx, s: State, s': State)
    requires LogInOrder(c, s) && Grows(s.rows, s'.rows)
    requires s'.log == s.log || exists run :: s'.log == s.log + [run] && AllBefore(c, s.rows, run.position)
    ensures LogInOrder(c, s')
  {
    forall i | 0 <= i < |s'.log| ensures AllBefore(c, s'.rows, s'.log[i].position) {
      assert AllBefore(c, s.rows, s'.log[i].position);
      AllBeforeStays(c, s.rows, s'.rows, s'.log[i].position);
    }
  }

  // ------------------------------------------------------------------
  // The runners' events
  // ------------------------------------------------------------------

  lemma ToolRunInOrder(c: Ctx, s: State, t: Token, w: Runner, row: nat)
    requires Core(c, s) && t in s.runners && s.runners[t] == w && w.pc == Running(row)
    ensures AllBefore(c, s.rows, LogEntry(c, s, t, w, row).position)
  {
    assert PlanInv(c, s.rows, w) && PcInv(c, s.rows, s.now, t, w);
    forall q | 0 <= q < w.plan[w.index] ensures Done(s.rows, Extended(c)[q]) {
      EarlierStepsDone(c, s.rows, w, q);
    }
  }

  lemma EventLogsInOrder(c: Ctx, s: State, e: Event)
    requires Core(c, s) && LogInOrder(c, s) && Grows(s.rows, Apply(c, s, e).rows)
    ensures LogInOrder(c, Apply(c, s, e))
  {
    if e.Step? && e.token in s.runners && s.runners[e.token].pc.Running? {
      var w := s.runners[e.token];
      ToolRunInOrder(c, s, e.token, w, w.pc.row);
      assert Apply(c, s, e).log == s.log + [LogEntry(c, s, e.token, w, w.pc.row)];
    }
    LogStaysInOrder(c, s, Apply(c, s, e));
  }

  lemma EventKeepsRunners(c: Ctx, s: State, e: Event, t: Token)
    requires t !in s.runners && (e.Tick? || e.token != t)
    ensures t !in Apply(c, s, e).runners
  {
  }

  /** What an approver holds it still holds after somebody else's event. */
  lemma EventKeepsApprover(c: Ctx, s: State, e: Event, t: Token, row: nat)
    requires DistinctNames(c) && Core(c, s) && ApproverOk(s, t, row) && (e.Tick? || e.token != t)
    ensures ApproverOk(Apply(c, s, e), t, row)
  {
    EventKeepsCore(c, s, e, if e.Tick? then t + 1 else e.token);
    EventKeepsRunners(c, s, e, t);
  }

  lemma PlanKeeps(c: Ctx, s: System, e: Event)
    requires DistinctNames(c) && SystemInv(c, s) && (e.Tick? || e.token !in s.approvers)
    ensures SystemInv(c, s.(plan := Apply(c, s.plan, e)))
  {
    EventKeepsCore(c, s.plan, e, if e.Tick? then 0 else e.token);
    EventLogsInOrder(c, s.plan, e);
    forall t | t in s.approvers ensures ApproverOk(Apply(c, s.plan, e), t, s.approvers[t]) {
      EventKeepsApprover(c, s.plan, e, t, s.approvers[t]);
    }
  }

  // ------------------------------------------------------------------
  // The approval's calls
  // ------------------------------------------------------------------

  /** Rows changed by somebody who is no runner. */
  lemma OutsiderKeeps(c: Ctx, s: State, rows': seq<StepRow>, t: Token)
    requires Core(c, s) && t !in s.runners && RowsStep(c, s, rows', t)
    ensures Core(c, s.(rows := rows'))
  {
    forall u | u in s.runners ensures PlanInv(c, rows', s.runners[u]) && PcInv(c, rows', s.now, u, s.runners[u]) {
      PlanInvStays(c, s.rows, rows', s.runners[u]);
      PcInvStays(c, s.rows, rows', s.now, s.now, u, s.runners[u]);
    }
  }

  lemma ApprovalIsInOrder(c: Ctx, s: State) returns (p: nat)
    requires LogInOrder(c, s) && OnboardingRan(c, s)
    ensures AllBefore(c, s.rows, p) && Extended(c)[p] == ONBOARDING
  {
    var i :| 0 <= i < |s.log| && NameAt(c, s.log[i].position) == ONBOARDING;
    p := s.log[i].position;
    assert AllBefore(c, s.rows, p);
  }

  lemma ApproveIsRowsStep(c: Ctx, s: State, t: Token)
    requires DistinctNames(c) && Core(c, s) && LogInOrder(c, s) && OnboardingRan(c, s)
    requires GrantClaim(s.rows, ApprovalRequest(c, |s.rows|, t), s.now).1.claimed
    ensures RowsStep(c, s, GrantClaim(s.rows, ApprovalRequest(c, |s.rows|, t), s.now).0, t)
  {
    var r := ApprovalRequest(c, |s.rows|, t);
    var rows' := GrantClaim(s.rows, r, s.now).0;
    var p := ApprovalIsInOrder(c, s);
    GrantGrows(c, s, r, t);
    GrantAppends(s.rows, r, s.now);
    forall k | 0 <= k < |rows'| ensures Shaped(c, rows'[k], k) {
      if k < |s.rows| {
        assert Shaped(c, s.rows[k], k);
      }
    }
    GrantStaysInOrder(c, s.rows, rows', p);
  }

  lemma ApproveKeeps(c: Ctx, s: System, t: Token)
    requires DistinctNames(c) && SystemInv(c, s) && t !in s.plan.runners
             && t !in s.approvers && OnboardingRan(c, s.plan)
    ensures SystemInv(c, ApproveStep(c, s, t))
  {
    var r := ApprovalRequest(c, |s.plan.rows|, t);
    var (rows', answer) := GrantClaim(s.plan.rows, r, s.plan.now);
    if answer.claimed {
      ApproveIsRowsStep(c, s.plan, t);
      OutsiderKeeps(c, s.plan, rows', t);
      LogStaysInOrder(c, s.plan, s.plan.(rows := rows'));
      GrantAppends(s.plan.rows, r, s.plan.now);
      ApproversStay(c, s, rows', t);
    }
  }

  lemma ApproversStay(c: Ctx, s: System, rows': seq<StepRow>, t: Token)
    requires SystemInv(c, s) && Grows(s.plan.rows, rows') && OthersHold(s.plan, rows', s.plan.now, t)
    ensures forall u :: u in s.approvers && u != t ==> ApproverOk(s.plan.(rows := rows'), u, s.approvers[u])
  {
    forall u | u in s.approvers && u != t ensures ApproverOk(s.plan.(rows := rows'), u, s.approvers[u]) {
      assert ApproverOk(s.plan, u, s.approvers[u]);
    }
  }

  lemma SettleIsRowsStep(c: Ctx, s: State, t: Token, row: nat, status: StepStatus)
    requires Core(c, s) && ApproverOk(s, t, row) && (status == Completed || status == Failed)
    ensures RowsStep(c, s, SettleHeld(s.rows, c.execution, row, None, t, status).0, t)
  {
    SettleHits(c, s.rows, row, None, t, status);
    if s.rows[row].token == Some(t) {
      assert Settled(s.rows[row], None, status) == s.rows[row].(status := status);
      UpdateKeeps(c, s, t, row, status);
      SettledStaysInOrder(c, s.rows, s.rows[row := s.rows[row].(status := status)]);
    }
  }

  lemma SettleMoveKeeps(c: Ctx, s: System, t: Token, ok: bool)
    requires SystemInv(c, s) && t in s.approvers
    ensures SystemInv(c, SettleStep(c, s, t, s.approvers[t], ok))
  {
    var status := if ok then Completed else Failed;
    var rows' := SettleHeld(s.plan.rows, c.execution, s.approvers[t], None, t, status).0;
    assert ApproverOk(s.plan, t, s.approvers[t]);
    SettleIsRowsStep(c, s.plan, t, s.approvers[t], status);
    OutsiderKeeps(c, s.plan, rows', t);
    LogStaysInOrder(c, s.plan, s.plan.(rows := rows'));
    ApproversStay(c, s, rows', t);
  }

  lemma MoveKeeps(c: Ctx, s: System, m: Move)
    requires DistinctNames(c) && SystemInv(c, s)
    ensures SystemInv(c, Next(c, s, m))
  {
    match m
    case Plan(e) =>
      if e.Tick? || e.token !in s.approvers {
        PlanKeeps(c, s, e);
      }
    case Approve(t) =>
      if t !in s.plan.runners && t !in s.approvers && OnboardingRan(c, s.plan) {
        ApproveKeeps(c, s, t);
      }
    case Settle(t, ok) =>
      if t in s.approvers {
        SettleMoveKeeps(c, s, t, ok);
      }
  }

  lemma {:induction false} ApprovedRunKeeps(c: Ctx, moves: seq<Move>)
    requires DistinctNames(c)
    ensures SystemInv(c, Run(c, moves))
  {
    if moves == [] {
    } else {
      var n := |moves| - 1;
      ApprovedRunKeeps(c, moves[..n]);
      MoveKeeps(c, Run(c, moves[..n]), moves[n]);
    }
  }

  // ------------------------------------------------------------------
  // What the approvals leave intact
  // ------------------------------------------------------------------

  /** With any number of approvals claiming and settling the onboarding step out of turn, the completed
      steps still are exactly the first ones of the plan. */
  lemma ApprovedStepsFormAPrefix(c: Ctx, moves: seq<Move>)
    requires DistinctNames(c)
    ensures exists n :: DoneExactlyTo(c, Run(c, moves).plan.rows, n)
  {
    ApprovedRunKeeps(c, moves);
    OrderedIsPrefix(c, Run(c, moves).plan.rows);
  }

  /** ... and nobody executes a tool before every earlier step of the plan is completed. */
  lemma ToolsRunInOrder(c: Ctx, moves: seq<Move>, i: nat, q: nat)
    requires DistinctNames(c) && i < |Run(c, moves).plan.log| && q < Run(c, moves).plan.log[i].position
    ensures Run(c, moves).plan.log[i].position < |Extended(c)| && Done(Run(c, moves).plan.rows, Extended(c)[q])
  {
    ApprovedRunKeeps(c, moves);
    assert AllBefore(c, Run(c, moves).plan.rows, Run(c, moves).plan.log[i].position);
  }
}
