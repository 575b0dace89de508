/** Any number of plan runners on one execution: each works through the plan step by step, and
    may be slow, crash, lose a reply, be overtaken after its lease, or resume somebody else's run.

    One event is one atomic action: a read, a claim, a settlement, or a tool execution. Events
    that are not possible in a state leave it unchanged, so every sequence of events is a run. */
module PlanProtocol {
  import opened Wrappers
  import opened StepClaims

  /** The plan is rebuilt identically for every run of the mission. */
  datatype Ctx = Ctx(mission: nat, execution: nat, owner: nat, names: seq<StepName>)

  const ONBOARDING: StepName := "start_onboarding"

  /** The plan, followed by the onboarding step a status check may append. */
  function Extended(c: Ctx): seq<StepName> {
    if ONBOARDING in c.names then c.names else c.names + [ONBOARDING]
  }

  ghost predicate DistinctNames(c: Ctx) {
    forall p, q :: 0 <= p < q < |c.names| ==> c.names[p] != c.names[q]
  }

  datatype Pc =
    | Loading
    | Looping
    | Claiming(attempt: nat)
    | Marking(row: nat)
    | Running(row: nat)
    | Settling(row: nat, ok: bool, follow: bool)
    | Stopped

  /** A runner's plan lists positions of the extended plan. */
  datatype Runner = Runner(plan: seq<nat>, index: nat, done: set<StepName>, pc: Pc)

  datatype ToolRun = ToolRun(position: nat, token: Token, row: nat, at: Time, recorded: bool, held: bool)

  datatype State = State(now: Time, rows: seq<StepRow>, runners: map<Token, Runner>, log: seq<ToolRun>)

  /** What a step of a runner may meet: a lost reply, the tool's result, and its wishes. */
  datatype Reply = Reply(lost: bool, ok: bool, onboard: bool, follow: bool)

  datatype Event =
    | Tick(seconds: nat)
    | Start(token: Token, resumed: bool)
    | Crash(token: Token)
    | Step(token: Token, reply: Reply)

  const INITIAL := State(0, [], map[], [])

  function NameAt(c: Ctx, p: nat): StepName {
    if p < |Extended(c)| then Extended(c)[p] else ""
  }

  function Operation(c: Ctx, name: StepName): OperationKey {
    OperationKey(c.mission, c.execution, name)
  }

  function CompletedNow(c: Ctx, rows: seq<StepRow>): set<StepName> {
    CompletedNames(rows, |rows|, c.execution, c.owner)
  }

  /** The positions below `n` of the plan whose steps are not completed. */
  function Remaining(c: Ctx, rows: seq<StepRow>, n: nat): seq<nat>
    requires n <= |c.names|
  {
    if n == 0 then []
    else Remaining(c, rows, n - 1) + (if c.names[n - 1] in CompletedNow(c, rows) then [] else [n - 1])
  }

  predicate Rising(plan: seq<nat>, n: nat) {
    (forall i :: 0 <= i < |plan| ==> plan[i] < n) && (forall i, j :: 0 <= i < j < |plan| ==> plan[i] < plan[j])
  }

  lemma RisingGrows(plan: seq<nat>, n: nat)
    requires Rising(plan, n)
    ensures Rising(plan, n + 1) && Rising(plan + [n], n + 1)
  {
  }

  lemma {:induction false} RemainingRises(c: Ctx, rows: seq<StepRow>, n: nat)
    requires n <= |c.names|
    ensures Rising(Remaining(c, rows, n), n)
  {
    if n > 0 {
      RemainingRises(c, rows, n - 1);
      RisingGrows(Remaining(c, rows, n - 1), n - 1);
      assert Remaining(c, rows, n) == Remaining(c, rows, n - 1)
          || Remaining(c, rows, n) == Remaining(c, rows, n - 1) + [n - 1];
    }
  }

  lemma {:induction false} RemainingIs(c: Ctx, rows: seq<StepRow>, n: nat)
    requires n <= |c.names|
    ensures var plan := Remaining(c, rows, n);
            (forall i :: 0 <= i < |plan| ==> plan[i] < n)
            && (forall i, j :: 0 <= i < j < |plan| ==> plan[i] < plan[j])
            && (forall p: nat :: p < n ==> (p in plan <==> c.names[p] !in CompletedNow(c, rows)))
  {
    if n > 0 {
      RemainingIs(c, rows, n - 1);
    }
  }

  function Request(c: Ctx, id: nat, name: StepName, attempt: nat, token: Token): ClaimRequest {
    ClaimRequest(id, c.execution, c.owner, name, attempt, PlanKey(c.execution, name, attempt), Operation(c, name),
                 token, DEFAULT_CLAIM_LEASE_SECONDS)
  }

  function Begin(c: Ctx, rows: seq<StepRow>, resumed: bool): Runner {
    if !resumed then Runner(seq(|c.names|, i => i), 0, {}, Loading)
    else
      var plan := Remaining(c, rows, |c.names|);
      Runner(plan, 0, {}, if plan == [] then Stopped else Loading)
  }

  /** The step the runner is at, or the empty name past the end. */
  function Current(c: Ctx, w: Runner): StepName {
    if w.index < |w.plan| then NameAt(c, w.plan[w.index]) else ""
  }

  function Wanted(c: Ctx, w: Runner, r: Reply): seq<nat> {
    if r.ok && r.onboard && ONBOARDING !in w.done && !Planned(c, w, ONBOARDING) then w.plan + [|c.names|] else w.plan
  }

  predicate Planned(c: Ctx, w: Runner, name: StepName) {
    exists i :: 0 <= i < |w.plan| && NameAt(c, w.plan[i]) == name
  }

  /** The loop test: past the end, already known completed, or about to claim the next attempt. */
  function Tested(c: Ctx, rows: seq<StepRow>, w: Runner): Runner {
    if w.index >= |w.plan| then w.(pc := Stopped)
    else if Current(c, w) in w.done then w.(index := w.index + 1)
    else w.(pc := Claiming(NextAttempt(rows, |rows|, c.execution, c.owner, Current(c, w))))
  }

  function Claimed(c: Ctx, w: Runner, added: nat, answer: ClaimReply, lost: bool): Runner {
    if lost then w.(pc := Stopped)
    else if answer.claimed then w.(pc := Marking(added))
    else if answer.row.status == Completed
    then w.(done := w.done + {Current(c, w)}, index := w.index + 1, pc := Looping)
    else w.(pc := Stopped)
  }

  function Ran(c: Ctx, w: Runner, row: nat, r: Reply): Runner {
    var plan' := Wanted(c, w, r);
    w.(plan := plan', pc := Settling(row, r.ok, r.ok && r.follow && w.index + 1 < |plan'|))
  }

  function Followed(w: Runner, follow: bool): Runner {
    if follow then w.(index := w.index + 1, pc := Looping) else w.(pc := Stopped)
  }

  function LogEntry(c: Ctx, s: State, t: Token, w: Runner, row: nat): ToolRun {
    ToolRun(if w.index < |w.plan| then w.plan[w.index] else 0, t, row, s.now,
            Current(c, w) in CompletedNow(c, s.rows), row < |s.rows| && s.rows[row].token == Some(t))
  }

  function Act(c: Ctx, s: State, t: Token, w: Runner, r: Reply): State {
    match w.pc
    case Loading =>
      s.(runners := s.runners[t := w.(done := CompletedNow(c, s.rows), pc := Looping)])
    case Looping =>
      s.(runners := s.runners[t := Tested(c, s.rows, w)])
    case Claiming(attempt) =>
      var (rows', answer) := GrantClaim(s.rows, Request(c, |s.rows|, Current(c, w), attempt, t), s.now);
      s.(rows := rows', runners := s.runners[t := Claimed(c, w, |s.rows|, answer, r.lost)])
    case Marking(row) =>
      var (rows', updated) := SettleHeld(s.rows, c.execution, row, Some(Current(c, w)), t, InProgress);
      s.(rows := rows', runners := s.runners[t := w.(pc := if updated && !r.lost then Running(row) else Stopped)])
    case Running(row) =>
      s.(runners := s.runners[t := Ran(c, w, row, r)], log := s.log + [LogEntry(c, s, t, w, row)])
    case Settling(row, ok, follow) =>
      var (rows', updated) := SettleHeld(s.rows, c.execution, row, None, t, if ok then Completed else Failed);
      s.(rows := rows',
         runners := s.runners[t := Followed(w, updated && !r.lost && follow)])
    case Stopped => s
  }

  function Apply(c: Ctx, s: State, e: Event): State {
    match e
    case Tick(seconds) => s.(now := s.now + seconds)
    case Start(t, resumed) =>
      if t in s.runners && !s.runners[t].pc.Stopped? then s
      else s.(runners := s.runners[t := Begin(c, s.rows, resumed)])
    case Crash(t) =>
      if t !in s.runners then s else s.(runners := s.runners[t := s.runners[t].(pc := Stopped)])
    case Step(t, reply) =>
      if t !in s.runners then s else Act(c, s, t, s.runners[t], reply)
  }

  /** The state after a run. */
  function After(c: Ctx, events: seq<Event>): State {
    if events == [] then INITIAL else Apply(c, After(c, events[..|events| - 1]), events[|events| - 1])
  }

  /** The state a run leads to from `s`. */
  function From(c: Ctx, s: State, events: seq<Event>): State {
    if events == [] then s else Apply(c, From(c, s, events[..|events| - 1]), events[|events| - 1])
  }

  lemma FromOne(c: Ctx, s: State, events: seq<Event>, e: Event)
    ensures From(c, s, events + [e]) == Apply(c, From(c, s, events), e)
  {
    assert (events + [e])[..|events|] == events;
  }

  lemma {:induction false} FromFirst(c: Ctx, s: State, e: Event, events: seq<Event>)
    ensures From(c, s, [e] + events) == From(c, Apply(c, s, e), events)
  {
    if events == [] {
      assert [e] + events == [] + [e];
      FromOne(c, s, [], e);
    } else {
      var n := |events| - 1;
      FromFirst(c, s, e, events[..n]);
      assert [e] + events == ([e] + events[..n]) + [events[n]];
      FromOne(c, s, [e] + events[..n], events[n]);
    }
  }

  /** A run may be continued from the state it reached. */
  lemma {:induction false} Continued(c: Ctx, events: seq<Event>, more: seq<Event>)
    ensures After(c, events + more) == From(c, After(c, events), more)
  {
    if more == [] {
      assert events + more == events;
    } else {
      var n := |more| - 1;
      Continued(c, events, more[..n]);
      assert (events + more)[..|events + more| - 1] == events + more[..n];
    }
  }

  // ------------------------------------------------------------------
  // The invariant
  // ------------------------------------------------------------------

  ghost predicate Done(rows: seq<StepRow>, name: StepName) {
    exists k :: 0 <= k < |rows| && rows[k].name == name && rows[k].status == Completed
  }

  /** Row `k` belongs to this execution, is keyed by its step and attempt, or by the approval of the
      onboarding step, and carries a lease. */
  predicate Shaped(c: Ctx, row: StepRow, k: nat) {
    row.id == k && row.execution == c.execution && row.owner == c.owner && row.name in Extended(c)
    && row.operation == Operation(c, row.name)
    && (row.key == PlanKey(c.execution, row.name, row.attempt)
        || (row.name == ONBOARDING && row.key == ApprovalKey(c.execution)))
    && row.lease.Some?
    && (row.token == None ==> row.status == Failed)
  }

  predicate AllShaped(c: Ctx, rows: seq<StepRow>) {
    forall k :: 0 <= k < |rows| ==> Shaped(c, rows[k], k)
  }

  /** A step is only ever attempted when every earlier step is completed. */
  ghost predicate InOrder(c: Ctx, rows: seq<StepRow>) {
    forall k, p, q :: 0 <= k < |rows| && 0 <= q < p < |Extended(c)| && rows[k].name == Extended(c)[p] ==>
      Done(rows, Extended(c)[q])
  }

  ghost predicate OrderedRows(c: Ctx, rows: seq<StepRow>) {
    AllShaped(c, rows) && InOrder(c, rows)
  }

  ghost predicate RowsInv(c: Ctx, rows: seq<StepRow>) {
    OrderedRows(c, rows) && Disciplined(rows) && Keyed(rows)
  }

  /** The holder still holds its row, or the lease ran out and the row was taken from it. */
  predicate HeldBy(row: StepRow, t: Token, now: Time) {
    (row.status == InProgress && row.token == Some(t))
    || (row.status == Failed && row.token == None && row.lease.Some? && row.lease.value <= now)
  }

  /** A step left out of the plan was completed before the runner read the completed steps. */
  ghost predicate Covered(rows: seq<StepRow>, w: Runner, name: StepName) {
    if w.pc.Loading? || w.pc.Stopped? then Done(rows, name) else name in w.done
  }

  /** The positions of a runner's plan rise and, with the completed steps, cover the plan. */
  ghost predicate PlanInv(c: Ctx, rows: seq<StepRow>, w: Runner) {
    (forall i :: 0 <= i < |w.plan| ==> w.plan[i] < |Extended(c)|)
    && (forall i, j :: 0 <= i < j < |w.plan| ==> w.plan[i] < w.plan[j])
    && (forall q :: 0 <= q < |c.names| ==> q in w.plan || Covered(rows, w, c.names[q]))
    && w.index <= |w.plan|
    && (forall i :: 0 <= i < w.index ==> Done(rows, NameAt(c, w.plan[i])))
    && (forall name :: name in w.done ==> Done(rows, name))
  }

  ghost predicate Attempted(rows: seq<StepRow>, name: StepName, attempt: nat) {
    exists k :: 0 <= k < |rows| && rows[k].name == name && rows[k].attempt == attempt
  }

  ghost predicate PcInv(c: Ctx, rows: seq<StepRow>, now: Time, t: Token, w: Runner) {
    match w.pc
    case Claiming(attempt) => w.index < |w.plan| && (attempt > 0 ==> Attempted(rows, Current(c, w), attempt - 1))
    case Marking(row) => AtRow(c, rows, now, t, w, row)
    case Running(row) => AtRow(c, rows, now, t, w, row)
    case Settling(row, ok, follow) => AtRow(c, rows, now, t, w, row) && (follow ==> ok)
    case _ => true
  }

  predicate AtRow(c: Ctx, rows: seq<StepRow>, now: Time, t: Token, w: Runner, row: nat) {
    row < |rows| && w.index < |w.plan| && rows[row].name == Current(c, w) && HeldBy(rows[row], t, now)
  }

  ghost predicate RunnersInv(c: Ctx, s: State) {
    forall t :: t in s.runners ==> PlanInv(c, s.rows, s.runners[t]) && PcInv(c, s.rows, s.now, t, s.runners[t])
  }

  /** A tool execution of a step already recorded completed was of a claim taken over after its lease. */
  predicate Excused(rows: seq<StepRow>, run: ToolRun) {
    run.row < |rows| && rows[run.row].lease.Some?
    && (!run.held ==> rows[run.row].lease.value <= run.at) && (run.recorded ==> !run.held)
  }

  predicate LogInv(s: State) {
    forall i :: 0 <= i < |s.log| ==> Excused(s.rows, s.log[i])
  }

  /** The part of the invariant that does not depend on the attempt discipline. */
  ghost predicate Core(c: Ctx, s: State) {
    OrderedRows(c, s.rows) && RunnersInv(c, s)
  }

  ghost predicate Inv(c: Ctx, s: State) {
    RowsInv(c, s.rows) && RunnersInv(c, s) && LogInv(s)
  }

  // ------------------------------------------------------------------
  // How the rows evolve
  // ------------------------------------------------------------------

  /** Rows are never removed and keep their identity; one that has left in-progress never changes again. */
  predicate Grows(rows: seq<StepRow>, rows': seq<StepRow>) {
    |rows| <= |rows'|
    && forall k :: 0 <= k < |rows| ==>
         rows'[k] == rows[k].(status := rows'[k].status, token := rows'[k].token)
         && (rows[k].status != InProgress ==> rows'[k] == rows[k])
  }

  lemma DoneStays(rows: seq<StepRow>, rows': seq<StepRow>, name: StepName)
    requires Grows(rows, rows') && Done(rows, name)
    ensures Done(rows', name)
  {
    var k :| 0 <= k < |rows| && rows[k].name == name && rows[k].status == Completed;
    assert rows'[k] == rows[k];
  }

  predicate Underway(w: Runner) {
    !w.pc.Loading? && !w.pc.Stopped?
  }

  lemma MovedOnKeeps(c: Ctx, rows: seq<StepRow>, w: Runner, pc: Pc)
    requires PlanInv(c, rows, w) && (pc.Stopped? || (Underway(w) && !pc.Loading?))
    ensures PlanInv(c, rows, w.(pc := pc)) && Current(c, w.(pc := pc)) == Current(c, w)
  {
    forall q | 0 <= q < |c.names| ensures q in w.plan || Covered(rows, w.(pc := pc), c.names[q]) {
    }
  }

  lemma PlanInvStays(c: Ctx, rows: seq<StepRow>, rows': seq<StepRow>, w: Runner)
    requires PlanInv(c, rows, w) && Grows(rows, rows')
    ensures PlanInv(c, rows', w)
  {
    forall name | Done(rows, name) ensures Done(rows', name) {
      DoneStays(rows, rows', name);
    }
  }

  lemma PcInvStays(c: Ctx, rows: seq<StepRow>, rows': seq<StepRow>, now: Time, now': Time, t: Token, w: Runner)
    requires PcInv(c, rows, now, t, w) && Grows(rows, rows') && now <= now'
    requires forall k :: 0 <= k < |rows| && HeldBy(rows[k], t, now) ==> HeldBy(rows'[k], t, now')
    ensures PcInv(c, rows', now', t, w)
  {
    if w.pc.Claiming? && w.pc.attempt > 0 {
      var k :| 0 <= k < |rows| && rows[k].name == Current(c, w) && rows[k].attempt == w.pc.attempt - 1;
      assert rows'[k].name == Current(c, w) && rows'[k].attempt == w.pc.attempt - 1;
    }
  }

  /** What the invariant needs from a change of the rows made by runner `t`. */
  ghost predicate RowsStep(c: Ctx, s: State, rows': seq<StepRow>, t: Token) {
    OrderedRows(c, rows') && Grows(s.rows, rows') && OthersHold(s, rows', s.now, t)
  }

  /** What others than `t` hold they still hold, or have lost to a claim after their lease. */
  ghost predicate OthersHold(s: State, rows': seq<StepRow>, now': Time, t: Token) {
    |s.rows| <= |rows'|
    && forall k, u :: 0 <= k < |s.rows| && u != t && HeldBy(s.rows[k], u, s.now) ==> HeldBy(rows'[k], u, now')
  }

  lemma RunnerMoves(c: Ctx, s: State, rows': seq<StepRow>, t: Token, w': Runner, s': State)
    requires RunnersInv(c, s) && RowsStep(c, s, rows', t)
    requires PlanInv(c, rows', w') && PcInv(c, rows', s.now, t, w')
    requires s'.now == s.now && s'.rows == rows' && s'.runners == s.runners[t := w']
    ensures RunnersInv(c, s')
  {
    forall u | u in s'.runners ensures PlanInv(c, rows', s'.runners[u]) && PcInv(c, rows', s.now, u, s'.runners[u]) {
      if u != t {
        PlanInvStays(c, s.rows, rows', s.runners[u]);
        PcInvStays(c, s.rows, rows', s.now, s.now, u, s.runners[u]);
      }
    }
  }

  lemma LogStays(s: State, s': State)
    requires LogInv(s) && Grows(s.rows, s'.rows) && s'.log == s.log
    ensures LogInv(s')
  {
    forall i | 0 <= i < |s'.log| ensures Excused(s'.rows, s'.log[i]) {
      assert Excused(s.rows, s.log[i]);
    }
  }

  // ------------------------------------------------------------------
  // Claims
  // ------------------------------------------------------------------

  lemma ExtendedIsDistinct(c: Ctx, p: nat, q: nat)
    requires DistinctNames(c) && p < |Extended(c)| && q < |Extended(c)| && Extended(c)[p] == Extended(c)[q]
    ensures p == q
  {
  }

  /** Every step before the runner's current one is completed. */
  lemma EarlierStepsDone(c: Ctx, rows: seq<StepRow>, w: Runner, q: nat)
    requires PlanInv(c, rows, w) && w.index < |w.plan| && q < w.plan[w.index]
    ensures Done(rows, NameAt(c, q))
  {
    assert q < |c.names|;
    if q in w.plan {
      var j :| 0 <= j < |w.plan| && w.plan[j] == q;
      assert j < w.index;
    }
  }

  lemma GrantGrows(c: Ctx, s: State, r: ClaimRequest, t: Token)
    requires AllShaped(c, s.rows)
    ensures Grows(s.rows, GrantClaim(s.rows, r, s.now).0)
    ensures forall k, u :: 0 <= k < |s.rows| && HeldBy(s.rows[k], u, s.now) ==>
              HeldBy(GrantClaim(s.rows, r, s.now).0[k], u, s.now)
  {
    if GrantClaim(s.rows, r, s.now).1.claimed {
      GrantAppends(s.rows, r, s.now);
    }
  }

  lemma GrantStaysShaped(c: Ctx, rows: seq<StepRow>, now: Time, name: StepName, attempt: nat, t: Token)
    requires AllShaped(c, rows) && name in Extended(c)
    ensures AllShaped(c, GrantClaim(rows, Request(c, |rows|, name, attempt, t), now).0)
  {
    var r := Request(c, |rows|, name, attempt, t);
    if GrantClaim(rows, r, now).1.claimed {
      GrantAppends(rows, r, now);
    }
  }

  lemma GrantStaysDisciplined(c: Ctx, rows: seq<StepRow>, now: Time, name: StepName, attempt: nat, t: Token)
    requires AllShaped(c, rows) && Disciplined(rows) && Keyed(rows)
    requires attempt > 0 ==> Attempted(rows, name, attempt - 1)
    ensures var rows' := GrantClaim(rows, Request(c, |rows|, name, attempt, t), now).0;
            Disciplined(rows') && Keyed(rows')
  {
    var r := Request(c, |rows|, name, attempt, t);
    if attempt > 0 {
      var k :| 0 <= k < |rows| && rows[k].name == name && rows[k].attempt == attempt - 1;
      assert Related(rows[k], r.execution, r.owner, r.operation);
    }
    ClaimKeepsDiscipline(rows, r, now);
  }

  lemma GrantStaysInOrder(c: Ctx, rows: seq<StepRow>, rows': seq<StepRow>, p: nat)
    requires DistinctNames(c) && InOrder(c, rows) && Grows(rows, rows') && |rows'| <= |rows| + 1
    requires p < |Extended(c)| && (|rows'| > |rows| ==> rows'[|rows|].name == Extended(c)[p])
    requires forall q :: 0 <= q < p ==> Done(rows, Extended(c)[q])
    ensures InOrder(c, rows')
  {
    forall k, m, q | 0 <= k < |rows'| && 0 <= q < m < |Extended(c)| && rows'[k].name == Extended(c)[m]
      ensures Done(rows', Extended(c)[q])
    {
      if k < |rows| {
        assert rows[k].name == Extended(c)[m];
      } else {
        ExtendedIsDistinct(c, p, m);
      }
      DoneStays(rows, rows', Extended(c)[q]);
    }
  }

  lemma ClaimStepKeeps(c: Ctx, s: State, t: Token, w: Runner, attempt: nat)
    requires DistinctNames(c) && OrderedRows(c, s.rows)
    requires PlanInv(c, s.rows, w) && w.index < |w.plan|
    ensures RowsStep(c, s, GrantClaim(s.rows, Request(c, |s.rows|, Current(c, w), attempt, t), s.now).0, t)
  {
    var name := Current(c, w);
    var r := Request(c, |s.rows|, name, attempt, t);
    var rows' := GrantClaim(s.rows, r, s.now).0;
    GrantGrows(c, s, r, t);
    GrantStaysShaped(c, s.rows, s.now, name, attempt, t);
    forall q | 0 <= q < w.plan[w.index] ensures Done(s.rows, Extended(c)[q]) {
      EarlierStepsDone(c, s.rows, w, q);
    }
    assert |rows'| <= |s.rows| + 1 && (|rows'| > |s.rows| ==> rows'[|s.rows|].name == name);
    GrantStaysInOrder(c, s.rows, rows', w.plan[w.index]);
  }

  /** A refused claim that reports a completed row proves the step completed. */
  lemma RefusedByCompletion(c: Ctx, rows: seq<StepRow>, now: Time, name: StepName, attempt: nat, t: Token)
    requires AllShaped(c, rows)
    requires var reply := GrantClaim(rows, Request(c, |rows|, name, attempt, t), now).1;
             !reply.claimed && reply.row.status == Completed
    ensures Done(rows, name)
  {
    var r := Request(c, |rows|, name, attempt, t);
    var known := FindKey(rows, |rows|, r.owner, r.key);
    var latest := Latest(rows, |rows|, r.execution, r.owner, r.operation);
    var k := if known.Some? then known.value else latest.value;
    assert rows[k].name == name && rows[k].status == Completed;
  }

  lemma NextAttemptIsBacked(c: Ctx, rows: seq<StepRow>, name: StepName)
    ensures var a := NextAttempt(rows, |rows|, c.execution, c.owner, name); a > 0 ==> Attempted(rows, name, a - 1)
  {
  }

  // ------------------------------------------------------------------
  // Settlements
  // ------------------------------------------------------------------

  /** In a shaped table a settlement touches at most the row whose index it names, and only while
      the runner's token is still on it. */
  lemma SettleHits(c: Ctx, rows: seq<StepRow>, row: nat, name: Option<StepName>, t: Token, status: StepStatus)
    requires AllShaped(c, rows) && row < |rows|
    ensures var (rows', updated) := SettleHeld(rows, c.execution, row, name, t, status);
            (updated <==> rows[row].token == Some(t))
            && rows' == (if updated then rows[row := Settled(rows[row], name, status)] else rows)
  {
    var held := FindHeld(rows, |rows|, c.execution, row, t);
    assert Shaped(c, rows[row], row);
    if held.Some? {
      assert Shaped(c, rows[held.value], held.value);
    }
  }

  lemma SettleKeeps(c: Ctx, s: State, t: Token, w: Runner, row: nat, name: Option<StepName>, status: StepStatus)
    requires OrderedRows(c, s.rows) && AtRow(c, s.rows, s.now, t, w, row)
    requires name.Some? ==> name.value == Current(c, w)
    requires status == InProgress || status == Completed || status == Failed
    ensures var (rows', updated) := SettleHeld(s.rows, c.execution, row, name, t, status);
            RowsStep(c, s, rows', t)
            && (updated ==> row < |rows'| && rows'[row].status == status && rows'[row].token == Some(t)
                            && rows'[row].name == Current(c, w))
  {
    SettleHits(c, s.rows, row, name, t, status);
    var (rows', updated) := SettleHeld(s.rows, c.execution, row, name, t, status);
    if updated {
      assert Settled(s.rows[row], name, status) == s.rows[row].(status := status);
      UpdateKeeps(c, s, t, row, status);
      SettledStaysInOrder(c, s.rows, rows');
    }
  }

  lemma UpdateKeeps(c: Ctx, s: State, t: Token, row: nat, status: StepStatus)
    requires AllShaped(c, s.rows) && row < |s.rows|
    requires s.rows[row].status == InProgress && s.rows[row].token == Some(t)
    ensures var rows' := s.rows[row := s.rows[row].(status := status)];
            AllShaped(c, rows') && Grows(s.rows, rows')
            && forall k, u :: 0 <= k < |s.rows| && u != t && HeldBy(s.rows[k], u, s.now) ==> HeldBy(rows'[k], u, s.now)
  {
    var rows' := s.rows[row := s.rows[row].(status := status)];
    forall k | 0 <= k < |rows'| ensures Shaped(c, rows'[k], k) {
      assert Shaped(c, s.rows[k], k);
    }
  }

  lemma SettledStaysInOrder(c: Ctx, rows: seq<StepRow>, rows': seq<StepRow>)
    requires InOrder(c, rows) && Grows(rows, rows') && |rows'| == |rows|
    ensures InOrder(c, rows')
  {
    forall k, m, q | 0 <= k < |rows'| && 0 <= q < m < |Extended(c)| && rows'[k].name == Extended(c)[m]
      ensures Done(rows', Extended(c)[q])
    {
      assert rows[k].name == Extended(c)[m];
      DoneStays(rows, rows', Extended(c)[q]);
    }
  }

  // ------------------------------------------------------------------
  // Every event keeps the invariant
  // ------------------------------------------------------------------

  lemma CompletedMeansDone(c: Ctx, rows: seq<StepRow>, name: StepName)
    requires AllShaped(c, rows)
    ensures name in CompletedNow(c, rows) <==> Done(rows, name)
  {
  }

  lemma PlanStarts(c: Ctx, rows: seq<StepRow>, plan: seq<nat>, pc: Pc)
    requires Rising(plan, |c.names|) && (pc.Loading? || pc.Stopped?)
    requires forall q :: 0 <= q < |c.names| ==> q in plan || Done(rows, c.names[q])
    ensures PlanInv(c, rows, Runner(plan, 0, {}, pc))
  {
  }

  lemma BeginFreshKeeps(c: Ctx, rows: seq<StepRow>)
    ensures PlanInv(c, rows, Begin(c, rows, false))
  {
    var plan := seq(|c.names|, i => i);
    forall q | 0 <= q < |c.names| ensures q in plan {
      assert plan[q] == q;
    }
    PlanStarts(c, rows, plan, Loading);
  }

  lemma BeginResumedKeeps(c: Ctx, rows: seq<StepRow>)
    requires AllShaped(c, rows)
    ensures PlanInv(c, rows, Begin(c, rows, true))
  {
    var plan := Remaining(c, rows, |c.names|);
    RemainingRises(c, rows, |c.names|);
    forall q | 0 <= q < |c.names| ensures q in plan || Done(rows, c.names[q]) {
      LeftOutIsDone(c, rows, q);
    }
    PlanStarts(c, rows, plan, if plan == [] then Stopped else Loading);
  }

  lemma LeftOutIsDone(c: Ctx, rows: seq<StepRow>, q: nat)
    requires AllShaped(c, rows) && q < |c.names|
    ensures q in Remaining(c, rows, |c.names|) || Done(rows, c.names[q])
  {
    RemainingIs(c, rows, |c.names|);
    CompletedMeansDone(c, rows, c.names[q]);
  }

  lemma BeginKeeps(c: Ctx, rows: seq<StepRow>, resumed: bool)
    requires AllShaped(c, rows)
    ensures PlanInv(c, rows, Begin(c, rows, resumed))
  {
    if resumed {
      BeginResumedKeeps(c, rows);
    } else {
      BeginFreshKeeps(c, rows);
    }
  }

  lemma WantedKeeps(c: Ctx, rows: seq<StepRow>, w: Runner, r: Reply)
    requires PlanInv(c, rows, w) && Underway(w)
    ensures PlanInv(c, rows, w.(plan := Wanted(c, w, r)))
    ensures w.index < |w.plan| ==> Current(c, w.(plan := Wanted(c, w, r))) == Current(c, w)
  {
    var plan' := Wanted(c, w, r);
    if plan' != w.plan {
      forall q | 0 <= q < |c.names| ensures c.names[q] != ONBOARDING {
        assert q in w.plan ==> NameAt(c, q) != ONBOARDING;
      }
      forall i | 0 <= i < |w.plan| ensures w.plan[i] < |c.names| {
        assert NameAt(c, w.plan[i]) != ONBOARDING;
      }
      assert forall q :: q in w.plan ==> q in plan';
    }
  }

  /** A runner that still holds its claim never runs a step already recorded completed. */
  lemma HeldStepIsNotDone(c: Ctx, rows: seq<StepRow>, row: nat)
    requires RowsInv(c, rows) && row < |rows| && rows[row].status == InProgress
    ensures !Done(rows, rows[row].name)
  {
    if Done(rows, rows[row].name) {
      var k :| 0 <= k < |rows| && rows[k].name == rows[row].name && rows[k].status == Completed;
      assert Shaped(c, rows[k], k) && Shaped(c, rows[row], row);
      DisciplineForbidsBoth(rows, k, row);
    }
  }

  lemma DisciplineForbidsBoth(rows: seq<StepRow>, k: nat, m: nat)
    requires Ordered(rows) && k < |rows| && m < |rows| && rows[k].status == Completed && rows[m].status == InProgress
    ensures !Related(rows[m], rows[k].execution, rows[k].owner, rows[k].operation)
  {
  }

  /** A runner's action. */
  lemma RunnerKeeps(c: Ctx, s: State, t: Token, rows': seq<StepRow>, w': Runner)
    requires Core(c, s) && RowsStep(c, s, rows', t) && PlanInv(c, rows', w') && PcInv(c, rows', s.now, t, w')
    ensures Core(c, s.(rows := rows', runners := s.runners[t := w'])) && Grows(s.rows, rows')
  {
    RunnerMoves(c, s, rows', t, w', s.(rows := rows', runners := s.runners[t := w']));
  }

  /** The core survives a change made by runner `t`. */
  ghost predicate Kept(c: Ctx, s: State, s': State, t: Token) {
    Core(c, s') && Grows(s.rows, s'.rows) && OthersHold(s, s'.rows, s'.now, t)
  }

  lemma LoadingKeeps(c: Ctx, s: State, t: Token, reply: Reply)
    requires Core(c, s) && t in s.runners && s.runners[t].pc.Loading?
    ensures Kept(c, s, Act(c, s, t, s.runners[t], reply), t)
  {
    var w := s.runners[t];
    var w' := w.(done := CompletedNow(c, s.rows), pc := Looping);
    forall name | name in w'.done ensures Done(s.rows, name) {
      CompletedMeansDone(c, s.rows, name);
    }
    RunnerKeeps(c, s, t, s.rows, w');
  }

  lemma SkippedKeeps(c: Ctx, rows: seq<StepRow>, w: Runner)
    requires PlanInv(c, rows, w) && Underway(w) && w.index < |w.plan| && Done(rows, Current(c, w))
    ensures PlanInv(c, rows, w.(index := w.index + 1))
  {
    var w' := w.(index := w.index + 1);
    assert forall name :: Covered(rows, w', name) == Covered(rows, w, name);
  }

  lemma TestedKeeps(c: Ctx, rows: seq<StepRow>, now: Time, t: Token, w: Runner)
    requires PlanInv(c, rows, w) && w.pc.Looping?
    ensures PlanInv(c, rows, Tested(c, rows, w)) && PcInv(c, rows, now, t, Tested(c, rows, w))
  {
    if w.index < |w.plan| && Current(c, w) in w.done {
      SkippedKeeps(c, rows, w);
    } else {
      NextAttemptIsBacked(c, rows, Current(c, w));
      MovedOnKeeps(c, rows, w, Tested(c, rows, w).pc);
    }
  }

  lemma LoopingKeeps(c: Ctx, s: State, t: Token, reply: Reply)
    requires Core(c, s) && t in s.runners && s.runners[t].pc.Looping?
    ensures Kept(c, s, Act(c, s, t, s.runners[t], reply), t)
  {
    TestedKeeps(c, s.rows, s.now, t, s.runners[t]);
    RunnerKeeps(c, s, t, s.rows, Tested(c, s.rows, s.runners[t]));
  }

  lemma ClaimedKeeps(c: Ctx, rows: seq<StepRow>, now: Time, t: Token, w: Runner, added: nat, answer: ClaimReply,
          lost: bool)
    requires PlanInv(c, rows, w) && Underway(w) && w.index < |w.plan|
    requires answer.claimed ==> AtRow(c, rows, now, t, w, added)
    requires !answer.claimed && answer.row.status == Completed ==> Done(rows, Current(c, w))
    ensures PlanInv(c, rows, Claimed(c, w, added, answer, lost))
    ensures PcInv(c, rows, now, t, Claimed(c, w, added, answer, lost))
  {
    MovedOnKeeps(c, rows, w, if lost || !answer.claimed then Stopped else Marking(added));
  }

  lemma GrantedRowIsHeld(c: Ctx, rows: seq<StepRow>, now: Time, name: StepName, attempt: nat, t: Token)
    requires GrantClaim(rows, Request(c, |rows|, name, attempt, t), now).1.claimed
    ensures var rows' := GrantClaim(rows, Request(c, |rows|, name, attempt, t), now).0;
            |rows| < |rows'| && rows'[|rows|].name == name && HeldBy(rows'[|rows|], t, now)
  {
    GrantAppends(rows, Request(c, |rows|, name, attempt, t), now);
  }

  lemma ClaimingKeeps(c: Ctx, s: State, t: Token, reply: Reply)
    requires DistinctNames(c) && Core(c, s) && t in s.runners && s.runners[t].pc.Claiming?
    ensures Kept(c, s, Act(c, s, t, s.runners[t], reply), t)
  {
    var w := s.runners[t];
    var name := Current(c, w);
    var attempt := w.pc.attempt;
    var (rows', answer) := GrantClaim(s.rows, Request(c, |s.rows|, name, attempt, t), s.now);
    assert RowsStep(c, s, rows', t) by { ClaimStepKeeps(c, s, t, w, attempt); }
    assert PlanInv(c, rows', w) by { PlanInvStays(c, s.rows, rows', w); }
    if answer.claimed {
      GrantedRowIsHeld(c, s.rows, s.now, name, attempt, t);
    } else if answer.row.status == Completed {
      RefusedByCompletion(c, s.rows, s.now, name, attempt, t);
      DoneStays(s.rows, rows', name);
    }
    ClaimedKeeps(c, rows', s.now, t, w, |s.rows|, answer, reply.lost);
    RunnerKeeps(c, s, t, rows', Claimed(c, w, |s.rows|, answer, reply.lost));
  }

  lemma MarkingKeeps(c: Ctx, s: State, t: Token, reply: Reply)
    requires Core(c, s) && t in s.runners && s.runners[t].pc.Marking?
    ensures Kept(c, s, Act(c, s, t, s.runners[t], reply), t)
  {
    var w := s.runners[t];
    var row := w.pc.row;
    var (rows', updated) := SettleHeld(s.rows, c.execution, row, Some(Current(c, w)), t, InProgress);
    var w' := w.(pc := if updated && !reply.lost then Running(row) else Stopped);
    SettleKeeps(c, s, t, w, row, Some(Current(c, w)), InProgress);
    PlanInvStays(c, s.rows, rows', w);
    MovedOnKeeps(c, rows', w, w'.pc);
    RunnerKeeps(c, s, t, rows', w');
  }

  lemma FollowedKeeps(c: Ctx, rows: seq<StepRow>, w: Runner, follow: bool)
    requires PlanInv(c, rows, w) && Underway(w) && w.index < |w.plan| && (follow ==> Done(rows, Current(c, w)))
    ensures PlanInv(c, rows, Followed(w, follow))
  {
    if follow {
      SkippedKeeps(c, rows, w);
      MovedOnKeeps(c, rows, w.(index := w.index + 1), Looping);
    } else {
      MovedOnKeeps(c, rows, w, Stopped);
    }
  }

  lemma SettlingKeeps(c: Ctx, s: State, t: Token, reply: Reply)
    requires Core(c, s) && t in s.runners && s.runners[t].pc.Settling?
    ensures Kept(c, s, Act(c, s, t, s.runners[t], reply), t)
  {
    var w := s.runners[t];
    var row := w.pc.row;
    var status := if w.pc.ok then Completed else Failed;
    var (rows', updated) := SettleHeld(s.rows, c.execution, row, None, t, status);
    var follow := updated && !reply.lost && w.pc.follow;
    SettleKeeps(c, s, t, w, row, None, status);
    assert PlanInv(c, rows', w) by { PlanInvStays(c, s.rows, rows', w); }
    assert follow ==> Done(rows', Current(c, w)) by { assert updated ==> rows'[row].status == status; }
    FollowedKeeps(c, rows', w, follow);
    RunnerKeeps(c, s, t, rows', Followed(w, follow));
  }

  lemma ToolRunIsExcused(c: Ctx, s: State, t: Token, w: Runner, row: nat)
    requires RowsInv(c, s.rows) && AtRow(c, s.rows, s.now, t, w, row)
    ensures Excused(s.rows, LogEntry(c, s, t, w, row))
  {
    assert Shaped(c, s.rows[row], row);
    CompletedMeansDone(c, s.rows, Current(c, w));
    if s.rows[row].token == Some(t) {
      HeldStepIsNotDone(c, s.rows, row);
    }
  }

  lemma RunningKeeps(c: Ctx, s: State, t: Token, reply: Reply)
    requires Core(c, s) && t in s.runners && s.runners[t].pc.Running?
    ensures Kept(c, s, Act(c, s, t, s.runners[t], reply), t)
  {
    var w := s.runners[t];
    var w' := Ran(c, w, w.pc.row, reply);
    WantedKeeps(c, s.rows, w, reply);
    MovedOnKeeps(c, s.rows, w.(plan := Wanted(c, w, reply)), w'.pc);
    RunnerMoves(c, s, s.rows, t, w', Act(c, s, t, w, reply));
  }

  lemma StepKeeps(c: Ctx, s: State, t: Token, reply: Reply)
    requires DistinctNames(c) && Core(c, s) && t in s.runners
    ensures Kept(c, s, Act(c, s, t, s.runners[t], reply), t)
  {
    match s.runners[t].pc
    case Loading => LoadingKeeps(c, s, t, reply);
    case Looping => LoopingKeeps(c, s, t, reply);
    case Claiming(_) => ClaimingKeeps(c, s, t, reply);
    case Marking(_) => MarkingKeeps(c, s, t, reply);
    case Running(_) => RunningKeeps(c, s, t, reply);
    case Settling(_, _, _) => SettlingKeeps(c, s, t, reply);
    case Stopped =>
  }

  lemma TickKeeps(c: Ctx, s: State, now': Time)
    requires Core(c, s) && s.now <= now'
    ensures Core(c, s.(now := now'))
  {
    forall t | t in s.runners ensures PcInv(c, s.rows, now', t, s.runners[t]) {
      PcInvStays(c, s.rows, s.rows, s.now, now', t, s.runners[t]);
    }
  }

  /** The runner an event belongs to; time passing is nobody's, and holds for anybody. */
  predicate Owns(e: Event, t: Token) {
    e.Tick? || e.token == t
  }

  lemma EventKeepsCore(c: Ctx, s: State, e: Event, t: Token)
    requires DistinctNames(c) && Core(c, s) && Owns(e, t)
    ensures Kept(c, s, Apply(c, s, e), t)
  {
    match e
    case Tick(seconds) => TickKeeps(c, s, s.now + seconds);
    case Start(_, resumed) =>
      if Apply(c, s, e) != s {
        BeginKeeps(c, s.rows, resumed);
        RunnerKeeps(c, s, t, s.rows, Begin(c, s.rows, resumed));
      }
    case Crash(_) =>
      if t in s.runners {
        MovedOnKeeps(c, s.rows, s.runners[t], Stopped);
        RunnerKeeps(c, s, t, s.rows, s.runners[t].(pc := Stopped));
      }
    case Step(_, reply) =>
      if t in s.runners {
        StepKeeps(c, s, t, reply);
      }
  }

  // ------------------------------------------------------------------
  // Discipline and log
  // ------------------------------------------------------------------

  lemma SettleKeepsDiscipline(c: Ctx, s: State, t: Token, w: Runner, row: nat, name: Option<StepName>,
          status: StepStatus)
    requires RowsInv(c, s.rows) && AtRow(c, s.rows, s.now, t, w, row)
    requires name.Some? ==> name.value == Current(c, w)
    requires status == InProgress || status == Completed || status == Failed
    ensures var rows' := SettleHeld(s.rows, c.execution, row, name, t, status).0; Disciplined(rows') && Keyed(rows')
  {
    SettleHits(c, s.rows, row, name, t, status);
    if s.rows[row].token == Some(t) {
      SettlementKeepsDiscipline(s.rows, row, name, status);
    }
  }

  lemma StepKeepsDiscipline(c: Ctx, s: State, t: Token, reply: Reply)
    requires Core(c, s) && RowsInv(c, s.rows) && t in s.runners
    ensures var rows' := Act(c, s, t, s.runners[t], reply).rows; Disciplined(rows') && Keyed(rows')
  {
    var w := s.runners[t];
    assert PcInv(c, s.rows, s.now, t, w) && PlanInv(c, s.rows, w);
    match w.pc
    case Claiming(attempt) => GrantStaysDisciplined(c, s.rows, s.now, Current(c, w), attempt, t);
    case Marking(row) => SettleKeepsDiscipline(c, s, t, w, row, Some(Current(c, w)), InProgress);
    case Settling(row, ok, _) => SettleKeepsDiscipline(c, s, t, w, row, None, if ok then Completed else Failed);
    case _ =>
  }

  lemma StepKeepsLog(c: Ctx, s: State, t: Token, reply: Reply)
    requires Inv(c, s) && t in s.runners && Grows(s.rows, Act(c, s, t, s.runners[t], reply).rows)
    ensures LogInv(Act(c, s, t, s.runners[t], reply))
  {
    var w, s' := s.runners[t], Act(c, s, t, s.runners[t], reply);
    if w.pc.Running? {
      assert PcInv(c, s.rows, s.now, t, w);
      ToolRunIsExcused(c, s, t, w, w.pc.row);
    } else {
      LogStays(s, s');
    }
  }

  lemma EventKeeps(c: Ctx, s: State, e: Event)
    requires DistinctNames(c) && Inv(c, s)
    ensures Inv(c, Apply(c, s, e)) && Grows(s.rows, Apply(c, s, e).rows)
  {
    EventKeepsCore(c, s, e, if e.Tick? then 0 else e.token);
    if e.Step? && e.token in s.runners {
      StepKeepsDiscipline(c, s, e.token, e.reply);
      StepKeepsLog(c, s, e.token, e.reply);
    } else {
      LogStays(s, Apply(c, s, e));
    }
  }

  /** The invariant holds after every run. */
  lemma {:induction false} RunKeeps(c: Ctx, events: seq<Event>)
    requires DistinctNames(c)
    ensures Inv(c, After(c, events))
  {
    if events == [] {
    } else {
      var n := |events| - 1;
      RunKeeps(c, events[..n]);
      EventKeeps(c, After(c, events[..n]), events[n]);
    }
  }

  /** So it does from any state that has it. */
  lemma {:induction false} FromKeeps(c: Ctx, s0: State, trace: seq<Event>)
    requires DistinctNames(c) && Inv(c, s0)
    ensures Inv(c, From(c, s0, trace))
  {
    if trace != [] {
      var n := |trace| - 1;
      FromKeeps(c, s0, trace[..n]);
      EventKeeps(c, From(c, s0, trace[..n]), trace[n]);
    }
  }

  /** A run only lets the rows grow. */
  lemma {:induction false} FromGrows(c: Ctx, s0: State, trace: seq<Event>)
    requires DistinctNames(c) && Inv(c, s0)
    ensures Grows(s0.rows, From(c, s0, trace).rows)
  {
    if trace != [] {
      var n := |trace| - 1;
      FromGrows(c, s0, trace[..n]);
      FromKeeps(c, s0, trace[..n]);
      EventKeeps(c, From(c, s0, trace[..n]), trace[n]);
      GrowsOn(s0.rows, From(c, s0, trace[..n]).rows, From(c, s0, trace).rows);
    }
  }

  lemma RunGrows(c: Ctx, events: seq<Event>, more: seq<Event>)
    requires DistinctNames(c)
    ensures Grows(After(c, events).rows, After(c, events + more).rows)
  {
    RunKeeps(c, events);
    FromGrows(c, After(c, events), more);
    Continued(c, events, more);
  }

  lemma GrowsOn(a: seq<StepRow>, b: seq<StepRow>, d: seq<StepRow>)
    requires Grows(a, b) && Grows(b, d)
    ensures Grows(a, d)
  {
    forall k | 0 <= k < |a|
      ensures d[k] == a[k].(status := d[k].status, token := d[k].token) && (a[k].status != InProgress ==> d[k] == a[k])
    {
      assert b[k] == a[k].(status := b[k].status, token := b[k].token);
    }
  }
}
