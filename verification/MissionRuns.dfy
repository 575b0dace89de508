/** Any number of workers running missions of one owner, among pauses, cancellations, approvals,
    reschedulings and newly created missions.

    Every database call is one event, and a worker may stall or crash between any two of them. A
    transition is two calls: it reads the status, tests the edge, and writes the new status without
    looking at the row again. What a worker computes without a call is joined to the call before it. */
module MissionRuns {
  import opened Wrappers
  import opened MissionStates
  import opened MissionOrchestration

  /** A transition that has read `from` and is about to write `target`. */
  datatype Intent = Intent(id: Id, from: MissionState, target: MissionState)

  datatype Pc =
    | Idle
    // The guard has read the row `seen`; its dependencies are looked up one by one.
    | Checking(id: Id, seen: Mission, guarded: Time, checked: nat)
    | Claiming(id: Id, seen: Mission, guarded: Time)
    | Counting(id: Id, seen: Mission, guarded: Time, expiry: Time)
    | Starting(id: Id, seen: Mission, guarded: Time, expiry: Time)
    | Activating(id: Id, seen: Mission, guarded: Time, expiry: Time, from: MissionState)
    | Working(id: Id, seen: Mission, expiry: Time)
    | Delaying(id: Id, seen: Mission, expiry: Time)
    | Reporting(id: Id, expiry: Time, target: MissionState)
    | Settling(id: Id, expiry: Time, from: MissionState, target: MissionState)
    | Releasing(id: Id, expiry: Time)

  /** The employee was started on a mission: `seen` is the row the guard had read, `found` the row
      that the start found. */
  datatype Start = Start(id: Id, seen: Mission, guarded: Time, found: Mission, at: Time)

  /** The attempt count was to be written: `read` is the count the guard had read, `found` the one
      on the row, and the write may have been lost. */
  datatype CountWrite = CountWrite(id: Id, read: nat, found: nat, applied: bool)

  /** Each run, and each transition somebody else makes, has a token of its own. The last two fields
      are history. */
  datatype State = State(
    now: Time,
    store: Store,
    moves: map<Token, Intent>,
    workers: map<Token, Pc>,
    starts: seq<Start>,
    counts: seq<CountWrite>)

  datatype Event =
    | Tick(seconds: nat)
    | Create(mission: Mission)
    | Read(token: Token, id: Id, target: MissionState)
    | Write(token: Token)
    | Reschedule(id: Id, at: Time)
    | Guarding(token: Token, id: Id)
    | Act(token: Token, report: Report, fault: Fault)
    | Crash(token: Token)

  const INITIAL := State(0, Store([], []), map[], map[], [], [])

  function Fresh(m: Mission, now: Time): Mission {
    m.(status := if m.scheduledAt.Some? then Scheduled else Pending, retryAt := None, attempts := 0,
       token := None, lease := None, createdAt := now)
  }

  function AttemptsOf(s: Store, id: Id): nat {
    if id < |s.missions| then s.missions[id].attempts else 0
  }

  /** The part of readiness that is decided on the row alone. */
  predicate TimesAreDue(m: Mission, now: Time) {
    (m.status in READY_STATES || m.status == WaitingDependency) && Due(m.scheduledAt, now) && Due(m.retryAt, now)
  }

  /** Where the guard stands when `n` dependencies were found completed. */
  function Checked(id: Id, seen: Mission, guarded: Time, n: nat): Pc {
    if n < |seen.dependencies| then Checking(id, seen, guarded, n)
    // An exhausted mission's transition to failed is a transition like anybody's.
    else if seen.attempts >= seen.maxAttempts then Idle
    else Claiming(id, seen, guarded)
  }

  /** Where the employee's report leads. */
  function Reported(id: Id, seen: Mission, expiry: Time, report: Report): Pc {
    if report == RETRY then Delaying(id, seen, expiry)
    else if TargetOf(report) == None then Releasing(id, expiry)
    else Reporting(id, expiry, TargetOf(report).value)
  }

  function Goes(s: State, t: Token, pc: Pc): State {
    s.(workers := s.workers[t := pc])
  }

  function GuardStep(s: State, t: Token, id: Id): State {
    if id >= |s.store.missions| || !TimesAreDue(s.store.missions[id], s.now) then Goes(s, t, Idle)
    else Goes(s, t, Checked(id, s.store.missions[id], s.now, 0))
  }

  /** What a call writes, when it is not lost. */
  function Effect(s: Store, t: Token, pc: Pc, now: Time): Store {
    match pc
    case Claiming(id, seen, _) => if LeaseHeld(seen, now) then s else ClaimedBy(s, id, t, now).0
    case Counting(id, seen, _, _) => Counted(s, id, seen.attempts + 1)
    case Activating(id, _, _, _, from) => Overwritten(s, id, from, Active)
    case Delaying(id, seen, _) => WithRetryAt(s, id, now + RetryDelayOf(seen))
    case Settling(id, _, from, target) => Overwritten(s, id, from, target)
    case Releasing(id, _) => Released(s, id, t)
    case _ => s
  }

  /** Where a worker goes on. Whether the count and the retry time were written it does not look at;
      after any other failed call it stops, or, once the employee has run, goes on to the release. */
  function NextPc(s: Store, pc: Pc, now: Time, report: Report, fault: Fault): Pc {
    match pc
    case Idle => Idle
    case Checking(id, seen, guarded, n) =>
      if fault == NoFault && n < |seen.dependencies| && IsCompleted(s, seen.dependencies[n])
      then Checked(id, seen, guarded, n + 1) else Idle
    case Claiming(id, seen, guarded) =>
      if fault == NoFault && !LeaseHeld(seen, now) && Claimable(s, id, now)
      then Counting(id, seen, guarded, now + ORCHESTRATION_LEASE_SECONDS) else Idle
    case Counting(id, seen, guarded, expiry) => Starting(id, seen, guarded, expiry)
    case Starting(id, seen, guarded, expiry) =>
      if fault == NoFault && CanMove(s, id, Active)
      then Activating(id, seen, guarded, expiry, s.missions[id].status) else Idle
    case Activating(id, seen, _, expiry, _) =>
      if fault == NoFault && id < |s.missions| then Working(id, seen, expiry) else Idle
    case Working(id, seen, expiry) => Reported(id, seen, expiry, report)
    case Delaying(id, _, expiry) => Reporting(id, expiry, Retrying)
    case Reporting(id, expiry, target) =>
      if fault == NoFault && CanMove(s, id, target) then Settling(id, expiry, s.missions[id].status, target)
      else Releasing(id, expiry)
    case Settling(id, expiry, _, _) => Releasing(id, expiry)
    case Releasing(_, _) => Idle
  }

  function StartsAfter(s: State, pc: Pc, fault: Fault): seq<Start> {
    if pc.Activating? && fault == NoFault && pc.id < |s.store.missions|
    then s.starts + [Start(pc.id, pc.seen, pc.guarded, s.store.missions[pc.id], s.now)]
    else s.starts
  }

  function CountsAfter(s: State, pc: Pc, fault: Fault): seq<CountWrite> {
    if pc.Counting?
    then s.counts + [CountWrite(pc.id, pc.seen.attempts, AttemptsOf(s.store, pc.id), fault != LostBefore)]
    else s.counts
  }

  /** A worker's next call. */
  function WorkerStep(s: State, t: Token, pc: Pc, report: Report, fault: Fault): State {
    s.(store := if fault == LostBefore then s.store else Effect(s.store, t, pc, s.now),
       workers := s.workers[t := NextPc(s.store, pc, s.now, report, fault)],
       starts := StartsAfter(s, pc, fault), counts := CountsAfter(s, pc, fault))
  }

  /** Somebody else's transition reads the status. Only a run makes a mission active. */
  function ReadStep(s: State, t: Token, id: Id, target: MissionState): State {
    if target == Active || !CanMove(s.store, id, target) then s.(moves := s.moves - {t})
    else s.(moves := s.moves[t := Intent(id, s.store.missions[id].status, target)])
  }

  function WriteStep(s: State, t: Token, i: Intent): State {
    s.(store := Overwritten(s.store, i.id, i.from, i.target), moves := s.moves - {t})
  }

  /** A rescheduling writes the times first; its transition to scheduled is one like anybody's. */
  function WithSchedule(s: Store, id: Id, at: Time): Store {
    if id >= |s.missions| then s
    else s.(missions := s.missions[id := s.missions[id].(scheduledAt := Some(at), retryAt := None)])
  }

  /** A run on its way to the start. */
  predicate Begun(pc: Pc) {
    pc.Checking? || pc.Claiming? || pc.Counting? || pc.Starting? || pc.Activating?
  }

  predicate PastClaim(pc: Pc) {
    !pc.Idle? && !pc.Checking? && !pc.Claiming?
  }

  /** A worker keeps its mission, what its guard read, and its lease, until it is idle again. */
  lemma NextPcGoesOn(s: Store, pc: Pc, now: Time, report: Report, fault: Fault)
    ensures var pc' := NextPc(s, pc, now, report, fault);
            (pc.Idle? ==> pc'.Idle?)
            && (!pc'.Idle? ==> !pc.Idle? && pc'.id == pc.id)
            && (Begun(pc') ==> Begun(pc) && pc'.seen == pc.seen && pc'.guarded == pc.guarded)
            && (PastClaim(pc') && !pc.Claiming? ==> PastClaim(pc) && pc'.expiry == pc.expiry)
  {
  }

  function Apply(s: State, e: Event): State {
    match e
    case Tick(seconds) => s.(now := s.now + seconds)
    case Create(m) => s.(store := s.store.(missions := s.store.missions + [Fresh(m, s.now)]))
    case Read(t, id, target) => ReadStep(s, t, id, target)
    case Write(t) => if t !in s.moves then s else WriteStep(s, t, s.moves[t])
    case Reschedule(id, at) => s.(store := WithSchedule(s.store, id, at))
    case Guarding(t, id) => if t in s.workers then s else GuardStep(s, t, id)
    case Act(t, report, fault) => if t !in s.workers then s else WorkerStep(s, t, s.workers[t], report, fault)
    case Crash(t) => if t !in s.workers then s else Goes(s, t, Idle)
  }

  function After(events: seq<Event>): State {
    if events == [] then INITIAL else Apply(After(events[..|events| - 1]), events[|events| - 1])
  }

  lemma AfterOne(events: seq<Event>, e: Event)
    ensures After(events + [e]) == Apply(After(events), e)
  {
    assert (events + [e])[..|events|] == events;
  }

  ghost predicate Reachable(s: State) {
    exists events :: After(events) == s
  }

  lemma Reach(s: State, e: Event, s': State)
    requires Reachable(s) && s' == Apply(s, e)
    ensures Reachable(s')
  {
    var events :| After(events) == s;
    AfterOne(events, e);
  }

  // ------------------------------------------------------------------
  // Dependencies: the invariant
  // ------------------------------------------------------------------

  /** Missions keep their dependencies, and transitions are only added to the log. */
  predicate Grows(s: Store, t: Store) {
    |s.missions| <= |t.missions| && s.events <= t.events
    && forall k :: 0 <= k < |s.missions| ==> t.missions[k].dependencies == s.missions[k].dependencies
  }

  predicate CompletesAt(s: Store, i: nat, id: Id) {
    i < |s.events| && s.events[i].id == id && s.events[i].to == Completed
  }

  ghost predicate LoggedBefore(s: Store, n: nat, id: Id) {
    exists i :: 0 <= i < n && CompletesAt(s, i, id)
  }

  ghost predicate HasCompleted(s: Store, id: Id) {
    LoggedBefore(s, |s.events|, id)
  }

  /** All dependencies have been completed, whatever became of them since. */
  ghost predicate Justified(s: Store, id: Id) {
    id < |s.missions| && forall d :: d in s.missions[id].dependencies ==> HasCompleted(s, d)
  }

  predicate NeedsDependencies(status: MissionState) {
    status in {Active, WaitingApproval, Completed}
  }

  /** Only missions whose dependencies have been completed are active, or can become completed. */
  ghost predicate StatesJustified(s: Store) {
    forall id :: 0 <= id < |s.missions| && NeedsDependencies(s.missions[id].status) ==> Justified(s, id)
  }

  /** Every completed mission was logged. */
  ghost predicate CompletionsLogged(s: Store) {
    forall id :: 0 <= id < |s.missions| && s.missions[id].status == Completed ==> HasCompleted(s, id)
  }

  ghost predicate OrderedAt(s: Store, i: nat) {
    i < |s.events| && s.events[i].id < |s.missions|
    && (s.events[i].to == Completed ==>
          forall d :: d in s.missions[s.events[i].id].dependencies ==> LoggedBefore(s, i, d))
  }

  /** Completions come after the completions of their dependencies. */
  ghost predicate TopologicalOrder(s: Store) {
    forall i :: 0 <= i < |s.events| ==> OrderedAt(s, i)
  }

  ghost predicate StoreInv(s: Store) {
    StatesJustified(s) && CompletionsLogged(s) && TopologicalOrder(s)
  }

  /** What a transition knows when it has read the status it starts from. */
  ghost predicate IntentOk(s: Store, i: Intent) {
    i.id < |s.missions| && MayMove(i.from, i.target)
    && (NeedsDependencies(i.target) ==> Justified(s, i.id))
    && (i.from == Completed ==> HasCompleted(s, i.id))
  }

  ghost predicate PcOk(s: Store, pc: Pc) {
    match pc
    case Checking(id, seen, _, n) =>
      id < |s.missions| && seen.dependencies == s.missions[id].dependencies && n < |seen.dependencies|
      && forall k :: 0 <= k < n ==> HasCompleted(s, seen.dependencies[k])
    case Activating(id, _, _, _, from) => Justified(s, id) && IntentOk(s, Intent(id, from, Active))
    case Reporting(_, _, target) => target != Active
    case Settling(id, _, from, target) => IntentOk(s, Intent(id, from, target))
    case Claiming(id, _, _) => Justified(s, id)
    case Counting(id, _, _, _) => Justified(s, id)
    case Starting(id, _, _, _) => Justified(s, id)
    case _ => true
  }

  predicate PcDue(now: Time, pc: Pc) {
    Begun(pc) ==> TimesAreDue(pc.seen, pc.guarded) && pc.guarded <= now
  }

  ghost predicate WorkersOk(s: State) {
    forall t :: t in s.workers ==> PcOk(s.store, s.workers[t]) && PcDue(s.now, s.workers[t])
  }

  ghost predicate MovesOk(s: State) {
    forall t :: t in s.moves ==> IntentOk(s.store, s.moves[t])
  }

  ghost predicate StartOk(s: State, start: Start) {
    Justified(s.store, start.id) && TimesAreDue(start.seen, start.guarded) && start.guarded <= start.at <= s.now
  }

  ghost predicate StartsOk(s: State) {
    forall i :: 0 <= i < |s.starts| ==> StartOk(s, s.starts[i])
  }

  ghost predicate Inv(s: State) {
    StoreInv(s.store) && WorkersOk(s) && MovesOk(s) && StartsOk(s)
  }

  // ------------------------------------------------------------------
  // Dependencies: the store
  // ------------------------------------------------------------------

  lemma LogStays(s: Store, t: Store, n: nat, m: nat, id: Id)
    requires s.events <= t.events && LoggedBefore(s, n, id) && n <= m
    ensures LoggedBefore(t, m, id)
  {
    var i :| 0 <= i < n && CompletesAt(s, i, id);
    assert CompletesAt(t, i, id);
  }

  lemma JustifiedStays(s: Store, t: Store, id: Id)
    requires Grows(s, t) && Justified(s, id)
    ensures Justified(t, id)
  {
    forall d | d in t.missions[id].dependencies ensures HasCompleted(t, d) {
      LogStays(s, t, |s.events|, |t.events|, d);
    }
  }

  lemma IntentStays(s: Store, t: Store, i: Intent)
    requires Grows(s, t) && IntentOk(s, i)
    ensures IntentOk(t, i)
  {
    if Justified(s, i.id) {
      JustifiedStays(s, t, i.id);
    }
    if HasCompleted(s, i.id) {
      LogStays(s, t, |s.events|, |t.events|, i.id);
    }
  }

  lemma PcStays(s: Store, t: Store, pc: Pc)
    requires Grows(s, t) && PcOk(s, pc)
    ensures PcOk(t, pc)
  {
    match pc
    case Checking(id, seen, _, n) =>
      forall k | 0 <= k < n ensures HasCompleted(t, seen.dependencies[k]) {
        LogStays(s, t, |s.events|, |t.events|, seen.dependencies[k]);
      }
    case Activating(id, _, _, _, from) =>
      JustifiedStays(s, t, id);
      IntentStays(s, t, Intent(id, from, Active));
    case Settling(id, _, from, target) => IntentStays(s, t, Intent(id, from, target));
    case Claiming(id, _, _) => JustifiedStays(s, t, id);
    case Counting(id, _, _, _) => JustifiedStays(s, t, id);
    case Starting(id, _, _, _) => JustifiedStays(s, t, id);
    case _ =>
  }

  lemma OrderStays(s: Store, t: Store, i: nat)
    requires Grows(s, t) && OrderedAt(s, i)
    ensures OrderedAt(t, i)
  {
    assert t.events[i] == s.events[i];
    if s.events[i].to == Completed {
      forall d | d in t.missions[t.events[i].id].dependencies ensures LoggedBefore(t, i, d) {
        LogStays(s, t, i, i, d);
      }
    }
  }

  /** A change of the store that logs nothing and moves no mission into a state that needs its
      dependencies. */
  predicate Quiet(s: Store, t: Store) {
    Grows(s, t) && t.events == s.events
    && forall k :: 0 <= k < |t.missions| && NeedsDependencies(t.missions[k].status) ==>
         k < |s.missions| && s.missions[k].status == t.missions[k].status
  }

  lemma QuietKeeps(s: Store, t: Store)
    requires StoreInv(s) && Quiet(s, t)
    ensures StoreInv(t)
  {
    forall id | 0 <= id < |t.missions| && NeedsDependencies(t.missions[id].status) ensures Justified(t, id) {
      JustifiedStays(s, t, id);
    }
    forall id | 0 <= id < |t.missions| && t.missions[id].status == Completed ensures HasCompleted(t, id) {
      LogStays(s, t, |s.events|, |t.events|, id);
    }
    forall i | 0 <= i < |t.events| ensures OrderedAt(t, i) {
      OrderStays(s, t, i);
    }
  }

  lemma OverwrittenGrows(s: Store, i: Intent)
    ensures Grows(s, Overwritten(s, i.id, i.from, i.target))
  {
  }

  /** A status write keeps the order, however long ago the status was read. */
  lemma OverwrittenKeeps(s: Store, i: Intent)
    requires StoreInv(s) && IntentOk(s, i)
    ensures StoreInv(Overwritten(s, i.id, i.from, i.target))
  {
    var t := Overwritten(s, i.id, i.from, i.target);
    OverwrittenGrows(s, i);
    forall id | 0 <= id < |t.missions| && NeedsDependencies(t.missions[id].status) ensures Justified(t, id) {
      JustifiedStays(s, t, id);
    }
    forall id | 0 <= id < |t.missions| && t.missions[id].status == Completed ensures HasCompleted(t, id) {
      if id == i.id && i.from != Completed {
        assert CompletesAt(t, |s.events|, id);
      } else {
        LogStays(s, t, |s.events|, |t.events|, id);
      }
    }
    forall k | 0 <= k < |t.events| ensures OrderedAt(t, k) {
      if k < |s.events| {
        OrderStays(s, t, k);
      } else {
        LastIsOrdered(s, t, i);
      }
    }
  }

  lemma LastIsOrdered(s: Store, t: Store, i: Intent)
    requires IntentOk(s, i) && Grows(s, t) && t.events == s.events + [Transitioned(i.id, i.from, i.target)]
    ensures OrderedAt(t, |s.events|)
  {
    if i.target == Completed {
      forall d | d in t.missions[i.id].dependencies ensures LoggedBefore(t, |s.events|, d) {
        LogStays(s, t, |s.events|, |s.events|, d);
      }
    }
  }

  /** Reading the status, a transition learns what it needs. */
  lemma ReadGivesIntent(s: Store, id: Id, target: MissionState)
    requires StoreInv(s) && CanMove(s, id, target) && (target == Active ==> Justified(s, id))
    ensures IntentOk(s, Intent(id, s.missions[id].status, target))
  {
    var from := s.missions[id].status;
    assert NeedsDependencies(target) && target != Active ==> NeedsDependencies(from);
  }

  // ------------------------------------------------------------------
  // Every event keeps it
  // ------------------------------------------------------------------

  /** What a change must provide for the invariant to survive it. */
  lemma Changes(s: State, s': State)
    requires Inv(s) && StoreInv(s'.store) && Grows(s.store, s'.store) && s.now <= s'.now
    requires forall t :: t in s'.workers ==>
               (t in s.workers && s'.workers[t] == s.workers[t])
               || (PcOk(s'.store, s'.workers[t]) && PcDue(s'.now, s'.workers[t]))
    requires forall t :: t in s'.moves ==>
               (t in s.moves && s'.moves[t] == s.moves[t]) || IntentOk(s'.store, s'.moves[t])
    requires forall i :: 0 <= i < |s'.starts| ==>
               (i < |s.starts| && s'.starts[i] == s.starts[i]) || StartOk(s', s'.starts[i])
    ensures Inv(s')
  {
    forall t | t in s'.workers ensures PcOk(s'.store, s'.workers[t]) && PcDue(s'.now, s'.workers[t]) {
      if t in s.workers && s'.workers[t] == s.workers[t] {
        PcStays(s.store, s'.store, s.workers[t]);
      }
    }
    forall t | t in s'.moves ensures IntentOk(s'.store, s'.moves[t]) {
      if t in s.moves && s'.moves[t] == s.moves[t] {
        IntentStays(s.store, s'.store, s.moves[t]);
      }
    }
    forall i | 0 <= i < |s'.starts| ensures StartOk(s', s'.starts[i]) {
      if i < |s.starts| && s'.starts[i] == s.starts[i] {
        JustifiedStays(s.store, s'.store, s.starts[i].id);
      }
    }
  }

  /** Worker `t` goes on at `pc`, on a store that may have changed. */
  lemma WorkerGoes(s: State, t: Token, store': Store, pc: Pc, counts': seq<CountWrite>)
    requires Inv(s) && StoreInv(store') && Grows(s.store, store') && PcOk(store', pc) && PcDue(s.now, pc)
    ensures Inv(Goes(s.(store := store', counts := counts'), t, pc))
  {
    Changes(s, Goes(s.(store := store', counts := counts'), t, pc));
  }

  lemma CheckedIsOk(s: Store, id: Id, seen: Mission, guarded: Time, n: nat)
    requires id < |s.missions| && seen.dependencies == s.missions[id].dependencies && n <= |seen.dependencies|
    requires forall k :: 0 <= k < n ==> HasCompleted(s, seen.dependencies[k])
    ensures PcOk(s, Checked(id, seen, guarded, n))
  {
  }

  lemma StoreStays(s: State, t: Token, pc: Pc)
    requires Inv(s) && PcOk(s.store, pc) && PcDue(s.now, pc)
    ensures Inv(Goes(s, t, pc))
  {
    WorkerGoes(s, t, s.store, pc, s.counts);
  }

  lemma GuardKeeps(s: State, t: Token, id: Id)
    requires Inv(s)
    ensures Inv(GuardStep(s, t, id))
  {
    if id < |s.store.missions| && TimesAreDue(s.store.missions[id], s.now) {
      CheckedIsOk(s.store, id, s.store.missions[id], s.now, 0);
      StoreStays(s, t, Checked(id, s.store.missions[id], s.now, 0));
    } else {
      StoreStays(s, t, Idle);
    }
  }

  lemma CheckKeeps(s: State, t: Token, report: Report, fault: Fault)
    requires Inv(s) && t in s.workers && s.workers[t].Checking?
    ensures Inv(WorkerStep(s, t, s.workers[t], report, fault))
  {
    var pc := s.workers[t];
    assert PcOk(s.store, pc) && PcDue(s.now, pc);
    if fault == NoFault && IsCompleted(s.store, pc.seen.dependencies[pc.checked]) {
      CheckedIsOk(s.store, pc.id, pc.seen, pc.guarded, pc.checked + 1);
      StoreStays(s, t, Checked(pc.id, pc.seen, pc.guarded, pc.checked + 1));
    } else {
      StoreStays(s, t, Idle);
    }
  }

  lemma ClaimKeeps(s: State, t: Token, report: Report, fault: Fault)
    requires Inv(s) && t in s.workers && s.workers[t].Claiming?
    ensures Inv(WorkerStep(s, t, s.workers[t], report, fault))
  {
    var pc, s' := s.workers[t], WorkerStep(s, t, s.workers[t], report, fault);
    assert PcOk(s.store, pc) && PcDue(s.now, pc);
    assert Quiet(s.store, s'.store);
    QuietKeeps(s.store, s'.store);
    JustifiedStays(s.store, s'.store, pc.id);
    WorkerGoes(s, t, s'.store, s'.workers[t], s.counts);
  }

  lemma CountKeeps(s: State, t: Token, report: Report, fault: Fault)
    requires Inv(s) && t in s.workers && s.workers[t].Counting?
    ensures Inv(WorkerStep(s, t, s.workers[t], report, fault))
  {
    var pc, s' := s.workers[t], WorkerStep(s, t, s.workers[t], report, fault);
    assert PcOk(s.store, pc) && PcDue(s.now, pc);
    assert Quiet(s.store, s'.store);
    QuietKeeps(s.store, s'.store);
    JustifiedStays(s.store, s'.store, pc.id);
    WorkerGoes(s, t, s'.store, s'.workers[t], s'.counts);
  }

  lemma StartingKeeps(s: State, t: Token, report: Report, fault: Fault)
    requires Inv(s) && t in s.workers && s.workers[t].Starting?
    ensures Inv(WorkerStep(s, t, s.workers[t], report, fault))
  {
    var pc, s' := s.workers[t], WorkerStep(s, t, s.workers[t], report, fault);
    assert PcOk(s.store, pc) && PcDue(s.now, pc);
    if CanMove(s.store, pc.id, Active) {
      ReadGivesIntent(s.store, pc.id, Active);
    }
    StoreStays(s, t, s'.workers[t]);
  }

  lemma ActivatingKeeps(s: State, t: Token, report: Report, fault: Fault)
    requires Inv(s) && t in s.workers && s.workers[t].Activating?
    ensures Inv(WorkerStep(s, t, s.workers[t], report, fault))
  {
    var pc, s' := s.workers[t], WorkerStep(s, t, s.workers[t], report, fault);
    assert PcOk(s.store, pc) && PcDue(s.now, pc);
    var i := Intent(pc.id, pc.from, Active);
    OverwrittenKeeps(s.store, i);
    OverwrittenGrows(s.store, i);
    JustifiedStays(s.store, s'.store, pc.id);
    Changes(s, s');
  }

  lemma LaterKeeps(s: State, t: Token, report: Report, fault: Fault)
    requires Inv(s) && t in s.workers && !Begun(s.workers[t]) && !s.workers[t].Settling?
    ensures Inv(WorkerStep(s, t, s.workers[t], report, fault))
  {
    var pc, s' := s.workers[t], WorkerStep(s, t, s.workers[t], report, fault);
    if pc.Idle? {
    } else {
      assert PcOk(s.store, pc);
      assert Quiet(s.store, s'.store);
      QuietKeeps(s.store, s'.store);
      if pc.Reporting? && CanMove(s.store, pc.id, pc.target) {
        ReadGivesIntent(s.store, pc.id, pc.target);
      }
      WorkerGoes(s, t, s'.store, s'.workers[t], s.counts);
    }
  }

  lemma SettlingKeeps(s: State, t: Token, report: Report, fault: Fault)
    requires Inv(s) && t in s.workers && s.workers[t].Settling?
    ensures Inv(WorkerStep(s, t, s.workers[t], report, fault))
  {
    var pc, s' := s.workers[t], WorkerStep(s, t, s.workers[t], report, fault);
    assert PcOk(s.store, pc);
    var i := Intent(pc.id, pc.from, pc.target);
    OverwrittenKeeps(s.store, i);
    OverwrittenGrows(s.store, i);
    WorkerGoes(s, t, s'.store, s'.workers[t], s.counts);
  }

  lemma WorkerKeeps(s: State, t: Token, report: Report, fault: Fault)
    requires Inv(s) && t in s.workers
    ensures Inv(WorkerStep(s, t, s.workers[t], report, fault))
  {
    match s.workers[t]
    case Checking(_, _, _, _) => CheckKeeps(s, t, report, fault);
    case Claiming(_, _, _) => ClaimKeeps(s, t, report, fault);
    case Counting(_, _, _, _) => CountKeeps(s, t, report, fault);
    case Starting(_, _, _, _) => StartingKeeps(s, t, report, fault);
    case Activating(_, _, _, _, _) => ActivatingKeeps(s, t, report, fault);
    case Settling(_, _, _, _) => SettlingKeeps(s, t, report, fault);
    case _ => LaterKeeps(s, t, report, fault);
  }

  lemma MoveKeeps(s: State, e: Event)
    requires Inv(s) && (e.Read? || e.Write?)
    ensures Inv(Apply(s, e))
  {
    if e.Read? {
      if e.target != Active && CanMove(s.store, e.id, e.target) {
        ReadGivesIntent(s.store, e.id, e.target);
      }
      Changes(s, Apply(s, e));
    } else if e.token in s.moves {
      OverwrittenKeeps(s.store, s.moves[e.token]);
      OverwrittenGrows(s.store, s.moves[e.token]);
      Changes(s, Apply(s, e));
    }
  }

  lemma EventKeeps(s: State, e: Event)
    requires Inv(s)
    ensures Inv(Apply(s, e))
  {
    match e
    case Tick(_) => Changes(s, Apply(s, e));
    case Create(_) =>
      QuietKeeps(s.store, Apply(s, e).store);
      Changes(s, Apply(s, e));
    case Read(_, _, _) => MoveKeeps(s, e);
    case Write(_) => MoveKeeps(s, e);
    case Reschedule(id, at) =>
      QuietKeeps(s.store, Apply(s, e).store);
      Changes(s, Apply(s, e));
    case Guarding(t, id) =>
      if t !in s.workers {
        GuardKeeps(s, t, id);
      }
    case Act(t, report, fault) =>
      if t in s.workers {
        WorkerKeeps(s, t, report, fault);
      }
    case Crash(t) =>
      if t in s.workers {
        StoreStays(s, t, Idle);
      }
  }

  lemma {:induction false} RunKeeps(events: seq<Event>)
    ensures Inv(After(events))
  {
    if events == [] {
    } else {
      var n := |events| - 1;
      RunKeeps(events[..n]);
      EventKeeps(After(events[..n]), events[n]);
    }
  }

  // ------------------------------------------------------------------
  // A run by itself
  // ------------------------------------------------------------------

  /** Worker `t` makes its next `n` calls, all of them answered and nobody else acting. */
  function Alone(s: State, t: Token, report: Report, n: nat): State
    decreases n
  {
    if n == 0 then s else Alone(Apply(s, Act(t, report, NoFault)), t, report, n - 1)
  }

  function DependencyCount(s: Store, id: Id): nat {
    if id < |s.missions| then |s.missions[id].dependencies| else 0
  }

  /** The calls of one run: the guard with its dependencies, ... */
  function RunGuarded(s: State, t: Token, id: Id, report: Report): State {
    Alone(Apply(s, Guarding(t, id)), t, report, DependencyCount(s.store, id))
  }

  function Calls(s: State, t: Token, report: Report): State {
    Apply(s, Act(t, report, NoFault))
  }

  /** ... the claim, the count, the start, ... */
  function RunStarted(s: State, t: Token, report: Report): State {
    Calls(Calls(Calls(Calls(s, t, report), t, report), t, report), t, report)
  }

  /** ... when the employee has worked for a while its report, and the release: five calls at most. */
  function RunEnded(s: State, t: Token, report: Report, took: nat, n: nat): State {
    Alone(Apply(s, Tick(took)), t, report, n)
  }

  /** An exhausted mission is moved to failed instead. */
  function RunAbandoned(s: State, t: Token, id: Id): State {
    Apply(Apply(s, Read(t, id, Failed)), Write(t))
  }

  function WholeRun(s: State, t: Token, id: Id, report: Report, took: nat, n: nat): State {
    var s' := RunEnded(RunStarted(RunGuarded(s, t, id, report), t, report), t, report, took, n);
    if GuardOf(s.store, id, s.now) == Exhausted then RunAbandoned(s', t, id) else s'
  }

  /** An idle worker stays idle. */
  lemma {:induction false} IdleStays(s: State, t: Token, report: Report, n: nat)
    requires t in s.workers && s.workers[t] == Idle
    ensures Alone(s, t, report, n) == s
  {
    if n > 0 {
      assert s.workers[t := Idle] == s.workers;
      assert Apply(s, Act(t, report, NoFault)) == s;
      IdleStays(s, t, report, n - 1);
    }
  }

  predicate UnblockedFrom(s: Store, dependencies: seq<Id>, n: nat) {
    forall i :: n <= i < |dependencies| ==> IsCompleted(s, dependencies[i])
  }

  /** The guard looks up what is left of the dependencies. */
  lemma {:induction false} ChecksRun(s: State, t: Token, id: Id, seen: Mission, guarded: Time, report: Report, n: nat)
    requires n <= |seen.dependencies| && t in s.workers && s.workers[t] == Checked(id, seen, guarded, n)
    ensures Alone(s, t, report, |seen.dependencies| - n)
         == Goes(s, t, if UnblockedFrom(s.store, seen.dependencies, n)
                       then Checked(id, seen, guarded, |seen.dependencies|) else Idle)
    decreases |seen.dependencies| - n
  {
    if n == |seen.dependencies| {
      assert s.workers[t := s.workers[t]] == s.workers;
    } else {
      var s' := Apply(s, Act(t, report, NoFault));
      if IsCompleted(s.store, seen.dependencies[n]) {
        ChecksRun(s', t, id, seen, guarded, report, n + 1);
      } else {
        IdleStays(s', t, report, |seen.dependencies| - n - 1);
      }
    }
  }

  lemma GuardRuns(s: State, t: Token, id: Id, report: Report)
    requires t !in s.workers
    ensures RunGuarded(s, t, id, report)
         == Goes(s, t, if GuardOf(s.store, id, s.now) == Admitted then Claiming(id, s.store.missions[id], s.now)
                 else Idle)
  {
    var s' := Apply(s, Guarding(t, id));
    if id < |s.store.missions| && TimesAreDue(s.store.missions[id], s.now) {
      DueGuardRuns(s', t, id, s.store.missions[id], report);
      assert s'.workers[t := Claiming(id, s.store.missions[id], s.now)]
             == s.workers[t := Claiming(id, s.store.missions[id], s.now)];
      assert s'.workers[t := Idle] == s.workers[t := Idle];
    } else {
      IdleStays(s', t, report, DependencyCount(s.store, id));
    }
  }

  /** The lookups of a guard that found the times due. */
  lemma DueGuardRuns(s: State, t: Token, id: Id, m: Mission, report: Report)
    requires t in s.workers && s.workers[t] == Checked(id, m, s.now, 0)
    requires id < |s.store.missions| && s.store.missions[id] == m && TimesAreDue(m, s.now)
    ensures Alone(s, t, report, |m.dependencies|)
         == Goes(s, t, if GuardOf(s.store, id, s.now) == Admitted then Claiming(id, m, s.now) else Idle)
  {
    ChecksRun(s, t, id, m, s.now, report, 0);
    assert UnblockedFrom(s.store, m.dependencies, 0) <==> Unblocked(s.store, m.dependencies);
  }

  /** A worker that starts: claimed, counted, read, written. */
  lemma StartRuns(s: State, t: Token, id: Id, m: Mission, report: Report)
    requires t in s.workers && s.workers[t] == Claiming(id, m, s.now)
    requires id < |s.store.missions| && s.store.missions[id] == m && Claimable(s.store, id, s.now)
    ensures var (store, ok) := Moved(Counted(ClaimedBy(s.store, id, t, s.now).0, id, m.attempts + 1), id, Active);
            var s' := RunStarted(s, t, report);
            s'.store == store && s'.now == s.now && t in s'.workers
            && s'.workers[t] == if ok then Working(id, m, s.now + ORCHESTRATION_LEASE_SECONDS) else Idle
  {
  }

  lemma OneCall(s: State, t: Token, report: Report, n: nat)
    requires t in s.workers && n > 0
    ensures Alone(s, t, report, n) == Alone(WorkerStep(s, t, s.workers[t], report, NoFault), t, report, n - 1)
  {
  }

  lemma ReleaseRuns(s: State, t: Token, report: Report, n: nat)
    requires t in s.workers && s.workers[t].Releasing? && n >= 1
    ensures Alone(s, t, report, n).store == Released(s.store, s.workers[t].id, t)
  {
    OneCall(s, t, report, n);
    IdleStays(WorkerStep(s, t, s.workers[t], report, NoFault), t, report, n - 1);
  }

  lemma SettlingRuns(s: State, t: Token, report: Report, n: nat)
    requires t in s.workers && s.workers[t].Settling? && n >= 2
    ensures var pc := s.workers[t];
            Alone(s, t, report, n).store == Released(Overwritten(s.store, pc.id, pc.from, pc.target), pc.id, t)
  {
    OneCall(s, t, report, n);
    ReleaseRuns(WorkerStep(s, t, s.workers[t], report, NoFault), t, report, n - 1);
  }

  /** The transition that a report asks for, and the release. */
  lemma SettleRuns(s: State, t: Token, report: Report, n: nat)
    requires t in s.workers && s.workers[t].Reporting? && n >= 3
    ensures Alone(s, t, report, n).store
         == Released(Moved(s.store, s.workers[t].id, s.workers[t].target).0, s.workers[t].id, t)
  {
    var pc := s.workers[t];
    OneCall(s, t, report, n);
    if CanMove(s.store, pc.id, pc.target) {
      SettlingRuns(WorkerStep(s, t, pc, report, NoFault), t, report, n - 1);
    } else {
      ReleaseRuns(WorkerStep(s, t, pc, report, NoFault), t, report, n - 1);
    }
  }

  lemma DelayRuns(s: State, t: Token, report: Report, n: nat)
    requires t in s.workers && s.workers[t].Delaying? && n >= 4
    ensures var pc := s.workers[t];
            Alone(s, t, report, n).store
            == Released(Moved(WithRetryAt(s.store, pc.id, s.now + RetryDelayOf(pc.seen)), pc.id, Retrying).0, pc.id, t)
  {
    OneCall(s, t, report, n);
    SettleRuns(WorkerStep(s, t, s.workers[t], report, NoFault), t, report, n - 1);
  }

  lemma ReportedRuns(s: State, t: Token, id: Id, seen: Mission, expiry: Time, report: Report, n: nat)
    requires t in s.workers && s.workers[t] == Reported(id, seen, expiry, report) && n >= 4
    ensures Alone(s, t, report, n).store == Released(Recorded(s.store, id, report, RetryDelayOf(seen), s.now), id, t)
  {
    if report == RETRY {
      DelayRuns(s, t, report, n);
    } else if TargetOf(report) == None {
      ReleaseRuns(s, t, report, n);
    } else {
      SettleRuns(s, t, report, n);
    }
  }

  lemma ReportRuns(s: State, t: Token, id: Id, seen: Mission, report: Report, n: nat)
    requires t in s.workers && s.workers[t].Working? && s.workers[t].id == id && s.workers[t].seen == seen && n >= 5
    ensures Alone(s, t, report, n).store == Released(Recorded(s.store, id, report, RetryDelayOf(seen), s.now), id, t)
  {
    var expiry := s.workers[t].expiry;
    OneCall(s, t, report, n);
    ReportedRuns(WorkerStep(s, t, s.workers[t], report, NoFault), t, id, seen, expiry, report, n - 1);
  }

  /** The end of a run, whether the employee was started or not. */
  lemma EndRuns(s: State, t: Token, id: Id, m: Mission, ok: bool, report: Report, took: nat, n: nat)
    requires t in s.workers && n >= 5
    requires if ok then s.workers[t].Working? && s.workers[t].id == id && s.workers[t].seen == m else s.workers[t].Idle?
    ensures RunEnded(s, t, report, took, n).store
         == if ok then Released(Recorded(s.store, id, report, RetryDelayOf(m), s.now + took), id, t) else s.store
  {
    var s' := s.(now := s.now + took);
    assert s' == Apply(s, Tick(took));
    if ok {
      ReportRuns(s', t, id, m, report, n);
    } else {
      IdleStays(s', t, report, n);
    }
  }

  /** A run from a granted claim: `s'` is where its start left it. */
  lemma AdmittedRuns(s: State, s': State, t: Token, id: Id, m: Mission, report: Report, took: nat, n: nat)
    requires n >= 5 && t in s'.workers && s'.now == s.now
    requires var (store, ok) := Moved(Counted(s.store, id, m.attempts + 1), id, Active);
             s'.store == store
             && if ok then s'.workers[t].Working? && s'.workers[t].id == id && s'.workers[t].seen == m
                else s'.workers[t].Idle?
    ensures RunEnded(s', t, report, took, n).store == Worked(s.store, id, m, t, s.now, report, took).0
  {
    EndRuns(s', t, id, m, s'.workers[t].Working?, report, took, n);
  }

  /** The database calls, made one after the other, are the run that the service performs. */
  lemma WholeRunIsRunMission(s: State, t: Token, id: Id, report: Report, took: nat, n: nat)
    requires t !in s.workers && n >= 5
    ensures WholeRun(s, t, id, report, took, n).store == RunAlone(s.store, id, t, s.now, report, took).0
  {
    var s' := RunGuarded(s, t, id, report);
    GuardRuns(s, t, id, report);
    if GuardOf(s.store, id, s.now) == Admitted && Claimable(s.store, id, s.now) {
      var m := s.store.missions[id];
      StartRuns(s', t, id, m, report);
      AdmittedRuns(s.(store := ClaimedBy(s.store, id, t, s.now).0),
                   RunStarted(s', t, report), t, id, m, report, took, n);
    } else {
      NothingRuns(s', t, report);
      IdleStays(Apply(RunStarted(s', t, report), Tick(took)), t, report, n);
    }
  }

  /** A run that was not admitted, or not granted its claim, changes nothing. */
  lemma NothingRuns(s: State, t: Token, report: Report)
    requires t in s.workers
    requires s.workers[t].Idle? || (s.workers[t].Claiming? && !Claimable(s.store, s.workers[t].id, s.now))
    ensures RunStarted(s, t, report) == Goes(s, t, Idle)
  {
    assert s.workers[t].Idle? ==> s.workers[t := Idle] == s.workers;
  }
}
