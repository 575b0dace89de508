/** What holds in every run of the orchestration, whoever pauses, cancels, approves, reschedules or
    creates missions meanwhile, and however many workers run them. */
module MissionTheorems {
  import opened Wrappers
  import opened MissionStates
  import opened MissionOrchestration
  import opened MissionRuns

  // ------------------------------------------------------------------
  // Dependencies
  // ------------------------------------------------------------------

  /** The sequence of completions is a topological order: when a mission completed, each of its
      dependencies had completed before. */
  lemma CompletionsAreTopologicallyOrdered(events: seq<Event>, i: nat, d: Id)
    requires i < |After(events).store.events| && After(events).store.events[i].to == Completed
    requires var s := After(events).store; s.events[i].id < |s.missions| && d in s.missions[s.events[i].id].dependencies
    ensures exists j :: 0 <= j < i && CompletesAt(After(events).store, j, d)
  {
    RunKeeps(events);
    assert OrderedAt(After(events).store, i);
  }

  /** A set of missions that cannot complete: each is missing, or was cancelled and never completed, or
      depends on another member. Every dependency cycle is such a set, and so is every mission that
      depends on a missing, cancelled or itself stuck one. */
  ghost predicate Stuck(s: Store, stuck: set<Id>) {
    forall id :: id in stuck ==>
      id >= |s.missions| || (s.missions[id].status == Cancelled && !HasCompleted(s, id))
      || exists d :: d in s.missions[id].dependencies && d in stuck
  }

  /** No member was ever completed: its completion would need an earlier one, and so on for ever. */
  lemma {:induction false} NoEarliestCompletion(events: seq<Event>, stuck: set<Id>, i: nat, id: Id)
    requires Stuck(After(events).store, stuck) && id in stuck && CompletesAt(After(events).store, i, id)
    ensures false
    decreases i
  {
    RunKeeps(events);
    var s := After(events).store;
    assert OrderedAt(s, i);
    var d :| d in s.missions[id].dependencies && d in stuck;
    CompletionsAreTopologicallyOrdered(events, i, d);
    var j :| 0 <= j < i && CompletesAt(s, j, d);
    NoEarliestCompletion(events, stuck, j, d);
  }

  lemma StuckIsNeverCompleted(events: seq<Event>, stuck: set<Id>, id: Id)
    requires Stuck(After(events).store, stuck) && id in stuck
    ensures !HasCompleted(After(events).store, id)
    ensures !IsCompleted(After(events).store, id)
  {
    RunKeeps(events);
    var s := After(events).store;
    if HasCompleted(s, id) {
      var j :| 0 <= j < |s.events| && CompletesAt(s, j, id);
      NoEarliestCompletion(events, stuck, j, id);
    }
  }

  /** In every run, no mission with a dependency in a stuck set was ever started: in particular none
      that depends on a missing mission, or on one that was cancelled before it completed. */
  lemma NothingStuckIsStarted(events: seq<Event>, stuck: set<Id>, i: nat)
    requires Stuck(After(events).store, stuck) && i < |After(events).starts|
    ensures After(events).starts[i].id < |After(events).store.missions|
    ensures forall d :: d in After(events).store.missions[After(events).starts[i].id].dependencies ==> d !in stuck
  {
    RunKeeps(events);
    var s := After(events);
    assert StartOk(s, s.starts[i]);
    forall d | d in s.store.missions[s.starts[i].id].dependencies ensures d !in stuck {
      if d in stuck {
        StuckIsNeverCompleted(events, stuck, d);
      }
    }
  }

  /** Each mission of the path depends on the next one, and the last on the first. */
  ghost predicate Cycle(s: Store, path: seq<Id>) {
    path != []
    && forall k :: 0 <= k < |path| ==>
         path[k] < |s.missions| && path[(k + 1) % |path|] in s.missions[path[k]].dependencies
  }

  /** In every run, no mission on a dependency cycle was ever started. */
  lemma NothingOnACycleIsStarted(events: seq<Event>, path: seq<Id>, i: nat)
    requires Cycle(After(events).store, path) && i < |After(events).starts|
    ensures After(events).starts[i].id !in path
  {
    var s := After(events).store;
    var stuck := set id | id in path;
    forall id | id in stuck ensures exists d :: d in s.missions[id].dependencies && d in stuck {
      var k :| 0 <= k < |path| && path[k] == id;
      assert path[(k + 1) % |path|] in stuck;
    }
    NothingStuckIsStarted(events, stuck, i);
  }

  // ------------------------------------------------------------------
  // Where a start comes from
  // ------------------------------------------------------------------

  /** The guard of a run passed the mission on this row. */
  predicate ReadAt(s: State, id: Id, seen: Mission, guarded: Time) {
    s.now == guarded && id < |s.store.missions| && s.store.missions[id] == seen && TimesAreDue(seen, guarded)
  }

  /** Event `n` was the read of run `t`'s guard. */
  predicate GuardedAt(events: seq<Event>, n: nat, t: Token, id: Id, seen: Mission, guarded: Time) {
    n < |events| && events[n] == Guarding(t, id) && ReadAt(After(events[..n]), id, seen, guarded)
  }

  /** Event `m` was the write that made start `i`. */
  predicate MadeAt(events: seq<Event>, m: nat, t: Token, i: nat) {
    m < |events| && events[m].Act? && events[m].token == t && i < |After(events).starts|
    && |After(events[..m]).starts| == i && t in After(events[..m]).workers && After(events[..m]).workers[t].Activating?
    && var s := After(events[..m]); var pc := s.workers[t]; var start := After(events).starts[i];
    pc.id == start.id && pc.seen == start.seen && pc.guarded == start.guarded
    && s.now == start.at && start.id < |s.store.missions| && s.store.missions[start.id] == start.found
  }

  /** Start `i` was made by run `t`, which read its row as event `n` and was started as event `m`. */
  predicate TracedFrom(events: seq<Event>, i: nat, t: Token, n: nat, m: nat) {
    n < m && MadeAt(events, m, t, i)
    && var start := After(events).starts[i]; GuardedAt(events, n, t, start.id, start.seen, start.guarded)
  }

  ghost predicate PcTraced(events: seq<Event>, t: Token, pc: Pc) {
    Begun(pc) ==> exists n: nat :: GuardedAt(events, n, t, pc.id, pc.seen, pc.guarded)
  }

  ghost predicate StartTraced(events: seq<Event>, i: nat) {
    exists t: Token, n: nat, m: nat :: TracedFrom(events, i, t, n, m)
  }

  ghost predicate WorkersTraced(events: seq<Event>) {
    forall t :: t in After(events).workers ==> PcTraced(events, t, After(events).workers[t])
  }

  ghost predicate StartsTraced(events: seq<Event>) {
    forall i :: 0 <= i < |After(events).starts| ==> StartTraced(events, i)
  }

  /** What an event does to the runs on their way: one has just read its row, all others have read
      theirs before. */
  lemma EventTraces(s: State, e: Event, t: Token)
    requires t in Apply(s, e).workers && Begun(Apply(s, e).workers[t])
    ensures var pc := Apply(s, e).workers[t];
            (e == Guarding(t, pc.id) && ReadAt(s, pc.id, pc.seen, pc.guarded))
            || (t in s.workers && Begun(s.workers[t]) && s.workers[t].id == pc.id && s.workers[t].seen == pc.seen
                && s.workers[t].guarded == pc.guarded)
  {
    if e.Act? && e.token in s.workers {
      NextPcGoesOn(s.store, s.workers[e.token], s.now, e.report, e.fault);
    }
  }

  predicate StartsBy(s: State, e: Event) {
    e.Act? && e.token in s.workers && s.workers[e.token].Activating? && s.workers[e.token].id < |s.store.missions|
  }

  /** A start is made only by a run that writes the mission active. */
  lemma EventStarts(s: State, e: Event)
    ensures Apply(s, e).starts == s.starts
         || (StartsBy(s, e) && var pc := s.workers[e.token];
             Apply(s, e).starts == s.starts + [Start(pc.id, pc.seen, pc.guarded, s.store.missions[pc.id], s.now)])
  {
  }

  lemma GuardedLater(events: seq<Event>, e: Event, n: nat, t: Token, id: Id, seen: Mission, guarded: Time)
    requires GuardedAt(events, n, t, id, seen, guarded)
    ensures GuardedAt(events + [e], n, t, id, seen, guarded)
  {
    assert (events + [e])[..n] == events[..n];
  }

  lemma PcTracedLater(events: seq<Event>, e: Event, t: Token)
    requires t in After(events).workers ==> PcTraced(events, t, After(events).workers[t])
    requires t in After(events + [e]).workers
    ensures PcTraced(events + [e], t, After(events + [e]).workers[t])
  {
    AfterOne(events, e);
    var pc := After(events + [e]).workers[t];
    if Begun(pc) {
      EventTraces(After(events), e, t);
      if e == Guarding(t, pc.id) && ReadAt(After(events), pc.id, pc.seen, pc.guarded) {
        assert (events + [e])[..|events|] == events;
        assert GuardedAt(events + [e], |events|, t, pc.id, pc.seen, pc.guarded);
      } else {
        var n: nat :| GuardedAt(events, n, t, pc.id, pc.seen, pc.guarded);
        GuardedLater(events, e, n, t, pc.id, pc.seen, pc.guarded);
      }
    }
  }

  lemma StartTracedLater(events: seq<Event>, e: Event, i: nat)
    requires i < |After(events).starts| && StartTraced(events, i)
    ensures i < |After(events + [e]).starts| && StartTraced(events + [e], i)
  {
    AfterOne(events, e);
    EventStarts(After(events), e);
    var t: Token, n: nat, m: nat :| TracedFrom(events, i, t, n, m);
    var start := After(events).starts[i];
    assert After(events + [e]).starts[i] == start;
    assert (events + [e])[..m] == events[..m];
    GuardedLater(events, e, n, t, start.id, start.seen, start.guarded);
    assert TracedFrom(events + [e], i, t, n, m);
  }

  lemma NewStartTraced(events: seq<Event>, e: Event)
    requires StartsBy(After(events), e) && PcTraced(events, e.token, After(events).workers[e.token])
    requires After(events + [e]).starts != After(events).starts
    ensures StartTraced(events + [e], |After(events).starts|)
  {
    var s, all := After(events), events + [e];
    var pc, i := s.workers[e.token], |s.starts|;
    AfterOne(events, e);
    EventStarts(s, e);
    assert all[..|events|] == events;
    var n: nat :| GuardedAt(events, n, e.token, pc.id, pc.seen, pc.guarded);
    GuardedLater(events, e, n, e.token, pc.id, pc.seen, pc.guarded);
    assert MadeAt(all, |events|, e.token, i);
    assert TracedFrom(all, i, e.token, n, |events|);
  }

  lemma StepTracesWorkers(events: seq<Event>, e: Event)
    requires WorkersTraced(events)
    ensures WorkersTraced(events + [e])
  {
    forall t | t in After(events + [e]).workers ensures PcTraced(events + [e], t, After(events + [e]).workers[t]) {
      PcTracedLater(events, e, t);
    }
  }

  lemma StepTracesStarts(events: seq<Event>, e: Event)
    requires WorkersTraced(events) && StartsTraced(events)
    ensures StartsTraced(events + [e])
  {
    forall i | 0 <= i < |After(events + [e]).starts| ensures StartTraced(events + [e], i) {
      if i < |After(events).starts| {
        StartTracedLater(events, e, i);
      } else {
        LastStartTraced(events, e, i);
      }
    }
  }

  lemma NewStartBy(events: seq<Event>, e: Event)
    requires |After(events).starts| < |After(events + [e]).starts|
    ensures StartsBy(After(events), e) && |After(events + [e]).starts| == |After(events).starts| + 1
  {
    AfterOne(events, e);
    EventStarts(After(events), e);
  }

  lemma LastStartTraced(events: seq<Event>, e: Event, i: nat)
    requires WorkersTraced(events) && |After(events).starts| <= i < |After(events + [e]).starts|
    ensures StartTraced(events + [e], i)
  {
    NewStartBy(events, e);
    NewStartTraced(events, e);
  }

  lemma {:induction false} RunTraces(events: seq<Event>)
    ensures WorkersTraced(events) && StartsTraced(events)
  {
    if events != [] {
      var n := |events| - 1;
      RunTraces(events[..n]);
      StepTracesWorkers(events[..n], events[n]);
      StepTracesStarts(events[..n], events[n]);
      assert events == events[..n] + [events[n]];
    }
  }

  /** An employee is only ever started by a run that had found the mission's times due, on the row as it
      was at its guard, when every dependency of the mission had been completed. */
  lemma StartsAreReady(events: seq<Event>, i: nat)
    requires i < |After(events).starts|
    ensures exists t: Token, n: nat, m: nat ::
              TracedFrom(events, i, t, n, m) && Justified(After(events[..m]).store, After(events).starts[i].id)
    ensures var start := After(events).starts[i];
            Due(start.seen.scheduledAt, start.at) && Due(start.seen.retryAt, start.at)
  {
    RunKeeps(events);
    RunTraces(events);
    assert StartOk(After(events), After(events).starts[i]);
    assert StartTraced(events, i);
    var t: Token, n: nat, m: nat :| TracedFrom(events, i, t, n, m);
    RunKeeps(events[..m]);
    assert PcOk(After(events[..m]).store, After(events[..m]).workers[t]);
  }

  // ------------------------------------------------------------------
  // Starting before the row's own times
  // ------------------------------------------------------------------

  predicate Reschedules(e: Event, id: Id) {
    e.Reschedule? && e.id == id
  }

  /** The event writes the retry time of a run's retry report. */
  predicate Delays(s: State, e: Event, id: Id) {
    e.Act? && e.token in s.workers && s.workers[e.token].Delaying? && s.workers[e.token].id == id
    && e.fault != LostBefore
  }

  /** The schedule that was last written between events `n` and `m`. */
  function ScheduleSince(events: seq<Event>, n: nat, m: nat, id: Id): Option<Time>
    requires m <= |events|
  {
    if m <= n then None
    else if Reschedules(events[m - 1], id) then Some(events[m - 1].at)
    else ScheduleSince(events, n, m - 1, id)
  }

  /** The retry time that was last written and not erased by a rescheduling since. */
  function RetrySince(events: seq<Event>, n: nat, m: nat, id: Id): Option<Time>
    requires m <= |events|
  {
    if m <= n then None
    else
      var s := After(events[..m - 1]);
      if Reschedules(events[m - 1], id) then None
      else if Delays(s, events[m - 1], id) then Some(s.now + RetryDelayOf(s.workers[events[m - 1].token].seen))
      else RetrySince(events, n, m - 1, id)
  }

  /** What an event does to a mission's times. */
  lemma EventWritesTimes(s: State, e: Event, id: Id)
    requires id < |s.store.missions|
    ensures id < |Apply(s, e).store.missions|
    ensures var m, m' := s.store.missions[id], Apply(s, e).store.missions[id];
            && m'.scheduledAt == (if Reschedules(e, id) then Some(e.at) else m.scheduledAt)
            && m'.retryAt == (if Reschedules(e, id) then None
                              else if Delays(s, e, id) then Some(s.now + RetryDelayOf(s.workers[e.token].seen))
                              else m.retryAt)
  {
  }

  /** A row whose times were due at first has a late one exactly when a late one was last written. */
  lemma {:induction false} TimesAreLate(events: seq<Event>, n: nat, m: nat, id: Id, at: Time)
    requires n <= m <= |events| && id < |After(events[..n]).store.missions|
    requires var first := After(events[..n]).store.missions[id]; Due(first.scheduledAt, at) && Due(first.retryAt, at)
    ensures id < |After(events[..m]).store.missions|
    ensures var last := After(events[..m]).store.missions[id];
            (Due(last.scheduledAt, at) <==> Due(ScheduleSince(events, n, m, id), at))
            && (Due(last.retryAt, at) <==> Due(RetrySince(events, n, m, id), at))
  {
    if n < m {
      TimesAreLate(events, n, m - 1, id, at);
      assert events[..m] == events[..m - 1] + [events[m - 1]];
      AfterOne(events[..m - 1], events[m - 1]);
      EventWritesTimes(After(events[..m - 1]), events[m - 1], id);
    }
  }

  /** Exactly when: a start comes before its row's own schedule, or before its retry time, if and only
      if the one last written between the guard's read and the start lies after the start. */
  lemma StartsEarlyExactlyWhen(events: seq<Event>, i: nat, t: Token, n: nat, m: nat)
    requires i < |After(events).starts| && TracedFrom(events, i, t, n, m)
    ensures var start := After(events).starts[i];
            (!Due(start.found.scheduledAt, start.at) <==> !Due(ScheduleSince(events, n, m, start.id), start.at))
            && (!Due(start.found.retryAt, start.at) <==> !Due(RetrySince(events, n, m, start.id), start.at))
  {
    RunKeeps(events);
    assert StartOk(After(events), After(events).starts[i]);
    TimesAreLate(events, n, m, After(events).starts[i].id, After(events).starts[i].at);
  }

  // ------------------------------------------------------------------
  // Completed and cancelled
  // ------------------------------------------------------------------

  /** The status write that an event makes. */
  function Landing(s: State, e: Event): Option<Intent> {
    if e.Write? && e.token in s.moves then Some(s.moves[e.token])
    else if e.Act? && e.token in s.workers && e.fault != LostBefore then
      var pc := s.workers[e.token];
      if pc.Activating? then Some(Intent(pc.id, pc.from, Active))
      else if pc.Settling? then Some(Intent(pc.id, pc.from, pc.target))
      else None
    else None
  }

  lemma LandingWrites(s: State, e: Event, id: Id)
    requires id < |s.store.missions|
    ensures id < |Apply(s, e).store.missions|
    ensures var i := Landing(s, e);
            Apply(s, e).store.missions[id].status
            == if i.Some? && i.value.id == id then i.value.target else s.store.missions[id].status
  {
  }

  lemma LandingIsLegal(s: State, e: Event)
    requires Inv(s)
    ensures Landing(s, e).Some? ==> MayMove(Landing(s, e).value.from, Landing(s, e).value.target)
  {
    if e.Act? && e.token in s.workers {
      assert PcOk(s.store, s.workers[e.token]);
    }
  }

  predicate StatusAfter(events: seq<Event>, id: Id, status: MissionState) {
    id < |After(events).store.missions| && After(events).store.missions[id].status == status
  }

  /** A status write that lands on the mission had read this status, or writes it. */
  predicate Respects(s: State, e: Event, id: Id, status: MissionState) {
    var i := Landing(s, e);
    i.Some? && i.value.id == id ==> i.value.from == status || i.value.target == status
  }

  ghost predicate AllRespect(events: seq<Event>, more: seq<Event>, id: Id, status: MissionState) {
    forall n :: 0 <= n < |more| ==> Respects(After(events + more[..n]), more[n], id, status)
  }

  /** Exactly when: a completed or cancelled mission stays so over a continuation if and only if every
      status write that lands on it had read that status, or writes it once more. */
  lemma FinalStaysExactlyWhen(events: seq<Event>, more: seq<Event>, id: Id, status: MissionState)
    requires status in {Completed, Cancelled} && StatusAfter(events, id, status)
    ensures (forall n :: 0 <= n <= |more| ==> StatusAfter(events + more[..n], id, status))
       <==> AllRespect(events, more, id, status)
  {
    if forall n :: 0 <= n <= |more| ==> StatusAfter(events + more[..n], id, status) {
      forall n | 0 <= n < |more| ensures Respects(After(events + more[..n]), more[n], id, status) {
        assert StatusAfter(events + more[..n], id, status) && StatusAfter(events + more[..n + 1], id, status);
        NextStatus(events, more, n, id);
      }
    }
    if AllRespect(events, more, id, status) {
      forall n | 0 <= n <= |more| ensures StatusAfter(events + more[..n], id, status) {
        RespectedStays(events, more, n, id, status);
      }
    }
  }

  lemma NextStatus(events: seq<Event>, more: seq<Event>, n: nat, id: Id)
    requires n < |more| && id < |After(events + more[..n]).store.missions|
    ensures id < |After(events + more[..n + 1]).store.missions|
    ensures var i := Landing(After(events + more[..n]), more[n]);
            After(events + more[..n + 1]).store.missions[id].status
            == if i.Some? && i.value.id == id then i.value.target
               else After(events + more[..n]).store.missions[id].status
  {
    assert events + more[..n + 1] == (events + more[..n]) + [more[n]];
    AfterOne(events + more[..n], more[n]);
    LandingWrites(After(events + more[..n]), more[n], id);
  }

  /** No edge leaves a completed or cancelled mission. */
  lemma RespectedOnce(s: State, e: Event, id: Id, status: MissionState)
    requires Inv(s) && status in {Completed, Cancelled} && Respects(s, e, id, status)
    ensures var i := Landing(s, e); i.Some? && i.value.id == id ==> i.value.target == status
  {
    LandingIsLegal(s, e);
  }

  lemma StatusStays(events: seq<Event>, more: seq<Event>, n: nat, id: Id, status: MissionState)
    requires n < |more| && status in {Completed, Cancelled} && StatusAfter(events + more[..n], id, status)
    requires AllRespect(events, more, id, status)
    ensures StatusAfter(events + more[..n + 1], id, status)
  {
    var s := After(events + more[..n]);
    assert Respects(s, more[n], id, status);
    assert Inv(s) by {
      RunKeeps(events + more[..n]);
    }
    RespectedOnce(s, more[n], id, status);
    NextStatus(events, more, n, id);
  }

  lemma {:induction false} RespectedStays(events: seq<Event>, more: seq<Event>, n: nat, id: Id, status: MissionState)
    requires status in {Completed, Cancelled} && StatusAfter(events, id, status) && n <= |more|
    requires AllRespect(events, more, id, status)
    ensures StatusAfter(events + more[..n], id, status)
  {
    if n == 0 {
      assert events + more[..0] == events;
    } else {
      RespectedStays(events, more, n - 1, id, status);
      StatusStays(events, more, n - 1, id, status);
    }
  }

  // ------------------------------------------------------------------
  // Two runs that happen
  // ------------------------------------------------------------------

  const NEW := Mission(Pending, [], None, None, 0, 3, None, None, Normal, Usual, 1, 0, 60)
  const CLAIMED := NEW.(token := Some(1), lease := Some(ORCHESTRATION_LEASE_SECONDS))
  const COUNTED := CLAIMED.(attempts := 1)
  const COUNT: seq<CountWrite> := [CountWrite(0, 0, 0, true)]

  function Lone(m: Mission, pc: Pc, counts: seq<CountWrite>): State {
    State(0, Store([m], []), map[], map[1 := pc], [], counts)
  }

  /** A run has read that its mission may start, and has not yet written so. */
  const ABOUT_TO_START := Lone(COUNTED, Activating(0, NEW, 0, ORCHESTRATION_LEASE_SECONDS, Pending), COUNT)

  lemma IsAdmitted()
    ensures Reachable(Lone(NEW, Claiming(0, NEW, 0), []))
  {
    assert After([]) == INITIAL;
    assert Fresh(NEW, 0) == NEW && [] + [NEW] == [NEW];
    var created := State(0, Store([NEW], []), map[], map[], [], []);
    Reach(INITIAL, Create(NEW), created);
    Reach(created, Guarding(1, 0), Lone(NEW, Claiming(0, NEW, 0), []));
  }

  const CALL := Act(1, OTHER, NoFault)
  const HOLDING := Lone(CLAIMED, Counting(0, NEW, 0, ORCHESTRATION_LEASE_SECONDS), [])
  const READY_TO_READ := Lone(COUNTED, Starting(0, NEW, 0, ORCHESTRATION_LEASE_SECONDS), COUNT)

  lemma IsClaimed()
    ensures Reachable(HOLDING)
  {
    IsAdmitted();
    Reach(Lone(NEW, Claiming(0, NEW, 0), []), Act(1, OTHER, NoFault), HOLDING);
  }

  lemma IsCounted()
    ensures Reachable(READY_TO_READ)
  {
    IsClaimed();
    assert [] + COUNT == COUNT;
    Reach(HOLDING, CALL, READY_TO_READ);
  }

  lemma IsAboutToStart()
    ensures Reachable(ABOUT_TO_START)
  {
    IsCounted();
    Reach(READY_TO_READ, CALL, ABOUT_TO_START);
  }

  /** A mission rescheduled between the read and the write of its start is started before its time. */
  lemma StartBeforeItsSchedule()
    ensures exists events :: |After(events).starts| == 1
                             && !Due(After(events).starts[0].found.scheduledAt, After(events).starts[0].at)
  {
    IsAboutToStart();
    var s1 := Apply(ABOUT_TO_START, Reschedule(0, 1000));
    var s2 := Apply(s1, Act(1, OTHER, NoFault));
    Reach(ABOUT_TO_START, Reschedule(0, 1000), s1);
    Reach(s1, Act(1, OTHER, NoFault), s2);
    assert s2.starts == [Start(0, NEW, 0, COUNTED.(scheduledAt := Some(1000)), 0)];
    var events :| After(events) == s2;
  }

  const CANCELLED_MEANWHILE :=
    ABOUT_TO_START.(store := Store([COUNTED.(status := Cancelled)], [Transitioned(0, Pending, Cancelled)]))

  lemma IsCancelledMeanwhile()
    ensures Reachable(CANCELLED_MEANWHILE)
  {
    IsAboutToStart();
    var reading := ABOUT_TO_START.(moves := map[2 := Intent(0, Pending, Cancelled)]);
    Reach(ABOUT_TO_START, Read(2, 0, Cancelled), reading);
    assert map[2 := Intent(0, Pending, Cancelled)] - {2} == map[];
    Reach(reading, Write(2), CANCELLED_MEANWHILE);
  }

  /** A mission cancelled between the read and the write of its start is started all the same, and is
      active afterwards. */
  lemma CancelledMissionIsStarted()
    ensures exists events :: |After(events).starts| == 1 && After(events).starts[0].found.status == Cancelled
                             && StatusAfter(events, 0, Active)
  {
    IsCancelledMeanwhile();
    var started := Apply(CANCELLED_MEANWHILE, Act(1, OTHER, NoFault));
    Reach(CANCELLED_MEANWHILE, Act(1, OTHER, NoFault), started);
    assert started.starts == [Start(0, NEW, 0, COUNTED.(status := Cancelled), 0)];
    var events :| After(events) == started;
    assert StatusAfter(events, 0, Active);
  }
}
