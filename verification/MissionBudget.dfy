/** The attempt budget. A run writes the count it had read at its guard, plus one, and does not look
    at whether the write was made: a count written in between is lost, and so is a failed write. */
module MissionBudget {
  import opened Wrappers
  import opened MissionStates
  import opened MissionOrchestration
  import opened MissionRuns

  // ------------------------------------------------------------------
  // Counting writes and starts
  // ------------------------------------------------------------------

  /** How often the employee was started on a mission. */
  function StartsOf(starts: seq<Start>, id: Id): nat {
    if starts == [] then 0
    else StartsOf(starts[..|starts| - 1], id) + (if starts[|starts| - 1].id == id then 1 else 0)
  }

  /** How many writes of the mission's attempt count were made, or were lost. */
  function WritesOf(counts: seq<CountWrite>, id: Id, applied: bool): nat {
    if counts == [] then 0
    else
      var last := counts[|counts| - 1];
      WritesOf(counts[..|counts| - 1], id, applied) + (if last.id == id && last.applied == applied then 1 else 0)
  }

  function Made(s: State, id: Id): nat {
    WritesOf(s.counts, id, true)
  }

  function Lost(s: State, id: Id): nat {
    WritesOf(s.counts, id, false)
  }

  lemma StartsOfOne(starts: seq<Start>, start: Start, id: Id)
    ensures StartsOf(starts + [start], id) == StartsOf(starts, id) + (if start.id == id then 1 else 0)
  {
    assert (starts + [start])[..|starts|] == starts;
  }

  lemma WritesOfOne(counts: seq<CountWrite>, write: CountWrite, id: Id, applied: bool)
    ensures WritesOf(counts + [write], id, applied)
         == WritesOf(counts, id, applied) + (if write.id == id && write.applied == applied then 1 else 0)
  {
    assert (counts + [write])[..|counts|] == counts;
  }

  /** Every write made to the mission's count found the count its run had read. */
  predicate AllKept(counts: seq<CountWrite>, id: Id) {
    forall i :: 0 <= i < |counts| && counts[i].id == id && counts[i].applied ==> counts[i].read == counts[i].found
  }

  predicate NoneLost(counts: seq<CountWrite>, id: Id) {
    forall i :: 0 <= i < |counts| && counts[i].id == id ==> counts[i].applied
  }

  lemma {:induction false} NoneLostCounts(counts: seq<CountWrite>, id: Id)
    ensures WritesOf(counts, id, false) == 0 <==> NoneLost(counts, id)
  {
    if counts != [] {
      var n := |counts| - 1;
      NoneLostCounts(counts[..n], id);
      assert NoneLost(counts, id) <==> NoneLost(counts[..n], id) && (counts[n].id == id ==> counts[n].applied);
    }
  }

  // ------------------------------------------------------------------
  // The invariant, for one mission and any interleaving
  // ------------------------------------------------------------------

  predicate On(pc: Pc, id: Id) {
    !pc.Idle? && pc.id == id
  }

  /** Workers that have tried their count and not yet started the employee. */
  function StartingOn(workers: map<Token, Pc>, id: Id): set<Token> {
    set t | t in workers && (workers[t].Starting? || workers[t].Activating?) && workers[t].id == id
  }

  /** Workers that have yet to write the count they read. */
  predicate Reads(pc: Pc, id: Id) {
    (pc.Checking? || pc.Claiming? || pc.Counting?) && pc.id == id
  }

  /** A count read is no larger than the number of writes made, and current unless one came after it. */
  predicate PcCounts(s: State, id: Id, pc: Pc) {
    Reads(pc, id) ==>
      id < |s.store.missions| && pc.seen.maxAttempts == s.store.missions[id].maxAttempts
      && (pc.Checking? || pc.seen.attempts < pc.seen.maxAttempts)
      && pc.seen.attempts <= Made(s, id)
      && (pc.seen.attempts == Made(s, id) ==> s.store.missions[id].attempts == pc.seen.attempts)
  }

  predicate RowCounts(s: State, id: Id) {
    if id < |s.store.missions| then
      var m := s.store.missions[id];
      m.attempts <= m.maxAttempts && m.attempts <= Made(s, id)
      && (m.attempts == Made(s, id) <==> AllKept(s.counts, id))
    else
      Made(s, id) == 0 && AllKept(s.counts, id)
  }

  predicate CountInv(s: State, id: Id) {
    RowCounts(s, id)
    && (forall t :: t in s.workers ==>
          PcCounts(s, id, s.workers[t]) && (On(s.workers[t], id) ==> id < |s.store.missions|))
    && StartsOf(s.starts, id) + |StartingOn(s.workers, id)| <= Made(s, id) + Lost(s, id)
  }

  lemma {:induction false} SubsetSize(a: set<Token>, b: set<Token>)
    requires a <= b
    ensures |a| <= |b|
  {
    if a != {} {
      var t :| t in a;
      SubsetSize(a - {t}, b - {t});
    }
  }

  /** Everything but a count leaves the mission's count and its budget alone; a new mission has none. */
  predicate CountStays(s: Store, t: Store, id: Id) {
    |s.missions| <= |t.missions|
    && (id < |s.missions| ==>
          t.missions[id].attempts == s.missions[id].attempts
          && t.missions[id].maxAttempts == s.missions[id].maxAttempts)
    && (|s.missions| <= id < |t.missions| ==> t.missions[id].attempts == 0)
  }

  /** A step of worker `t`, or of nobody, that neither counts nor starts. */
  lemma OtherStepKeeps(s: State, s': State, id: Id)
    requires CountInv(s, id) && CountStays(s.store, s'.store, id) && s'.counts == s.counts && s'.starts == s.starts
    requires forall t :: t in s'.workers ==>
               (t in s.workers && s'.workers[t] == s.workers[t])
               || (PcCounts(s', id, s'.workers[t])
                   && ((s'.workers[t].Starting? || s'.workers[t].Activating?) ==>
                         t in s.workers && (s.workers[t].Starting? || s.workers[t].Activating?)
                         && s'.workers[t].id == s.workers[t].id)
                   && (On(s'.workers[t], id) ==> id < |s'.store.missions|))
    ensures CountInv(s', id)
  {
    SubsetSize(StartingOn(s'.workers, id), StartingOn(s.workers, id));
  }

  // ------------------------------------------------------------------
  // A worker's calls
  // ------------------------------------------------------------------

  /** The write: made, it keeps the count in step exactly when it replaces the count it read; lost, it
      changes nothing but the number of writes tried. */
  lemma CountStepKeeps(s: State, t: Token, report: Report, fault: Fault, id: Id)
    requires CountInv(s, id) && t in s.workers && s.workers[t].Counting?
    ensures CountInv(WorkerStep(s, t, s.workers[t], report, fault), id)
  {
    var pc := s.workers[t];
    var write := CountWrite(pc.id, pc.seen.attempts, AttemptsOf(s.store, pc.id), fault != LostBefore);
    var s' := WorkerStep(s, t, pc, report, fault);
    assert PcCounts(s, id, pc);
    if pc.id == id {
      ThisCountKeeps(s, s', t, write, id);
    } else {
      OtherCountKeeps(s, s', t, write, id);
    }
  }

  lemma ThisCountKeeps(s: State, s': State, t: Token, write: CountWrite, id: Id)
    requires CountInv(s, id) && t in s.workers && s.workers[t].Counting? && s.workers[t].id == id
    requires write == CountWrite(id, s.workers[t].seen.attempts, AttemptsOf(s.store, id), write.applied)
    requires s'.store == if write.applied then Counted(s.store, id, write.read + 1) else s.store
    requires s'.counts == s.counts + [write] && s'.starts == s.starts
    requires t in s'.workers && s'.workers == s.workers[t := s'.workers[t]]
    requires s'.workers[t].Starting? && s'.workers[t].id == id
    ensures CountInv(s', id)
  {
    WritesOfOne(s.counts, write, id, true);
    WritesOfOne(s.counts, write, id, false);
    KeptGrows(s.counts, write, id);
    assert PcCounts(s, id, s.workers[t]);
    assert StartingOn(s'.workers, id) == StartingOn(s.workers, id) + {t};
    forall u | u in s'.workers ensures PcCounts(s', id, s'.workers[u]) {
      if u != t {
        assert PcCounts(s, id, s.workers[u]);
      }
    }
  }

  lemma OtherCountKeeps(s: State, s': State, t: Token, write: CountWrite, id: Id)
    requires CountInv(s, id) && CountStays(s.store, s'.store, id) && |s'.store.missions| == |s.store.missions|
    requires write.id != id && s'.counts == s.counts + [write] && s'.starts == s.starts
    requires t in s'.workers && s'.workers == s.workers[t := s'.workers[t]]
    requires !s'.workers[t].Idle? && s'.workers[t].id != id
    ensures CountInv(s', id)
  {
    WritesOfOne(s.counts, write, id, true);
    WritesOfOne(s.counts, write, id, false);
    KeptGrows(s.counts, write, id);
    SubsetSize(StartingOn(s'.workers, id), StartingOn(s.workers, id));
  }

  lemma KeptGrows(counts: seq<CountWrite>, write: CountWrite, id: Id)
    ensures AllKept(counts + [write], id)
       <==> AllKept(counts, id) && (write.id == id && write.applied ==> write.read == write.found)
  {
    var all := counts + [write];
    if AllKept(all, id) {
      forall i | 0 <= i < |counts| && counts[i].id == id && counts[i].applied
        ensures counts[i].read == counts[i].found
      {
        assert all[i] == counts[i];
      }
      assert all[|counts|] == write;
    }
  }

  /** The start of the employee uses up one write tried. */
  lemma StartStepKeeps(s: State, t: Token, report: Report, fault: Fault, id: Id)
    requires CountInv(s, id) && t in s.workers && s.workers[t].Activating?
    ensures CountInv(WorkerStep(s, t, s.workers[t], report, fault), id)
  {
    var s' := WorkerStep(s, t, s.workers[t], report, fault);
    EffectStays(s.store, t, s.workers[t], s.now, id);
    if s'.workers[t].Idle? {
      OtherStepKeeps(s, s', id);
    } else {
      StartKeeps(s, s', t, s'.starts[|s.starts|], id);
    }
  }

  lemma StartKeeps(s: State, s': State, t: Token, start: Start, id: Id)
    requires CountInv(s, id) && t in s.workers && s.workers[t].Activating? && s.workers[t].id == start.id
    requires CountStays(s.store, s'.store, id) && |s'.store.missions| == |s.store.missions| && s'.counts == s.counts
    requires s'.starts == s.starts + [start]
    requires t in s'.workers && s'.workers == s.workers[t := s'.workers[t]]
    requires s'.workers[t].Working? && s'.workers[t].id == start.id
    ensures CountInv(s', id)
  {
    StartsOfOne(s.starts, start, id);
    if start.id == id {
      assert StartingOn(s'.workers, id) == StartingOn(s.workers, id) - {t};
    } else {
      OtherStepKeeps(s, s'.(starts := s.starts), id);
    }
  }

  /** The calls of a worker that neither counts nor starts. */
  lemma PlainStepKeeps(s: State, t: Token, report: Report, fault: Fault, id: Id)
    requires CountInv(s, id) && t in s.workers && !s.workers[t].Counting? && !s.workers[t].Activating?
    ensures CountInv(WorkerStep(s, t, s.workers[t], report, fault), id)
  {
    assert PcCounts(s, id, s.workers[t]);
    EffectStays(s.store, t, s.workers[t], s.now, id);
    NextPcGoesOn(s.store, s.workers[t], s.now, report, fault);
    NextPcCounts(s.store, s.workers[t], s.now, report, fault);
    OtherStepKeeps(s, WorkerStep(s, t, s.workers[t], report, fault), id);
  }

  lemma EffectStays(s: Store, t: Token, pc: Pc, now: Time, id: Id)
    requires !pc.Counting?
    ensures CountStays(s, Effect(s, t, pc, now), id) && |Effect(s, t, pc, now).missions| == |s.missions|
  {
    match pc
    case Activating(k, _, _, _, from) => OverwrittenStays(s, k, from, Active, id);
    case Settling(k, _, from, target) => OverwrittenStays(s, k, from, target, id);
    case _ =>
  }

  lemma OverwrittenStays(s: Store, k: Id, from: MissionState, target: MissionState, id: Id)
    ensures CountStays(s, Overwritten(s, k, from, target), id)
    ensures |Overwritten(s, k, from, target).missions| == |s.missions|
  {
  }

  /** A run that has yet to count is within the budget once its guard has let it pass. */
  lemma NextPcCounts(s: Store, pc: Pc, now: Time, report: Report, fault: Fault)
    ensures var pc' := NextPc(s, pc, now, report, fault);
            (pc'.Claiming? ==> pc'.seen.attempts < pc'.seen.maxAttempts)
            && (pc'.Counting? ==> pc.Claiming?)
            && (pc'.Starting? ==> pc.Counting?) && (pc'.Activating? ==> pc.Starting?)
            && (pc'.Checking? || pc'.Claiming? ==> pc.Checking?)
  {
  }

  lemma WorkerStepKeeps(s: State, t: Token, report: Report, fault: Fault, id: Id)
    requires CountInv(s, id) && t in s.workers
    ensures CountInv(WorkerStep(s, t, s.workers[t], report, fault), id)
  {
    if s.workers[t].Counting? {
      CountStepKeeps(s, t, report, fault, id);
    } else if s.workers[t].Activating? {
      StartStepKeeps(s, t, report, fault, id);
    } else {
      PlainStepKeeps(s, t, report, fault, id);
    }
  }

  /** The guard reads the count. */
  lemma GuardKeepsCounts(s: State, t: Token, k: Id, id: Id)
    requires CountInv(s, id) && t !in s.workers
    ensures CountInv(GuardStep(s, t, k), id)
  {
    OtherStepKeeps(s, GuardStep(s, t, k), id);
  }

  lemma OutsideKeepsCounts(s: State, e: Event, id: Id)
    requires CountInv(s, id) && !e.Guarding? && !e.Act?
    ensures CountInv(Apply(s, e), id)
  {
    if e.Write? && e.token in s.moves {
      var i := s.moves[e.token];
      OverwrittenStays(s.store, i.id, i.from, i.target, id);
    }
    OtherStepKeeps(s, Apply(s, e), id);
  }

  lemma EventKeepsCounts(s: State, e: Event, id: Id)
    requires CountInv(s, id)
    ensures CountInv(Apply(s, e), id)
  {
    match e
    case Guarding(t, k) =>
      if t !in s.workers {
        GuardKeepsCounts(s, t, k, id);
      }
    case Act(t, report, fault) =>
      if t in s.workers {
        WorkerStepKeeps(s, t, report, fault, id);
      }
    case _ => OutsideKeepsCounts(s, e, id);
  }

  lemma {:induction false} RunKeepsCounts(events: seq<Event>, id: Id)
    ensures CountInv(After(events), id)
  {
    if events == [] {
      assert StartingOn(INITIAL.workers, id) == {};
    } else {
      var n := |events| - 1;
      RunKeepsCounts(events[..n], id);
      EventKeepsCounts(After(events[..n]), events[n], id);
    }
  }

  // ------------------------------------------------------------------
  // What holds in every run
  // ------------------------------------------------------------------

  /** Exactly when: in every run, however it interleaves and whatever it loses, the recorded attempts
      number the writes tried for the mission if and only if each was made and found the count its run
      had read; and they number the writes made if and only if each of those found it. */
  lemma NoAttemptIsLostExactlyWhen(events: seq<Event>, id: Id)
    requires id < |After(events).store.missions|
    ensures var s := After(events); var attempts := s.store.missions[id].attempts;
            (attempts == Made(s, id) + Lost(s, id) <==> NoneLost(s.counts, id) && AllKept(s.counts, id))
            && (attempts == Made(s, id) <==> AllKept(s.counts, id))
  {
    RunKeepsCounts(events, id);
    NoneLostCounts(After(events).counts, id);
  }

  /** In every run the recorded attempts stay within the budget, and the employee is started at most
      once for each write tried; so it stays within the budget too if no attempt was lost. */
  lemma StartsAreCounted(events: seq<Event>, id: Id)
    requires id < |After(events).store.missions|
    ensures var s := After(events); var m := s.store.missions[id];
            m.attempts <= m.maxAttempts
            && StartsOf(s.starts, id) <= Made(s, id) + Lost(s, id)
            && (NoneLost(s.counts, id) && AllKept(s.counts, id) ==> StartsOf(s.starts, id) <= m.maxAttempts)
  {
    RunKeepsCounts(events, id);
    NoneLostCounts(After(events).counts, id);
  }

  // ------------------------------------------------------------------
  // Runs of one mission taken one at a time
  // ------------------------------------------------------------------

  /** At most one worker is busy with the mission; other missions' runs interleave freely. */
  ghost predicate Solo(s: State, id: Id) {
    forall t, u :: t in s.workers && u in s.workers && On(s.workers[t], id) && On(s.workers[u], id) ==> t == u
  }

  ghost predicate OneAtATime(events: seq<Event>, id: Id) {
    forall n :: 0 <= n <= |events| ==> Solo(After(events[..n]), id)
  }

  /** The count a worker has read is still the count. */
  predicate ReadsCurrent(s: State, id: Id) {
    AllKept(s.counts, id)
    && forall t :: t in s.workers && Reads(s.workers[t], id) ==> s.workers[t].seen.attempts == AttemptsOf(s.store, id)
  }

  lemma SoloCountKeeps(s: State, t: Token, report: Report, fault: Fault, id: Id)
    requires CountInv(s, id) && Solo(s, id) && ReadsCurrent(s, id) && t in s.workers && s.workers[t].Counting?
    ensures ReadsCurrent(WorkerStep(s, t, s.workers[t], report, fault), id)
  {
    var s' := WorkerStep(s, t, s.workers[t], report, fault);
    KeptGrows(s.counts, s'.counts[|s.counts|], id);
    assert s.workers[t].id == id ==> forall u :: u in s'.workers && u != t ==> !On(s'.workers[u], id);
  }

  /** What changes no count keeps every read current. */
  lemma ReadsStay(s: State, s': State, id: Id)
    requires ReadsCurrent(s, id) && s'.counts == s.counts && AttemptsOf(s'.store, id) == AttemptsOf(s.store, id)
    requires forall t :: t in s'.workers && Reads(s'.workers[t], id) ==>
               s'.workers[t].seen.attempts == AttemptsOf(s.store, id)
    ensures ReadsCurrent(s', id)
  {
  }

  lemma SoloStepKeeps(s: State, t: Token, report: Report, fault: Fault, id: Id)
    requires CountInv(s, id) && Solo(s, id) && ReadsCurrent(s, id) && t in s.workers
    ensures ReadsCurrent(WorkerStep(s, t, s.workers[t], report, fault), id)
  {
    var s' := WorkerStep(s, t, s.workers[t], report, fault);
    if s.workers[t].Counting? {
      SoloCountKeeps(s, t, report, fault, id);
    } else {
      EffectStays(s.store, t, s.workers[t], s.now, id);
      NextPcGoesOn(s.store, s.workers[t], s.now, report, fault);
      NextPcCounts(s.store, s.workers[t], s.now, report, fault);
      ReadsStay(s, s', id);
    }
  }

  lemma SoloEventKeeps(s: State, e: Event, id: Id)
    requires CountInv(s, id) && Solo(s, id) && ReadsCurrent(s, id)
    ensures ReadsCurrent(Apply(s, e), id)
  {
    match e
    case Act(t, report, fault) =>
      if t in s.workers {
        SoloStepKeeps(s, t, report, fault, id);
      }
    case _ => ReadsStay(s, Apply(s, e), id);
  }

  lemma {:induction false} SoloRunReadsCurrent(events: seq<Event>, id: Id)
    requires OneAtATime(events, id)
    ensures ReadsCurrent(After(events), id)
  {
    if events == [] {
    } else {
      var n := |events| - 1;
      forall k | 0 <= k <= n ensures Solo(After(events[..n][..k]), id) {
        assert events[..n][..k] == events[..k];
      }
      SoloRunReadsCurrent(events[..n], id);
      RunKeepsCounts(events[..n], id);
      assert Solo(After(events[..n]), id);
      SoloEventKeeps(After(events[..n]), events[n], id);
    }
  }

  /** With the mission's own runs taken one at a time, whatever other missions' runs do meanwhile, the
      attempts that go missing are the writes lost: over its whole life the employee is started at most
      that many times more than the count says, and within the budget when none was lost. */
  lemma BudgetIsNeverExceeded(events: seq<Event>, id: Id)
    requires OneAtATime(events, id) && id < |After(events).store.missions|
    ensures var s := After(events); var m := s.store.missions[id];
            m.attempts == Made(s, id) && m.attempts <= m.maxAttempts
            && StartsOf(s.starts, id) <= m.attempts + Lost(s, id)
            && (NoneLost(s.counts, id) ==> StartsOf(s.starts, id) <= m.attempts)
  {
    RunKeepsCounts(events, id);
    SoloRunReadsCurrent(events, id);
    NoneLostCounts(After(events).counts, id);
  }

  // ------------------------------------------------------------------
  // How the budget is exceeded
  // ------------------------------------------------------------------

  /** A mission with one attempt to spend. */
  const ONCE := Mission(Pending, [], None, None, 0, 1, None, None, Normal, Usual, 1, 0, 60)

  function At(status: MissionState, attempts: nat): Mission {
    ONCE.(status := status, attempts := attempts)
  }

  /** The mission when its first run has ended with a retry. */
  function Later(attempts: nat): Mission {
    At(Retrying, attempts).(retryAt := Some(60))
  }

  function Held(m: Mission, t: Token, lease: Time): Mission {
    m.(token := Some(t), lease := Some(lease))
  }

  const STARTED: seq<Transitioned> := [Transitioned(0, Pending, Active)]
  const RETRIED: seq<Transitioned> := STARTED + [Transitioned(0, Active, Retrying)]
  const RESTARTED: seq<Transitioned> := RETRIED + [Transitioned(0, Retrying, Active)]

  function With(m: Mission, events: seq<Transitioned>, workers: map<Token, Pc>, starts: seq<Start>,
                counts: seq<CountWrite>): State {
    State(0, Store([m], events), map[], workers, starts, counts)
  }

  /** A run leads to the state, if asked for one that takes the mission's runs one at a time. */
  ghost predicate Reaches(s: State, solo: bool) {
    exists events :: After(events) == s && (solo ==> OneAtATime(events, 0))
  }

  lemma ReachOn(s: State, e: Event, s': State, solo: bool)
    requires Reaches(s, solo) && s' == Apply(s, e) && (solo ==> Solo(s', 0))
    ensures Reaches(s', solo)
  {
    var events :| After(events) == s && (solo ==> OneAtATime(events, 0));
    AfterOne(events, e);
    if solo {
      forall n | 0 <= n <= |events| + 1 ensures Solo(After((events + [e])[..n]), 0) {
        if n <= |events| {
          assert (events + [e])[..n] == events[..n];
        } else {
          assert (events + [e])[..n] == events + [e];
        }
      }
    }
  }

  /** The first run counts, or loses its count; its employee is started and asks for a retry. */
  function FirstCount(made: bool): seq<CountWrite> {
    [CountWrite(0, 0, 0, made)]
  }

  function Attempts(made: bool): nat {
    if made then 1 else 0
  }

  function FirstStart(made: bool): seq<Start> {
    [Start(0, ONCE, 0, Held(At(Pending, Attempts(made)), 1, 60), 0)]
  }

  /** Worker 1 at each of its calls, beside the workers `rest`. */
  function Claimed1(rest: map<Token, Pc>): State {
    With(Held(ONCE, 1, 60), [], rest[1 := Counting(0, ONCE, 0, 60)], [], [])
  }

  function Counted1(rest: map<Token, Pc>, made: bool): State {
    With(Held(At(Pending, Attempts(made)), 1, 60), [], rest[1 := Starting(0, ONCE, 0, 60)], [], FirstCount(made))
  }

  function Read1(rest: map<Token, Pc>, made: bool): State {
    Counted1(rest, made).(workers := rest[1 := Activating(0, ONCE, 0, 60, Pending)])
  }

  function Started1(rest: map<Token, Pc>, made: bool): State {
    With(Held(At(Active, Attempts(made)), 1, 60), STARTED, rest[1 := Working(0, ONCE, 60)], FirstStart(made),
         FirstCount(made))
  }

  function Worked1(rest: map<Token, Pc>, made: bool): State {
    Started1(rest, made).(workers := rest[1 := Delaying(0, ONCE, 60)])
  }

  function Delayed1(rest: map<Token, Pc>, made: bool): State {
    With(Held(At(Active, Attempts(made)).(retryAt := Some(60)), 1, 60), STARTED, rest[1 := Reporting(0, 60, Retrying)],
         FirstStart(made), FirstCount(made))
  }

  function Settling1(rest: map<Token, Pc>, made: bool): State {
    Delayed1(rest, made).(workers := rest[1 := Settling(0, 60, Active, Retrying)])
  }

  function Settled1(rest: map<Token, Pc>, made: bool): State {
    With(Held(Later(Attempts(made)), 1, 60), RETRIED, rest[1 := Releasing(0, 60)], FirstStart(made), FirstCount(made))
  }

  function Ended1(rest: map<Token, Pc>, made: bool): State {
    With(Later(Attempts(made)), RETRIED, rest[1 := Idle], FirstStart(made), FirstCount(made))
  }

  function Admitted1(rest: map<Token, Pc>): State {
    With(ONCE, [], rest[1 := Claiming(0, ONCE, 0)], [], [])
  }

  predicate Others(rest: map<Token, Pc>, solo: bool) {
    1 !in rest && (solo ==> rest == map[])
  }

  lemma FirstIsAdmitted(rest: map<Token, Pc>, solo: bool)
    requires Others(rest, solo) && Reaches(With(ONCE, [], rest, [], []), solo)
    ensures Reaches(Admitted1(rest), solo)
  {
    ReachOn(With(ONCE, [], rest, [], []), Guarding(1, 0), Admitted1(rest), solo);
  }

  lemma FirstClaims(rest: map<Token, Pc>, solo: bool)
    requires Others(rest, solo) && Reaches(Admitted1(rest), solo)
    ensures Reaches(Claimed1(rest), solo)
  {
    ReachOn(Admitted1(rest), Act(1, RETRY, NoFault), Claimed1(rest), solo);
  }

  lemma FirstCounts(rest: map<Token, Pc>, made: bool, solo: bool)
    requires Others(rest, solo) && Reaches(Claimed1(rest), solo)
    ensures Reaches(Counted1(rest, made), solo)
  {
    assert [] + FirstCount(made) == FirstCount(made);
    ReachOn(Claimed1(rest), Act(1, RETRY, if made then NoFault else LostBefore), Counted1(rest, made), solo);
  }

  lemma FirstReads(rest: map<Token, Pc>, made: bool, solo: bool)
    requires Others(rest, solo) && Reaches(Counted1(rest, made), solo)
    ensures Reaches(Read1(rest, made), solo)
  {
    ReachOn(Counted1(rest, made), Act(1, RETRY, NoFault), Read1(rest, made), solo);
  }

  lemma FirstStarts(rest: map<Token, Pc>, made: bool, solo: bool)
    requires Others(rest, solo) && Reaches(Read1(rest, made), solo)
    ensures Reaches(Started1(rest, made), solo)
  {
    assert [] + FirstStart(made) == FirstStart(made) && [] + STARTED == STARTED;
    ReachOn(Read1(rest, made), Act(1, RETRY, NoFault), Started1(rest, made), solo);
  }

  lemma FirstReports(rest: map<Token, Pc>, made: bool, solo: bool)
    requires Others(rest, solo) && Reaches(Started1(rest, made), solo)
    ensures Reaches(Worked1(rest, made), solo)
  {
    ReachOn(Started1(rest, made), Act(1, RETRY, NoFault), Worked1(rest, made), solo);
  }

  lemma FirstDelays(rest: map<Token, Pc>, made: bool, solo: bool)
    requires Others(rest, solo) && Reaches(Worked1(rest, made), solo)
    ensures Reaches(Delayed1(rest, made), solo)
  {
    ReachOn(Worked1(rest, made), Act(1, RETRY, NoFault), Delayed1(rest, made), solo);
  }

  lemma FirstReadsAgain(rest: map<Token, Pc>, made: bool, solo: bool)
    requires Others(rest, solo) && Reaches(Delayed1(rest, made), solo)
    ensures Reaches(Settling1(rest, made), solo)
  {
    ReachOn(Delayed1(rest, made), Act(1, RETRY, NoFault), Settling1(rest, made), solo);
  }

  lemma FirstSettles(rest: map<Token, Pc>, made: bool, solo: bool)
    requires Others(rest, solo) && Reaches(Settling1(rest, made), solo)
    ensures Reaches(Settled1(rest, made), solo)
  {
    ReachOn(Settling1(rest, made), Act(1, RETRY, NoFault), Settled1(rest, made), solo);
  }

  lemma FirstReleases(rest: map<Token, Pc>, made: bool, solo: bool)
    requires Others(rest, solo) && Reaches(Settled1(rest, made), solo)
    ensures Reaches(Ended1(rest, made), solo)
  {
    ReachOn(Settled1(rest, made), Act(1, RETRY, NoFault), Ended1(rest, made), solo);
  }

  lemma FirstRunEnds(rest: map<Token, Pc>, made: bool, solo: bool)
    requires Others(rest, solo) && Reaches(Admitted1(rest), solo)
    ensures Reaches(Ended1(rest, made), solo)
  {
    FirstClaims(rest, solo);
    FirstCounts(rest, made, solo);
    FirstReads(rest, made, solo);
    FirstStarts(rest, made, solo);
    FirstReports(rest, made, solo);
    FirstDelays(rest, made, solo);
    FirstReadsAgain(rest, made, solo);
    FirstSettles(rest, made, solo);
    FirstReleases(rest, made, solo);
  }

  lemma IsCreated(solo: bool)
    ensures Reaches(With(ONCE, [], map[], [], []), solo)
  {
    assert After([]) == INITIAL;
    assert solo ==> OneAtATime([], 0);
    assert Fresh(ONCE, 0) == ONCE && [] + [ONCE] == [ONCE];
    ReachOn(INITIAL, Create(ONCE), With(ONCE, [], map[], [], []), solo);
  }

  // ------------------------------------------------------------------
  // ... by interleaved runs
  // ------------------------------------------------------------------

  const WAITING: map<Token, Pc> := map[2 := Claiming(0, ONCE, 0)]

  /** A second run, admitted on the row that the first had read, goes on when the first has ended. */
  function Second(m: Mission, events: seq<Transitioned>, pc: Pc, starts: seq<Start>, counts: seq<CountWrite>): State {
    With(m, events, WAITING[1 := Idle][2 := pc], starts, counts)
  }

  const BOTH_COUNTS: seq<CountWrite> := FirstCount(true) + [CountWrite(0, 0, 1, true)]
  const BOTH_STARTS: seq<Start> := FirstStart(true) + [Start(0, ONCE, 0, Held(Later(1), 2, 60), 0)]
  const SECOND_CLAIMED := Second(Held(Later(1), 2, 60), RETRIED, Counting(0, ONCE, 0, 60),
                                 FirstStart(true), FirstCount(true))
  const SECOND_COUNTED := Second(Held(Later(1), 2, 60), RETRIED,
                                 Starting(0, ONCE, 0, 60), FirstStart(true), BOTH_COUNTS)
  const SECOND_READ :=
    Second(Held(Later(1), 2, 60), RETRIED, Activating(0, ONCE, 0, 60, Retrying), FirstStart(true), BOTH_COUNTS)
  const SECOND_STARTED :=
    Second(Held(Later(1).(status := Active), 2, 60), RESTARTED, Working(0, ONCE, 60), BOTH_STARTS, BOTH_COUNTS)

  lemma SecondCounts()
    requires Reaches(Ended1(WAITING, true), false)
    ensures Reaches(SECOND_COUNTED, false)
  {
    ReachOn(Ended1(WAITING, true), Act(2, OTHER, NoFault), SECOND_CLAIMED, false);
    ReachOn(SECOND_CLAIMED, Act(2, OTHER, NoFault), SECOND_COUNTED, false);
  }

  lemma SecondStarts()
    requires Reaches(SECOND_COUNTED, false)
    ensures Reaches(SECOND_STARTED, false)
  {
    ReachOn(SECOND_COUNTED, Act(2, OTHER, NoFault), SECOND_READ, false);
    ReachOn(SECOND_READ, Act(2, OTHER, NoFault), SECOND_STARTED, false);
  }

  lemma BothAreAdmitted()
    ensures Reaches(Admitted1(WAITING), false)
  {
    IsCreated(false);
    ReachOn(With(ONCE, [], map[], [], []), Guarding(2, 0), With(ONCE, [], WAITING, [], []), false);
    FirstIsAdmitted(WAITING, false);
  }

  /** Runs of one mission that interleave may start the employee more often than the budget allows,
      without a single lost write. */
  lemma InterleavedRunsExceedTheBudget()
    ensures exists events, id: Id ::
              id < |After(events).store.missions| && NoneLost(After(events).counts, id)
              && StartsOf(After(events).starts, id) > After(events).store.missions[id].maxAttempts
  {
    BothAreAdmitted();
    FirstRunEnds(WAITING, true, false);
    SecondCounts();
    SecondStarts();
    TwoStarts(FirstStart(true)[0], BOTH_STARTS[1]);
    assert BOTH_STARTS == [FirstStart(true)[0], BOTH_STARTS[1]];
    var events :| After(events) == SECOND_STARTED;
    assert NoneLost(After(events).counts, 0);
    assert StartsOf(After(events).starts, 0) == 2 && After(events).store.missions[0].maxAttempts == 1;
  }

  lemma TwoStarts(first: Start, second: Start)
    requires first.id == 0 && second.id == 0
    ensures StartsOf([first, second], 0) == 2
  {
    StartsOfOne([], first, 0);
    assert [] + [first] == [first];
    StartsOfOne([first], second, 0);
    assert [first] + [second] == [first, second];
  }

  // ------------------------------------------------------------------
  // ... by a lost count
  // ------------------------------------------------------------------

  /** A second run, after the retry delay, finds the mission with no attempt recorded. */
  function Again(m: Mission, events: seq<Transitioned>, pc: Pc, starts: seq<Start>, counts: seq<CountWrite>): State {
    State(60, Store([m], events), map[], map[1 := Idle, 2 := pc], starts, counts)
  }

  const RESTED := Ended1(map[], false).(now := 60)
  const TWO_COUNTS: seq<CountWrite> := FirstCount(false) + [CountWrite(0, 0, 0, true)]
  const TWO_STARTS: seq<Start> := FirstStart(false) + [Start(0, Later(0), 60, Held(Later(1), 2, 120), 60)]
  const AGAIN_ADMITTED := Again(Later(0), RETRIED, Claiming(0, Later(0), 60), FirstStart(false), FirstCount(false))
  const AGAIN_CLAIMED :=
    Again(Held(Later(0), 2, 120), RETRIED, Counting(0, Later(0), 60, 120), FirstStart(false), FirstCount(false))
  const AGAIN_COUNTED :=
    Again(Held(Later(1), 2, 120), RETRIED, Starting(0, Later(0), 60, 120), FirstStart(false), TWO_COUNTS)
  const AGAIN_READ :=
    Again(Held(Later(1), 2, 120), RETRIED, Activating(0, Later(0), 60, 120, Retrying), FirstStart(false), TWO_COUNTS)
  const AGAIN_STARTED :=
    Again(Held(Later(1).(status := Active), 2, 120), RESTARTED, Working(0, Later(0), 120), TWO_STARTS, TWO_COUNTS)

  lemma IsAdmittedAlone()
    ensures Reaches(Admitted1(map[]), true)
  {
    IsCreated(true);
    FirstIsAdmitted(map[], true);
  }

  lemma FirstHasEnded()
    ensures Reaches(Ended1(map[], false), true)
  {
    IsAdmittedAlone();
    FirstRunEnds(map[], false, true);
  }

  lemma IsRested()
    requires Reaches(Ended1(map[], false), true)
    ensures Reaches(RESTED, true)
  {
    ReachOn(Ended1(map[], false), Tick(60), RESTED, true);
  }

  lemma AgainAdmitted()
    requires Reaches(RESTED, true)
    ensures Reaches(AGAIN_ADMITTED, true)
  {
    ReachOn(RESTED, Guarding(2, 0), AGAIN_ADMITTED, true);
  }

  lemma AgainClaimed()
    requires Reaches(AGAIN_ADMITTED, true)
    ensures Reaches(AGAIN_CLAIMED, true)
  {
    ReachOn(AGAIN_ADMITTED, Act(2, OTHER, NoFault), AGAIN_CLAIMED, true);
  }

  lemma AgainCounted()
    requires Reaches(AGAIN_CLAIMED, true)
    ensures Reaches(AGAIN_COUNTED, true)
  {
    ReachOn(AGAIN_CLAIMED, Act(2, OTHER, NoFault), AGAIN_COUNTED, true);
  }

  lemma AgainRead()
    requires Reaches(AGAIN_COUNTED, true)
    ensures Reaches(AGAIN_READ, true)
  {
    ReachOn(AGAIN_COUNTED, Act(2, OTHER, NoFault), AGAIN_READ, true);
  }

  lemma AgainStarted()
    requires Reaches(AGAIN_READ, true)
    ensures Reaches(AGAIN_STARTED, true)
  {
    ReachOn(AGAIN_READ, Act(2, OTHER, NoFault), AGAIN_STARTED, true);
  }

  lemma AgainIsReached()
    ensures Reaches(AGAIN_STARTED, true)
  {
    FirstHasEnded();
    IsRested();
    AgainAdmitted();
    AgainClaimed();
    AgainCounted();
    AgainRead();
    AgainStarted();
  }

  lemma TwoStartsOneLost()
    ensures StartsOf(TWO_STARTS, 0) == 2 && WritesOf(TWO_COUNTS, 0, false) == 1
  {
    TwoStarts(FirstStart(false)[0], TWO_STARTS[1]);
    assert TWO_STARTS == [FirstStart(false)[0], TWO_STARTS[1]];
    WritesOfOne([], FirstCount(false)[0], 0, false);
    assert [] + FirstCount(false) == FirstCount(false);
    WritesOfOne(FirstCount(false), TWO_COUNTS[1], 0, false);
  }

  /** With the mission's runs strictly one at a time, a lost count starts the employee more often than
      the budget allows. */
  lemma LostCountExceedsTheBudget()
    ensures exists events, id: Id ::
              id < |After(events).store.missions| && OneAtATime(events, id) && Lost(After(events), id) == 1
              && StartsOf(After(events).starts, id) > After(events).store.missions[id].maxAttempts
  {
    AgainIsReached();
    TwoStartsOneLost();
    var events :| After(events) == AGAIN_STARTED && OneAtATime(events, 0);
    assert Lost(After(events), 0) == 1 && StartsOf(After(events).starts, 0) == 2;
  }
}
