/** What each database call of a mission run does to the store, and where it leads, whatever it meets: a lost
    request, a lost reply, or a row that others have changed since it was read. */
module MissionSteps {
  import opened Wrappers
  import opened MissionStates
  import opened MissionOrchestration
  import opened MissionRuns
  import opened MissionAnswers

  /** A worker's call: the row of its mission, and nothing else of the missions, may have become `row`. */
  predicate Wrote(s: State, s': State, id: Id, row: Mission) {
    id < |s.store.missions| && s'.store.missions == s.store.missions[id := row]
  }

  /** Only the worker has moved on. */
  predicate OnlyWent(s: State, s': State, t: Token) {
    t in s'.workers && s' == s.(workers := s.workers[t := s'.workers[t]])
  }

  // ------------------------------------------------------------------
  // The guard
  // ------------------------------------------------------------------

  /** The guard's read: it goes on from a row whose status and times allow a run, to its dependencies or, with
      none, to the claim while attempts are left. */
  lemma GuardReads(s: State, t: Token, id: Id)
    requires t !in s.workers
    ensures var s' := Apply(s, Guarding(t, id));
            OnlyWent(s, s', t)
            && (s'.workers[t] != Idle ==> id < |s.store.missions|)
            && (id < |s.store.missions| ==>
                  var m, pc := s.store.missions[id], s'.workers[t];
                  var due := m.status in {Pending, Scheduled, Retrying, WaitingDependency}
                             && !Ahead(m.scheduledAt, s.now) && !Ahead(m.retryAt, s.now);
                  (pc == Checking(id, m, s.now, 0) <==> due && m.dependencies != [])
                  && (pc == Claiming(id, m, s.now) <==> due && m.dependencies == [] && m.attempts < m.maxAttempts)
                  && (pc.Checking? || pc.Claiming? || pc.Idle?)
                  && (pc.Checking? ==> pc == Checking(id, m, s.now, 0))
                  && (pc.Claiming? ==> pc == Claiming(id, m, s.now)))
  {
    if id < |s.store.missions| {
      var m := s.store.missions[id];
      assert m.status in READY_STATES || m.status == WaitingDependency
        <==> m.status in {Pending, Scheduled, Retrying, WaitingDependency};
    }
  }

  /** Its look at the next dependency: on if it is completed, and after the last one to the claim. */
  lemma DependencyAnswers(s: State, t: Token, report: Report, fault: Fault)
    requires t in s.workers && s.workers[t].Checking? && s.workers[t].checked < |s.workers[t].seen.dependencies|
    ensures var pc, s' := s.workers[t], Apply(s, Act(t, report, fault));
            var n, seen := pc.checked, pc.seen;
            var done := fault == NoFault && !Open(s.store, seen.dependencies[n]);
            var last := n + 1 == |seen.dependencies|;
            OnlyWent(s, s', t)
            && s'.workers[t]
               == if done && !last then pc.(checked := n + 1)
                  else if done && seen.attempts < seen.maxAttempts then Claiming(pc.id, seen, pc.guarded)
                  else Idle
  {
  }

  // ------------------------------------------------------------------
  // Claim, count, start
  // ------------------------------------------------------------------

  /** The claim: made on a row that the worker had read unleased and that still may be claimed, unless the
      request is lost; without the reply the worker stops and leaves its claim behind. */
  lemma ClaimAnswers(s: State, t: Token, report: Report, fault: Fault)
    requires t in s.workers && s.workers[t].Claiming?
    ensures var pc, s' := s.workers[t], Apply(s, Act(t, report, fault));
            var free := !(pc.seen.token.Some? && Ahead(pc.seen.lease, s.now)) && pc.id < |s.store.missions|
                        && s.store.missions[pc.id].status !in {Completed, Failed, Cancelled}
                        && !(s.store.missions[pc.id].token.Some? && Ahead(s.store.missions[pc.id].lease, s.now));
            s' == s.(store := s'.store, workers := s.workers[t := s'.workers[t]]) && s'.store.events == s.store.events
            && (if free && fault != LostBefore
                then Wrote(s, s', pc.id, s.store.missions[pc.id].(token := Some(t), lease := Some(s.now + 60)))
                else s'.store == s.store)
            && s'.workers[t] == if free && fault == NoFault then Counting(pc.id, pc.seen, pc.guarded, s.now + 60)
                                else Idle
  {
  }

  /** The count: one more than the guard had read, and nobody looks whether it was written. */
  lemma CountAnswers(s: State, t: Token, report: Report, fault: Fault)
    requires t in s.workers && s.workers[t].Counting? && s.workers[t].id < |s.store.missions|
    ensures var pc, s' := s.workers[t], Apply(s, Act(t, report, fault));
            var row := s.store.missions[pc.id];
            Wrote(s, s', pc.id, if fault == LostBefore then row else row.(attempts := pc.seen.attempts + 1))
            && s'.store.events == s.store.events
            && s'.workers == s.workers[t := Starting(pc.id, pc.seen, pc.guarded, pc.expiry)]
            && s'.counts == s.counts + [CountWrite(pc.id, pc.seen.attempts, row.attempts, fault != LostBefore)]
            && s'.starts == s.starts
  {
    var row := s.store.missions[s.workers[t].id];
    assert s.store.missions[s.workers[t].id := row] == s.store.missions;
  }

  /** The start's read: on only from a status that may become active. */
  lemma StartReads(s: State, t: Token, report: Report, fault: Fault)
    requires t in s.workers && s.workers[t].Starting? && s.workers[t].id < |s.store.missions|
    ensures var pc, s' := s.workers[t], Apply(s, Act(t, report, fault));
            var from := s.store.missions[pc.id].status;
            var may := from in {Active, Pending, Scheduled, Paused, Retrying, WaitingApproval, WaitingHuman};
            OnlyWent(s, s', t)
            && s'.workers[t] == if may && fault == NoFault
                                then Activating(pc.id, pc.seen, pc.guarded, pc.expiry, from) else Idle
  {
    MovesInto(s.store.missions[s.workers[t].id].status, Active);
  }

  /** The start's write: the row becomes active whatever it is by now, the move is logged from the status that
      was read, and the employee starts when the reply arrives. */
  lemma StartWrites(s: State, t: Token, report: Report, fault: Fault)
    requires t in s.workers && s.workers[t].Activating? && s.workers[t].id < |s.store.missions|
    ensures var pc, s' := s.workers[t], Apply(s, Act(t, report, fault));
            var row := s.store.missions[pc.id];
            (if fault == LostBefore then s'.store == s.store
             else Wrote(s, s', pc.id, row.(status := Active))
                  && s'.store.events == s.store.events + if pc.from == Active then []
                                                         else [Transitioned(pc.id, pc.from, Active)])
            && s'.workers == s.workers[t := if fault == NoFault then Working(pc.id, pc.seen, pc.expiry) else Idle]
            && s'.starts
               == s.starts + (if fault == NoFault then [Start(pc.id, pc.seen, pc.guarded, row, s.now)] else [])
            && s'.counts == s.counts
  {
  }

  // ------------------------------------------------------------------
  // Report and release
  // ------------------------------------------------------------------

  /** The employee's report: which state it asks for, and that a retry first writes its time. */
  lemma ReportLeads(s: State, t: Token, report: Report, fault: Fault)
    requires t in s.workers && s.workers[t].Working?
    ensures var pc, s' := s.workers[t], Apply(s, Act(t, report, fault));
            OnlyWent(s, s', t)
            && match report
               case COMPLETE => s'.workers[t] == Reporting(pc.id, pc.expiry, Completed)
               case WAIT_FOR_APPROVAL => s'.workers[t] == Reporting(pc.id, pc.expiry, WaitingApproval)
               case WAIT_FOR_HUMAN_INPUT => s'.workers[t] == Reporting(pc.id, pc.expiry, WaitingHuman)
               case RETRY => s'.workers[t] == Delaying(pc.id, pc.seen, pc.expiry)
               case FAIL => s'.workers[t] == Reporting(pc.id, pc.expiry, Failed)
               case OTHER => s'.workers[t] == Releasing(pc.id, pc.expiry)
  {
  }

  /** The retry time: now plus the delay of the mission as it was read, within a second and an hour; nobody
      looks whether it was written. */
  lemma DelayAnswers(s: State, t: Token, report: Report, fault: Fault)
    requires t in s.workers && s.workers[t].Delaying? && s.workers[t].id < |s.store.missions|
    ensures var pc, s' := s.workers[t], Apply(s, Act(t, report, fault));
            var row' := s'.store.missions[pc.id];
            |s'.store.missions| == |s.store.missions| && s'.store.events == s.store.events
            && Wrote(s, s', pc.id, s.store.missions[pc.id].(retryAt := row'.retryAt))
            && (if fault == LostBefore then row'.retryAt == s.store.missions[pc.id].retryAt
                else row'.retryAt.Some? && Delays(pc.seen, row'.retryAt.value - s.now))
            && s'.workers == s.workers[t := Reporting(pc.id, pc.expiry, Retrying)]
  {
    var id := s.workers[t].id;
    assert s.store.missions[id := s.store.missions[id]] == s.store.missions;
  }

  /** The report's read: on to its write only along an edge; otherwise the claim is released all the same. */
  lemma ReportReads(s: State, t: Token, report: Report, fault: Fault)
    requires t in s.workers && s.workers[t].Reporting? && s.workers[t].id < |s.store.missions|
    ensures var pc, s' := s.workers[t], Apply(s, Act(t, report, fault));
            var from := s.store.missions[pc.id].status;
            var may := from == pc.target || from in EnteredFrom(pc.target);
            OnlyWent(s, s', t)
            && s'.workers[t] == if may && fault == NoFault then Settling(pc.id, pc.expiry, from, pc.target)
                                else Releasing(pc.id, pc.expiry)
  {
    MovesInto(s.store.missions[s.workers[t].id].status, s.workers[t].target);
  }

  /** The report's write, whatever the row is by now, and the release. */
  lemma ReportWrites(s: State, t: Token, report: Report, fault: Fault)
    requires t in s.workers && s.workers[t].Settling? && s.workers[t].id < |s.store.missions|
    ensures var pc, s' := s.workers[t], Apply(s, Act(t, report, fault));
            (if fault == LostBefore then s'.store == s.store
             else Wrote(s, s', pc.id, s.store.missions[pc.id].(status := pc.target))
                  && s'.store.events == s.store.events + if pc.from == pc.target then []
                                                         else [Transitioned(pc.id, pc.from, pc.target)])
            && s' == s.(store := s'.store, workers := s.workers[t := Releasing(pc.id, pc.expiry)])
  {
  }

  lemma ReleaseAnswers(s: State, t: Token, report: Report, fault: Fault)
    requires t in s.workers && s.workers[t].Releasing? && s.workers[t].id < |s.store.missions|
    ensures var pc, s' := s.workers[t], Apply(s, Act(t, report, fault));
            var row := s.store.missions[pc.id];
            (if fault != LostBefore && row.token == Some(t)
             then Wrote(s, s', pc.id, row.(token := None, lease := None)) && s'.store.events == s.store.events
             else s'.store == s.store)
            && s' == s.(store := s'.store, workers := s.workers[t := Idle])
  {
  }

  // ------------------------------------------------------------------
  // What others do
  // ------------------------------------------------------------------

  /** Anybody's transition reads a status it may leave for any state but active, and then writes without
      looking again. */
  lemma OthersRead(s: State, t: Token, id: Id, target: MissionState)
    ensures var s' := Apply(s, Read(t, id, target));
            s' == s.(moves := s'.moves)
            && (t in s'.moves <==> target != Active && id < |s.store.missions|
                                   && (s.store.missions[id].status == target
                                       || s.store.missions[id].status in EnteredFrom(target)))
            && (t in s'.moves ==> s'.moves == s.moves[t := Intent(id, s.store.missions[id].status, target)])
            && (t !in s'.moves ==> s'.moves == s.moves - {t})
  {
    if id < |s.store.missions| {
      MovesInto(s.store.missions[id].status, target);
    }
  }

  lemma OthersWrite(s: State, t: Token)
    requires t in s.moves && s.moves[t].id < |s.store.missions|
    ensures var i, s' := s.moves[t], Apply(s, Write(t));
            Wrote(s, s', i.id, s.store.missions[i.id].(status := i.target))
            && s'.store.events == s.store.events + (if i.from == i.target then []
                                                    else [Transitioned(i.id, i.from, i.target)])
            && s' == s.(store := s'.store, moves := s.moves - {t})
  {
  }

  /** A mission is created unclaimed and untried, scheduled exactly when it has a time. */
  lemma Creates(s: State, m: Mission)
    ensures var s' := Apply(s, Create(m)); var n := |s.store.missions|;
            |s'.store.missions| == n + 1 && s'.store.missions[..n] == s.store.missions
            && s' == s.(store := s.store.(missions := s'.store.missions))
            && s'.store.missions[n] == m.(status := s'.store.missions[n].status, retryAt := None, attempts := 0,
                                          token := None, lease := None, createdAt := s.now)
            && (s'.store.missions[n].status == Pending <==> m.scheduledAt == None)
            && (s'.store.missions[n].status == Scheduled <==> m.scheduledAt.Some?)
  {
  }

  /** A rescheduling writes its times; a crash and a tick change nothing of the store. */
  lemma OtherEventsAnswer(s: State, t: Token, id: Id, at: Time, seconds: nat)
    ensures id < |s.store.missions| ==>
              Apply(s, Reschedule(id, at))
              == s.(store := s.store.(missions := s.store.missions[id := s.store.missions[id].(scheduledAt := Some(at),
                                                                                              retryAt := None)]))
    ensures id >= |s.store.missions| ==> Apply(s, Reschedule(id, at)) == s
    ensures Apply(s, Crash(t)) == if t in s.workers then s.(workers := s.workers[t := Idle]) else s
    ensures Apply(s, Tick(seconds)) == s.(now := s.now + seconds)
    ensures t in s.workers ==> Apply(s, Guarding(t, id)) == s
  {
  }
}
