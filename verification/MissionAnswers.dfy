/** What the orchestration answers, and in which state it leaves a mission, said from the mission's
    own fields: the moves into each state, readiness, claims, the points of a score, and what a run
    leaves behind for each report of the employee. */
module MissionAnswers {
  import opened Wrappers
  import opened MissionStates
  import opened MissionOrchestration

  // ------------------------------------------------------------------
  // Moves
  // ------------------------------------------------------------------

  /** The states from which each state is entered by a real move. */
  function EnteredFrom(target: MissionState): set<MissionState> {
    match target
    case Pending => {Paused, WaitingDependency, WaitingHuman}
    case Scheduled => {Pending, Paused, WaitingDependency}
    case Active => {Pending, Scheduled, Paused, Retrying, WaitingApproval, WaitingHuman}
    case Paused => {Pending, Scheduled, Active, Retrying, WaitingDependency, WaitingApproval, WaitingHuman}
    case Retrying => {Active, Failed}
    case WaitingDependency => {Pending, Scheduled, Retrying}
    case WaitingApproval => {Active}
    case WaitingHuman => {Active, WaitingApproval}
    case Completed => {Active, WaitingApproval}
    case Failed => {Active, Retrying, WaitingApproval, WaitingHuman}
    case Cancelled => {Pending, Scheduled, Active, Paused, Retrying, WaitingDependency, WaitingApproval, WaitingHuman,
                       Failed}
  }

  lemma MovesInto(from: MissionState, target: MissionState)
    ensures MayMove(from, target) <==> from == target || from in EnteredFrom(target)
  {
    match target {
      case Pending =>
      case Scheduled =>
      case Active =>
      case Paused =>
      case Retrying =>
      case WaitingDependency =>
      case WaitingApproval =>
      case WaitingHuman =>
      case Completed =>
      case Failed =>
      case Cancelled =>
    }
  }

  /** A transition is refused, and changes nothing, unless the mission exists and its status may be left
      for the target; otherwise the row's status, and nothing else, is the target, and the move is
      logged unless it leads nowhere. */
  lemma MoveLeaves(s: Store, id: Id, target: MissionState)
    ensures var (s', ok) := Moved(s, id, target);
            (ok <==> id < |s.missions|
                     && (s.missions[id].status == target || s.missions[id].status in EnteredFrom(target)))
            && (!ok ==> s' == s)
            && (ok ==> s'.missions == s.missions[id := s.missions[id].(status := target)]
                       && s'.events == s.events + if s.missions[id].status == target then []
                                                  else [Transitioned(id, s.missions[id].status, target)])
  {
    if id < |s.missions| {
      MovesInto(s.missions[id].status, target);
    }
  }

  /** Rescheduling writes the time and drops the retry delay of any mission there is; it is accepted from
      exactly four states. */
  lemma ScheduleLeaves(s: Store, id: Id, at: Time)
    requires id < |s.missions|
    ensures var (s', ok) := Rescheduled(s, id, at);
            (ok <==> s.missions[id].status in {Pending, Scheduled, Paused, WaitingDependency})
            && s'.missions == s.missions[id := s.missions[id].(
                                           scheduledAt := Some(at), retryAt := None,
                                           status := if ok then Scheduled else s.missions[id].status)]
  {
    var m := s.missions[id].(scheduledAt := Some(at), retryAt := None);
    MoveLeaves(s.(missions := s.missions[id := m]), id, Scheduled);
    assert s.missions[id := m][id := m.(status := Scheduled)] == s.missions[id := m.(status := Scheduled)];
  }

  // ------------------------------------------------------------------
  // Readiness
  // ------------------------------------------------------------------

  predicate Ahead(at: Option<Time>, now: Time) {
    at.Some? && now < at.value
  }

  predicate Open(s: Store, dependency: Id) {
    dependency >= |s.missions| || s.missions[dependency].status != Completed
  }

  /** The reason names the first obstacle: the status, the schedule, the retry delay, a dependency. */
  lemma ReadinessNames(s: Store, m: Mission, now: Time)
    ensures var status := m.status in {Pending, Scheduled, Retrying, WaitingDependency};
            var r := ReadinessOf(s, m, now);
            (r == NotReadyStatus <==> !status)
            && (r == ScheduledForLater <==> status && Ahead(m.scheduledAt, now))
            && (r == RetryDelay <==> status && !Ahead(m.scheduledAt, now) && Ahead(m.retryAt, now))
            && (r == Dependencies <==> status && !Ahead(m.scheduledAt, now) && !Ahead(m.retryAt, now)
                                       && exists d :: d in m.dependencies && Open(s, d))
            && (r == Ready <==> status && !Ahead(m.scheduledAt, now) && !Ahead(m.retryAt, now)
                                && forall d :: d in m.dependencies ==> !Open(s, d))
  {
    assert m.status in READY_STATES || m.status == WaitingDependency
      <==> m.status in {Pending, Scheduled, Retrying, WaitingDependency};
    forall d ensures Open(s, d) <==> !IsCompleted(s, d) {
    }
    assert Unblocked(s, m.dependencies) <==> forall d :: d in m.dependencies ==> IsCompleted(s, d);
  }

  /** The missions that selection sets waiting. */
  lemma BlockedExactlyWhen(s: Store, id: Id, now: Time)
    ensures Blocked(s, id, now)
       <==> (id < |s.missions| && s.missions[id].status in {Pending, Retrying}
             && !Ahead(s.missions[id].scheduledAt, now) && !Ahead(s.missions[id].retryAt, now)
             && exists d :: d in s.missions[id].dependencies && Open(s, d))
  {
    if id < |s.missions| {
      ReadinessNames(s, s.missions[id], now);
    }
  }

  // ------------------------------------------------------------------
  // Claims
  // ------------------------------------------------------------------

  /** Exactly when: a claim is granted if and only if the mission is neither completed, failed nor
      cancelled and nobody holds an unexpired lease on it; it then holds a lease of sixty seconds. */
  lemma ClaimLeaves(s: Store, id: Id, token: Token, now: Time)
    ensures var (s', claimed) := ClaimedBy(s, id, token, now);
            (claimed <==> id < |s.missions| && s.missions[id].status !in {Completed, Failed, Cancelled}
                          && !(s.missions[id].token.Some? && Ahead(s.missions[id].lease, now)))
            && (!claimed ==> s' == s)
            && (claimed ==> s'.events == s.events
                            && s'.missions == s.missions[id := s.missions[id].(token := Some(token),
                                                                               lease := Some(now + 60))])
  {
  }

  /** A release by the holder frees the mission at once; any other changes nothing. */
  lemma ReleaseLeaves(s: Store, id: Id, token: Token)
    ensures var s' := Released(s, id, token);
            if id < |s.missions| && s.missions[id].token == Some(token)
            then s'.events == s.events
                 && s'.missions == s.missions[id := s.missions[id].(token := None, lease := None)]
            else s' == s
  {
  }

  // ------------------------------------------------------------------
  // Scores and selection
  // ------------------------------------------------------------------

  /** Each level of priority is worth 100 points. */
  lemma LevelsAreWorth(m: Mission, now: Time)
    ensures Score(m.(priority := Urgent), now) == Score(m.(priority := High), now) + 100
    ensures Score(m.(priority := High), now) == Score(m.(priority := Normal), now) + 100
    ensures Score(m.(priority := Normal), now) == Score(m.(priority := Low), now) + 100
  {
  }

  /** Each level of urgency is worth 30 points, each grade of importance 10. */
  lemma GradesAreWorth(m: Mission, now: Time)
    ensures Score(m.(urgency := Critical), now) == Score(m.(urgency := Pressing), now) + 30
    ensures Score(m.(urgency := Pressing), now) == Score(m.(urgency := Usual), now) + 30
    ensures Score(m.(urgency := Usual), now) == Score(m.(urgency := Relaxed), now) + 30
    ensures m.importance < 5 ==> Score(m.(importance := m.importance + 1), now) == Score(m, now) + 10
  {
  }

  /** A retry is worth 5 points, a schedule that has come 20, and each full hour since creation 1, for a day
      at most. The least mission scores 140. */
  lemma BonusesAreWorth(m: Mission, now: Time, at: Time)
    ensures m.status != Retrying ==> Score(m.(status := Retrying), now) == Score(m, now) + 5
    ensures Score(m.(scheduledAt := Some(at)), now)
         == Score(m.(scheduledAt := None), now) + if at <= now then 20 else 0
    ensures m.scheduledAt == None && m.createdAt <= now < m.createdAt + 24 * 3600 ==>
              Score(m, now + 3600) == Score(m, now) + 1
    ensures m.scheduledAt == None && m.createdAt + 24 * 3600 <= now ==> Score(m, now + 3600) == Score(m, now)
    ensures (m.priority == Low && m.urgency == Relaxed && m.importance == 1 && m.status != Retrying
             && m.scheduledAt == None && now < m.createdAt + 3600) ==>
              Score(m, now) == 140
  {
    if m.createdAt <= now {
      assert (now + 3600 - m.createdAt) / 3600 == (now - m.createdAt) / 3600 + 1;
    }
  }

  predicate Above(p: Priority, q: Priority) {
    (p == Urgent && q != Urgent) || (p == High && q in {Normal, Low}) || (p == Normal && q == Low)
  }

  /** Two levels apart: an urgent mission beside a normal or low one, a high one beside a low one. */
  predicate FarAbove(p: Priority, q: Priority) {
    (p == Urgent && q in {Normal, Low}) || (p == High && q == Low)
  }

  /** Which of two ready missions is selected: never the one whose priority is two levels below, and,
      when only the priority tells them apart, never the one whose priority is lower at all. */
  lemma HigherPriorityIsSelected(s: Store, listing: seq<Id>, selected: Id, k: Id, now: Time)
    requires Best(s, listing, selected, now) && k in listing && ReadyAt(s, k, now)
    ensures !FarAbove(s.missions[k].priority, s.missions[selected].priority)
    ensures Merit(s.missions[k], now) == Merit(s.missions[selected], now) ==>
              !Above(s.missions[k].priority, s.missions[selected].priority)
  {
    assert !Outranks(s.missions, k, selected, now);
    PriorityDecidesAtTwoLevels(s.missions[k], s.missions[selected], now);
  }

  /** No other ready mission of the listing scores more, and of those that score the same none is younger. */
  lemma SelectedIsBest(s: Store, listing: seq<Id>, selected: Id, k: Id, now: Time)
    requires Best(s, listing, selected, now) && k in listing && ReadyAt(s, k, now)
    ensures ReadyAt(s, selected, now) && selected in listing
    ensures Score(s.missions[k], now) < Score(s.missions[selected], now)
         || (Score(s.missions[k], now) == Score(s.missions[selected], now)
             && s.missions[k].createdAt <= s.missions[selected].createdAt)
  {
    assert !Outranks(s.missions, k, selected, now);
  }

  // ------------------------------------------------------------------
  // What a run leaves behind
  // ------------------------------------------------------------------

  /** The state each report leaves the mission in. */
  predicate Reports(report: Report, status: MissionState) {
    match report
    case COMPLETE => status == Completed
    case WAIT_FOR_APPROVAL => status == WaitingApproval
    case WAIT_FOR_HUMAN_INPUT => status == WaitingHuman
    case RETRY => status == Retrying
    case FAIL => status == Failed
    case OTHER => status == Active
  }

  /** The delay before a retry: the mission's own, but at least a second and at most an hour. */
  predicate Delays(m: Mission, delay: int) {
    1 <= delay <= 3600
    && (1 <= m.retryAfter <= 3600 ==> delay == m.retryAfter)
    && (m.retryAfter > 3600 ==> delay == 3600) && (m.retryAfter < 1 ==> delay == 1)
  }

  /** The row after a run that started: one attempt more, the claim cleared, the state the report calls for,
      and after a retry the time of the next one. */
  predicate RowAfterRun(m: Mission, m': Mission, report: Report, end: Time) {
    Reports(report, m'.status)
    && m' == m.(status := m'.status, attempts := m.attempts + 1, token := None, lease := None, retryAt := m'.retryAt)
    && if report == RETRY then m'.retryAt.Some? && Delays(m, m'.retryAt.value - end) else m'.retryAt == m.retryAt
  }

  /** A run that started leaves the mission in the state the report calls for, unclaimed, and its two moves
      at the end of the log; every other mission is as it was. */
  lemma RunLeaves(s: Store, id: Id, token: Token, now: Time, report: Report, took: nat)
    requires RunAlone(s, id, token, now, report, took).1.Ran?
    ensures var (s', reply) := RunAlone(s, id, token, now, report, took);
            id < |s.missions| == |s'.missions| && reply == Ran(report)
            && RowAfterRun(s.missions[id], s'.missions[id], report, now + took)
            && s'.missions == s.missions[id := s'.missions[id]]
            && s'.events == s.events + [Transitioned(id, s.missions[id].status, Active)]
                            + if report == OTHER then [] else [Transitioned(id, Active, s'.missions[id].status)]
  {
    var m := s.missions[id];
    var s2 := Begun(s, id, token, now);
    BegunIs(s, id, token, now);
    RecordLeaves(s2, id, report, RetryDelayOf(m), now + took);
    var s3 := Recorded(s2, id, report, RetryDelayOf(m), now + took);
    ReleaseLeaves(s3, id, token);
    var m3 := s3.missions[id].(token := None, lease := None);
    assert s2.missions[id := s3.missions[id]][id := m3] == s.missions[id := m3];
  }

  /** The store when the employee is called: claimed, counted and active. */
  function Begun(s: Store, id: Id, token: Token, now: Time): Store {
    Moved(Counted(ClaimedBy(s, id, token, now).0, id, if id < |s.missions| then s.missions[id].attempts + 1 else 0),
          id, Active).0
  }

  lemma BegunIs(s: Store, id: Id, token: Token, now: Time)
    requires ReadyAt(s, id, now) && Claimable(s, id, now) && s.missions[id].status != WaitingDependency
    ensures Begun(s, id, token, now)
         == Store(s.missions[id := s.missions[id].(token := Some(token), lease := Some(now + 60),
                                                   attempts := s.missions[id].attempts + 1, status := Active)],
                  s.events + [Transitioned(id, s.missions[id].status, Active)])
  {
  }

  /** What the report of the employee changes of an active mission. */
  lemma RecordLeaves(s: Store, id: Id, report: Report, delay: nat, now: Time)
    requires id < |s.missions| && s.missions[id].status == Active
    ensures var s' := Recorded(s, id, report, delay, now);
            var m, m' := s.missions[id], s'.missions[id];
            Reports(report, m'.status) && s'.missions == s.missions[id := m']
            && m' == m.(status := m'.status, retryAt := if report == RETRY then Some(now + delay) else m.retryAt)
            && s'.events == s.events + if report == OTHER then [] else [Transitioned(id, Active, m'.status)]
  {
    var retrying := s.missions[id].(retryAt := Some(now + delay));
    assert s.missions[id := retrying][id := retrying.(status := Retrying)]
        == s.missions[id := retrying.(status := Retrying)];
    assert s.events + [] == s.events;
    assert s.missions[id := s.missions[id]] == s.missions;
  }

  /** Why a run is refused, and that a refusal changes nothing; only a mission out of attempts may be moved. */
  lemma RefusalNames(s: Store, id: Id, token: Token, now: Time, report: Report, took: nat)
    ensures var (s', reply) := RunAlone(s, id, token, now, report, took);
            (reply == Refused(NotFound) <==> id >= |s.missions|)
            && (reply == Refused(Terminal)
                <==> id < |s.missions| && s.missions[id].status in {Completed, Failed, Cancelled})
            && (reply.Refused? && reply.guard.NotReady?
                <==> id < |s.missions| && s.missions[id].status !in {Completed, Failed, Cancelled}
                     && !ReadyAt(s, id, now))
            && (reply == Refused(Exhausted)
                <==> ReadyAt(s, id, now) && s.missions[id].attempts >= s.missions[id].maxAttempts)
            && (reply == AlreadyClaimed
                <==> ReadyAt(s, id, now) && s.missions[id].attempts < s.missions[id].maxAttempts
                     && s.missions[id].token.Some? && Ahead(s.missions[id].lease, now))
            && (reply.Refused? && reply.guard.NotReady? ==>
                  reply.guard.reason == ReadinessOf(s, s.missions[id], now))
            && (reply.AlreadyClaimed? || (reply.Refused? && reply.guard != Exhausted) ==> s' == s)
  {
    if id < |s.missions| {
      ReadinessNames(s, s.missions[id], now);
    }
  }
}
