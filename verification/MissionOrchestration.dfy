/** Mission orchestration: lifecycle, dependencies, scheduling, the attempt budget, scored
    selection, and the lease a run holds on its mission. */
module MissionOrchestration {
  import opened Wrappers
  import opened MissionStates

  type Time = nat
  type Id = nat
  type Token = nat

  datatype Priority = Low | Normal | High | Urgent
  datatype Urgency = Relaxed | Usual | Pressing | Critical

  type Importance = n: nat | 1 <= n <= 5 witness 1

  datatype Mission = Mission(
    status: MissionState,
    dependencies: seq<Id>,
    scheduledAt: Option<Time>,
    retryAt: Option<Time>,
    attempts: nat,
    maxAttempts: nat,
    token: Option<Token>,
    lease: Option<Time>,
    priority: Priority,
    urgency: Urgency,
    importance: Importance,
    createdAt: Time,
    retryAfter: int)

  datatype Transitioned = Transitioned(id: Id, from: MissionState, to: MissionState)

  /** The missions, numbered in the order they were created, and the transition events. */
  datatype Store = Store(missions: seq<Mission>, events: seq<Transitioned>)

  datatype Readiness = Ready | NotReadyStatus | ScheduledForLater | RetryDelay | Dependencies

  /** How the employee reports its run. */
  datatype Report = COMPLETE | WAIT_FOR_APPROVAL | WAIT_FOR_HUMAN_INPUT | RETRY | FAIL | OTHER

  const ORCHESTRATION_LEASE_SECONDS := 60
  const TERMINAL_STATES: set<MissionState> := {Completed, Failed, Cancelled}
  const READY_STATES: set<MissionState> := {Pending, Scheduled, Retrying}
  const LISTING_LIMIT := 100

  // ------------------------------------------------------------------
  // Lifecycle
  // ------------------------------------------------------------------

  /** The UPDATE of a transition whose writer had read the status `from`: the row's own status is not
      looked at again. A move to another status is logged. */
  function Overwritten(s: Store, id: Id, from: MissionState, target: MissionState): Store {
    if id >= |s.missions| then s
    else Store(s.missions[id := s.missions[id].(status := target)],
               if target == from then s.events else s.events + [Transitioned(id, from, target)])
  }

  predicate CanMove(s: Store, id: Id, target: MissionState) {
    id < |s.missions| && MayMove(s.missions[id].status, target)
  }

  /** A transition taken by itself: the read, the test of the edge, and the write. */
  function Moved(s: Store, id: Id, target: MissionState): (Store, bool) {
    if !CanMove(s, id, target) then (s, false)
    else (Overwritten(s, id, s.missions[id].status, target), true)
  }

  predicate Due(at: Option<Time>, now: Time) {
    at == None || at.value <= now
  }

  predicate IsCompleted(s: Store, id: Id) {
    id < |s.missions| && s.missions[id].status == Completed
  }

  predicate Unblocked(s: Store, dependencies: seq<Id>) {
    forall i :: 0 <= i < |dependencies| ==> IsCompleted(s, dependencies[i])
  }

  function ReadinessOf(s: Store, m: Mission, now: Time): Readiness {
    if m.status !in READY_STATES && m.status != WaitingDependency then NotReadyStatus
    else if !Due(m.scheduledAt, now) then ScheduledForLater
    else if !Due(m.retryAt, now) then RetryDelay
    else if !Unblocked(s, m.dependencies) then Dependencies
    else Ready
  }

  function Rescheduled(s: Store, id: Id, at: Time): (Store, bool) {
    if id >= |s.missions| then (s, false)
    else Moved(s.(missions := s.missions[id := s.missions[id].(scheduledAt := Some(at), retryAt := None)]),
               id, Scheduled)
  }

  // ------------------------------------------------------------------
  // Scores
  // ------------------------------------------------------------------

  function PriorityRank(p: Priority): nat {
    match p case Urgent => 4 case High => 3 case Normal => 2 case Low => 1
  }

  function UrgencyRank(u: Urgency): nat {
    match u case Critical => 4 case Pressing => 3 case Usual => 2 case Relaxed => 1
  }

  function AgeHours(m: Mission, now: Time): nat {
    if now <= m.createdAt then 0 else (now - m.createdAt) / 3600
  }

  function Score(m: Mission, now: Time): nat {
    PriorityRank(m.priority) * 100 + Merit(m, now)
  }

  /** Everything in the score but the priority. */
  function Merit(m: Mission, now: Time): nat {
    var age := AgeHours(m, now);
    UrgencyRank(m.urgency) * 30 + m.importance * 10
    + (if age < 24 then age else 24)
    + (if m.scheduledAt.Some? && Due(m.scheduledAt, now) then 20 else 0)
    + (if m.status == Retrying then 5 else 0)
  }

  /** Everything but the priority is worth at most 179 points more to one mission than to another:
      two priority levels always decide, one need not. */
  lemma PriorityDecidesAtTwoLevels(a: Mission, b: Mission, now: Time)
    ensures PriorityRank(a.priority) >= PriorityRank(b.priority) + 2 ==> Score(a, now) > Score(b, now)
    ensures PriorityRank(a.priority) == PriorityRank(b.priority) ==> Score(a, now) <= Score(b, now) + 179
  {
  }

  /** One level loses exactly to a merit greater by more than 100 points, which takes a more urgent
      mission, and with one urgency level between them one at least three grades more important. */
  lemma OnePriorityLevelLosesExactlyWhen(a: Mission, b: Mission, now: Time)
    requires PriorityRank(a.priority) == PriorityRank(b.priority) + 1
    ensures Score(a, now) < Score(b, now) <==> Merit(b, now) > Merit(a, now) + 100
    ensures Score(a, now) < Score(b, now) ==>
              UrgencyRank(b.urgency) > UrgencyRank(a.urgency)
              && (UrgencyRank(b.urgency) == UrgencyRank(a.urgency) + 1 ==> b.importance >= a.importance + 3)
  {
  }

  /** One level is not enough: an urgent, important, aged retry outscores a fresh mission one level up. */
  lemma OnePriorityLevelMayLose()
    ensures exists a: Mission, b: Mission, now: Time ::
              PriorityRank(a.priority) == PriorityRank(b.priority) + 1 && Score(a, now) < Score(b, now)
  {
    var a := Mission(Pending, [], None, None, 0, 3, None, None, High, Relaxed, 1, 90000, 60);
    var b := Mission(Retrying, [], Some(0), None, 0, 3, None, None, Normal, Critical, 5, 0, 60);
    assert Score(a, 90000) == 340 && Score(b, 90000) == 419;
  }

  // ------------------------------------------------------------------
  // The newest missions
  // ------------------------------------------------------------------

  /** Insert an id before the first listed mission that is strictly older: newer first, ties in
      creation order. */
  function Inserted(missions: seq<Mission>, listing: seq<Id>, id: Id): (r: seq<Id>)
    requires id < |missions| && forall i :: 0 <= i < |listing| ==> listing[i] < |missions|
    ensures |r| == |listing| + 1 && forall i :: 0 <= i < |r| ==> r[i] < |missions|
  {
    if listing == [] || missions[listing[0]].createdAt < missions[id].createdAt then [id] + listing
    else [listing[0]] + Inserted(missions, listing[1..], id)
  }

  function NewestFirst(missions: seq<Mission>, n: nat): (r: seq<Id>)
    requires n <= |missions|
    ensures |r| == n && forall i :: 0 <= i < |r| ==> r[i] < |missions|
  {
    if n == 0 then [] else Inserted(missions, NewestFirst(missions, n - 1), n - 1)
  }

  function Listing(missions: seq<Mission>): (r: seq<Id>)
    ensures |r| == if |missions| < LISTING_LIMIT then |missions| else LISTING_LIMIT
    ensures forall i :: 0 <= i < |r| ==> r[i] < |missions|
  {
    var all := NewestFirst(missions, |missions|);
    if |all| <= LISTING_LIMIT then all else all[..LISTING_LIMIT]
  }

  ghost predicate NewerFirst(missions: seq<Mission>, listing: seq<Id>) {
    (forall i :: 0 <= i < |listing| ==> listing[i] < |missions|)
    && forall i, j :: 0 <= i < j < |listing| ==> Precedes(missions, listing[i], listing[j])
  }

  /** Newer, or as old and created before. */
  predicate Precedes(missions: seq<Mission>, a: Id, b: Id)
    requires a < |missions| && b < |missions|
  {
    missions[a].createdAt > missions[b].createdAt || (missions[a].createdAt == missions[b].createdAt && a < b)
  }

  lemma {:induction false} InsertedIs(missions: seq<Mission>, listing: seq<Id>, id: Id)
    requires id < |missions| && NewerFirst(missions, listing) && forall k :: k in listing ==> k < id
    ensures NewerFirst(missions, Inserted(missions, listing, id))
    ensures forall k :: k in Inserted(missions, listing, id) <==> k == id || k in listing
  {
    if listing == [] || missions[listing[0]].createdAt < missions[id].createdAt {
      forall i | 0 <= i < |listing| ensures Precedes(missions, id, listing[i]) {
        assert i > 0 ==> Precedes(missions, listing[0], listing[i]);
      }
      PrependedIsNewer(missions, id, listing);
    } else {
      var rest := Inserted(missions, listing[1..], id);
      assert forall k :: k in listing <==> k == listing[0] || k in listing[1..];
      InsertedIs(missions, listing[1..], id);
      forall k | k in rest ensures Precedes(missions, listing[0], k) {
        if k == id {
          assert listing[0] in listing;
        } else {
          var i :| 1 <= i < |listing| && listing[i] == k;
        }
      }
      PrependedIsNewer(missions, listing[0], rest);
    }
  }

  lemma PrependedIsNewer(missions: seq<Mission>, id: Id, listing: seq<Id>)
    requires id < |missions| && NewerFirst(missions, listing)
    requires forall i :: 0 <= i < |listing| ==> Precedes(missions, id, listing[i])
    ensures NewerFirst(missions, [id] + listing)
    ensures forall k :: k in [id] + listing <==> k == id || k in listing
  {
    var r := [id] + listing;
    forall i, j | 0 <= i < j < |r| ensures Precedes(missions, r[i], r[j]) {
      assert r[j] == listing[j - 1];
    }
  }

  lemma {:induction false} NewestFirstIs(missions: seq<Mission>, n: nat)
    requires n <= |missions|
    ensures NewerFirst(missions, NewestFirst(missions, n))
    ensures forall k: nat :: k in NewestFirst(missions, n) <==> k < n
  {
    if n > 0 {
      NewestFirstIs(missions, n - 1);
      InsertedIs(missions, NewestFirst(missions, n - 1), n - 1);
    }
  }

  /** The listing holds at most the hundred newest missions, newest first and of equals the one created
      first: every one listed precedes every one left out. */
  lemma ListingIsNewest(missions: seq<Mission>, id: Id, i: nat)
    requires id < |missions| && id !in Listing(missions) && i < |Listing(missions)|
    ensures Precedes(missions, Listing(missions)[i], id) && NewerFirst(missions, Listing(missions))
    ensures |Listing(missions)| == 100
  {
    var all := NewestFirst(missions, |missions|);
    NewestFirstIs(missions, |missions|);
    assert id in all;
    var j :| 0 <= j < |all| && all[j] == id;
    assert forall k :: 0 <= k < |Listing(missions)| ==> all[k] == Listing(missions)[k] && all[k] != id;
  }

  // ------------------------------------------------------------------
  // The steps of a run
  // ------------------------------------------------------------------

  predicate LeaseHeld(m: Mission, now: Time) {
    m.token.Some? && m.lease.Some? && m.lease.value > now
  }

  predicate Claimable(s: Store, id: Id, now: Time) {
    id < |s.missions| && s.missions[id].status !in TERMINAL_STATES && !LeaseHeld(s.missions[id], now)
  }

  function ClaimedBy(s: Store, id: Id, token: Token, now: Time): (Store, bool) {
    if !Claimable(s, id, now) then (s, false)
    else (s.(missions := s.missions[id := s.missions[id].(token := Some(token),
                                                          lease := Some(now + ORCHESTRATION_LEASE_SECONDS))]), true)
  }

  function Released(s: Store, id: Id, token: Token): Store {
    if id >= |s.missions| || s.missions[id].token != Some(token) then s
    else s.(missions := s.missions[id := s.missions[id].(token := None, lease := None)])
  }

  /** The attempt count is written from a value read earlier. */
  function Counted(s: Store, id: Id, attempts: nat): Store {
    if id >= |s.missions| then s else s.(missions := s.missions[id := s.missions[id].(attempts := attempts)])
  }

  function RetryDelayOf(m: Mission): nat {
    if m.retryAfter < 1 then 1 else if m.retryAfter > 3600 then 3600 else m.retryAfter
  }

  function WithRetryAt(s: Store, id: Id, at: Time): Store {
    if id >= |s.missions| then s else s.(missions := s.missions[id := s.missions[id].(retryAt := Some(at))])
  }

  /** The state a report asks for; an unlisted report asks for none. */
  function TargetOf(report: Report): Option<MissionState> {
    match report
    case COMPLETE => Some(Completed)
    case WAIT_FOR_APPROVAL => Some(WaitingApproval)
    case WAIT_FOR_HUMAN_INPUT => Some(WaitingHuman)
    case RETRY => Some(Retrying)
    case FAIL => Some(Failed)
    case OTHER => None
  }

  function Recorded(s: Store, id: Id, report: Report, delay: nat, now: Time): Store {
    var s' := if report == RETRY then WithRetryAt(s, id, now + delay) else s;
    if TargetOf(report) == None then s' else Moved(s', id, TargetOf(report).value).0
  }

  /** What the guard at the head of a run decides. */
  datatype Guard = NotFound | Terminal | NotReady(reason: Readiness) | Exhausted | Admitted

  function GuardOf(s: Store, id: Id, now: Time): Guard {
    if id >= |s.missions| then NotFound
    else if s.missions[id].status in TERMINAL_STATES then Terminal
    else if ReadinessOf(s, s.missions[id], now) != Ready then NotReady(ReadinessOf(s, s.missions[id], now))
    else if s.missions[id].attempts >= s.missions[id].maxAttempts then Exhausted
    else Admitted
  }

  // ------------------------------------------------------------------
  // The service
  // ------------------------------------------------------------------

  datatype Reply = Refused(guard: Guard) | AlreadyClaimed | NotStarted | Ran(report: Report)

  /** A whole run, taken by itself: guard, claim, count, start, employee, record, release. */
  function RunAlone(s: Store, id: Id, token: Token, now: Time, report: Report, took: nat): (Store, Reply) {
    var guard := GuardOf(s, id, now);
    if guard == Exhausted then (Moved(s, id, Failed).0, Refused(guard))
    else if guard != Admitted then (s, Refused(guard))
    else
      var (s1, claimed) := ClaimedBy(s, id, token, now);
      if !claimed then (s1, AlreadyClaimed) else Worked(s1, id, s.missions[id], token, now, report, took)
  }

  /** The rest of a run, after the claim of the mission read as `m`. */
  function Worked(s: Store, id: Id, m: Mission, token: Token, now: Time, report: Report, took: nat): (Store, Reply) {
    var (s', started) := Moved(Counted(s, id, m.attempts + 1), id, Active);
    if !started then (s', NotStarted)
    else (Released(Recorded(s', id, report, RetryDelayOf(m), now + took), id, token), Ran(report))
  }

  class MissionOrchestrationService {
    var missions: seq<Mission>
    var events: seq<Transitioned>

    constructor ()
      ensures Contents() == Store([], [])
    {
      missions := [];
      events := [];
    }

    function Contents(): Store
      reads this
    {
      Store(missions, events)
    }

    method Transition(id: Id, target: MissionState) returns (ok: bool)
      modifies this
      ensures (Contents(), ok) == Moved(old(Contents()), id, target)
    {
      if id >= |missions| {
        return false;
      }
      var current := missions[id].status;
      if target != current && target !in AllowedTransitions(current) {
        return false;
      }
      missions := missions[id := missions[id].(status := target)];
      if target != current {
        events := events + [Transitioned(id, current, target)];
      }
      return true;
    }

    /** The readiness of a mission; its dependencies are looked up one by one. */
    method ReadinessFor(m: Mission, now: Time) returns (r: Readiness, blocked: seq<Id>)
      ensures r == ReadinessOf(Contents(), m, now)
      ensures r == Dependencies <==> blocked != []
      ensures r == Dependencies ==>
                forall id :: id in blocked <==> id in m.dependencies && !IsCompleted(Contents(), id)
    {
      blocked := [];
      if m.status !in READY_STATES && m.status != WaitingDependency {
        return NotReadyStatus, blocked;
      }
      if !Due(m.scheduledAt, now) {
        return ScheduledForLater, blocked;
      }
      if !Due(m.retryAt, now) {
        return RetryDelay, blocked;
      }
      for i := 0 to |m.dependencies|
        invariant forall id :: id in blocked <==> id in m.dependencies[..i] && !IsCompleted(Contents(), id)
      {
        assert m.dependencies[..i + 1] == m.dependencies[..i] + [m.dependencies[i]];
        if !IsCompleted(Contents(), m.dependencies[i]) {
          blocked := blocked + [m.dependencies[i]];
        }
      }
      assert m.dependencies[..|m.dependencies|] == m.dependencies;
      if blocked != [] {
        assert blocked[0] in blocked;
        return Dependencies, blocked;
      }
      return Ready, blocked;
    }

    method Pause(id: Id) returns (ok: bool)
      modifies this
      ensures (Contents(), ok) == Moved(old(Contents()), id, Paused)
    {
      ok := Transition(id, Paused);
    }

    method Cancel(id: Id) returns (ok: bool)
      modifies this
      ensures (Contents(), ok) == Moved(old(Contents()), id, Cancelled)
    {
      ok := Transition(id, Cancelled);
    }

    method Resume(id: Id, now: Time) returns (ok: bool)
      modifies this
      ensures id >= |old(missions)| ==> !ok && Contents() == old(Contents())
      ensures id < |old(missions)| ==>
                (Contents(), ok)
                == Moved(old(Contents()), id, if Due(old(missions)[id].scheduledAt, now) then Pending else Scheduled)
    {
      if id >= |missions| {
        return false;
      }
      var target := if missions[id].scheduledAt.Some? && !Due(missions[id].scheduledAt, now) then Scheduled
                    else Pending;
      ok := Transition(id, target);
    }

    method Schedule(id: Id, at: Time) returns (ok: bool)
      modifies this
      ensures (Contents(), ok) == Rescheduled(old(Contents()), id, at)
    {
      if id >= |missions| {
        return false;
      }
      missions := missions[id := missions[id].(scheduledAt := Some(at), retryAt := None)];
      ok := Transition(id, Scheduled);
    }

    method ClaimMission(id: Id, token: Token, now: Time) returns (claimed: bool)
      modifies this
      ensures (Contents(), claimed) == ClaimedBy(old(Contents()), id, token, now)
    {
      if id >= |missions| {
        return false;
      }
      var current := missions[id];
      if current.status in TERMINAL_STATES {
        return false;
      }
      if current.lease.Some? && current.lease.value > now && current.token.Some? {
        return false;
      }
      missions := missions[id := current.(token := Some(token), lease := Some(now + ORCHESTRATION_LEASE_SECONDS))];
      return true;
    }

    method ReleaseMission(id: Id, token: Token)
      modifies this
      ensures Contents() == Released(old(Contents()), id, token)
    {
      if id >= |missions| || missions[id].token != Some(token) {
        return;
      }
      missions := missions[id := missions[id].(token := None, lease := None)];
    }

    /** One run of a mission, nobody else acting meanwhile: `report` is what the employee says, `took`
        how long it worked. */
    method RunMission(id: Id, token: Token, now: Time, report: Report, took: nat) returns (reply: Reply)
      modifies this
      ensures (Contents(), reply) == RunAlone(old(Contents()), id, token, now, report, took)
    {
      if id >= |missions| {
        return Refused(NotFound);
      }
      var mission := missions[id];
      if mission.status in TERMINAL_STATES {
        return Refused(Terminal);
      }
      var ready, _ := ReadinessFor(mission, now);
      if ready != Ready {
        return Refused(NotReady(ready));
      }
      if mission.attempts >= mission.maxAttempts {
        var _ := Transition(id, Failed);
        return Refused(Exhausted);
      }
      var claimed := ClaimMission(id, token, now);
      if !claimed {
        return AlreadyClaimed;
      }
      reply := Work(id, mission, token, now, report, took);
    }

    method Work(id: Id, mission: Mission, token: Token, now: Time, report: Report, took: nat) returns (reply: Reply)
      requires id < |missions|
      modifies this
      ensures (Contents(), reply) == Worked(old(Contents()), id, mission, token, now, report, took)
    {
      missions := missions[id := missions[id].(attempts := mission.attempts + 1)];
      var started := Transition(id, Active);
      if !started {
        return NotStarted;
      }
      RecordReport(id, report, RetryDelayOf(mission), now + took);
      ReleaseMission(id, token);
      return Ran(report);
    }

    method RecordReport(id: Id, report: Report, delay: nat, now: Time)
      modifies this
      ensures Contents() == Recorded(old(Contents()), id, report, delay, now)
    {
      if report == COMPLETE {
        var _ := Transition(id, Completed);
      } else if report == WAIT_FOR_APPROVAL {
        var _ := Transition(id, WaitingApproval);
      } else if report == WAIT_FOR_HUMAN_INPUT {
        var _ := Transition(id, WaitingHuman);
      } else if report == RETRY {
        if id < |missions| {
          missions := missions[id := missions[id].(retryAt := Some(now + delay))];
        }
        var _ := Transition(id, Retrying);
      } else if report == FAIL {
        var _ := Transition(id, Failed);
      }
    }

    /** Look at one listed mission: is it ready, and if it is blocked, set it waiting. */
    method Consider(id: Id, m: Mission, now: Time) returns (ready: bool)
      requires id < |missions| && missions[id] == m
      modifies this
      ensures ready <==> ReadyAt(old(Contents()), id, now)
      ensures missions == if Blocked(old(Contents()), id, now) then old(missions)[id := m.(status := WaitingDependency)]
                          else old(missions)
    {
      var r, _ := ReadinessFor(m, now);
      if r == Dependencies && m.status in {Pending, Retrying} {
        var _ := Transition(id, WaitingDependency);
      }
      return r == Ready;
    }

    /** Pick a ready mission among the newest by score, and among equals by creation time; blocked
        missions met on the way are set waiting. */
    method SelectNext(now: Time) returns (selected: Option<Id>)
      modifies this
      ensures selected == None <==> NoneReady(old(Contents()), Listing(old(missions)), now)
      ensures selected.Some? ==> Best(old(Contents()), Listing(old(missions)), selected.value, now)
      ensures selected.Some? ==> forall k :: k in Listing(old(missions)) && ReadyAt(old(Contents()), k, now) ==>
                PriorityRank(old(missions)[k].priority) < PriorityRank(old(missions)[selected.value].priority) + 2
      ensures selected.Some? ==> FirstOfEquals(old(Contents()), Listing(old(missions)), selected.value, now)
      ensures SetWaiting(old(Contents()), Contents(), Listing(old(missions)), now)
    {
      var snapshot := missions;
      ghost var start := Contents();
      var listing := Listing(snapshot);
      ListingIsDistinct(snapshot);
      selected := None;
      for i := 0 to |listing|
        invariant SetWaiting(start, Contents(), listing[..i], now)
        invariant Picked(start, listing[..i], selected, now)
      {
        PrefixGrows(listing, i);
        selected := Visit(snapshot, listing[i], selected, now, start, listing[..i]);
      }
      assert listing[..|listing|] == listing;
      if selected.Some? {
        BestIsHighest(start, listing, selected.value, now);
      }
    }

    /** Look at the next listed mission, and keep it if it is ready and outranks the best so far. */
    method Visit(snapshot: seq<Mission>, id: Id, best: Option<Id>, now: Time, ghost start: Store, ghost seen: seq<Id>)
      returns (best': Option<Id>)
      requires SetWaiting(start, Contents(), seen, now) && Picked(start, seen, best, now)
      requires snapshot == start.missions && id < |snapshot| && id !in seen
      modifies this
      ensures SetWaiting(start, Contents(), seen + [id], now) && Picked(start, seen + [id], best', now)
    {
      WaitingKeepsReadiness(start, Contents(), seen, id, now);
      ghost var before := Contents();
      var ready := Consider(id, snapshot[id], now);
      WaitingGrows(start, before, Contents(), seen, seen + [id], id, now);
      PickGrows(start, seen, best, id, now);
      if ready && (best == None || Outranks(snapshot, id, best.value, now)) {
        return Some(id);
      }
      return best;
    }
  }

  lemma BestIsHighest(s: Store, listing: seq<Id>, id: Id, now: Time)
    requires Best(s, listing, id, now)
    ensures forall k :: k in listing && ReadyAt(s, k, now) ==>
              PriorityRank(s.missions[k].priority) < PriorityRank(s.missions[id].priority) + 2
  {
    forall k | k in listing && ReadyAt(s, k, now)
      ensures PriorityRank(s.missions[k].priority) < PriorityRank(s.missions[id].priority) + 2
    {
      PriorityDecidesAtTwoLevels(s.missions[k], s.missions[id], now);
    }
  }

  ghost predicate NoneReady(s: Store, listing: seq<Id>, now: Time) {
    forall k :: k in listing ==> !ReadyAt(s, k, now)
  }

  /** Of the listed missions, exactly the blocked pending and retrying ones were set waiting. */
  ghost predicate SetWaiting(s: Store, t: Store, listing: seq<Id>, now: Time) {
    |t.missions| == |s.missions|
    && forall k :: 0 <= k < |s.missions| ==>
         t.missions[k] == if k in listing && Blocked(s, k, now) then s.missions[k].(status := WaitingDependency)
                          else s.missions[k]
  }

  lemma WaitingGrows(s: Store, t: Store, u: Store, seen: seq<Id>, seen': seq<Id>, id: Id, now: Time)
    requires SetWaiting(s, t, seen, now) && id < |s.missions| && id !in seen
    requires forall k :: k in seen' <==> k in seen || k == id
    requires u.missions == if Blocked(s, id, now) then t.missions[id := s.missions[id].(status := WaitingDependency)]
                           else t.missions
    ensures SetWaiting(s, u, seen', now)
  {
  }

  /** The ready missions listed before this one all score less, or are older and score the same. */
  ghost predicate FirstOfEquals(s: Store, listing: seq<Id>, id: Id, now: Time) {
    id < |s.missions|
    && forall i, j :: 0 <= i < j < |listing| && listing[j] == id && ReadyAt(s, listing[i], now) ==>
         Outranks(s.missions, id, listing[i], now)
  }

  /** The best of what was listed so far, if anything was ready. */
  ghost predicate Picked(s: Store, listing: seq<Id>, selected: Option<Id>, now: Time) {
    if selected == None then NoneReady(s, listing, now)
    else Best(s, listing, selected.value, now) && FirstOfEquals(s, listing, selected.value, now)
  }

  /** How the best of a longer listing is found. */
  lemma PickGrows(s: Store, seen: seq<Id>, selected: Option<Id>, id: Id, now: Time)
    requires id < |s.missions| && id !in seen && Picked(s, seen, selected, now)
    ensures Picked(s, seen + [id],
                   if ReadyAt(s, id, now) && (selected == None || Outranks(s.missions, id, selected.value, now))
                   then Some(id) else selected, now)
  {
    BestGrows(s, seen, selected, id, now);
    FirstGrows(s, seen, selected, id, now);
  }

  lemma BestGrows(s: Store, seen: seq<Id>, selected: Option<Id>, id: Id, now: Time)
    requires id < |s.missions| && Picked(s, seen, selected, now)
    ensures ReadyAt(s, id, now) && (selected == None || Outranks(s.missions, id, selected.value, now)) ==>
              Best(s, seen + [id], id, now)
    ensures ReadyAt(s, id, now) && selected.Some? && !Outranks(s.missions, id, selected.value, now) ==>
              Best(s, seen + [id], selected.value, now)
    ensures !ReadyAt(s, id, now) ==> if selected == None then NoneReady(s, seen + [id], now)
                                     else Best(s, seen + [id], selected.value, now)
  {
  }

  lemma FirstGrows(s: Store, seen: seq<Id>, selected: Option<Id>, id: Id, now: Time)
    requires id < |s.missions| && id !in seen && Picked(s, seen, selected, now)
    ensures selected == None || Outranks(s.missions, id, selected.value, now) ==>
              FirstOfEquals(s, seen + [id], id, now)
    ensures selected.Some? ==> FirstOfEquals(s, seen + [id], selected.value, now)
  {
  }

  predicate Distinct(listing: seq<Id>) {
    forall i, j :: 0 <= i < j < |listing| ==> listing[i] != listing[j]
  }

  lemma PrefixGrows(listing: seq<Id>, i: nat)
    requires i < |listing| && Distinct(listing)
    ensures listing[i] !in listing[..i] && listing[..i + 1] == listing[..i] + [listing[i]]
  {
  }

  lemma {:induction false} NewestFirstIsDistinct(missions: seq<Mission>, n: nat)
    requires n <= |missions|
    ensures Distinct(NewestFirst(missions, n))
  {
    if n > 0 {
      NewestFirstIsDistinct(missions, n - 1);
      NewestFirstIs(missions, n - 1);
      InsertedIsDistinct(missions, NewestFirst(missions, n - 1), n - 1);
    }
  }

  lemma {:induction false} InsertedIsDistinct(missions: seq<Mission>, listing: seq<Id>, id: Id)
    requires id < |missions| && NewerFirst(missions, listing) && Distinct(listing)
    requires forall k :: k in listing ==> k < id
    ensures Distinct(Inserted(missions, listing, id))
  {
    if listing == [] || missions[listing[0]].createdAt < missions[id].createdAt {
      PrependedIsDistinct(id, listing);
    } else {
      assert forall k :: k in listing[1..] ==> k in listing;
      InsertedIsDistinct(missions, listing[1..], id);
      InsertedIs(missions, listing[1..], id);
      PrependedIsDistinct(listing[0], Inserted(missions, listing[1..], id));
    }
  }

  lemma PrependedIsDistinct(id: Id, listing: seq<Id>)
    requires id !in listing && Distinct(listing)
    ensures Distinct([id] + listing)
  {
    var r := [id] + listing;
    forall i, j | 0 <= i < j < |r| ensures r[i] != r[j] {
      assert r[j] == listing[j - 1];
    }
  }

  lemma ListingIsDistinct(missions: seq<Mission>)
    ensures Distinct(Listing(missions))
  {
    NewestFirstIsDistinct(missions, |missions|);
  }

  /** Setting blocked missions waiting completes nothing, so it changes no other mission's readiness. */
  lemma WaitingKeepsReadiness(s: Store, t: Store, listing: seq<Id>, id: Id, now: Time)
    requires SetWaiting(s, t, listing, now) && id < |s.missions| && id !in listing
    ensures t.missions[id] == s.missions[id]
    ensures ReadyAt(t, id, now) == ReadyAt(s, id, now) && Blocked(t, id, now) == Blocked(s, id, now)
  {
    forall k ensures IsCompleted(s, k) == IsCompleted(t, k) {
    }
    SameReadiness(s, t, s.missions[id], now);
  }

  predicate ReadyAt(s: Store, id: Id, now: Time) {
    id < |s.missions| && ReadinessOf(s, s.missions[id], now) == Ready
  }

  predicate Blocked(s: Store, id: Id, now: Time) {
    id < |s.missions| && ReadinessOf(s, s.missions[id], now) == Dependencies
    && s.missions[id].status in {Pending, Retrying}
  }

  /** Strictly greater as a pair of score and creation time. */
  predicate Outranks(missions: seq<Mission>, a: Id, b: Id, now: Time)
    requires a < |missions| && b < |missions|
  {
    var x, y := Score(missions[a], now), Score(missions[b], now);
    x > y || (x == y && missions[a].createdAt > missions[b].createdAt)
  }

  ghost predicate Best(s: Store, listing: seq<Id>, id: Id, now: Time) {
    id in listing && ReadyAt(s, id, now)
    && forall k :: k in listing && ReadyAt(s, k, now) ==> !Outranks(s.missions, k, id, now)
  }

  /** Readiness depends on the other missions only through which of them are completed. */
  lemma SameReadiness(s: Store, t: Store, m: Mission, now: Time)
    requires forall k :: IsCompleted(s, k) == IsCompleted(t, k)
    ensures ReadinessOf(s, m, now) == ReadinessOf(t, m, now)
  {
  }

  // ------------------------------------------------------------------
  // What a run does
  // ------------------------------------------------------------------

  /** The employee runs exactly when the mission is ready, within its budget and unclaimed, and is
      not in waiting_dependency: that state passes the guard but has no way to active. */
  lemma RunsExactlyWhen(s: Store, id: Id, token: Token, now: Time, report: Report, took: nat)
    ensures RunAlone(s, id, token, now, report, took).1 == Ran(report)
       <==> (ReadyAt(s, id, now) && s.missions[id].attempts < s.missions[id].maxAttempts
             && !LeaseHeld(s.missions[id], now) && s.missions[id].status != WaitingDependency)
  {
  }

  /** The budget of a mission, and every other mission, survive what a run does after its count. */
  predicate SameBudget(s: Store, t: Store, id: Id) {
    |t.missions| == |s.missions|
    && forall k :: 0 <= k < |s.missions| ==>
         if k == id then
           t.missions[k].attempts == s.missions[k].attempts && t.missions[k].maxAttempts == s.missions[k].maxAttempts
         else t.missions[k] == s.missions[k]
  }

  lemma RecordedKeepsBudget(s: Store, id: Id, report: Report, delay: nat, now: Time)
    ensures SameBudget(s, Recorded(s, id, report, delay, now), id)
  {
  }

  lemma WorkedKeepsBudget(s: Store, id: Id, m: Mission, token: Token, now: Time, report: Report, took: nat)
    ensures SameBudget(Counted(s, id, m.attempts + 1), Worked(s, id, m, token, now, report, took).0, id)
  {
    var (s', _) := Moved(Counted(s, id, m.attempts + 1), id, Active);
    RecordedKeepsBudget(s', id, report, RetryDelayOf(m), now + took);
  }

  /** Every run that gets past its claim costs an attempt, none goes beyond the budget, and no other
      mission is touched. */
  lemma RunSpendsTheBudget(s: Store, id: Id, token: Token, now: Time, report: Report, took: nat, k: Id)
    requires id < |s.missions| && k < |s.missions|
    ensures var (s', reply) := RunAlone(s, id, token, now, report, took);
            |s'.missions| == |s.missions|
            && s'.missions[k].attempts
               == s.missions[k].attempts + (if k == id && (reply.Ran? || reply.NotStarted?) then 1 else 0)
            && (s.missions[k].attempts <= s.missions[k].maxAttempts ==>
                  s'.missions[k].attempts <= s'.missions[k].maxAttempts)
            && (k != id ==> s'.missions[k] == s.missions[k])
  {
    var (s1, _) := ClaimedBy(s, id, token, now);
    WorkedKeepsBudget(s1, id, s.missions[id], token, now, report, took);
  }

  /** A mission out of attempts is moved to failed exactly when it was retrying; any other ready
      state has no edge to failed, and the mission stays as it is. */
  lemma ExhaustedFailsExactlyWhenRetrying(s: Store, id: Id, token: Token, now: Time, report: Report, took: nat)
    requires GuardOf(s, id, now) == Exhausted
    ensures var s' := RunAlone(s, id, token, now, report, took).0;
            (IsFailed(s', id) <==> s.missions[id].status == Retrying) && (s.missions[id].status != Retrying ==> s' == s)
  {
  }

  predicate IsFailed(s: Store, id: Id) {
    id < |s.missions| && s.missions[id].status == Failed
  }

  /** A run of a mission in waiting_dependency whose dependencies are done never starts it, burns an
      attempt, and leaves its own claim behind until the lease runs out. */
  lemma WaitingDependencyBurnsAttempts(s: Store, id: Id, token: Token, now: Time, report: Report, took: nat)
    requires GuardOf(s, id, now) == Admitted && Claimable(s, id, now) && s.missions[id].status == WaitingDependency
    ensures RunAlone(s, id, token, now, report, took)
         == (s.(missions := s.missions[id := s.missions[id].(attempts := s.missions[id].attempts + 1,
                                                             token := Some(token),
                                                             lease := Some(now + ORCHESTRATION_LEASE_SECONDS))]),
             NotStarted)
  {
    var m := s.missions[id];
    var claimed := m.(token := Some(token), lease := Some(now + ORCHESTRATION_LEASE_SECONDS));
    assert s.missions[id := claimed][id := claimed.(attempts := m.attempts + 1)]
        == s.missions[id := claimed.(attempts := m.attempts + 1)];
  }

  /** Rescheduling is refused and yet overwrites the schedule and drops the retry delay, exactly on a
      mission whose state has no edge to scheduled and whose times actually change. */
  lemma RefusedScheduleOverwritesExactlyWhen(s: Store, id: Id, at: Time)
    ensures (!Rescheduled(s, id, at).1 && Rescheduled(s, id, at).0 != s)
       <==> (id < |s.missions| && !MayMove(s.missions[id].status, Scheduled)
             && (s.missions[id].scheduledAt != Some(at) || s.missions[id].retryAt != None))
  {
    if id < |s.missions| {
      var m := s.missions[id].(scheduledAt := Some(at), retryAt := None);
      assert s.missions[id := m][id] == m;
      if m == s.missions[id] {
        assert s.missions[id := m] == s.missions;
      }
    }
  }

  /** So a retrying mission that is rescheduled to a time already due loses its retry delay: it is
      ready at once, exactly when its dependencies are completed. */
  lemma ScheduleCutsRetryDelayExactlyWhen(s: Store, id: Id, at: Time, now: Time)
    requires id < |s.missions| && s.missions[id].status == Retrying && !Due(s.missions[id].retryAt, now)
    ensures !ReadyAt(s, id, now) && !Rescheduled(s, id, at).1
    ensures ReadyAt(Rescheduled(s, id, at).0, id, now) <==> (at <= now && Unblocked(s, s.missions[id].dependencies))
  {
    var s' := Rescheduled(s, id, at).0;
    forall k ensures IsCompleted(s', k) == IsCompleted(s, k) {
    }
  }
}
