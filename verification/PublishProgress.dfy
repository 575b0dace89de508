/** Progress: the owner approves a pending publication, nothing goes wrong, and the Pin is made, recorded and
    reported, and the mission completed. */
module PublishProgress {
  import opened Wrappers
  import opened ApprovalGateway
  import opened PublishLedger
  import opened PublishWorker
  import opened PublishProtocol
  import M = MissionStates

  /** No defect, no lost call, a usable board, and a Pin made and confirmed. */
  function Smooth(pin: PinId): Chance {
    Chance(None, NoFault, BoardKnown, Accepted(Some(pin)))
  }

  /** States each of which follows from the one before. */
  ghost predicate Chain(run: seq<State>) {
    |run| > 0 && forall i :: 0 <= i < |run| - 1 ==> Next(run[i], run[i + 1])
  }

  ghost predicate Leads(s: State, t: State) {
    exists run :: Chain(run) && run[0] == s && run[|run| - 1] == t
  }

  lemma LeadsOne(s: State, e: Event, t: State)
    requires Enabled(s, e) && t == Apply(s, e)
    ensures Leads(s, t)
  {
    assert Next(s, t);
    assert Chain([s, t]);
  }

  lemma LeadsOn(s: State, t: State, u: State)
    requires Leads(s, t) && Leads(t, u)
    ensures Leads(s, u)
  {
    var a :| Chain(a) && a[0] == s && a[|a| - 1] == t;
    var b :| Chain(b) && b[0] == t && b[|b| - 1] == u;
    var run := a + b[1..];
    forall i | 0 <= i < |run| - 1 ensures Next(run[i], run[i + 1]) {
      if i < |a| - 1 {
        assert Next(a[i], a[i + 1]);
      } else {
        assert run[i] == b[i - |a| + 1] && run[i + 1] == b[i - |a| + 2];
      }
    }
    assert run[|run| - 1] == u;
    assert Chain(run);
  }

  /** The worker of the approve route, at this stage. */
  predicate At(s: State, w: WorkerId, key: ApprovalId, user: User, stage: Stage) {
    w in s.workers && s.workers[w] == Worker(key, Some(user), true, stage)
  }

  /** The approvals, the row of the key, the requests and the missions are these. */
  predicate Shows(s: State, key: ApprovalId, approvals: Table, cell: Option<Row>, requests: seq<Request>,
        missions: map<MissionId, Mission>)
  {
    s.approvals == approvals && Cell(s.ledger, key) == cell && s.requests == requests && s.missions == missions
  }

  /** Nothing is held back from the environment: time may pass at any pace, anything new be created, any worker
      start or crash at any time, and the provider make or refuse any request it has not answered. */
  lemma AnythingMayHappen(s: State, to: Time, id: ApprovalId, m: MissionId, w: WorkerId, i: nat, pin: PinId)
    ensures s.now <= to ==> Enabled(s, Tick(to))
    ensures forall owner, mission, ttl :: id !in s.approvals ==> Enabled(s, NewRequest(id, owner, mission, ttl))
    ensures forall orchestrated :: m !in s.missions ==> Enabled(s, NewMission(m, orchestrated))
    ensures forall user, route :: w !in s.workers ==> Enabled(s, Start(w, id, user, route))
    ensures w in s.workers ==> Enabled(s, Crash(w))
    ensures i < |s.requests| && s.requests[i].fate == InFlight ==>
              Enabled(s, ProviderPins(i, pin)) && Enabled(s, ProviderRefuses(i))
    ensures Enabled(s, ExpiryCheck(id)) && forall actor :: Enabled(s, OtherApproves(id, actor))
    ensures forall actor, why :: Enabled(s, OtherRejects(id, actor, why))
    ensures forall target :: Enabled(s, MoveMission(m, target))
  {
  }

  // ------------------------------------------------------------------
  // The steps
  // ------------------------------------------------------------------

  lemma Approves(s: State, w: WorkerId, key: ApprovalId, user: User, pin: PinId)
    requires At(s, w, key, user, Approving) && key in s.approvals && s.approvals[key].owner == Some(user)
    requires s.approvals[key].status == Pending
    ensures var t := WorkerStep(s, w, Smooth(pin));
            At(t, w, key, user, ReadingApproval) && t.now == s.now
            && Shows(t, key, s.approvals[key := s.approvals[key].(status := Approved, approvedAt := Some(s.now),
                                                                  approvedBy := Some(user))],
                     Cell(s.ledger, key), s.requests, s.missions)
  {
  }

  lemma Guarded(s: State, w: WorkerId, key: ApprovalId, user: User, pin: PinId)
    requires At(s, w, key, user, ReadingApproval) && key in s.approvals && s.approvals[key].owner == Some(user)
    requires s.approvals[key].status == Approved && !PastExpiry(s.approvals[key], s.now)
    ensures var t := WorkerStep(s, w, Smooth(pin));
            At(t, w, key, user, ReadingLedger(s.now)) && t == s.(workers := t.workers)
  {
  }

  lemma Unpublished(s: State, w: WorkerId, key: ApprovalId, user: User, pin: PinId, at: Time)
    requires At(s, w, key, user, ReadingLedger(at)) && Cell(s.ledger, key) == None
    ensures var t := WorkerStep(s, w, Smooth(pin));
            At(t, w, key, user, InConnector(Checking, at, None)) && t == s.(workers := t.workers)
  {
  }

  lemma Checked(s: State, w: WorkerId, key: ApprovalId, user: User, pin: PinId, at: Time)
    requires At(s, w, key, user, InConnector(Checking, at, None))
    ensures var t := WorkerStep(s, w, Smooth(pin));
            At(t, w, key, user, InConnector(Claiming, at, None)) && t == s.(workers := t.workers)
  {
  }

  lemma Reserves(s: State, w: WorkerId, key: ApprovalId, user: User, pin: PinId, at: Time)
    requires At(s, w, key, user, InConnector(Claiming, at, None)) && Cell(s.ledger, key) == None
    ensures var t := WorkerStep(s, w, Smooth(pin));
            At(t, w, key, user, InConnector(Holding, at, None))
            && Shows(t, key, s.approvals, Some(Row(user, Publishing, None)), s.requests, s.missions)
  {
  }

  lemma Sends(s: State, w: WorkerId, key: ApprovalId, user: User, pin: PinId, at: Time)
    requires At(s, w, key, user, InConnector(Holding, at, None))
    ensures var t := WorkerStep(s, w, Smooth(pin));
            At(t, w, key, user, InConnector(Awaiting, at, Some(|s.requests|)))
            && Shows(t, key, s.approvals, Cell(s.ledger, key),
                     s.requests + [Request(key, user, at, InFlight)], s.missions)
  {
  }

  lemma Hears(s: State, w: WorkerId, key: ApprovalId, user: User, pin: PinId, at: Time, i: nat)
    requires At(s, w, key, user, InConnector(Awaiting, at, Some(i)))
    ensures var t := WorkerStep(s, w, Smooth(pin));
            At(t, w, key, user, InConnector(Settling(AsPublished(pin)), at, Some(i))) && t == s.(workers := t.workers)
  {
  }

  lemma Records(s: State, w: WorkerId, key: ApprovalId, user: User, pin: PinId, at: Time, i: nat)
    requires At(s, w, key, user, InConnector(Settling(AsPublished(pin)), at, Some(i)))
    requires Cell(s.ledger, key) == Some(Row(user, Publishing, None))
    ensures var t := WorkerStep(s, w, Smooth(pin));
            At(t, w, key, user, InConnector(Finished(PublishedPin(pin)), at, Some(i)))
            && Shows(t, key, s.approvals, Some(Row(user, Published, Some(pin))), s.requests, s.missions)
  {
  }

  lemma Ends(s: State, w: WorkerId, key: ApprovalId, user: User, pin: PinId, at: Time, i: nat)
    requires At(s, w, key, user, InConnector(Finished(PublishedPin(pin)), at, Some(i)))
    ensures var t := WorkerStep(s, w, Smooth(pin));
            At(t, w, key, user, Reporting(Resumed(pin))) && t == s.(workers := t.workers)
  {
  }

  lemma Reports(s: State, w: WorkerId, key: ApprovalId, user: User, pin: PinId, m: MissionId)
    requires At(s, w, key, user, Reporting(Resumed(pin))) && key in s.approvals && s.approvals[key].mission == Some(m)
    requires m in s.missions && s.missions[m].orchestrated && s.missions[m].state in {M.Active, M.WaitingApproval}
    ensures var t := WorkerStep(s, w, Smooth(pin));
            At(t, w, key, user, Recording(Resumed(pin), m)) && t == s.(workers := t.workers)
  {
  }

  lemma Completes(s: State, w: WorkerId, key: ApprovalId, user: User, pin: PinId, m: MissionId)
    requires At(s, w, key, user, Recording(Resumed(pin), m)) && m in s.missions
    ensures var t := WorkerStep(s, w, Smooth(pin));
            At(t, w, key, user, Over(Resumed(pin)))
            && Shows(t, key, s.approvals, Cell(s.ledger, key), s.requests,
                     s.missions[m := s.missions[m].(state := M.Completed)])
  {
  }

  // ------------------------------------------------------------------
  // The whole run
  // ------------------------------------------------------------------

  /** One step of the worker, of which the provider says nothing untrue. */
  lemma Works(s: State, w: WorkerId, pin: PinId) returns (t: State)
    requires w in s.workers && Honest(s, w, Smooth(pin))
    ensures t == WorkerStep(s, w, Smooth(pin)) && Leads(s, t)
  {
    t := Apply(s, Work(w, Smooth(pin)));
    LeadsOne(s, Work(w, Smooth(pin)), t);
  }

  /** From the route's start to the connector: the approval is the owner's, and now approved. */
  lemma ComesToConnector(s: State, w: WorkerId, key: ApprovalId, user: User, pin: PinId) returns (t: State)
    requires w !in s.workers && key in s.approvals && s.approvals[key].owner == Some(user)
    requires s.approvals[key].status == Pending && !PastExpiry(s.approvals[key], s.now) && key !in s.ledger
    ensures Leads(s, t) && At(t, w, key, user, InConnector(Claiming, s.now, None))
    ensures Shows(t, key, s.approvals[key := s.approvals[key].(status := Approved, approvedAt := Some(s.now),
                                                               approvedBy := Some(user))],
                  None, s.requests, s.missions)
  {
    var e := Start(w, key, Some(user), true);
    var s1 := Apply(s, e);
    LeadsOne(s, e, s1);
    Approves(s1, w, key, user, pin);
    var s2 := Works(s1, w, pin);
    LeadsOn(s, s1, s2);
    Guarded(s2, w, key, user, pin);
    var s3 := Works(s2, w, pin);
    LeadsOn(s, s2, s3);
    Unpublished(s3, w, key, user, pin, s.now);
    var s4 := Works(s3, w, pin);
    LeadsOn(s, s3, s4);
    Checked(s4, w, key, user, pin, s.now);
    t := Works(s4, w, pin);
    LeadsOn(s, s4, t);
  }

  /** The reservation and the one create request, which the provider answers with its Pin. */
  lemma ComesToPin(s: State, w: WorkerId, key: ApprovalId, user: User, pin: PinId, at: Time) returns (t: State)
    requires At(s, w, key, user, InConnector(Claiming, at, None)) && Cell(s.ledger, key) == None
    ensures Leads(s, t) && At(t, w, key, user, InConnector(Awaiting, at, Some(|s.requests|)))
    ensures Shows(t, key, s.approvals, Some(Row(user, Publishing, None)),
                  s.requests + [Request(key, user, at, Pinned(pin))], s.missions)
  {
    Reserves(s, w, key, user, pin, at);
    var s1 := Works(s, w, pin);
    Sends(s1, w, key, user, pin, at);
    var s2 := Works(s1, w, pin);
    LeadsOn(s, s1, s2);
    var e := ProviderPins(|s.requests|, pin);
    t := Apply(s2, e);
    LeadsOne(s2, e, t);
    LeadsOn(s, s2, t);
  }

  /** The settlement and the outcome. */
  lemma ComesToOutcome(s: State, w: WorkerId, key: ApprovalId, user: User, pin: PinId, at: Time, i: nat)
    returns (t: State)
    requires At(s, w, key, user, InConnector(Awaiting, at, Some(i))) && i < |s.requests|
    requires s.requests[i].fate == Pinned(pin) && Cell(s.ledger, key) == Some(Row(user, Publishing, None))
    ensures Leads(s, t) && At(t, w, key, user, Reporting(Resumed(pin)))
    ensures Shows(t, key, s.approvals, Some(Row(user, Published, Some(pin))), s.requests, s.missions)
  {
    Hears(s, w, key, user, pin, at, i);
    var s1 := Works(s, w, pin);
    Records(s1, w, key, user, pin, at, i);
    var s2 := Works(s1, w, pin);
    LeadsOn(s, s1, s2);
    Ends(s2, w, key, user, pin, at, i);
    t := Works(s2, w, pin);
    LeadsOn(s, s2, t);
  }

  lemma ComesToCompletion(s: State, w: WorkerId, key: ApprovalId, user: User, pin: PinId, m: MissionId)
    returns (t: State)
    requires At(s, w, key, user, Reporting(Resumed(pin))) && key in s.approvals && s.approvals[key].mission == Some(m)
    requires m in s.missions && s.missions[m].orchestrated && s.missions[m].state in {M.Active, M.WaitingApproval}
    ensures Leads(s, t) && At(t, w, key, user, Over(Resumed(pin)))
    ensures Shows(t, key, s.approvals, Cell(s.ledger, key), s.requests,
                  s.missions[m := s.missions[m].(state := M.Completed)])
  {
    Reports(s, w, key, user, pin, m);
    var s1 := Works(s, w, pin);
    Completes(s1, w, key, user, pin, m);
    t := Works(s1, w, pin);
    LeadsOn(s, s1, t);
  }

  /** Progress, from every state: the owner's approval of a pending request inside its deadline, whose key was
      never reserved, may go through in one run of the protocol. It then is approved in the owner's name, one
      request has been sent, by the owner, the Pin made for it stands in the ledger and is reported, and the
      waiting mission is completed. */
  lemma AnApprovedPinIsPublished(s: State, w: WorkerId, key: ApprovalId, user: User, pin: PinId, m: MissionId)
    returns (t: State)
    requires w !in s.workers && key in s.approvals && key !in s.ledger && m in s.missions
    requires s.approvals[key].owner == Some(user) && s.approvals[key].status == Pending
    requires s.approvals[key].expiresAt.Some? ==> s.now <= s.approvals[key].expiresAt.value
    requires s.approvals[key].mission == Some(m) && s.missions[m].orchestrated
    requires s.missions[m].state in {M.Active, M.WaitingApproval}
    ensures Leads(s, t) && At(t, w, key, user, Over(Resumed(pin)))
    ensures t.approvals == s.approvals[key := s.approvals[key].(status := Approved, approvedAt := Some(s.now),
                                                                approvedBy := Some(user))]
    ensures t.requests == s.requests + [Request(key, user, s.now, Pinned(pin))]
    ensures key in t.ledger && t.ledger[key] == Row(user, Published, Some(pin))
    ensures t.missions == s.missions[m := s.missions[m].(state := M.Completed)]
  {
    var s1 := ComesToConnector(s, w, key, user, pin);
    var s2 := ComesToPin(s1, w, key, user, pin, s.now);
    LeadsOn(s, s1, s2);
    var s3 := ComesToOutcome(s2, w, key, user, pin, s.now, |s.requests|);
    LeadsOn(s, s2, s3);
    t := ComesToCompletion(s3, w, key, user, pin, m);
    LeadsOn(s, s3, t);
  }
}
