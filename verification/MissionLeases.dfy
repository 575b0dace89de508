/** The lease a run holds on its mission. */
module MissionLeases {
  import opened Wrappers
  import opened MissionStates
  import opened MissionOrchestration
  import opened MissionRuns

  // ------------------------------------------------------------------
  // Leases
  // ------------------------------------------------------------------

  /** A worker past its claim whose lease has not run out. */
  predicate Holds(s: State, t: Token, id: Id) {
    t in s.workers && PastClaim(s.workers[t]) && s.workers[t].id == id && s.workers[t].expiry > s.now
  }

  predicate LeaseIs(s: Store, id: Id, t: Token, expiry: Time) {
    id < |s.missions| && s.missions[id].token == Some(t) && s.missions[id].lease == Some(expiry)
  }

  /** Until its lease runs out, a worker's claim is the one on the row. */
  predicate LeaseInv(s: State) {
    forall t :: t in s.workers && PastClaim(s.workers[t]) && s.workers[t].expiry > s.now ==>
      LeaseIs(s.store, s.workers[t].id, t, s.workers[t].expiry)
  }

  /** A change of the store that leaves every claim alone. */
  predicate SameClaims(s: Store, t: Store) {
    |s.missions| <= |t.missions|
    && forall k :: 0 <= k < |s.missions| ==>
         t.missions[k].token == s.missions[k].token && t.missions[k].lease == s.missions[k].lease
  }

  /** Steps of a worker after which it claims no more than before, on a store with the same claims. */
  lemma ClaimsStay(s: State, s': State, t: Token)
    requires LeaseInv(s) && SameClaims(s.store, s'.store) && s'.now == s.now
    requires t in s'.workers && s'.workers == s.workers[t := s'.workers[t]]
    requires PastClaim(s'.workers[t]) ==>
               t in s.workers && PastClaim(s.workers[t]) && s'.workers[t].id == s.workers[t].id
               && s'.workers[t].expiry == s.workers[t].expiry
    ensures LeaseInv(s')
  {
  }

  lemma ClaimKeepsLeases(s: State, t: Token, report: Report, fault: Fault)
    requires LeaseInv(s) && t in s.workers && s.workers[t].Claiming?
    ensures LeaseInv(WorkerStep(s, t, s.workers[t], report, fault))
  {
    var s' := WorkerStep(s, t, s.workers[t], report, fault);
    if s'.store == s.store && s'.workers[t].Idle? {
      ClaimsStay(s, s', t);
    } else {
      NewClaimIsAlone(s, s.workers[t].id);
    }
  }

  /** A release by a worker that no longer holds the claim, or gives it up, takes it from nobody else. */
  lemma ReleaseKeepsLeases(s: State, t: Token, report: Report, fault: Fault)
    requires LeaseInv(s) && t in s.workers && s.workers[t].Releasing?
    ensures LeaseInv(WorkerStep(s, t, s.workers[t], report, fault))
  {
  }

  /** Between claim and release a worker's calls leave all claims alone. */
  lemma CallKeepsClaims(s: Store, t: Token, pc: Pc, now: Time)
    requires !pc.Claiming? && !pc.Releasing?
    ensures SameClaims(s, Effect(s, t, pc, now))
  {
    match pc
    case Activating(id, _, _, _, from) => OverwrittenKeepsClaims(s, id, from, Active);
    case Settling(id, _, from, target) => OverwrittenKeepsClaims(s, id, from, target);
    case _ =>
  }

  lemma OverwrittenKeepsClaims(s: Store, id: Id, from: MissionState, target: MissionState)
    ensures SameClaims(s, Overwritten(s, id, from, target))
  {
  }

  lemma WorkerKeepsLeases(s: State, t: Token, report: Report, fault: Fault)
    requires LeaseInv(s) && t in s.workers
    ensures LeaseInv(WorkerStep(s, t, s.workers[t], report, fault))
  {
    var pc := s.workers[t];
    if pc.Claiming? {
      ClaimKeepsLeases(s, t, report, fault);
    } else if pc.Releasing? {
      ReleaseKeepsLeases(s, t, report, fault);
    } else {
      CallKeepsClaims(s.store, t, pc, s.now);
      NextPcGoesOn(s.store, pc, s.now, report, fault);
      ClaimsStay(s, WorkerStep(s, t, pc, report, fault), t);
    }
  }

  /** A claim is granted only when nobody's lease is running. */
  lemma NewClaimIsAlone(s: State, id: Id)
    requires LeaseInv(s) && Claimable(s.store, id, s.now)
    ensures forall u :: !Holds(s, u, id)
  {
    forall u ensures !Holds(s, u, id) {
      if Holds(s, u, id) {
        HolderBlocksClaims(s, u, id);
      }
    }
  }

  lemma HolderBlocksClaims(s: State, u: Token, id: Id)
    requires LeaseInv(s) && Holds(s, u, id)
    ensures !Claimable(s.store, id, s.now)
  {
    assert LeaseIs(s.store, id, u, s.workers[u].expiry);
  }

  lemma EventKeepsLeases(s: State, e: Event)
    requires LeaseInv(s)
    ensures LeaseInv(Apply(s, e))
  {
    match e
    case Guarding(t, id) =>
      if t !in s.workers {
        ClaimsStay(s, Apply(s, e), t);
      }
    case Act(t, report, fault) =>
      if t in s.workers {
        WorkerKeepsLeases(s, t, report, fault);
      }
    case _ =>
  }

  lemma {:induction false} RunKeepsLeases(events: seq<Event>)
    ensures LeaseInv(After(events))
  {
    if events == [] {
    } else {
      var n := |events| - 1;
      RunKeepsLeases(events[..n]);
      EventKeepsLeases(After(events[..n]), events[n]);
    }
  }

  /** At any time at most one worker holds an unexpired lease on a mission. */
  lemma AtMostOneHolder(events: seq<Event>, t: Token, u: Token, id: Id)
    requires Holds(After(events), t, id) && Holds(After(events), u, id)
    ensures t == u
  {
    RunKeepsLeases(events);
    var s := After(events);
    assert LeaseIs(s.store, id, t, s.workers[t].expiry) && LeaseIs(s.store, id, u, s.workers[u].expiry);
  }

  /** In every run, a release by any other worker, however late, leaves the holder's claim in place. */
  lemma LateReleaseClearsNothing(events: seq<Event>, t: Token, u: Token, id: Id, report: Report, fault: Fault)
    requires Holds(After(events), t, id) && u != t
    requires u in After(events).workers && After(events).workers[u].Releasing? && After(events).workers[u].id == id
    ensures After(events + [Act(u, report, fault)]).store == After(events).store
    ensures Holds(After(events + [Act(u, report, fault)]), t, id)
  {
    RunKeepsLeases(events);
    var s := After(events);
    AfterOne(events, Act(u, report, fault));
    assert LeaseIs(s.store, id, t, s.workers[t].expiry);
  }
}
