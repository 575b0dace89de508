/** What the lease protects: a runner that holds its claim cannot be made to repeat a completed step
    before its lease has run out, and can be at once when it has. */
module PlanLeases {
  import opened Wrappers
  import opened StepClaims
  import opened PlanProtocol
  import opened PlanTheorems

  /** No time passes, and runner `t` does nothing. */
  predicate Untouched(t: Token, events: seq<Event>) {
    forall k :: 0 <= k < |events| ==> !events[k].Tick? && events[k].token != t
  }

  // ------------------------------------------------------------------
  // While the lease runs
  // ------------------------------------------------------------------

  /** The runner is about to execute its tool, on a row that is still its own and leased. */
  predicate Guarded(s: State, t: Token, w: Runner) {
    t in s.runners && s.runners[t] == w && w.pc.Running? && w.pc.row < |s.rows|
    && s.rows[w.pc.row].token == Some(t) && Leased(s.rows[w.pc.row], s.now)
  }

  lemma OthersLeaveItGuarded(c: Ctx, s: State, t: Token, w: Runner, u: Token, reply: Reply)
    requires Inv(c, s) && Guarded(s, t, w) && u != t && u in s.runners
    ensures Guarded(Act(c, s, u, s.runners[u], reply), t, w)
  {
    var v := s.runners[u];
    match v.pc
    case Claiming(attempt) =>
      var r := Request(c, |s.rows|, Current(c, v), attempt, u);
      if GrantClaim(s.rows, r, s.now).1.claimed {
        GrantAppends(s.rows, r, s.now);
      }
    case Marking(row) =>
      assert PcInv(c, s.rows, s.now, u, v);
      SettleHits(c, s.rows, row, Some(Current(c, v)), u, InProgress);
    case Settling(row, ok, _) =>
      assert PcInv(c, s.rows, s.now, u, v);
      SettleHits(c, s.rows, row, None, u, if ok then Completed else Failed);
    case _ =>
  }

  lemma EventLeavesItGuarded(c: Ctx, s: State, t: Token, w: Runner, e: Event)
    requires Inv(c, s) && Guarded(s, t, w) && !e.Tick? && e.token != t
    ensures Guarded(Apply(c, s, e), t, w)
  {
    if e.Step? {
      if e.token in s.runners {
        OthersLeaveItGuarded(c, s, t, w, e.token, e.reply);
      }
    }
  }

  lemma {:induction false} RunLeavesItGuarded(c: Ctx, s: State, t: Token, w: Runner, more: seq<Event>)
    requires DistinctNames(c) && Inv(c, s) && Guarded(s, t, w) && Untouched(t, more)
    ensures Guarded(From(c, s, more), t, w)
  {
    if more != [] {
      var n := |more| - 1;
      RunLeavesItGuarded(c, s, t, w, more[..n]);
      FromKeeps(c, s, more[..n]);
      EventLeavesItGuarded(c, From(c, s, more[..n]), t, w, more[n]);
    }
  }

  /** In every run: as long as no time passes, nobody can make a runner that holds an unexpired claim
      repeat a completed step, whatever step it is at. */
  lemma LeasedClaimIsNotRepeated(c: Ctx, events: seq<Event>, t: Token, more: seq<Event>)
    requires DistinctNames(c) && t in After(c, events).runners
    requires Guarded(After(c, events), t, After(c, events).runners[t]) && Untouched(t, more)
    ensures !WouldRepeat(c, After(c, events + more), t)
  {
    RunKeeps(c, events);
    Continued(c, events, more);
    GuardedIsNotRepeated(c, After(c, events), t, more);
  }

  lemma GuardedIsNotRepeated(c: Ctx, s: State, t: Token, more: seq<Event>)
    requires DistinctNames(c) && Inv(c, s) && t in s.runners && Guarded(s, t, s.runners[t]) && Untouched(t, more)
    ensures !WouldRepeat(c, From(c, s, more), t)
  {
    RunLeavesItGuarded(c, s, t, s.runners[t], more);
    FromKeeps(c, s, more);
    GuardedIsNotDone(c, From(c, s, more), t);
  }

  lemma GuardedIsNotDone(c: Ctx, s: State, t: Token)
    requires Inv(c, s) && t in s.runners && Guarded(s, t, s.runners[t])
    ensures !WouldRepeat(c, s, t)
  {
    assert PcInv(c, s.rows, s.now, t, s.runners[t]);
    HeldStepIsNotDone(c, s.rows, s.runners[t].pc.row);
  }

  // ------------------------------------------------------------------
  // Once the lease has run out
  // ------------------------------------------------------------------

  ghost predicate Reaches(c: Ctx, t: Token, s: State, s': State) {
    exists more :: Untouched(t, more) && From(c, s, more) == s'
  }

  lemma ReachesItself(c: Ctx, t: Token, s: State)
    ensures Reaches(c, t, s, s)
  {
    assert Untouched(t, []) && From(c, s, []) == s;
  }

  lemma ReachesOn(c: Ctx, t: Token, s: State, s1: State, e: Event)
    requires Reaches(c, t, s, s1) && !e.Tick? && e.token != t
    ensures Reaches(c, t, s, Apply(c, s1, e))
  {
    var more :| Untouched(t, more) && From(c, s, more) == s1;
    FromOne(c, s, more, e);
    assert Untouched(t, more + [e]);
  }

  /** Runner `u` has come to `v`; runner `t` is where it was. */
  ghost predicate OnItsWay(c: Ctx, s0: State, s: State, t: Token, u: Token, v: Runner) {
    Reaches(c, t, s0, s) && t != u && t in s0.runners && t in s.runners && s.runners[t] == s0.runners[t]
    && u in s.runners && s.runners[u] == v && s.now == s0.now
  }

  lemma {:induction false} ReachedInv(c: Ctx, t: Token, s0: State, s: State)
    requires DistinctNames(c) && Inv(c, s0) && Reaches(c, t, s0, s)
    ensures Inv(c, s)
  {
    var more :| Untouched(t, more) && From(c, s0, more) == s;
    FromKeeps(c, s0, more);
  }

  /** The stale row is still the one in progress. */
  predicate StaleAt(s: State, row: nat, name: StepName) {
    row < |s.rows| && s.rows[row].status == InProgress && s.rows[row].name == name && !Leased(s.rows[row], s.now)
  }

  /** A runner's action moves that runner alone. */
  lemma MovesAlone(c: Ctx, s: State, u: Token, reply: Reply)
    requires u in s.runners && !s.runners[u].pc.Stopped?
    ensures var s' := Apply(c, s, Step(u, reply));
            u in s'.runners && s'.runners == s.runners[u := s'.runners[u]] && s'.now == s.now
  {
  }

  lemma Moves(c: Ctx, s0: State, s: State, t: Token, u: Token, v: Runner, reply: Reply)
    requires OnItsWay(c, s0, s, t, u, v) && !v.pc.Stopped?
    ensures var s' := Apply(c, s, Step(u, reply)); u in s'.runners && OnItsWay(c, s0, s', t, u, s'.runners[u])
  {
    MovesAlone(c, s, u, reply);
    ReachesOn(c, t, s0, s, Step(u, reply));
  }

  const DONE := Reply(false, true, false, false)

  /** A new runner starts on the whole plan and reads the completed steps. */
  lemma Begins(c: Ctx, s0: State, t: Token, u: Token) returns (s: State, v: Runner)
    requires t in s0.runners && u !in s0.runners && t != u
    ensures OnItsWay(c, s0, s, t, u, v) && s.rows == s0.rows
    ensures v == Runner(seq(|c.names|, i => i), 0, CompletedNow(c, s0.rows), Looping)
  {
    ReachesItself(c, t, s0);
    ReachesOn(c, t, s0, s0, Start(u, false));
    var s1 := Apply(c, s0, Start(u, false));
    Moves(c, s0, s1, t, u, s1.runners[u], DONE);
    s := Apply(c, s1, Step(u, DONE));
    v := s.runners[u];
  }

  /** It skips the completed steps before position `p`. */
  lemma {:induction false} Skips(c: Ctx, s0: State, s: State, t: Token, u: Token, v: Runner, p: nat)
      returns (s': State, v': Runner)
    requires OnItsWay(c, s0, s, t, u, v) && p < |c.names|
    requires v == Runner(seq(|c.names|, i => i), v.index, v.done, Looping) && v.index <= p
    requires forall q :: 0 <= q < p ==> c.names[q] in v.done
    ensures OnItsWay(c, s0, s', t, u, v') && s'.rows == s.rows && v' == v.(index := p)
    decreases p - v.index
  {
    if v.index == p {
      return s, v;
    }
    Moves(c, s0, s, t, u, v, DONE);
    var s1 := Apply(c, s, Step(u, DONE));
    assert Current(c, v) == c.names[v.index];
    s', v' := Skips(c, s0, s1, t, u, s1.runners[u], p);
  }

  /** A stale claim gives way to the next attempt. */
  lemma StaleGivesWay(c: Ctx, s: State, row: nat, name: StepName, u: Token)
    requires RowsInv(c, s.rows) && StaleAt(s, row, name)
    ensures var attempt := NextAttempt(s.rows, |s.rows|, c.execution, c.owner, name);
            GrantClaim(s.rows, Request(c, |s.rows|, name, attempt, u), s.now).1.claimed
  {
    var attempt := NextAttempt(s.rows, |s.rows|, c.execution, c.owner, name);
    var r := Request(c, |s.rows|, name, attempt, u);
    assert Shaped(c, s.rows[row], row);
    assert AsksOverStale(s.rows, row, r, s.now) by {
      forall k | 0 <= k < |s.rows|
        ensures s.rows[k].key == PlanKey(s.rows[k].execution, s.rows[k].operation.step, s.rows[k].attempt)
      {
        assert Shaped(c, s.rows[k], k);
      }
      forall k | 0 <= k < |s.rows| ensures s.rows[k].operation == Operation(c, s.rows[k].name) {
        assert Shaped(c, s.rows[k], k);
      }
    }
    RenamedIsRecovered(s.rows, row, r, s.now);
  }

  /** It reads which attempt comes next, */
  lemma Reads(c: Ctx, s0: State, s: State, t: Token, u: Token, v: Runner) returns (s': State, v': Runner)
    requires OnItsWay(c, s0, s, t, u, v) && v.pc == Looping && v.index < |v.plan| && Current(c, v) !in v.done
    ensures OnItsWay(c, s0, s', t, u, v') && s'.rows == s.rows && Current(c, v') == Current(c, v)
    ensures v' == v.(pc := Claiming(NextAttempt(s.rows, |s.rows|, c.execution, c.owner, Current(c, v))))
  {
    Moves(c, s0, s, t, u, v, DONE);
    s' := Apply(c, s, Step(u, DONE));
    v' := s'.runners[u];
  }

  /** claims it over the stale row, */
  lemma Claims(c: Ctx, s0: State, s: State, t: Token, row: nat, u: Token, v: Runner) returns (s': State, v': Runner)
    requires OnItsWay(c, s0, s, t, u, v) && RowsInv(c, s.rows) && StaleAt(s, row, Current(c, v))
    requires v.pc == Claiming(NextAttempt(s.rows, |s.rows|, c.execution, c.owner, Current(c, v)))
    ensures OnItsWay(c, s0, s', t, u, v') && v' == v.(pc := Marking(|s.rows|))
    ensures |s'.rows| == |s.rows| + 1 && s'.rows[|s.rows|].token == Some(u)
  {
    var r := Request(c, |s.rows|, Current(c, v), v.pc.attempt, u);
    var granted := GrantClaim(s.rows, r, s.now);
    assert granted.1.claimed by { StaleGivesWay(c, s, row, Current(c, v), u); }
    assert |granted.0| == |s.rows| + 1 && granted.0[|s.rows|].token == Some(u) by { GrantAppends(s.rows, r, s.now); }
    ClaimMoves(c, s, u, v);
    Moves(c, s0, s, t, u, v, DONE);
    s' := Apply(c, s, Step(u, DONE));
    v' := s'.runners[u];
  }

  lemma ClaimMoves(c: Ctx, s: State, u: Token, v: Runner)
    requires u in s.runners && s.runners[u] == v && v.pc.Claiming?
    ensures var (rows, answer) := GrantClaim(s.rows, Request(c, |s.rows|, Current(c, v), v.pc.attempt, u), s.now);
            var s' := Apply(c, s, Step(u, DONE));
            s'.rows == rows && (answer.claimed ==> s'.runners == s.runners[u := v.(pc := Marking(|s.rows|))])
  {
  }

  /** renames its row, */
  lemma Marks(c: Ctx, s0: State, s: State, t: Token, u: Token, v: Runner, own: nat) returns (s': State, v': Runner)
    requires OnItsWay(c, s0, s, t, u, v) && AllShaped(c, s.rows) && v.pc == Marking(own)
    requires own < |s.rows| && s.rows[own].token == Some(u)
    ensures OnItsWay(c, s0, s', t, u, v') && v' == v.(pc := Running(own))
    ensures own < |s'.rows| && s'.rows[own].token == Some(u) && s'.rows[own].name == Current(c, v)
  {
    SettleHits(c, s.rows, own, Some(Current(c, v)), u, InProgress);
    Moves(c, s0, s, t, u, v, DONE);
    s' := Apply(c, s, Step(u, DONE));
    v' := s'.runners[u];
  }

  /** runs the tool, */
  lemma Runs(c: Ctx, s0: State, s: State, t: Token, u: Token, v: Runner, own: nat) returns (s': State, v': Runner)
    requires OnItsWay(c, s0, s, t, u, v) && v.pc == Running(own)
    ensures OnItsWay(c, s0, s', t, u, v') && s'.rows == s.rows && v' == v.(pc := Settling(own, true, false))
  {
    Moves(c, s0, s, t, u, v, DONE);
    s' := Apply(c, s, Step(u, DONE));
    v' := s'.runners[u];
  }

  /** and completes the step. */
  lemma Completes(c: Ctx, s0: State, s: State, t: Token, u: Token, v: Runner, own: nat) returns (s': State)
    requires OnItsWay(c, s0, s, t, u, v) && AllShaped(c, s.rows) && v.pc == Settling(own, true, false)
    requires own < |s.rows| && s.rows[own].token == Some(u)
    ensures Reaches(c, t, s0, s') && t in s'.runners && s'.runners[t] == s0.runners[t]
    ensures Done(s'.rows, s.rows[own].name)
  {
    SettleHits(c, s.rows, own, None, u, Completed);
    Moves(c, s0, s, t, u, v, DONE);
    s' := Apply(c, s, Step(u, DONE));
    assert s'.rows[own].status == Completed && s'.rows[own].name == s.rows[own].name;
  }

  lemma UnusedToken(tokens: set<Token>) returns (u: Token)
    ensures u !in tokens
  {
    u := 0;
    var rest := tokens;
    while rest != {}
      invariant forall k :: k in tokens && k !in rest ==> k < u
    {
      var k :| k in rest;
      u := if k < u then u else k + 1;
      rest := rest - {k};
    }
  }

  /** A stale claim of a step of the original plan can be taken over and completed at once. */
  lemma TakenOver(c: Ctx, s: State, t: Token, p: nat) returns (s': State)
    requires DistinctNames(c) && Inv(c, s) && t in s.runners && s.runners[t].pc.Running? && p < |c.names|
    requires s.runners[t].index < |s.runners[t].plan| && s.runners[t].plan[s.runners[t].index] == p
    requires StaleAt(s, s.runners[t].pc.row, c.names[p])
    ensures Reaches(c, t, s, s') && t in s'.runners && s'.runners[t] == s.runners[t] && Done(s'.rows, c.names[p])
  {
    var row := s.runners[t].pc.row;
    var u := UnusedToken(s.runners.Keys);
    NotYetDone(c, s, t, p);
    var s1, v1 := Begins(c, s, t, u);
    var s2, v2 := Skips(c, s, s1, t, u, v1, p);
    assert Current(c, v2) == c.names[p];
    var s3, v3 := Reads(c, s, s2, t, u, v2);
    var s4, v4 := Claims(c, s, s3, t, row, u, v3);
    assert AllShaped(c, s4.rows) by { ReachedInv(c, t, s, s4); }
    var s5, v5 := Marks(c, s, s4, t, u, v4, |s.rows|);
    assert Current(c, v4) == c.names[p];
    var s6, v6 := Runs(c, s, s5, t, u, v5, |s.rows|);
    assert AllShaped(c, s6.rows) by { ReachedInv(c, t, s, s6); }
    s' := Completes(c, s, s6, t, u, v6, |s.rows|);
  }

  /** Every step before the stale one is known completed, and it is not. */
  lemma NotYetDone(c: Ctx, s: State, t: Token, p: nat)
    requires Inv(c, s) && t in s.runners && s.runners[t].pc.Running? && p < |c.names|
    requires s.runners[t].index < |s.runners[t].plan| && s.runners[t].plan[s.runners[t].index] == p
    requires StaleAt(s, s.runners[t].pc.row, c.names[p])
    ensures forall q :: 0 <= q < p ==> c.names[q] in CompletedNow(c, s.rows)
    ensures c.names[p] !in CompletedNow(c, s.rows)
  {
    forall q | 0 <= q < p ensures c.names[q] in CompletedNow(c, s.rows) {
      EarlierStepsDone(c, s.rows, s.runners[t], q);
      CompletedMeansDone(c, s.rows, c.names[q]);
    }
    HeldStepIsNotDone(c, s.rows, s.runners[t].pc.row);
    CompletedMeansDone(c, s.rows, c.names[p]);
  }

  /** Exactly when: in every run, a runner that is about to execute its tool and still holds its row,
      at a step of the original plan, can be made to repeat a completed step while no time passes if
      and only if its lease has run out. */
  lemma RepeatableExactlyWhenTheLeaseIsOver(c: Ctx, events: seq<Event>, t: Token)
    requires DistinctNames(c) && t in After(c, events).runners && After(c, events).runners[t].pc.Running?
    requires var s := After(c, events); var row := s.runners[t].pc.row; row < |s.rows| && s.rows[row].token == Some(t)
    requires Current(c, After(c, events).runners[t]) in c.names
    ensures (exists more :: Untouched(t, more) && WouldRepeat(c, After(c, events + more), t))
       <==> !Leased(After(c, events).rows[After(c, events).runners[t].pc.row], After(c, events).now)
  {
    RunKeeps(c, events);
    var s := After(c, events);
    var w, row := s.runners[t], s.runners[t].pc.row;
    if Leased(s.rows[row], s.now) {
      forall more | Untouched(t, more) ensures !WouldRepeat(c, After(c, events + more), t) {
        LeasedClaimIsNotRepeated(c, events, t, more);
      }
    } else {
      assert PcInv(c, s.rows, s.now, t, w);
      var p :| 0 <= p < |c.names| && c.names[p] == Current(c, w);
      ExtendedIsDistinct(c, p, w.plan[w.index]);
      var s' := TakenOver(c, s, t, p);
      var more :| Untouched(t, more) && From(c, s, more) == s';
      Continued(c, events, more);
      assert WouldRepeat(c, After(c, events + more), t);
    }
  }
}
