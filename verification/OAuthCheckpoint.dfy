/** The OAuth callback checkpoint: one winner may exchange the authorization code.

    Authorization codes are single use (section 4.1.2 of RFC 6749); the checkpoint's status is the
    lock that keeps concurrent and repeated callbacks from exchanging one twice. */
module OAuthCheckpoint {
  import opened Wrappers

  datatype Status = AwaitingHuman | Processing | Completed | Failed | Elsewhere

  datatype Checkpoint = Checkpoint(status: Status, consumed: bool)

  datatype ClaimReply = Claimed | InProgress | AlreadyCompleted | AlreadyFailed | Unknown

  // ------------------------------------------------------------------
  // The operations on one checkpoint
  // ------------------------------------------------------------------

  /** What a status read answers; None when the checkpoint may be claimed. */
  function Answer(status: Status): Option<ClaimReply> {
    match status
    case AwaitingHuman => None
    case Processing => Some(InProgress)
    case Completed => Some(AlreadyCompleted)
    case Failed => Some(AlreadyFailed)
    case Elsewhere => Some(Unknown)
  }

  /** UPDATE ... WHERE status = from. */
  function Guarded(cp: Checkpoint, from: Status, cp': Checkpoint): (Checkpoint, bool) {
    if cp.status == from then (cp', true) else (cp, false)
  }

  function Claim(cp: Checkpoint): (Checkpoint, bool) {
    Guarded(cp, AwaitingHuman, cp.(status := Processing))
  }

  function Complete(cp: Checkpoint): (Checkpoint, bool) {
    Guarded(cp, Processing, Checkpoint(Completed, true))
  }

  function Fail(cp: Checkpoint): (Checkpoint, bool) {
    Guarded(cp, Processing, cp.(status := Failed))
  }

  class HumanInterventionManager {
    var checkpoints: map<string, Checkpoint>

    constructor ()
      ensures checkpoints == map[]
    {
      checkpoints := map[];
    }

    method ClaimOauthCallback(state: string) returns (reply: ClaimReply)
      modifies this
      ensures state !in old(checkpoints) ==> reply == Unknown && checkpoints == old(checkpoints)
      ensures state in old(checkpoints) ==>
                var (cp, won) := Claim(old(checkpoints)[state]);
                checkpoints == old(checkpoints)[state := cp]
                && reply == if won then Claimed else Answer(old(checkpoints)[state].status).value
      ensures state in old(checkpoints) ==>
                var status := old(checkpoints)[state].status;
                (reply == Claimed <==> status == AwaitingHuman) && (reply == InProgress <==> status == Processing)
                && (reply == AlreadyCompleted <==> status == Completed)
                && (reply == AlreadyFailed <==> status == Failed)
    {
      if state !in checkpoints {
        return Unknown;
      }
      var cp := checkpoints[state];
      if cp.status == Processing {
        assert checkpoints == checkpoints[state := cp];
        return InProgress;
      }
      if cp.status == Completed {
        assert checkpoints == checkpoints[state := cp];
        return AlreadyCompleted;
      }
      if cp.status == Failed {
        assert checkpoints == checkpoints[state := cp];
        return AlreadyFailed;
      }
      if cp.status != AwaitingHuman {
        assert checkpoints == checkpoints[state := cp];
        return Unknown;
      }
      checkpoints := checkpoints[state := cp.(status := Processing)];
      return Claimed;
    }

    method CompleteOauthCallback(state: string) returns (ok: bool)
      modifies this
      ensures state !in old(checkpoints) ==> !ok && checkpoints == old(checkpoints)
      ensures state in old(checkpoints) ==>
                (checkpoints, ok)
                == (old(checkpoints)[state := Complete(old(checkpoints)[state]).0], Complete(old(checkpoints)[state]).1)
    {
      if state !in checkpoints {
        return false;
      }
      if checkpoints[state].status != Processing {
        assert checkpoints == checkpoints[state := checkpoints[state]];
        return false;
      }
      checkpoints := checkpoints[state := Checkpoint(Completed, true)];
      return true;
    }

    method FailOauthCallback(state: string) returns (ok: bool)
      modifies this
      ensures state !in old(checkpoints) ==> !ok && checkpoints == old(checkpoints)
      ensures state in old(checkpoints) ==>
                (checkpoints, ok)
                == (old(checkpoints)[state := Fail(old(checkpoints)[state]).0], Fail(old(checkpoints)[state]).1)
    {
      if state !in checkpoints {
        return false;
      }
      if checkpoints[state].status != Processing {
        assert checkpoints == checkpoints[state := checkpoints[state]];
        return false;
      }
      checkpoints := checkpoints[state := checkpoints[state].(status := Failed)];
      return true;
    }

    /** Reconciliation only reports; it never reopens the checkpoint. */
    method ReconcileOauthCallback(state: string) returns (processing: bool)
      ensures processing <==> state in checkpoints && checkpoints[state].status == Processing
    {
      processing := state in checkpoints && checkpoints[state].status == Processing;
    }

    /** The general operation for human steps does not look at the status. */
    method CompleteCheckpoint(state: string) returns (ok: bool)
      modifies this
      ensures ok <==> state in old(checkpoints)
      ensures checkpoints == if ok then old(checkpoints)[state := old(checkpoints)[state].(status := Completed)]
                             else old(checkpoints)
    {
      ok := state in checkpoints;
      if ok {
        checkpoints := checkpoints[state := checkpoints[state].(status := Completed)];
      }
    }

    method FailCheckpoint(state: string) returns (ok: bool)
      modifies this
      ensures ok <==> state in old(checkpoints)
      ensures checkpoints == if ok then old(checkpoints)[state := old(checkpoints)[state].(status := Failed)]
                             else old(checkpoints)
    {
      ok := state in checkpoints;
      if ok {
        checkpoints := checkpoints[state := checkpoints[state].(status := Failed)];
      }
    }
  }

  // ------------------------------------------------------------------
  // Concurrent callbacks
  // ------------------------------------------------------------------

  type Id = nat

  datatype Verdict = Connected | ErrorPage | BadRequest | NotFound | Unavailable

  datatype Pc =
    | Denied
    | Reading
    | Claiming
    | Won
    | Exchanging
    | Completing
    | Failing(verdict: Verdict)
    | Replied(verdict: Verdict)

  datatype Exchange = Rejected | Unreachable | NoToken | Token

  /** What a callback may meet: an unresolved owner, an invalid state, missing configuration, the
      provider's answer, a missing workflow, a refusing or lost store. */
  datatype Input = Input(bound: bool, valid: bool, configured: bool,
                         exchange: Exchange, workflow: bool, refused: bool, lost: bool)

  /** `readers` are the general operations under way, with the consumed flag each of them has read. */
  datatype State = State(
    cp: Checkpoint,
    callbacks: map<Id, Pc>,
    wins: seq<Id>,
    exchanges: seq<Id>,
    connections: nat,
    readers: map<Id, bool>)

  datatype Event =
    | Arrive(id: Id, denied: bool)
    | Act(id: Id, input: Input)
    | Crash(id: Id)
    | ManagerCompletes
    | ManagerFails
    | HumanReads(id: Id)
    | HumanWrites(id: Id, completes: bool)

  const INITIAL := State(Checkpoint(AwaitingHuman, false), map[], [], [], 0, map[])

  /** One action of a callback. The completion is one database transaction, and idempotent. */
  function CallbackStep(s: State, id: Id, pc: Pc, i: Input): State {
    match pc
    case Denied =>
      s.(callbacks := s.callbacks[id := if i.valid then Failing(ErrorPage) else Replied(BadRequest)])
    case Reading =>
      var pc' :=
        if Answer(s.cp.status) == None then Claiming
        else if !i.bound then Replied(BadRequest)
        else match Answer(s.cp.status).value
             case AlreadyCompleted => Replied(Connected)
             case Unknown => Replied(NotFound)
             case _ => Replied(ErrorPage);
      s.(callbacks := s.callbacks[id := pc'])
    case Claiming =>
      var (cp', won) := Claim(s.cp);
      s.(cp := cp', wins := if won then s.wins + [id] else s.wins,
         // A lost race, and a lost reply, find no checkpoint to resolve an owner from.
         callbacks := s.callbacks[id := if won && !i.lost then Won else Replied(BadRequest)])
    case Won =>
      s.(callbacks := s.callbacks[id := if !i.bound then Replied(BadRequest)
                                        else if !i.valid then Failing(BadRequest)
                                        else if !i.configured then Failing(Unavailable)
                                        else Exchanging])
    case Exchanging =>
      s.(exchanges := s.exchanges + [id],
         callbacks := s.callbacks[id := if i.exchange == Unreachable then Replied(ErrorPage)
                                        else if i.exchange != Token || !i.workflow then Failing(ErrorPage)
                                        else Completing])
    case Completing =>
      if i.refused then s.(callbacks := s.callbacks[id := Replied(ErrorPage)])
      else
        var (cp', ok) := Complete(s.cp);
        s.(cp := cp', connections := if ok then s.connections + 1 else s.connections,
           callbacks := s.callbacks[
             id := if (ok || s.cp.status == Completed) && !i.lost then Replied(Connected) else Replied(ErrorPage)])
    case Failing(verdict) =>
      s.(cp := Fail(s.cp).0, callbacks := s.callbacks[id := Replied(verdict)])
    case Replied(_) => s
  }

  function Apply(s: State, e: Event): State {
    match e
    case Arrive(id, denied) =>
      if id in s.callbacks then s else s.(callbacks := s.callbacks[id := if denied then Denied else Reading])
    case Act(id, input) => if id !in s.callbacks then s else CallbackStep(s, id, s.callbacks[id], input)
    case Crash(id) =>
      if id !in s.callbacks || s.callbacks[id].Replied? then s
      else s.(callbacks := s.callbacks[id := Replied(ErrorPage)])
    case ManagerCompletes => s.(cp := Complete(s.cp).0)
    case ManagerFails => s.(cp := Fail(s.cp).0)
    case HumanReads(id) => s.(readers := s.readers[id := s.cp.consumed])
    case HumanWrites(id, completes) =>
      if id !in s.readers then s
      else s.(cp := Checkpoint(Ended(completes), s.readers[id]), readers := s.readers - {id})
  }

  /** The status a general operation writes. */
  function Ended(completes: bool): Status {
    if completes then Completed else Failed
  }

  function After(events: seq<Event>): State {
    if events == [] then INITIAL else Apply(After(events[..|events| - 1]), events[|events| - 1])
  }

  /** The state a run leads to from `s`. */
  function From(s: State, events: seq<Event>): State {
    if events == [] then s else Apply(From(s, events[..|events| - 1]), events[|events| - 1])
  }

  lemma {:induction false} Continued(events: seq<Event>, more: seq<Event>)
    ensures After(events + more) == From(After(events), more)
  {
    if more == [] {
      assert events + more == events;
    } else {
      var n := |more| - 1;
      Continued(events, more[..n]);
      assert (events + more)[..|events + more| - 1] == events + more[..n];
    }
  }

  lemma FromOne(s: State, e: Event)
    ensures From(s, [e]) == Apply(s, e)
  {
    assert [e][..0] == [];
  }

  // ------------------------------------------------------------------
  // One winner
  // ------------------------------------------------------------------

  /** A callback that has won, up to its exchange. */
  predicate BeforeExchange(pc: Pc) {
    pc.Won? || pc.Exchanging?
  }

  predicate OneWinner(s: State) {
    |s.wins| <= 1
    && (s.cp.status == AwaitingHuman ==> s.wins == [])
    && (s.exchanges == [] || (|s.wins| == 1 && s.exchanges == s.wins))
    && (s.cp.status in {AwaitingHuman, Processing} ==> s.connections == 0)
    && s.connections <= |s.exchanges|
    && (forall id :: id in s.callbacks && BeforeExchange(s.callbacks[id]) ==> s.wins == [id] && s.exchanges == [])
    && (forall id :: id in s.callbacks && s.callbacks[id].Completing? ==> s.exchanges == [id])
  }

  /** The common shape of a callback's action: nothing is won, exchanged or stored. */
  lemma QuietActionKeepsOneWinner(s: State, id: Id, pc: Pc, cp: Checkpoint)
    requires OneWinner(s) && id in s.callbacks && !pc.Completing?
    requires (BeforeExchange(pc) ==> BeforeExchange(s.callbacks[id]))
    requires cp.status == s.cp.status || cp.status !in {AwaitingHuman, Processing}
    ensures OneWinner(s.(cp := cp, callbacks := s.callbacks[id := pc]))
  {
  }

  lemma ClaimKeepsOneWinner(s: State, id: Id, i: Input)
    requires OneWinner(s) && id in s.callbacks && s.callbacks[id].Claiming?
    ensures OneWinner(CallbackStep(s, id, s.callbacks[id], i))
  {
    if s.cp.status == AwaitingHuman {
      assert s.wins + [id] == [id];
    } else {
      QuietActionKeepsOneWinner(s, id, Replied(BadRequest), s.cp);
    }
  }

  lemma ExchangeKeepsOneWinner(s: State, id: Id, i: Input)
    requires OneWinner(s) && id in s.callbacks && s.callbacks[id].Exchanging?
    ensures OneWinner(CallbackStep(s, id, s.callbacks[id], i))
  {
    assert s.exchanges + [id] == [id];
  }

  lemma CompletionKeepsOneWinner(s: State, id: Id, i: Input)
    requires OneWinner(s) && id in s.callbacks && s.callbacks[id].Completing?
    ensures OneWinner(CallbackStep(s, id, s.callbacks[id], i))
  {
  }

  lemma CallbackKeepsOneWinner(s: State, id: Id, i: Input)
    requires OneWinner(s) && id in s.callbacks
    ensures OneWinner(CallbackStep(s, id, s.callbacks[id], i))
  {
    var s' := CallbackStep(s, id, s.callbacks[id], i);
    match s.callbacks[id]
    case Claiming => ClaimKeepsOneWinner(s, id, i);
    case Exchanging => ExchangeKeepsOneWinner(s, id, i);
    case Completing => CompletionKeepsOneWinner(s, id, i);
    case _ => QuietActionKeepsOneWinner(s, id, s'.callbacks[id], s'.cp);
  }

  lemma EventKeepsOneWinner(s: State, e: Event)
    requires OneWinner(s)
    ensures OneWinner(Apply(s, e))
  {
    match e
    case Act(id, input) =>
      if id in s.callbacks {
        CallbackKeepsOneWinner(s, id, input);
      }
    case Crash(id) =>
      if id in s.callbacks {
        QuietActionKeepsOneWinner(s, id, Replied(ErrorPage), s.cp);
      }
    case _ =>
  }

  lemma {:induction false} RunKeepsOneWinner(events: seq<Event>)
    ensures OneWinner(After(events))
  {
    if events == [] {
    } else {
      var n := |events| - 1;
      RunKeepsOneWinner(events[..n]);
      EventKeepsOneWinner(After(events[..n]), events[n]);
    }
  }

  /** Across concurrent and repeated callbacks, crashes, lost replies and whatever else completes or
      fails the checkpoint, at most one callback ever claims it, at most one token exchange is made,
      by that callback, and at most one connection is stored. */
  lemma AtMostOneExchange(events: seq<Event>)
    ensures |After(events).wins| <= 1 && |After(events).exchanges| <= 1 && After(events).connections <= 1
    ensures After(events).exchanges == [] || After(events).exchanges == After(events).wins
  {
    RunKeepsOneWinner(events);
  }

  lemma EventNeverReopens(s: State, e: Event)
    ensures Apply(s, e).cp.status == AwaitingHuman ==> s.cp.status == AwaitingHuman
    ensures s.wins <= Apply(s, e).wins && s.exchanges <= Apply(s, e).exchanges
  {
  }

  /** Once claimed, a checkpoint is never open again, so a new authorization needs a new checkpoint. */
  lemma {:induction false} NeverReopened(events: seq<Event>, more: seq<Event>)
    requires After(events).cp.status != AwaitingHuman
    ensures After(events + more).cp.status != AwaitingHuman
    ensures After(events).wins <= After(events + more).wins
  {
    if more == [] {
      assert events + more == events;
    } else {
      var n := |more| - 1;
      NeverReopened(events, more[..n]);
      assert (events + more)[..|events + more| - 1] == events + more[..n];
      EventNeverReopens(After(events + more[..n]), more[n]);
    }
  }

  // ------------------------------------------------------------------
  // Consumed means completed
  // ------------------------------------------------------------------

  /** Only the OAuth operations act on the checkpoint. */
  predicate OAuthOnly(events: seq<Event>) {
    forall k :: 0 <= k < |events| ==> !events[k].HumanWrites?
  }

  predicate ConsumedIsCompleted(s: State) {
    (s.cp.consumed <==> s.cp.status == Completed)
    && (forall id :: id in s.callbacks && s.callbacks[id] == Replied(Connected) ==> s.cp.status == Completed)
    && (forall id :: id in s.callbacks ==> s.callbacks[id] != Failing(Connected))
  }

  lemma EventKeepsConsumption(s: State, e: Event)
    requires ConsumedIsCompleted(s) && !e.HumanWrites?
    ensures ConsumedIsCompleted(Apply(s, e))
  {
  }

  /** Under the OAuth operations a consumed state is exactly a completed one, and every callback that
      answered "connected" answered the truth. */
  lemma {:induction false} ConsumedExactlyWhenCompleted(events: seq<Event>)
    requires OAuthOnly(events)
    ensures ConsumedIsCompleted(After(events))
  {
    if events == [] {
    } else {
      var n := |events| - 1;
      ConsumedExactlyWhenCompleted(events[..n]);
      EventKeepsConsumption(After(events[..n]), events[n]);
    }
  }

  predicate InStep(cp: Checkpoint) {
    cp.consumed <==> cp.status == Completed
  }

  /** Until it is completed or failed a checkpoint is not consumed. So the OAuth operations, which write
      only onto a row that is still open, restore no flag that has gone stale since they read it. */
  lemma {:induction false} OpenIsUnconsumed(events: seq<Event>)
    ensures After(events).cp.status in {AwaitingHuman, Processing} ==> !After(events).cp.consumed
  {
    if events == [] {
    } else {
      OpenIsUnconsumed(events[..|events| - 1]);
      EventKeepsOpen(After(events[..|events| - 1]), events[|events| - 1]);
    }
  }

  lemma EventKeepsOpen(s: State, e: Event)
    requires s.cp.status in {AwaitingHuman, Processing} ==> !s.cp.consumed
    ensures Apply(s, e).cp.status in {AwaitingHuman, Processing} ==> !Apply(s, e).cp.consumed
  {
  }

  /** The operation that has read goes on waiting. */
  predicate LeavesReader(events: seq<Event>, id: Id) {
    forall k :: 0 <= k < |events| ==> events[k] != HumanReads(id) && !(events[k].HumanWrites? && events[k].id == id)
  }

  lemma {:induction false} ReaderStays(s: State, events: seq<Event>, id: Id)
    requires id in s.readers && LeavesReader(events, id)
    ensures id in From(s, events).readers && From(s, events).readers[id] == s.readers[id]
  {
    if events != [] {
      ReaderStays(s, events[..|events| - 1], id);
    }
  }

  /** What was completed or failed the OAuth operations leave alone. */
  lemma {:induction false} EndedStays(s: State, events: seq<Event>)
    requires s.cp.status in {Completed, Failed} && OAuthOnly(events)
    ensures From(s, events).cp == s.cp
  {
    if events != [] {
      EndedStays(s, events[..|events| - 1]);
    }
  }

  /** A general operation reads, anything happens, it writes, and only the OAuth operations follow. */
  function GeneralRun(before: seq<Event>, id: Id, between: seq<Event>, completes: bool, later: seq<Event>): seq<Event> {
    before + [HumanReads(id)] + between + [HumanWrites(id, completes)] + later
  }

  /** Exactly when: in every run, the last general operation decides the checkpoint, with the consumed
      flag it had read, and nothing afterwards repairs it. It leaves the two in step if and only if it
      completes what it had read consumed, or fails what it had read unconsumed; the first such
      operation therefore if and only if it completes what it had read completed. */
  lemma GeneralOperationsKeepConsumptionExactlyWhen(before: seq<Event>, id: Id, between: seq<Event>, completes: bool,
                                                    later: seq<Event>)
    requires LeavesReader(between, id) && OAuthOnly(later)
    ensures var cp := After(GeneralRun(before, id, between, completes, later)).cp;
            && cp == Checkpoint(Ended(completes), After(before).cp.consumed)
            && (InStep(cp) <==> (completes <==> After(before).cp.consumed))
            && (OAuthOnly(before) ==> (InStep(cp) <==> (completes <==> After(before).cp.status == Completed)))
  {
    GeneralRunEnds(before, id, between, completes, later);
    if OAuthOnly(before) {
      ConsumedExactlyWhenCompleted(before);
    }
  }

  lemma GeneralRunEnds(before: seq<Event>, id: Id, between: seq<Event>, completes: bool, later: seq<Event>)
    requires LeavesReader(between, id) && OAuthOnly(later)
    ensures After(GeneralRun(before, id, between, completes, later)).cp
         == Checkpoint(Ended(completes), After(before).cp.consumed)
  {
    var s0 := After(before);
    Continued(before, [HumanReads(id)]);
    FromOne(s0, HumanReads(id));
    var s1 := Apply(s0, HumanReads(id));
    Continued(before + [HumanReads(id)], between);
    ReaderStays(s1, between, id);
    var s2 := From(s1, between);
    Continued(before + [HumanReads(id)] + between, [HumanWrites(id, completes)]);
    FromOne(s2, HumanWrites(id, completes));
    Continued(before + [HumanReads(id)] + between + [HumanWrites(id, completes)], later);
    EndedStays(Apply(s2, HumanWrites(id, completes)), later);
  }

  const SMOOTH := Input(true, true, true, Token, true, false, false)

  /** A callback on its way to the completion, read by a general operation just before it. */
  const COMPLETING: seq<Event> :=
    [Arrive(0, false), Act(0, SMOOTH), Act(0, SMOOTH), Act(0, SMOOTH), Act(0, SMOOTH)]

  lemma ComesToCompletion()
    ensures var s := After(COMPLETING);
            s.cp == Checkpoint(Processing, false) && s.callbacks == map[0 := Completing] && s.connections == 0
  {
    assert COMPLETING[..0] == [] && COMPLETING[..1] == COMPLETING[..0] + [Arrive(0, false)];
    assert COMPLETING[..2] == COMPLETING[..1] + [Act(0, SMOOTH)]
           && COMPLETING[..3] == COMPLETING[..2] + [Act(0, SMOOTH)];
    assert COMPLETING[..4] == COMPLETING[..3] + [Act(0, SMOOTH)] && COMPLETING == COMPLETING[..4] + [Act(0, SMOOTH)];
    AfterOne([], Arrive(0, false));
    AfterOne(COMPLETING[..1], Act(0, SMOOTH));
    AfterOne(COMPLETING[..2], Act(0, SMOOTH));
    AfterOne(COMPLETING[..3], Act(0, SMOOTH));
    AfterOne(COMPLETING[..4], Act(0, SMOOTH));
  }

  lemma AfterOne(events: seq<Event>, e: Event)
    ensures After(events + [e]) == Apply(After(events), e)
  {
    assert (events + [e])[..|events|] == events;
  }

  /** A general completion that has read before the callback completed erases the consumed flag: the
      checkpoint is completed, its connection stored, its state not consumed. */
  lemma ConsumedFlagIsErased()
    ensures exists events :: After(events).cp == Checkpoint(Completed, false) && After(events).connections == 1
  {
    ComesToCompletion();
    var run := GeneralRun(COMPLETING, 1, [Act(0, SMOOTH)], true, []);
    GeneralOperationsKeepConsumptionExactlyWhen(COMPLETING, 1, [Act(0, SMOOTH)], true, []);
    assert run == COMPLETING + [HumanReads(1)] + [Act(0, SMOOTH)] + [HumanWrites(1, true)];
    AfterOne(COMPLETING, HumanReads(1));
    AfterOne(COMPLETING + [HumanReads(1)], Act(0, SMOOTH));
    AfterOne(COMPLETING + [HumanReads(1)] + [Act(0, SMOOTH)], HumanWrites(1, true));
    assert After(run).connections == 1;
  }

  /** Nothing but the callback's own transaction completes the checkpoint. */
  predicate CallbacksOnly(events: seq<Event>) {
    OAuthOnly(events) && forall k :: 0 <= k < |events| ==> !events[k].ManagerCompletes?
  }

  predicate CompletedIsStored(s: State) {
    s.cp.status == Completed <==> s.connections == 1
  }

  lemma EventKeepsStored(s: State, e: Event)
    requires OneWinner(s) && CompletedIsStored(s) && !e.HumanWrites? && !e.ManagerCompletes?
    ensures CompletedIsStored(Apply(s, e))
  {
  }

  /** When only callbacks complete it, a completed checkpoint is exactly a stored connection. */
  lemma {:induction false} CompletedExactlyWhenStored(events: seq<Event>)
    requires CallbacksOnly(events)
    ensures After(events).cp.status == Completed <==> After(events).connections == 1
  {
    if events == [] {
    } else {
      var n := |events| - 1;
      CompletedExactlyWhenStored(events[..n]);
      RunKeepsOneWinner(events[..n]);
      EventKeepsStored(After(events[..n]), events[n]);
    }
  }

  // ------------------------------------------------------------------
  // What the status does not say
  // ------------------------------------------------------------------

  /** What users may do by trying again: callbacks with a code arrive, act and crash. */
  predicate Retries(events: seq<Event>) {
    forall k :: 0 <= k < |events| ==> events[k].Act? || events[k].Crash? || (events[k].Arrive? && !events[k].denied)
  }

  /** No callback is left that could complete or fail the checkpoint. */
  predicate NobodyActsOn(s: State) {
    forall id :: id in s.callbacks ==>
      s.callbacks[id].Reading? || s.callbacks[id].Claiming? || s.callbacks[id].Replied?
  }

  predicate Stranded(s: State) {
    s.cp.status == Processing && NobodyActsOn(s)
  }

  lemma EventKeepsStranded(s: State, e: Event)
    requires Stranded(s) && (e.Act? || e.Crash? || (e.Arrive? && !e.denied))
    ensures Stranded(Apply(s, e)) && Apply(s, e).cp == s.cp
    ensures Apply(s, e).exchanges == s.exchanges && Apply(s, e).wins == s.wins
  {
  }

  lemma {:induction false} StrandedStays(s: State, more: seq<Event>)
    requires Stranded(s) && Retries(more)
    ensures Stranded(From(s, more)) && From(s, more).cp == s.cp
    ensures From(s, more).exchanges == s.exchanges && From(s, more).wins == s.wins
  {
    if more != [] {
      var n := |more| - 1;
      StrandedStays(s, more[..n]);
      EventKeepsStranded(From(s, more[..n]), more[n]);
    }
  }

  /** In every run in which no denial is under way, a network failure of the exchange strands the
      checkpoint: however often the user tries again, it stays processing, nobody claims it and no
      token is exchanged. */
  lemma UnreachableProviderStrandsTheCheckpoint(events: seq<Event>, id: Id, i: Input, more: seq<Event>)
    requires After(events).cp.status == Processing
    requires id in After(events).callbacks && After(events).callbacks[id] == Exchanging && i.exchange == Unreachable
    requires forall k :: k in After(events).callbacks ==>
               !After(events).callbacks[k].Denied? && !After(events).callbacks[k].Failing?
    requires Retries(more)
    ensures After(events + [Act(id, i)] + more).cp == After(events).cp
    ensures After(events + [Act(id, i)] + more).wins == [id] && After(events + [Act(id, i)] + more).exchanges == [id]
    ensures Stranded(After(events + [Act(id, i)] + more))
  {
    RunKeepsOneWinner(events);
    var s := After(events);
    assert (events + [Act(id, i)])[..|events|] == events;
    var stranded := After(events + [Act(id, i)]);
    assert stranded == Apply(s, Act(id, i)) && s.exchanges + [id] == [id];
    assert forall k :: k in s.callbacks && k != id ==> !BeforeExchange(s.callbacks[k]) && !s.callbacks[k].Completing?;
    Continued(events + [Act(id, i)], more);
    StrandedStays(stranded, more);
  }

  /** Events in which callback `id` does nothing. */
  predicate Waits(events: seq<Event>, id: Id) {
    forall k :: 0 <= k < |events| ==>
      !(events[k].Act? && events[k].id == id) && !(events[k].Crash? && events[k].id == id)
  }

  lemma {:induction false} WaitingStays(s: State, events: seq<Event>, id: Id)
    requires id in s.callbacks && Waits(events, id)
    ensures id in From(s, events).callbacks && From(s, events).callbacks[id] == s.callbacks[id]
  {
    if events != [] {
      WaitingStays(s, events[..|events| - 1], id);
    }
  }

  /** The run of a denied callback with a valid state: it arrives, checks the state, and fails the
      checkpoint, with anything at all happening before, between and after the check. */
  function DeniedRun(before: seq<Event>, id: Id, i: Input, between: seq<Event>, later: seq<Event>): seq<Event> {
    before + [Arrive(id, true)] + between + [Act(id, i)] + later
  }

  lemma DeniedRunFails(before: seq<Event>, id: Id, i: Input, between: seq<Event>, later: seq<Event>)
    requires id !in After(before).callbacks && i.valid && Waits(between, id) && Waits(later, id)
    ensures id in After(DeniedRun(before, id, i, between, later)).callbacks
    ensures After(DeniedRun(before, id, i, between, later)).callbacks[id] == Failing(ErrorPage)
  {
    Continued(before, [Arrive(id, true)]);
    FromOne(After(before), Arrive(id, true));
    Continued(before + [Arrive(id, true)], between);
    WaitingStays(After(before + [Arrive(id, true)]), between, id);
    Continued(before + [Arrive(id, true)] + between, [Act(id, i)]);
    FromOne(After(before + [Arrive(id, true)] + between), Act(id, i));
    Continued(before + [Arrive(id, true)] + between + [Act(id, i)], later);
    WaitingStays(After(before + [Arrive(id, true)] + between + [Act(id, i)]), later, id);
  }

  /** In every run, whatever interleaves with it, a denied callback with a valid state fails the
      checkpoint exactly when some other callback is processing it by then; it answers the same error
      page either way. */
  lemma DenialFailsExactlyWhenProcessing(before: seq<Event>, id: Id, i: Input,
                                         between: seq<Event>, later: seq<Event>, j: Input)
    requires id !in After(before).callbacks && i.valid && Waits(between, id) && Waits(later, id)
    ensures var run := DeniedRun(before, id, i, between, later);
            && (After(run + [Act(id, j)]).cp != After(run).cp <==> After(run).cp.status == Processing)
            && (After(run).cp.status == Processing ==> After(run + [Act(id, j)]).cp == After(run).cp.(status := Failed))
            && id in After(run + [Act(id, j)]).callbacks
            && After(run + [Act(id, j)]).callbacks[id] == Replied(ErrorPage)
  {
    var run := DeniedRun(before, id, i, between, later);
    DeniedRunFails(before, id, i, between, later);
    Continued(run, [Act(id, j)]);
    FromOne(After(run), Act(id, j));
  }

  /** All that happens to the checkpoint is that users deny the authorization. */
  predicate OnlyDenials(events: seq<Event>) {
    forall k :: 0 <= k < |events| ==> events[k].Act? || events[k].Crash? || (events[k].Arrive? && events[k].denied)
  }

  predicate DenialsOnly(s: State) {
    s.cp == INITIAL.cp && s.wins == [] && s.exchanges == []
    && forall id :: id in s.callbacks ==>
         s.callbacks[id].Denied? || s.callbacks[id].Failing? || s.callbacks[id].Replied?
  }

  /** So a checkpoint that is only ever denied stays open: however many denials arrive, it still waits
      for the human. */
  lemma {:induction false} DenialsAloneLeaveItOpen(events: seq<Event>)
    requires OnlyDenials(events)
    ensures DenialsOnly(After(events))
  {
    if events != [] {
      var n := |events| - 1;
      DenialsAloneLeaveItOpen(events[..n]);
      DenialKeepsOpen(After(events[..n]), events[n]);
    }
  }

  lemma DenialKeepsOpen(s: State, e: Event)
    requires DenialsOnly(s) && (e.Act? || e.Crash? || (e.Arrive? && e.denied))
    ensures DenialsOnly(Apply(s, e))
  {
  }
}
