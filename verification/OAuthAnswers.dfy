/** What the OAuth callback answers and leaves behind, over every run: which checks an exchange and a
    connection have passed, what becomes of a winner whose checks fail, and what a lone callback does. */
module OAuthAnswers {
  import opened Wrappers
  import opened OAuthCheckpoint

  // ------------------------------------------------------------------
  // What has been checked before an exchange, and before a connection
  // ------------------------------------------------------------------

  /** The checks a callback passes on its way: those of the winner, the provider's answer, the store's. */
  datatype Check = Entitled | Obtained | Stored

  predicate Passes(check: Check, pc: Pc, i: Input) {
    match check
    case Entitled => pc == Won && i.bound && i.valid && i.configured
    case Obtained => pc == Exchanging && i.exchange == Token && i.workflow
    case Stored => pc == Completing && !i.refused
  }

  /** The k-th event is an action of this callback that passes the check. */
  predicate PassesAt(events: seq<Event>, k: nat, id: Id, check: Check) {
    k < |events| && events[k].Act? && events[k].id == id
    && id in After(events[..k]).callbacks && Passes(check, After(events[..k]).callbacks[id], events[k].input)
  }

  ghost predicate Passed(events: seq<Event>, id: Id, check: Check) {
    exists k: nat :: PassesAt(events, k, id, check)
  }

  lemma PassedStays(events: seq<Event>, e: Event, id: Id, check: Check)
    requires Passed(events, id, check)
    ensures Passed(events + [e], id, check)
  {
    var k: nat :| PassesAt(events, k, id, check);
    assert (events + [e])[..k] == events[..k];
    assert PassesAt(events + [e], k, id, check);
  }

  lemma PassesNow(events: seq<Event>, id: Id, i: Input, check: Check)
    requires id in After(events).callbacks && Passes(check, After(events).callbacks[id], i)
    ensures Passed(events + [Act(id, i)], id, check)
  {
    var run := events + [Act(id, i)];
    assert run[..|events|] == events;
    assert PassesAt(run, |events|, id, check);
  }

  /** This callback is about to exchange, or has exchanged. */
  predicate Exchanges(s: State, id: Id) {
    id in s.exchanges || (id in s.callbacks && s.callbacks[id] == Exchanging)
  }

  predicate IsCompleting(s: State, id: Id) {
    id in s.callbacks && s.callbacks[id] == Completing
  }

  lemma ExchangeBegins(s: State, e: Event, id: Id)
    requires !Exchanges(s, id) && Exchanges(Apply(s, e), id)
    ensures e.Act? && e.id == id && id in s.callbacks && Passes(Entitled, s.callbacks[id], e.input)
  {
  }

  lemma CompletionBegins(s: State, e: Event, id: Id)
    requires !IsCompleting(s, id) && IsCompleting(Apply(s, e), id)
    ensures e.Act? && e.id == id && id in s.callbacks && Passes(Obtained, s.callbacks[id], e.input)
    ensures id in Apply(s, e).exchanges
  {
  }

  /** Over every run: each exchange was preceded by an action of the same callback, taken when it had
      won, that found its owner resolved, its state valid and the connector configured. */
  lemma {:induction false} ExchangesWereEntitled(events: seq<Event>, id: Id)
    requires Exchanges(After(events), id)
    ensures exists k: nat :: k < |events| && events[k].Act? && events[k].id == id
                             && id in After(events[..k]).callbacks && After(events[..k]).callbacks[id] == Won
                             && events[k].input.bound && events[k].input.valid && events[k].input.configured
    ensures Passed(events, id, Entitled)
  {
    var n := |events| - 1;
    var before, e := events[..n], events[n];
    AfterOne(before, e);
    assert before + [e] == events;
    if Exchanges(After(before), id) {
      ExchangesWereEntitled(before, id);
      PassedStays(before, e, id, Entitled);
    } else {
      ExchangeBegins(After(before), e, id);
      PassesNow(before, id, e.input, Entitled);
    }
    var k: nat :| PassesAt(events, k, id, Entitled);
  }

  lemma {:induction false} CompletionsWereObtained(events: seq<Event>, id: Id)
    requires IsCompleting(After(events), id)
    ensures Passed(events, id, Obtained) && id in After(events).exchanges
  {
    var n := |events| - 1;
    var before, e := events[..n], events[n];
    AfterOne(before, e);
    assert before + [e] == events;
    if IsCompleting(After(before), id) {
      CompletionsWereObtained(before, id);
      PassedStays(before, e, id, Obtained);
    } else {
      CompletionBegins(After(before), e, id);
      PassesNow(before, id, e.input, Obtained);
    }
    EventNeverReopens(After(before), e);
  }

  /** The callback whose exchange brought the connection. */
  ghost predicate Connects(events: seq<Event>, id: Id) {
    id in After(events).exchanges && Passed(events, id, Obtained) && Passed(events, id, Stored)
  }

  lemma ConnectsStays(events: seq<Event>, e: Event, id: Id)
    requires Connects(events, id)
    ensures Connects(events + [e], id)
  {
    PassedStays(events, e, id, Obtained);
    PassedStays(events, e, id, Stored);
    AfterOne(events, e);
    EventNeverReopens(After(events), e);
  }

  lemma CompletingConnects(events: seq<Event>, id: Id, i: Input)
    requires IsCompleting(After(events), id) && !i.refused
    ensures Connects(events + [Act(id, i)], id)
  {
    CompletionsWereObtained(events, id);
    PassedStays(events, Act(id, i), id, Obtained);
    PassesNow(events, id, i, Stored);
    AfterOne(events, Act(id, i));
  }

  /** Over every run: a stored connection was preceded by the one exchange, which was answered with a token
      for a workflow, and by a completion of that callback which the store took. */
  lemma {:induction false} ConnectionsWereObtained(events: seq<Event>)
    requires After(events).connections > 0
    ensures exists id: Id :: After(events).exchanges == [id] && Passed(events, id, Entitled) && Connects(events, id)
  {
    var id := Connector(events);
    RunKeepsOneWinner(events);
    assert After(events).exchanges == [id];
    ExchangesWereEntitled(events, id);
  }

  lemma {:induction false} Connector(events: seq<Event>) returns (id: Id)
    requires After(events).connections > 0
    ensures Connects(events, id)
  {
    var n := |events| - 1;
    var before, e := events[..n], events[n];
    AfterOne(before, e);
    assert before + [e] == events;
    if After(before).connections > 0 {
      id := Connector(before);
      ConnectsStays(before, e, id);
    } else {
      assert e.Act?;
      id := e.id;
      CompletingConnects(before, id, e.input);
    }
  }

  // ------------------------------------------------------------------
  // A winner whose checks fail
  // ------------------------------------------------------------------

  /** A callback that has won and will not exchange: nobody ever does. */
  predicate Barred(s: State, id: Id) {
    s.wins == [id] && s.exchanges == [] && s.connections == 0
    && id in s.callbacks && (s.callbacks[id].Failing? || s.callbacks[id].Replied?)
  }

  lemma {:induction false} BarredStays(s: State, more: seq<Event>, id: Id)
    requires OneWinner(s) && Barred(s, id)
    ensures OneWinner(From(s, more)) && Barred(From(s, more), id)
  {
    if more != [] {
      var n := |more| - 1;
      BarredStays(s, more[..n], id);
      EventKeepsOneWinner(From(s, more[..n]), more[n]);
      EventKeepsBarred(From(s, more[..n]), more[n], id);
    }
  }

  /** Nobody else can exchange, and the barred callback does not come back. */
  lemma ActionKeepsBarred(s: State, k: Id, i: Input, id: Id)
    requires Barred(s, id) && k in s.callbacks && !BeforeExchange(s.callbacks[k]) && !s.callbacks[k].Completing?
    requires s.cp.status != AwaitingHuman
    ensures Barred(CallbackStep(s, k, s.callbacks[k], i), id)
  {
  }

  lemma EventKeepsBarred(s: State, e: Event, id: Id)
    requires OneWinner(s) && Barred(s, id)
    ensures Barred(Apply(s, e), id)
  {
    if e.Act? && e.id in s.callbacks {
      assert !BeforeExchange(s.callbacks[e.id]) && !s.callbacks[e.id].Completing?;
      ActionKeepsBarred(s, e.id, e.input, id);
    }
  }

  /** Over every run: when the winner's owner is unresolved, its state invalid or the connector not
      configured, no token is ever exchanged for the checkpoint, and no connection ever stored. */
  lemma FailedCheckBarsTheExchange(events: seq<Event>, id: Id, i: Input, more: seq<Event>)
    requires id in After(events).callbacks && After(events).callbacks[id] == Won
    requires !(i.bound && i.valid && i.configured)
    ensures var s := After(events + [Act(id, i)] + more);
            s.exchanges == [] && s.connections == 0 && s.wins == [id]
  {
    RunKeepsOneWinner(events);
    AfterOne(events, Act(id, i));
    Continued(events + [Act(id, i)], more);
    RunKeepsOneWinner(events + [Act(id, i)]);
    BarredStays(After(events + [Act(id, i)]), more, id);
  }

  /** What the winner then does, whatever others do in the meantime: a state that is invalid, and then a
      connector that is not configured, fail the checkpoint if it is still processing; an unresolved
      owner leaves it processing. */
  lemma FailedCheckAnswers(events: seq<Event>, id: Id, i: Input, between: seq<Event>, j: Input)
    requires id in After(events).callbacks && After(events).callbacks[id] == Won && Waits(between, id)
    requires !(i.bound && i.valid && i.configured)
    ensures var before := After(events + [Act(id, i)] + between);
            var s := After(events + [Act(id, i)] + between + [Act(id, j)]);
            id in s.callbacks
            && s.callbacks[id] == Replied(if i.bound && i.valid then Unavailable else BadRequest)
            && s.cp == if i.bound && before.cp.status == Processing then before.cp.(status := Failed) else before.cp
  {
    AfterOne(events, Act(id, i));
    Continued(events + [Act(id, i)], between);
    WaitingStays(After(events + [Act(id, i)]), between, id);
    AfterOne(events + [Act(id, i)] + between, Act(id, j));
  }

  // ------------------------------------------------------------------
  // The answers of the other stages
  // ------------------------------------------------------------------

  /** A callback that finds the checkpoint claimed answers from its status alone, and changes nothing. */
  lemma LateCallbackAnswers(events: seq<Event>, id: Id, i: Input)
    requires id in After(events).callbacks && After(events).callbacks[id] == Reading
    ensures var s, s' := After(events), After(events + [Act(id, i)]);
            s' == s.(callbacks := s.callbacks[id := s'.callbacks[id]])
            && s'.callbacks[id]
               == if s.cp.status == AwaitingHuman then Claiming
                  else if !i.bound then Replied(BadRequest)
                  else Replied(if s.cp.status == Completed then Connected
                               else if s.cp.status == Elsewhere then NotFound else ErrorPage)
  {
    AfterOne(events, Act(id, i));
  }

  /** Of the callbacks that read the open checkpoint, the first to claim it wins; every other one is turned
      away, and changes nothing. */
  lemma ClaimAnswers(events: seq<Event>, id: Id, i: Input)
    requires id in After(events).callbacks && After(events).callbacks[id] == Claiming
    ensures var s, s' := After(events), After(events + [Act(id, i)]);
            s'.callbacks == s.callbacks[id := s'.callbacks[id]]
            && if s.cp.status == AwaitingHuman
               then s'.cp.status == Processing && s'.wins == [id]
                    && s'.callbacks[id] == if i.lost then Replied(BadRequest) else Won
               else s' == s.(callbacks := s.callbacks[id := Replied(BadRequest)])
  {
    RunKeepsOneWinner(events);
    AfterOne(events, Act(id, i));
  }

  /** The exchange is made once, whatever the provider answers; only a token for a workflow goes on. */
  lemma ExchangeAnswers(events: seq<Event>, id: Id, i: Input)
    requires id in After(events).callbacks && After(events).callbacks[id] == Exchanging
    ensures var s, s' := After(events), After(events + [Act(id, i)]);
            s'.exchanges == [id] && s'.cp == s.cp && s'.connections == s.connections
            && (s'.callbacks[id] == Completing <==> i.exchange == Token && i.workflow)
            && (s'.callbacks[id] == Replied(ErrorPage) <==> i.exchange == Unreachable)
            && (s'.callbacks[id] == Failing(ErrorPage)
                <==> i.exchange in {Rejected, NoToken} || (i.exchange == Token && !i.workflow))
  {
    RunKeepsOneWinner(events);
    AfterOne(events, Act(id, i));
    assert After(events).exchanges + [id] == [id];
  }

  /** The completion stores the connection exactly when the checkpoint is still processing and the store
      takes it. Completed by others meanwhile, it is reported connected; failed meanwhile, it is not. */
  lemma CompletionAnswers(events: seq<Event>, id: Id, i: Input)
    requires id in After(events).callbacks && After(events).callbacks[id] == Completing
    ensures var s, s' := After(events), After(events + [Act(id, i)]);
            (s'.connections == s.connections + 1 <==> s.cp.status == Processing && !i.refused)
            && (s'.cp == if s.cp.status == Processing && !i.refused then Checkpoint(Completed, true) else s.cp)
            && (s'.connections != s.connections + 1 ==> s'.connections == s.connections)
            && (s'.callbacks[id] == Replied(Connected)
                <==> s.cp.status in {Processing, Completed} && !i.refused && !i.lost)
            && (s'.callbacks[id] != Replied(Connected) ==> s'.callbacks[id] == Replied(ErrorPage))
  {
    AfterOne(events, Act(id, i));
  }

  /** A denial whose state is invalid is turned away, and changes nothing. */
  lemma InvalidDenialChangesNothing(events: seq<Event>, id: Id, i: Input)
    requires id in After(events).callbacks && After(events).callbacks[id] == Denied && !i.valid
    ensures After(events + [Act(id, i)])
         == After(events).(callbacks := After(events).callbacks[id := Replied(BadRequest)])
  {
    AfterOne(events, Act(id, i));
  }

  /** A callback that has answered never acts again; one that crashed has answered with the error page. */
  lemma {:induction false} AnsweredStays(s: State, more: seq<Event>, id: Id)
    requires id in s.callbacks && s.callbacks[id].Replied?
    ensures id in From(s, more).callbacks && From(s, more).callbacks[id] == s.callbacks[id]
  {
    if more != [] {
      AnsweredStays(s, more[..|more| - 1], id);
      EventKeepsAnswer(From(s, more[..|more| - 1]), more[|more| - 1], id);
    }
  }

  lemma EventKeepsAnswer(s: State, e: Event, id: Id)
    requires id in s.callbacks && s.callbacks[id].Replied?
    ensures id in Apply(s, e).callbacks && Apply(s, e).callbacks[id] == s.callbacks[id]
  {
  }

  /** A crash changes nothing but the callback, which never acts again. */
  lemma CrashAnswers(events: seq<Event>, id: Id, more: seq<Event>)
    requires id in After(events).callbacks && !After(events).callbacks[id].Replied?
    ensures After(events + [Crash(id)])
         == After(events).(callbacks := After(events).callbacks[id := Replied(ErrorPage)])
    ensures id in After(events + [Crash(id)] + more).callbacks
            && After(events + [Crash(id)] + more).callbacks[id] == Replied(ErrorPage)
  {
    AfterOne(events, Crash(id));
    Continued(events + [Crash(id)], more);
    AnsweredStays(After(events + [Crash(id)]), more, id);
  }

  /** The manager's own completion and failure write only onto a processing checkpoint. */
  lemma ManagerAnswers(s: State)
    ensures Apply(s, ManagerCompletes)
         == s.(cp := if s.cp.status == Processing then Checkpoint(Completed, true) else s.cp)
    ensures Apply(s, ManagerFails) == s.(cp := if s.cp.status == Processing then s.cp.(status := Failed) else s.cp)
  {
  }

  /** A general operation writes whatever the status, with the flag it has read, and once for each read. */
  lemma GeneralAnswers(s: State, id: Id, completes: bool)
    ensures Apply(s, HumanReads(id)) == s.(readers := s.readers[id := s.cp.consumed])
    ensures id !in s.readers ==> Apply(s, HumanWrites(id, completes)) == s
    ensures id in s.readers ==>
              Apply(s, HumanWrites(id, completes)).cp == Checkpoint(if completes then Completed else Failed, s.readers[id])
    ensures id !in Apply(s, HumanWrites(id, completes)).readers
  {
  }

  // ------------------------------------------------------------------
  // A lone callback, from its arrival to its answer
  // ------------------------------------------------------------------

  /** The five actions of a callback on a fresh checkpoint; what it meets at its claim and afterwards. */
  function LoneRun(id: Id, claim: Input, i: Input): seq<Event> {
    [Arrive(id, false)] + [Act(id, claim)] + [Act(id, claim)] + [Act(id, i)] + [Act(id, i)] + [Act(id, i)]
  }

  /** Its answer, the checkpoint it leaves, and how many exchanges and connections it made. */
  datatype Ends = Ends(verdict: Verdict, status: Status, consumed: bool, exchanges: nat, connections: nat)

  predicate EndsSo(s: State, id: Id, e: Ends) {
    id in s.callbacks && s.callbacks[id] == Replied(e.verdict) && s.cp == Checkpoint(e.status, e.consumed)
    && |s.exchanges| == e.exchanges && s.connections == e.connections
  }

  lemma LoneSteps(id: Id, claim: Input, i: Input)
    ensures var s0 := Apply(INITIAL, Arrive(id, false));
            var s2 := Apply(Apply(s0, Act(id, claim)), Act(id, claim));
            After(LoneRun(id, claim, i)) == Apply(Apply(Apply(s2, Act(id, i)), Act(id, i)), Act(id, i))
  {
    var run := [Arrive(id, false)];
    assert [] + run == run;
    AfterOne([], Arrive(id, false));
    AfterOne(run, Act(id, claim));
    AfterOne(run + [Act(id, claim)], Act(id, claim));
    AfterOne(run + [Act(id, claim)] + [Act(id, claim)], Act(id, i));
    AfterOne(run + [Act(id, claim)] + [Act(id, claim)] + [Act(id, i)], Act(id, i));
    AfterOne(run + [Act(id, claim)] + [Act(id, claim)] + [Act(id, i)] + [Act(id, i)], Act(id, i));
  }

  /** A callback whose claim's reply is lost leaves the checkpoint processing, for nobody. */
  lemma LoneLostClaim(id: Id, claim: Input, i: Input)
    requires claim.lost
    ensures EndsSo(After(LoneRun(id, claim, i)), id, Ends(BadRequest, Processing, false, 0, 0))
  {
    LoneSteps(id, claim, i);
  }

  /** The checks come in this order: the owner, the state, the configuration. */
  lemma LoneFailedCheck(id: Id, claim: Input, i: Input)
    requires !claim.lost && !(i.bound && i.valid && i.configured)
    ensures EndsSo(After(LoneRun(id, claim, i)), id,
                   if !i.bound then Ends(BadRequest, Processing, false, 0, 0)
                   else if !i.valid then Ends(BadRequest, Failed, false, 0, 0)
                   else Ends(Unavailable, Failed, false, 0, 0))
  {
    LoneSteps(id, claim, i);
  }

  /** An exchange that brings no token for a workflow fails the checkpoint, unless the provider was not
      reached: then it stays processing. */
  lemma LoneFailedExchange(id: Id, claim: Input, i: Input)
    requires !claim.lost && i.bound && i.valid && i.configured && !(i.exchange == Token && i.workflow)
    ensures EndsSo(After(LoneRun(id, claim, i)), id,
                   Ends(ErrorPage, if i.exchange == Unreachable then Processing else Failed, false, 1, 0))
  {
    LoneSteps(id, claim, i);
  }

  /** All went well up to the completion: refused, it leaves the checkpoint processing; taken, it stores
      the connection, and the user is told so unless the reply is lost. */
  lemma LoneCompletion(id: Id, claim: Input, i: Input)
    requires !claim.lost && i.bound && i.valid && i.configured && i.exchange == Token && i.workflow
    ensures EndsSo(After(LoneRun(id, claim, i)), id,
                   if i.refused then Ends(ErrorPage, Processing, false, 1, 0)
                   else Ends(if i.lost then ErrorPage else Connected, Completed, true, 1, 1))
  {
    LoneSteps(id, claim, i);
  }
}
