/** The promises of the approval-gated publish, over all runs: any number of workers, any
    interleaving, crashes anywhere, replies lost, and a provider that may act unheard. */
module PublishTheorems {
  import opened Wrappers
  import opened ApprovalGateway
  import opened PublishLedger
  import opened PublishWorker
  import opened PublishProtocol
  import opened PublishSafety

  // ------------------------------------------------------------------
  // At most one Pin
  // ------------------------------------------------------------------

  /** The provider makes at most one Pin per approval: two requests for one approval that both
      made a pin are the same request, at any point of any run. */
  lemma AtMostOnePinPerApproval(run: seq<State>, i: nat, a: nat, b: nat)
    requires Run(run) && i < |run|
    requires a < |run[i].requests| && b < |run[i].requests|
    requires run[i].requests[a].key == run[i].requests[b].key
    requires run[i].requests[a].fate.Pinned? && run[i].requests[b].fate.Pinned?
    ensures a == b
  {
    RunKeeps(run, i);
    assert Live(run[i], a) && Live(run[i], b);
  }

  /** Ledger conservation. A key is reserved once plus once for each failed settlement, a failed
      row having been retaken exactly when it is failed no longer; and no reservation sends twice. */
  lemma LedgerConservation(run: seq<State>, i: nat, key: ApprovalId)
    requires Run(run) && i < |run|
    ensures var s := run[i];
            && Sends(s.requests, key) <= Count(s.reserved, key)
            && Count(s.reserved, key)
               == Count(s.failures, key) + (if key in s.ledger && s.ledger[key].status != Failed then 1 else 0)
            && Sends(s.requests, key) <= 1 + Count(s.failures, key)
  {
    RunKeeps(run, i);
    assert CountsOk(run[i], key);
  }

  // ------------------------------------------------------------------
  // What never changes
  // ------------------------------------------------------------------

  predicate Settled(row: Row) {
    row.status == Published || row.status == Uncertain
  }

  predicate Terminal(status: Status) {
    status != Pending
  }

  /** The key is being published by nobody: its worker crashed, raised, or lost the reply. */
  ghost predicate Abandoned(s: State, key: ApprovalId) {
    && key in s.ledger && s.ledger[key].status == Publishing
    && forall w :: w in s.workers && Holds(s.workers[w]) ==> s.workers[w].key != key
  }

  /** What no event undoes: settled rows, decided approvals, abandoned keys. */
  ghost predicate LedgerFrame(s: State, t: State) {
    forall key :: key in s.ledger && Settled(s.ledger[key]) ==> key in t.ledger && t.ledger[key] == s.ledger[key]
  }

  ghost predicate ApprovalFrame(s: State, t: State) {
    forall key :: key in s.approvals && Terminal(s.approvals[key].status) ==>
      key in t.approvals && t.approvals[key] == s.approvals[key]
  }

  ghost predicate AbandonFrame(s: State, t: State) {
    forall key :: Abandoned(s, key) ==> Abandoned(t, key) && Sends(t.requests, key) == Sends(s.requests, key)
  }

  ghost predicate Frame(s: State, t: State) {
    LedgerFrame(s, t) && ApprovalFrame(s, t) && AbandonFrame(s, t)
  }

  lemma SurroundingFrame(s: State, e: Event)
    requires Enabled(s, e) && Surrounding(e)
    ensures Frame(s, Apply(s, e))
  {
    var t := Apply(s, e);
    assert t.workers == s.workers && t.ledger == s.ledger && t.requests == s.requests;
  }

  lemma ProviderFrame(s: State, e: Event)
    requires Enabled(s, e) && (e.ProviderPins? || e.ProviderRefuses?)
    ensures Frame(s, Apply(s, e))
  {
    forall key ensures Sends(Apply(s, e).requests, key) == Sends(s.requests, key) {
      SendsIgnoresFate(s.requests, e.request, Apply(s, e).requests[e.request].fate, key);
    }
  }

  /** A step of one worker that writes no row and sends nothing. */
  lemma QuietFrame(s: State, t: State, w: WorkerId)
    requires t == s.(workers := t.workers)
    requires forall v :: v in t.workers && v != w ==> v in s.workers && t.workers[v] == s.workers[v]
    requires w in t.workers && Holds(t.workers[w]) ==>
               w in s.workers && Holds(s.workers[w]) && s.workers[w].key == t.workers[w].key
    ensures Frame(s, t)
  {
  }

  /** A worker writes one row: it enters `publishing` from nothing or from `failed`, or leaves
      `publishing` while holding it. */
  lemma WriteFrame(s: State, t: State, w: WorkerId)
    requires w in s.workers && w in t.workers && t.workers == s.workers[w := t.workers[w]]
    requires t.requests == s.requests && t.approvals == s.approvals && s.workers[w].key == t.workers[w].key
    requires s.workers[w].key in t.ledger && t.ledger == s.ledger[s.workers[w].key := t.ledger[s.workers[w].key]]
    requires s.workers[w].key !in s.ledger || s.ledger[s.workers[w].key].status == Failed
          || (s.ledger[s.workers[w].key].status == Publishing && Holds(s.workers[w]) && !Holds(t.workers[w]))
    ensures Frame(s, t)
  {
  }

  lemma SendFrame(s: State, t: State, w: WorkerId, r: Request)
    requires w in s.workers && w in t.workers
    requires t == s.(requests := s.requests + [r], workers := s.workers[w := t.workers[w]])
    requires Holds(s.workers[w]) && s.workers[w].key == t.workers[w].key == r.key
    ensures Frame(s, t)
  {
    assert t.requests[..|t.requests| - 1] == s.requests;
  }

  /** A store call of a worker, whatever it came back with. */
  lemma StoreFrame(s: State, w: WorkerId, pc: Pc, after: Option<Row>)
    requires w in s.workers && s.workers[w].stage.InConnector?
    requires pc.Holding? || pc.Reclaiming? || pc.Finished?
    requires pc.Holding? ==> after.Some? && after != Cell(s.ledger, s.workers[w].key)
    requires after == Cell(s.ledger, s.workers[w].key)
          || (after.Some? && (s.workers[w].key !in s.ledger || s.ledger[s.workers[w].key].status == Failed))
          || (after.Some? && s.workers[w].key in s.ledger && s.ledger[s.workers[w].key].status == Publishing
              && Holds(s.workers[w]) && pc.Finished?)
    ensures Frame(s, Put(Write(s, s.workers[w].key, Cell(s.ledger, s.workers[w].key), after), w,
                         s.workers[w].(stage := s.workers[w].stage.(pc := pc))))
  {
    var wk := s.workers[w];
    var t := Put(Write(s, wk.key, Cell(s.ledger, wk.key), after), w, wk.(stage := wk.stage.(pc := pc)));
    if after == Cell(s.ledger, wk.key) {
      QuietFrame(s, t, w);
    } else {
      WriteFrame(s, t, w);
    }
  }

  lemma StoreStepFrame(s: State, w: WorkerId, chance: Chance)
    requires w in s.workers && s.workers[w].stage.InConnector? && s.workers[w].user.Some?
    requires s.workers[w].stage.pc.Claiming? || s.workers[w].stage.pc.Reclaiming? || s.workers[w].stage.pc.Settling?
    ensures Frame(s, WorkerStep(s, w, chance))
  {
    var wk := s.workers[w];
    var owner, cell := wk.user.value, Cell(s.ledger, wk.key);
    var (pc, after) := match wk.stage.pc
      case Claiming => Claim(cell, owner, chance.fault)
      case Reclaiming(seen) => Reclaim(seen, cell, owner, chance.fault)
      case Settling(verdict) => Settle(verdict, cell, owner, chance.fault);
    StoreFrame(s, w, pc, after);
  }

  lemma LocalStepFrame(s: State, w: WorkerId, chance: Chance)
    requires w in s.workers && s.workers[w].stage.InConnector? && s.workers[w].user.Some?
    requires var pc := s.workers[w].stage.pc;
             pc.Checking? || pc.Awaiting? || pc.Finished? || (pc.Holding? && !chance.lookup.BoardKnown?)
    ensures Frame(s, WorkerStep(s, w, chance))
  {
    QuietFrame(s, WorkerStep(s, w, chance), w);
  }

  lemma ConnectorFrame(s: State, w: WorkerId, chance: Chance)
    requires w in s.workers && s.workers[w].stage.InConnector? && s.workers[w].user.Some?
    ensures Frame(s, WorkerStep(s, w, chance))
  {
    var wk, t := s.workers[w], WorkerStep(s, w, chance);
    if wk.stage.pc.Claiming? || wk.stage.pc.Reclaiming? || wk.stage.pc.Settling? {
      StoreStepFrame(s, w, chance);
    } else if wk.stage.pc.Holding? && chance.lookup.BoardKnown? {
      SendFrame(s, t, w, Request(wk.key, wk.user.value, wk.stage.checkedAt, InFlight));
    } else {
      LocalStepFrame(s, w, chance);
    }
  }

  lemma ApproveFrame(s: State, w: WorkerId)
    requires w in s.workers && s.workers[w].stage.Approving?
    ensures Frame(s, ApproveStep(s, w))
  {
    var t := ApproveStep(s, w);
    assert ApprovalFrame(s, t) by { ApprovalsAreFramed(s, w); }
    assert LedgerFrame(s, t) && AbandonFrame(s, t) by { WorkersAreFramed(s, w); }
  }

  lemma ApprovalsAreFramed(s: State, w: WorkerId)
    requires w in s.workers && s.workers[w].stage.Approving?
    ensures ApprovalFrame(s, ApproveStep(s, w))
  {
  }

  lemma WorkersAreFramed(s: State, w: WorkerId)
    requires w in s.workers && s.workers[w].stage.Approving?
    ensures LedgerFrame(s, ApproveStep(s, w)) && AbandonFrame(s, ApproveStep(s, w))
  {
    var t := ApproveStep(s, w);
    assert t.ledger == s.ledger && t.requests == s.requests;
    assert forall v :: v in t.workers && Holds(t.workers[v]) ==> v in s.workers && t.workers[v] == s.workers[v];
  }

  lemma RecordFrame(s: State, w: WorkerId)
    requires w in s.workers && s.workers[w].stage.Recording?
    ensures Frame(s, RecordStep(s, w, s.workers[w].stage.outcome, s.workers[w].stage.mission))
  {
    var t := RecordStep(s, w, s.workers[w].stage.outcome, s.workers[w].stage.mission);
    assert forall v :: v in t.workers && Holds(t.workers[v]) ==> v in s.workers && t.workers[v] == s.workers[v];
  }

  lemma WorkFrame(s: State, w: WorkerId, chance: Chance)
    requires w in s.workers
    ensures Frame(s, WorkerStep(s, w, chance))
  {
    match s.workers[w].stage
    case Approving => ApproveFrame(s, w);
    case Reporting(_) => QuietFrame(s, WorkerStep(s, w, chance), w);
    case Recording(_, _) => RecordFrame(s, w);
    case Over(_) =>
    case InConnector(_, _, _) =>
      if s.workers[w].user.Some? {
        ConnectorFrame(s, w, chance);
      }
    case ReadingApproval => QuietFrame(s, WorkerStep(s, w, chance), w);
    case ReadingLedger(_) => QuietFrame(s, WorkerStep(s, w, chance), w);
  }

  lemma EventFrame(s: State, e: Event)
    requires Enabled(s, e)
    ensures Frame(s, Apply(s, e))
  {
    match e
    case Start(w, _, _, _) => QuietFrame(s, Apply(s, e), w);
    case Crash(w) => QuietFrame(s, Apply(s, e), w);
    case Work(w, chance) => WorkFrame(s, w, chance);
    case ProviderPins(_, _) => ProviderFrame(s, e);
    case ProviderRefuses(_) => ProviderFrame(s, e);
    case _ => SurroundingFrame(s, e);
  }

  lemma NextFrame(s: State, t: State)
    requires Next(s, t)
    ensures Frame(s, t)
  {
    var e :| Enabled(s, e) && t == Apply(s, e);
    EventFrame(s, e);
  }

  lemma RunFrame(run: seq<State>, i: nat)
    requires Run(run) && i + 1 < |run|
    ensures Frame(run[i], run[i + 1])
  {
    assert Linked(run, i);
    NextFrame(run[i], run[i + 1]);
  }

  /** A published or uncertain row is the same row in every later state. */
  lemma {:induction false} SettledForever(run: seq<State>, i: nat, j: nat, key: ApprovalId)
    requires Run(run) && i <= j < |run| && key in run[i].ledger && Settled(run[i].ledger[key])
    ensures key in run[j].ledger && run[j].ledger[key] == run[i].ledger[key]
    decreases j - i
  {
    if i < j {
      SettledForever(run, i, j - 1, key);
      RunFrame(run, j - 1);
    }
  }

  /** A decision, with everything recorded about it, is the same in every later state. */
  lemma {:induction false} DecidedForever(run: seq<State>, i: nat, j: nat, key: ApprovalId)
    requires Run(run) && i <= j < |run| && key in run[i].approvals && Terminal(run[i].approvals[key].status)
    ensures key in run[j].approvals && run[j].approvals[key] == run[i].approvals[key]
    decreases j - i
  {
    if i < j {
      DecidedForever(run, i, j - 1, key);
      RunFrame(run, j - 1);
    }
  }

  // ------------------------------------------------------------------
  // No publish without approval
  // ------------------------------------------------------------------

  /** Every create request ever sent belongs to an approved request that was inside its deadline
      when it was checked, and that approval stands in every later state. */
  lemma SentOnlyWhenApproved(run: seq<State>, i: nat, j: nat, r: nat)
    requires Run(run) && i <= j < |run| && r < |run[i].requests|
    ensures var sent := run[i].requests[r];
            && sent.key in run[i].approvals && run[i].approvals[sent.key].status == Approved
            && !PastExpiry(run[i].approvals[sent.key], sent.checkedAt)
            && sent.key in run[j].approvals && run[j].approvals[sent.key] == run[i].approvals[sent.key]
  {
    RunKeeps(run, i);
    var sent := run[i].requests[r];
    assert ApprovedAt(run[i], sent.key, sent.checkedAt);
    DecidedForever(run, i, j, sent.key);
  }

  /** A request that is rejected or expired at any point of a run has no create request, and so
      no Pin, at any point of it, earlier or later. */
  lemma RefusedApprovalIsNeverPublished(run: seq<State>, i: nat, j: nat, key: ApprovalId, r: nat)
    requires Run(run) && i < |run| && j < |run|
    requires key in run[i].approvals
    requires (run[i].approvals[key].status == Rejected || run[i].approvals[key].status == Expired)
    requires r < |run[j].requests|
    ensures run[j].requests[r].key != key
  {
    if run[j].requests[r].key == key {
      SentOnlyWhenApproved(run, j, j, r);
      if i <= j {
        DecidedForever(run, i, j, key);
      } else {
        DecidedForever(run, j, i, key);
      }
    }
  }

  // ------------------------------------------------------------------
  // Success means a recorded Pin
  // ------------------------------------------------------------------

  /** Whoever is told of a publish, by the connector or by the guard before it, is told the pin
      of a published row, and the provider made that pin for this approval. */
  lemma SuccessNamesTheRecordedPin(run: seq<State>, i: nat, w: WorkerId)
    requires Run(run) && i < |run| && w in run[i].workers
    requires run[i].workers[w].stage.Over? && Claims(run[i].workers[w].stage.outcome)
    ensures Recorded(run[i], run[i].workers[w].key, run[i].workers[w].stage.outcome.pin)
  {
    RunKeeps(run, i);
    assert WorkerOk(run[i], run[i].workers[w]);
  }

  /** Of all workers that ever report a publish of one approval, no two report different pins. */
  lemma ReportsAgree(run: seq<State>, i: nat, j: nat, v: WorkerId, w: WorkerId)
    requires Run(run) && i <= j < |run| && v in run[i].workers && w in run[j].workers
    requires run[i].workers[v].stage.Over? && Claims(run[i].workers[v].stage.outcome)
    requires run[j].workers[w].stage.Over? && Claims(run[j].workers[w].stage.outcome)
    requires run[i].workers[v].key == run[j].workers[w].key
    ensures run[i].workers[v].stage.outcome.pin == run[j].workers[w].stage.outcome.pin
  {
    SuccessNamesTheRecordedPin(run, i, v);
    SuccessNamesTheRecordedPin(run, j, w);
    SettledForever(run, i, j, run[i].workers[v].key);
  }

  /** A mission the approve route moved to completed for an approval has, from then on, a
      published row for that approval with a pin the provider made for it. */
  lemma CompletedMissionHasItsPin(run: seq<State>, i: nat, m: MissionId, key: ApprovalId)
    requires Run(run) && i < |run| && (m, key) in run[i].completions
    ensures key in run[i].ledger && run[i].ledger[key].pin.Some? && Recorded(run[i], key, run[i].ledger[key].pin.value)
    ensures key in run[i].approvals && run[i].approvals[key].mission == Some(m)
  {
    RunKeeps(run, i);
  }

  // ------------------------------------------------------------------
  // A crash while publishing
  // ------------------------------------------------------------------

  /** An abandoned key is quarantined: in every later state its row still says `publishing`, and
      nobody has sent another create request for it. Only a human can tell whether a Pin exists. */
  lemma {:induction false} AbandonedKeyIsQuarantined(run: seq<State>, i: nat, j: nat, key: ApprovalId)
    requires Run(run) && i <= j < |run| && Abandoned(run[i], key)
    ensures Abandoned(run[j], key)
    ensures Sends(run[j].requests, key) == Sends(run[i].requests, key)
    decreases j - i
  {
    if i < j {
      AbandonedKeyIsQuarantined(run, i, j - 1, key);
      RunFrame(run, j - 1);
    }
  }
}
