/** Who is answered what: whose approval a worker may publish, over all runs, and what each guard
    answers to each row it may find. */
module PublishAnswers {
  import opened Wrappers
  import opened ApprovalGateway
  import opened PublishLedger
  import opened PublishWorker
  import opened PublishProtocol
  import opened PublishSafety
  import M = MissionStates

  // ------------------------------------------------------------------
  // Owners: the invariant
  // ------------------------------------------------------------------

  /** The approval exists, and is owned by this user or by nobody. */
  predicate BelongsTo(rows: Table, key: ApprovalId, user: Option<User>) {
    key in rows && (rows[key].owner == None || rows[key].owner == user)
  }

  /** The approval exists and is somebody else's. */
  predicate BelongsToOther(rows: Table, key: ApprovalId, user: Option<User>) {
    key in rows && rows[key].owner.Some? && rows[key].owner != user
  }

  predicate OutcomeFits(rows: Table, wk: Worker, outcome: Outcome) {
    match outcome
    case NotFound => true
    case BadRequest => true
    case Unauthorized => BelongsToOther(rows, wk.key, wk.user)
    case _ => BelongsTo(rows, wk.key, wk.user)
  }

  predicate StageFits(rows: Table, wk: Worker) {
    match wk.stage
    case Approving => true
    case ReadingApproval => true
    case ReadingLedger(_) => BelongsTo(rows, wk.key, wk.user)
    case InConnector(_, _, _) => BelongsTo(rows, wk.key, wk.user) && wk.user.Some?
    case Reporting(outcome) => OutcomeFits(rows, wk, outcome)
    case Recording(outcome, _) => OutcomeFits(rows, wk, outcome)
    case Over(outcome) => OutcomeFits(rows, wk, outcome)
  }

  /** A worker of the approve route that got past the approving is its owner's. */
  predicate RouteFits(rows: Table, wk: Worker) {
    wk.route && !wk.stage.Approving? && wk.stage != Over(NotFound) ==>
      wk.user.Some? && wk.key in rows && rows[wk.key].owner == wk.user
  }

  predicate Fits(rows: Table, wk: Worker) {
    StageFits(rows, wk) && RouteFits(rows, wk)
  }

  predicate OwnersOk(s: State) {
    (forall w :: w in s.workers ==> Fits(s.approvals, s.workers[w]))
    && (forall key :: key in s.ledger ==> BelongsTo(s.approvals, key, Some(s.ledger[key].owner)))
    && (forall i :: 0 <= i < |s.requests| ==> BelongsTo(s.approvals, s.requests[i].key, Some(s.requests[i].sender)))
  }

  /** Approvals are never removed and keep their owner. */
  predicate OwnersStay(before: Table, after: Table) {
    forall key :: key in before ==> key in after && after[key].owner == before[key].owner
  }

  lemma FitsStay(before: Table, after: Table, wk: Worker)
    requires OwnersStay(before, after) && Fits(before, wk)
    ensures Fits(after, wk)
  {
  }

  /** Events in which no worker acts: workers may come and go. */
  lemma OthersKeepOwners(s: State, e: Event)
    requires OwnersOk(s) && Enabled(s, e) && !e.Work?
    ensures OwnersOk(Apply(s, e))
  {
    var t := Apply(s, e);
    assert OwnersStay(s.approvals, t.approvals);
    forall w | w in t.workers ensures Fits(t.approvals, t.workers[w]) {
      if w in s.workers {
        FitsStay(s.approvals, t.approvals, s.workers[w]);
      }
    }
    forall i | 0 <= i < |t.requests| ensures BelongsTo(t.approvals, t.requests[i].key, Some(t.requests[i].sender)) {
      assert t.requests[i].key == s.requests[i].key && t.requests[i].sender == s.requests[i].sender;
    }
  }

  /** A worker's own step that touches nothing else the owners depend on. */
  lemma PutKeepsOwners(s: State, t: State, w: WorkerId)
    requires OwnersOk(s) && OwnersStay(s.approvals, t.approvals) && t.ledger == s.ledger && t.requests == s.requests
    requires w in t.workers && t.workers == s.workers[w := t.workers[w]] && Fits(t.approvals, t.workers[w])
    ensures OwnersOk(t)
  {
    forall v | v in t.workers ensures Fits(t.approvals, t.workers[v]) {
      if v != w {
        FitsStay(s.approvals, t.approvals, s.workers[v]);
      }
    }
  }

  /** ... that writes its own row. */
  lemma WriteKeepsOwners(s: State, w: WorkerId, wk': Worker, cell': Option<Row>)
    requires OwnersOk(s) && w in s.workers && s.workers[w].user.Some? && Fits(s.approvals, wk')
    requires BelongsTo(s.approvals, s.workers[w].key, s.workers[w].user)
    requires var cell := Cell(s.ledger, s.workers[w].key);
             cell'.Some? ==> cell'.value.owner == s.workers[w].user.value
                             || (cell.Some? && cell'.value.owner == cell.value.owner)
    ensures var key := s.workers[w].key; OwnersOk(Put(Write(s, key, Cell(s.ledger, key), cell'), w, wk'))
  {
  }

  /** ... that sends its request. */
  lemma SendKeepsOwners(s: State, w: WorkerId, wk': Worker, sent: Request)
    requires OwnersOk(s) && w in s.workers && Fits(s.approvals, wk')
    requires BelongsTo(s.approvals, sent.key, Some(sent.sender))
    ensures OwnersOk(Put(s.(requests := s.requests + [sent]), w, wk'))
  {
  }

  lemma TransitionKeepsOwner(cell: Option<Row>, owner: User, expected: PinStatus, status: PinStatus, pin: Option<PinId>,
          fault: Fault)
    ensures var cell' := TransitionCell(cell, owner, expected, status, pin, fault).0;
            cell'.Some? ==> cell.Some? && cell'.value.owner == cell.value.owner
  {
  }

  /** Inside the connector nothing but the program counter and the request change. */
  lemma InsideFits(rows: Table, wk: Worker, wk': Worker)
    requires Fits(rows, wk) && wk.stage.InConnector? && wk'.stage.InConnector? && wk' == wk.(stage := wk'.stage)
    ensures Fits(rows, wk')
  {
  }

  lemma ClaimKeepsOwners(s: State, w: WorkerId, chance: Chance)
    requires OwnersOk(s) && w in s.workers && s.workers[w].stage.InConnector? && s.workers[w].stage.pc.Claiming?
    ensures OwnersOk(WorkerStep(s, w, chance))
  {
    var wk := s.workers[w];
    assert Fits(s.approvals, wk);
    var cell' := Claim(Cell(s.ledger, wk.key), wk.user.value, chance.fault).1;
    WriteKeepsOwners(s, w, WorkerStep(s, w, chance).workers[w], cell');
  }

  lemma ReclaimKeepsOwners(s: State, w: WorkerId, chance: Chance)
    requires OwnersOk(s) && w in s.workers && s.workers[w].stage.InConnector? && s.workers[w].stage.pc.Reclaiming?
    ensures OwnersOk(WorkerStep(s, w, chance))
  {
    var wk := s.workers[w];
    assert Fits(s.approvals, wk);
    var cell, owner := Cell(s.ledger, wk.key), wk.user.value;
    TransitionKeepsOwner(cell, owner, Failed, Publishing, None, chance.fault);
    WriteKeepsOwners(s, w, WorkerStep(s, w, chance).workers[w], Reclaim(wk.stage.pc.seen, cell, owner, chance.fault).1);
  }

  lemma SettleKeepsOwners(s: State, w: WorkerId, chance: Chance)
    requires OwnersOk(s) && w in s.workers && s.workers[w].stage.InConnector? && s.workers[w].stage.pc.Settling?
    ensures OwnersOk(WorkerStep(s, w, chance))
  {
    var wk := s.workers[w];
    assert Fits(s.approvals, wk);
    var cell, owner, v := Cell(s.ledger, wk.key), wk.user.value, wk.stage.pc.verdict;
    TransitionKeepsOwner(cell, owner, Publishing, Target(v), VerdictPin(v), chance.fault);
    WriteKeepsOwners(s, w, WorkerStep(s, w, chance).workers[w], Settle(v, cell, owner, chance.fault).1);
  }

  lemma HoldingKeepsOwners(s: State, w: WorkerId, chance: Chance)
    requires OwnersOk(s) && w in s.workers && s.workers[w].stage.InConnector? && s.workers[w].stage.pc.Holding?
    ensures OwnersOk(WorkerStep(s, w, chance))
  {
    var wk, t := s.workers[w], WorkerStep(s, w, chance);
    assert Fits(s.approvals, wk);
    if Prepare(chance.lookup) == Awaiting {
      SendKeepsOwners(s, w, t.workers[w], Request(wk.key, wk.user.value, wk.stage.checkedAt, InFlight));
    } else {
      PutKeepsOwners(s, t, w);
    }
  }

  lemma CheckKeepsOwners(s: State, w: WorkerId, chance: Chance)
    requires OwnersOk(s) && w in s.workers && s.workers[w].stage.InConnector? && s.workers[w].stage.pc.Checking?
    ensures OwnersOk(WorkerStep(s, w, chance))
  {
    assert Fits(s.approvals, s.workers[w]);
    PutKeepsOwners(s, WorkerStep(s, w, chance), w);
  }

  lemma ReceiveKeepsOwners(s: State, w: WorkerId, chance: Chance)
    requires OwnersOk(s) && w in s.workers && s.workers[w].stage.InConnector? && s.workers[w].stage.pc.Awaiting?
    ensures OwnersOk(WorkerStep(s, w, chance))
  {
    assert Fits(s.approvals, s.workers[w]);
    PutKeepsOwners(s, WorkerStep(s, w, chance), w);
  }

  lemma FinishKeepsOwners(s: State, w: WorkerId, chance: Chance)
    requires OwnersOk(s) && w in s.workers && s.workers[w].stage.InConnector? && s.workers[w].stage.pc.Finished?
    ensures OwnersOk(WorkerStep(s, w, chance))
  {
    assert Fits(s.approvals, s.workers[w]);
    PutKeepsOwners(s, WorkerStep(s, w, chance), w);
  }

  lemma ConnectorKeepsOwners(s: State, w: WorkerId, chance: Chance)
    requires OwnersOk(s) && w in s.workers && s.workers[w].stage.InConnector?
    ensures OwnersOk(WorkerStep(s, w, chance))
  {
    match s.workers[w].stage.pc
    case Checking => CheckKeepsOwners(s, w, chance);
    case Claiming => ClaimKeepsOwners(s, w, chance);
    case Reclaiming(_) => ReclaimKeepsOwners(s, w, chance);
    case Holding => HoldingKeepsOwners(s, w, chance);
    case Awaiting => ReceiveKeepsOwners(s, w, chance);
    case Settling(_) => SettleKeepsOwners(s, w, chance);
    case Finished(_) => FinishKeepsOwners(s, w, chance);
  }

  // ------------------------------------------------------------------
  // Owners: the guards
  // ------------------------------------------------------------------

  /** The approval's guard lets a worker on only within its own approval. */
  lemma ReadApprovalKeepsOwners(s: State, w: WorkerId, chance: Chance)
    requires OwnersOk(s) && w in s.workers && s.workers[w].stage.ReadingApproval?
    ensures OwnersOk(WorkerStep(s, w, chance))
  {
    assert Fits(s.approvals, s.workers[w]);
    PutKeepsOwners(s, WorkerStep(s, w, chance), w);
  }

  lemma ReadLedgerKeepsOwners(s: State, w: WorkerId, chance: Chance)
    requires OwnersOk(s) && w in s.workers && s.workers[w].stage.ReadingLedger?
    ensures OwnersOk(WorkerStep(s, w, chance))
  {
    assert Fits(s.approvals, s.workers[w]);
    PutKeepsOwners(s, WorkerStep(s, w, chance), w);
  }

  lemma ReportKeepsOwners(s: State, w: WorkerId)
    requires OwnersOk(s) && w in s.workers && s.workers[w].stage.Reporting?
    ensures OwnersOk(ReportStep(s, w, s.workers[w].stage.outcome))
  {
    var wk := s.workers[w];
    var wk' := ReportStep(s, w, wk.stage.outcome).workers[w];
    assert wk'.stage == Over(wk.stage.outcome)
           || (wk'.stage.Recording? && wk'.stage.outcome == wk.stage.outcome);
    assert Fits(s.approvals, wk);
    PutKeepsOwners(s, Put(s, w, wk'), w);
  }

  /** Telling the mission changes only the mission and the worker, who is then over. */
  lemma RecordingEnds(s: State, w: WorkerId)
    requires w in s.workers && s.workers[w].stage.Recording?
    ensures var wk := s.workers[w]; var t := RecordStep(s, w, wk.stage.outcome, wk.stage.mission);
            t == Put(s, w, wk.(stage := Over(wk.stage.outcome))).(missions := t.missions, completions := t.completions)
  {
  }

  lemma RecordKeepsOwners(s: State, w: WorkerId)
    requires OwnersOk(s) && w in s.workers && s.workers[w].stage.Recording?
    ensures OwnersOk(RecordStep(s, w, s.workers[w].stage.outcome, s.workers[w].stage.mission))
  {
    RecordingEnds(s, w);
    OverKeepsOwners(s, w, RecordStep(s, w, s.workers[w].stage.outcome, s.workers[w].stage.mission));
  }

  lemma OverKeepsOwners(s: State, w: WorkerId, t: State)
    requires OwnersOk(s) && w in s.workers && s.workers[w].stage.Recording?
    requires t == Put(s, w, s.workers[w].(stage := Over(s.workers[w].stage.outcome)))
                  .(missions := t.missions, completions := t.completions)
    ensures OwnersOk(t)
  {
    assert Fits(s.approvals, s.workers[w]);
    PutKeepsOwners(s, t, w);
  }

  lemma DecisionKeepsOwners(rows: Table, id: ApprovalId, target: Status, stamp: Stamp)
    ensures OwnersStay(rows, DbTransition(rows, id, target, stamp).0)
  {
  }

  lemma RouteKeepsOwners(s: State, w: WorkerId)
    requires OwnersOk(s) && w in s.workers && s.workers[w].stage.Approving?
    ensures OwnersOk(ApproveStep(s, w))
  {
    RouteEnds(s, w);
    RoutedKeepsOwners(s, ApproveStep(s, w), w);
  }

  /** The route's first step ends at once, unless the user owns the approval. */
  predicate Routed(wk: Worker, wk': Worker, rows: Table) {
    wk' == wk.(stage := wk'.stage) && wk'.stage in {ReadingApproval, Over(NotFound), Over(BadRequest)}
    && (wk'.stage != Over(NotFound) ==> wk.user.Some? && wk.key in rows && rows[wk.key].owner == wk.user)
  }

  lemma RouteEnds(s: State, w: WorkerId)
    requires w in s.workers && s.workers[w].stage.Approving?
    ensures var t := ApproveStep(s, w);
            w in t.workers && t == s.(approvals := t.approvals, workers := s.workers[w := t.workers[w]])
            && OwnersStay(s.approvals, t.approvals) && Routed(s.workers[w], t.workers[w], t.approvals)
  {
    DecisionKeepsOwners(s.approvals, s.workers[w].key, Approved, ApproveStamp(s.now, s.workers[w].user));
  }

  lemma RoutedKeepsOwners(s: State, t: State, w: WorkerId)
    requires OwnersOk(s) && w in s.workers && w in t.workers && OwnersStay(s.approvals, t.approvals)
    requires t == s.(approvals := t.approvals, workers := s.workers[w := t.workers[w]])
    requires Routed(s.workers[w], t.workers[w], t.approvals)
    ensures OwnersOk(t)
  {
    PutKeepsOwners(s, t, w);
  }

  lemma GuardKeepsOwners(s: State, w: WorkerId, chance: Chance)
    requires OwnersOk(s) && w in s.workers && !s.workers[w].stage.InConnector?
    ensures OwnersOk(WorkerStep(s, w, chance))
  {
    match s.workers[w].stage
    case Approving => RouteKeepsOwners(s, w);
    case ReadingApproval => ReadApprovalKeepsOwners(s, w, chance);
    case ReadingLedger(_) => ReadLedgerKeepsOwners(s, w, chance);
    case Over(_) =>
    case Reporting(_) => ReportKeepsOwners(s, w);
    case Recording(_, _) => RecordKeepsOwners(s, w);
  }

  lemma {:induction false} RunKeepsOwners(run: seq<State>, i: nat)
    requires Run(run) && i < |run|
    ensures OwnersOk(run[i])
  {
    if i > 0 {
      RunKeepsOwners(run, i - 1);
      assert Linked(run, i - 1);
      var e :| Enabled(run[i - 1], e) && run[i] == Apply(run[i - 1], e);
      if e.Work? {
        if run[i - 1].workers[e.worker].stage.InConnector? {
          ConnectorKeepsOwners(run[i - 1], e.worker, e.chance);
        } else {
          GuardKeepsOwners(run[i - 1], e.worker, e.chance);
        }
      } else {
        OthersKeepOwners(run[i - 1], e);
      }
    }
  }

  // ------------------------------------------------------------------
  // Owners: what follows
  // ------------------------------------------------------------------

  /** In every run a ledger row of an owned approval is its owner's. */
  lemma LedgerIsTheOwners(run: seq<State>, i: nat, key: ApprovalId)
    requires Run(run) && i < |run| && key in run[i].ledger
    ensures key in run[i].approvals
    ensures run[i].approvals[key].owner.Some? ==> run[i].ledger[key].owner == run[i].approvals[key].owner.value
  {
    RunKeepsOwners(run, i);
  }

  /** In every run, every create request for an owned approval was sent by its owner. */
  lemma OnlyTheOwnerSends(run: seq<State>, i: nat, r: nat)
    requires Run(run) && i < |run| && r < |run[i].requests|
    ensures run[i].requests[r].key in run[i].approvals
    ensures var owner := run[i].approvals[run[i].requests[r].key].owner;
            owner.Some? ==> run[i].requests[r].sender == owner.value
  {
    RunKeepsOwners(run, i);
  }

  /** In every run, a worker that is answered anything but "not found" or the route's refusal to approve is
      answered "unauthorized" exactly when the approval is owned by somebody else. */
  lemma StrangersAreTurnedAway(run: seq<State>, i: nat, w: WorkerId)
    requires Run(run) && i < |run| && w in run[i].workers && run[i].workers[w].stage.Over?
    requires run[i].workers[w].stage.outcome !in {NotFound, BadRequest}
    ensures var wk := run[i].workers[w];
            wk.key in run[i].approvals
            && (wk.stage.outcome == Unauthorized
                <==> run[i].approvals[wk.key].owner.Some? && run[i].approvals[wk.key].owner != wk.user)
  {
    RunKeepsOwners(run, i);
    assert Fits(run[i].approvals, run[i].workers[w]);
  }

  /** In every run, whoever gets past the approving of the approve route owns the approval. */
  lemma OnlyTheOwnerApproves(run: seq<State>, i: nat, w: WorkerId)
    requires Run(run) && i < |run| && w in run[i].workers && run[i].workers[w].route
    requires !run[i].workers[w].stage.Approving? && run[i].workers[w].stage != Over(NotFound)
    ensures var wk := run[i].workers[w];
            wk.user.Some? && wk.key in run[i].approvals && run[i].approvals[wk.key].owner == wk.user
  {
    RunKeepsOwners(run, i);
    assert Fits(run[i].approvals, run[i].workers[w]);
  }

  // ------------------------------------------------------------------
  // What each guard answers
  // ------------------------------------------------------------------

  /** A worker is told this, at once or, started by the approve route, when the mission is reported to. */
  predicate Told(wk: Worker, outcome: Outcome) {
    wk.stage == if wk.route then Reporting(outcome) else Over(outcome)
  }

  /** The approval's guard: each outcome, and passing it, exactly on its rows. */
  lemma ApprovalGuardAnswers(s: State, w: WorkerId, chance: Chance)
    requires w in s.workers && s.workers[w].stage == ReadingApproval
    ensures var wk := s.workers[w]; var t := WorkerStep(s, w, chance); var wk' := t.workers[w];
            && t == s.(workers := s.workers[w := wk'])
            && (Told(wk', NotFound) <==> wk.key !in s.approvals)
            && (Told(wk', Unauthorized) <==> BelongsToOther(s.approvals, wk.key, wk.user))
            && (BelongsTo(s.approvals, wk.key, wk.user) ==>
                  var row := s.approvals[wk.key];
                  var late := row.expiresAt.Some? && s.now > row.expiresAt.value;
                  && (Told(wk', StillPending) <==> row.status == Pending)
                  && (Told(wk', WasRejected) <==> row.status == Rejected)
                  && (Told(wk', HasExpired) <==> row.status == Expired || (row.status == Approved && late))
                  && (wk'.stage == ReadingLedger(s.now) <==> row.status == Approved && !late))
  {
  }

  /** The row's guard: a row of the user's own answers for itself unless it failed; what the user cannot
      see, or could not be read, is no obstacle. */
  lemma LedgerGuardAnswers(s: State, w: WorkerId, chance: Chance)
    requires w in s.workers && s.workers[w].stage.ReadingLedger?
    ensures var wk := s.workers[w]; var t := WorkerStep(s, w, chance); var wk' := t.workers[w];
            var seen := wk.user.Some? && chance.fault == NoFault
                        && wk.key in s.ledger && s.ledger[wk.key].owner == wk.user.value;
            && t == s.(workers := s.workers[w := wk'])
            && (!seen && wk.user == None ==> Told(wk', ResumeFailed))
            && (wk'.stage == InConnector(Checking, wk.stage.checkedAt, None)
                <==> wk.user.Some? && (seen ==> s.ledger[wk.key].status == Failed))
            && (seen ==>
                  var row := s.ledger[wk.key];
                  && (Told(wk', PublishInProgress) <==> row.status == Publishing)
                  && (Told(wk', ReportedUncertain)
                      <==> row.status == Uncertain || (row.status == Published && row.pin == None))
                  && (row.status == Published && row.pin.Some? ==> Told(wk', AlreadyPublished(row.pin.value))))
  {
  }

  /** The approve route's first step: the owner's pending approval is approved in the owner's name, an
      approved one stands, and every other request ends there. */
  lemma RouteApproves(s: State, w: WorkerId, chance: Chance)
    requires w in s.workers && s.workers[w].stage == Approving
    ensures var wk := s.workers[w]; var t := WorkerStep(s, w, chance);
            var mine := wk.user.Some? && wk.key in s.approvals && s.approvals[wk.key].owner == wk.user;
            && (t.workers[w].stage == Over(NotFound) <==> !mine)
            && (mine ==>
                  var row := s.approvals[wk.key];
                  && (t.workers[w].stage == ReadingApproval <==> row.status in {Pending, Approved})
                  && (t.workers[w].stage == Over(BadRequest) <==> row.status in {Rejected, Expired})
                  && (row.status == Pending ==>
                        t.approvals == s.approvals[wk.key := row.(status := Approved, approvedAt := Some(s.now),
                                                                  approvedBy := wk.user)])
                  && (row.status != Pending ==> t.approvals == s.approvals))
            && (!mine ==> t.approvals == s.approvals)
  {
    if s.workers[w].key in s.approvals {
      assert s.approvals[s.workers[w].key := s.approvals[s.workers[w].key]] == s.approvals;
    }
  }

  // ------------------------------------------------------------------
  // What the mission is told
  // ------------------------------------------------------------------

  /** A defective call ends with its defect and touches nothing; any other goes on to its claim. */
  lemma CheckAnswers(s: State, w: WorkerId, chance: Chance)
    requires w in s.workers && s.workers[w].stage.InConnector? && s.workers[w].user.Some?
    requires s.workers[w].stage.pc == Checking
    ensures var wk, t := s.workers[w], WorkerStep(s, w, chance);
            t == s.(workers := t.workers)
            && t.workers == s.workers[w := wk.(stage := wk.stage.(
                   pc := if chance.defect == None then Claiming else Finished(Defective(chance.defect.value))))]
  {
  }

  /** The connector's result becomes the outcome: its pin for a success, "resume failed" for all else. */
  lemma ResultIsReported(s: State, w: WorkerId, chance: Chance, result: PublishResult)
    requires w in s.workers && s.workers[w].stage.InConnector? && s.workers[w].user.Some?
    requires s.workers[w].stage.pc == Finished(result)
    ensures var wk' := WorkerStep(s, w, chance).workers[w];
            match result
            case PublishedPin(pin) => Told(wk', Resumed(pin))
            case DuplicateRecord(pin) => Told(wk', Resumed(pin))
            case _ => Told(wk', ResumeFailed)
  {
  }

  /** Which state of the mission an outcome asks for, and from where it can be reached. */
  predicate Asks(outcome: Outcome, from: M.MissionState, target: M.MissionState) {
    ((outcome.AlreadyPublished? || outcome.Resumed?) && target == M.Completed
     && from in {M.Active, M.WaitingApproval, M.Completed})
    || (outcome.WasRejected? && target == M.Failed
        && from in {M.Active, M.Retrying, M.WaitingApproval, M.WaitingHuman, M.Failed})
    || (outcome.ReportedUncertain? && target == M.WaitingHuman
        && from in {M.Active, M.WaitingApproval, M.WaitingHuman})
  }

  /** A publish completes the approval's orchestrated mission, a rejection fails it, an uncertain publish
      hands it to a human, if its state allows; every other outcome, and every other mission, is left. */
  lemma MissionIsRead(s: State, w: WorkerId, chance: Chance, m: MissionId)
    requires w in s.workers && s.workers[w].stage.Reporting?
    ensures var wk, t := s.workers[w], WorkerStep(s, w, chance);
            && t == s.(workers := t.workers)
            && (t.workers[w].stage == Recording(wk.stage.outcome, m)
                <==> wk.key in s.approvals && s.approvals[wk.key].mission == Some(m) && m in s.missions
                     && s.missions[m].orchestrated
                     && exists target :: Asks(wk.stage.outcome, s.missions[m].state, target))
            && (t.workers[w].stage == Over(wk.stage.outcome) || t.workers[w].stage.Recording?)
  {
    var wk := s.workers[w];
    if wk.key in s.approvals && s.approvals[wk.key].mission == Some(m) && m in s.missions {
      assert forall target :: Asks(wk.stage.outcome, s.missions[m].state, target)
                              <==> MissionTarget(wk.stage.outcome) == Some(target)
                                   && M.MayMove(s.missions[m].state, target);
    }
  }

  lemma MissionIsWritten(s: State, w: WorkerId, chance: Chance)
    requires w in s.workers && s.workers[w].stage.Recording? && s.workers[w].stage.mission in s.missions
    ensures var wk, t, m := s.workers[w], WorkerStep(s, w, chance), s.workers[w].stage.mission;
            var outcome := wk.stage.outcome;
            && t.workers[w].stage == Over(outcome)
            && (outcome.AlreadyPublished? || outcome.Resumed? ==>
                  t.missions == s.missions[m := s.missions[m].(state := M.Completed)]
                  && t.completions == s.completions + {(m, wk.key)})
            && (outcome.WasRejected? ==> t.missions == s.missions[m := s.missions[m].(state := M.Failed)])
            && (outcome.ReportedUncertain? ==> t.missions == s.missions[m := s.missions[m].(state := M.WaitingHuman)])
            && (!outcome.AlreadyPublished? && !outcome.Resumed? ==> t.completions == s.completions)
  {
  }
}
