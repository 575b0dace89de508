/** What every run of the publish protocol keeps. */
module PublishSafety {
  import opened Wrappers
  import opened ApprovalGateway
  import opened PublishLedger
  import opened PublishWorker
  import opened PublishProtocol

  // ------------------------------------------------------------------
  // The invariant
  // ------------------------------------------------------------------

  /** The worker owns the reservation of its key. */
  predicate Holds(wk: Worker) {
    wk.stage.InConnector? && (wk.stage.pc.Holding? || wk.stage.pc.Awaiting? || wk.stage.pc.Settling?)
  }

  /** A request that made a pin or still may. */
  predicate Live(s: State, i: int) {
    0 <= i < |s.requests| && s.requests[i].fate != TurnedAway
  }

  /** Approved now, and inside its deadline when it was checked at `t`. */
  predicate ApprovedAt(s: State, key: ApprovalId, t: Time) {
    && key in s.approvals && s.approvals[key].status == Approved
    && !PastExpiry(s.approvals[key], t)
  }

  ghost predicate PinMade(s: State, key: ApprovalId, pin: PinId) {
    exists i :: 0 <= i < |s.requests| && s.requests[i].key == key && s.requests[i].fate == Pinned(pin)
  }

  /** A published row holding a pin the provider made for this approval. */
  ghost predicate Recorded(s: State, key: ApprovalId, pin: PinId) {
    && key in s.ledger && s.ledger[key].status == Published && s.ledger[key].pin == Some(pin)
    && PinMade(s, key, pin)
  }

  predicate Claims(outcome: Outcome) {
    outcome.AlreadyPublished? || outcome.Resumed?
  }

  ghost predicate PcOk(s: State, wk: Worker)
    requires wk.stage.InConnector?
  {
    match wk.stage.pc
    case Awaiting => wk.stage.request.Some? && wk.stage.request.value < |s.requests|
                     && s.requests[wk.stage.request.value].key == wk.key
    case Settling(AsPublished(pin)) => PinMade(s, wk.key, pin)
    case Settling(AsFailed(told)) => !Succeeded(told)
    case Finished(r) => Succeeded(r) ==> Recorded(s, wk.key, r.pin)
    case Reclaiming(seen) => seen.status == Failed
    case _ => true
  }

  ghost predicate WorkerOk(s: State, wk: Worker) {
    match wk.stage
    case ReadingLedger(t) => ApprovedAt(s, wk.key, t)
    case InConnector(_, t, _) =>
      && ApprovedAt(s, wk.key, t) && wk.user.Some? && PcOk(s, wk)
      && (Holds(wk) ==>
            wk.key in s.ledger && s.ledger[wk.key].owner == wk.user.value && s.ledger[wk.key].status == Publishing)
    case Reporting(o) => Claims(o) ==> Recorded(s, wk.key, o.pin)
    case Recording(o, mission) =>
      (Claims(o) ==> Recorded(s, wk.key, o.pin)) && wk.key in s.approvals
      && s.approvals[wk.key].mission == Some(mission)
    case Over(o) => Claims(o) ==> Recorded(s, wk.key, o.pin)
    case _ => true
  }

  ghost predicate WorkersOk(s: State) {
    forall w :: w in s.workers ==> WorkerOk(s, s.workers[w])
  }

  ghost predicate OneHolder(s: State) {
    forall v, w | v in s.workers && w in s.workers && Holds(s.workers[v]) && Holds(s.workers[w]) ::
      s.workers[v].key == s.workers[w].key ==> v == w
  }

  ghost predicate RequestsOk(s: State) {
    forall i :: 0 <= i < |s.requests| ==>
      && ApprovedAt(s, s.requests[i].key, s.requests[i].checkedAt)
      && s.requests[i].key in s.ledger
      && (Live(s, i) ==> s.ledger[s.requests[i].key].status != Failed)
  }

  ghost predicate OneLive(s: State) {
    forall i, j :: Live(s, i) && Live(s, j) && s.requests[i].key == s.requests[j].key ==> i == j
  }

  /** While a worker owns the reservation, the only live request for its key is its own. */
  predicate OwnRequest(wk: Worker, i: int)
    requires wk.stage.InConnector?
  {
    || (wk.stage.pc.Awaiting? && wk.stage.request.Some? && wk.stage.request.value == i)
    || (wk.stage.pc.Settling? && !wk.stage.pc.verdict.AsFailed?)
  }

  ghost predicate LiveIsOwn(s: State) {
    forall w, i :: w in s.workers && Holds(s.workers[w]) && Live(s, i) && s.requests[i].key == s.workers[w].key
      ==> OwnRequest(s.workers[w], i)
  }

  ghost predicate LedgerOk(s: State) {
    forall key :: key in s.ledger && s.ledger[key].status == Published ==>
      s.ledger[key].pin.Some? && PinMade(s, key, s.ledger[key].pin.value)
  }

  ghost predicate CompletionsOk(s: State) {
    forall m, key :: (m, key) in s.completions ==>
      && key in s.ledger && s.ledger[key].status == Published
      && key in s.approvals && s.approvals[key].mission == Some(m)
  }

  /** Create requests ever sent for a key. */
  function Sends(requests: seq<Request>, key: ApprovalId): nat {
    if requests == [] then 0
    else Sends(requests[..|requests| - 1], key) + (if requests[|requests| - 1].key == key then 1 else 0)
  }

  predicate CountsOk(s: State, key: ApprovalId) {
    && (key !in s.ledger ==> Count(s.reserved, key) == 0 && Count(s.failures, key) == 0)
    && (key in s.ledger ==>
          Count(s.reserved, key) == Count(s.failures, key) + (if s.ledger[key].status == Failed then 0 else 1))
    && Sends(s.requests, key) <= Count(s.reserved, key)
  }

  ghost predicate AllCountsOk(s: State) {
    && (forall key :: CountsOk(s, key))
    && (forall w :: w in s.workers && s.workers[w].stage.InConnector? && s.workers[w].stage.pc.Holding? ==>
          Sends(s.requests, s.workers[w].key) < Count(s.reserved, s.workers[w].key))
  }

  ghost predicate Inv(s: State) {
    && WorkersOk(s) && OneHolder(s) && RequestsOk(s) && OneLive(s) && LiveIsOwn(s)
    && LedgerOk(s) && CompletionsOk(s) && AllCountsOk(s)
  }

  lemma InitInv(s: State)
    requires Init(s)
    ensures Inv(s)
  {
  }

  // ------------------------------------------------------------------
  // Preservation
  // ------------------------------------------------------------------

  /** Approved requests stay approved, with the same deadline and mission. */
  ghost predicate ApprovalsGrow(before: Table, after: Table) {
    forall key :: key in before ==>
      && key in after
      && after[key].mission == before[key].mission
      && after[key].expiresAt == before[key].expiresAt
      && (before[key].status == Approved ==> after[key].status == Approved)
  }

  /** Nothing the ledger protocol relies on changes when the clock, the approvals, the missions
      or the fate of a request move forward, or when workers disappear. */
  lemma SurroundingsChange(s: State, t: State)
    requires Inv(s) && ApprovalsGrow(s.approvals, t.approvals)
    requires t == s.(now := t.now, approvals := t.approvals, missions := t.missions)
    ensures Inv(t)
  {
    assert forall key, u :: ApprovedAt(s, key, u) ==> ApprovedAt(t, key, u);
    assert forall key, pin :: PinMade(s, key, pin) ==> PinMade(t, key, pin);
    assert WorkersOk(t) by {
      assert forall w :: w in s.workers && WorkerOk(s, s.workers[w]) ==> WorkerOk(t, s.workers[w]);
    }
    SurroundingsKeepRest(s, t);
  }

  lemma SurroundingsKeepRest(s: State, t: State)
    requires OneHolder(s) && OneLive(s) && LiveIsOwn(s) && AllCountsOk(s)
    requires t == s.(now := t.now, approvals := t.approvals, missions := t.missions)
    ensures OneHolder(t) && OneLive(t) && LiveIsOwn(t) && AllCountsOk(t)
  {
    assert forall i :: Live(t, i) ==> Live(s, i);
    assert forall key :: CountsOk(s, key) ==> CountsOk(t, key);
  }

  predicate Surrounding(e: Event) {
    e.Tick? || e.NewRequest? || e.OtherApproves? || e.OtherRejects? || e.ExpiryCheck? || e.NewMission? || e.MoveMission?
  }

  lemma SurroundingKeeps(s: State, e: Event)
    requires Inv(s) && Enabled(s, e) && Surrounding(e)
    ensures Inv(Apply(s, e))
  {
    SurroundingsChange(s, Apply(s, e));
  }

  lemma {:induction false} SendsIgnoresFate(requests: seq<Request>, i: nat, fate: Fate, key: ApprovalId)
    requires i < |requests|
    ensures Sends(requests[i := requests[i].(fate := fate)], key) == Sends(requests, key)
    decreases |requests|
  {
    var changed := requests[i := requests[i].(fate := fate)];
    var n := |requests| - 1;
    if i < n {
      SendsIgnoresFate(requests[..n], i, fate, key);
      assert changed[..n] == requests[..n][i := requests[i].(fate := fate)];
    } else {
      assert changed[..n] == requests[..n];
    }
  }

  /** The provider decided a request: only its fate is new. */
  ghost predicate FateDecided(s: State, t: State) {
    && t == s.(requests := t.requests) && |t.requests| == |s.requests|
    && forall i :: 0 <= i < |s.requests| ==>
         && t.requests[i].key == s.requests[i].key && t.requests[i].checkedAt == s.requests[i].checkedAt
         && (t.requests[i].fate == s.requests[i].fate || s.requests[i].fate == InFlight)
  }

  lemma FateKeepsPins(s: State, t: State, key: ApprovalId, pin: PinId)
    requires FateDecided(s, t) && PinMade(s, key, pin)
    ensures PinMade(t, key, pin)
  {
    var j :| 0 <= j < |s.requests| && s.requests[j].key == key && s.requests[j].fate == Pinned(pin);
    assert t.requests[j].key == key && t.requests[j].fate == Pinned(pin);
  }

  lemma FateKeepsWorkers(s: State, t: State)
    requires Inv(s) && FateDecided(s, t)
    ensures WorkersOk(t) && LedgerOk(t)
  {
    forall key, pin | PinMade(s, key, pin) ensures PinMade(t, key, pin) {
      FateKeepsPins(s, t, key, pin);
    }
    forall v | v in t.workers ensures WorkerOk(t, t.workers[v]) {
      assert WorkerOk(s, s.workers[v]);
    }
  }

  lemma FateKeepsRequests(s: State, t: State)
    requires OneHolder(s) && OneLive(s) && LiveIsOwn(s) && RequestsOk(s) && FateDecided(s, t)
    ensures OneHolder(t) && OneLive(t) && LiveIsOwn(t) && RequestsOk(t)
  {
    assert forall j :: Live(t, j) ==> Live(s, j);
    forall j | 0 <= j < |t.requests|
      ensures ApprovedAt(t, t.requests[j].key, t.requests[j].checkedAt) && t.requests[j].key in t.ledger
    {
      assert ApprovedAt(s, s.requests[j].key, s.requests[j].checkedAt);
    }
  }

  lemma ProviderKeeps(s: State, e: Event)
    requires Inv(s) && Enabled(s, e) && (e.ProviderPins? || e.ProviderRefuses?)
    ensures Inv(Apply(s, e))
  {
    var t := Apply(s, e);
    FateKeepsWorkers(s, t);
    FateKeepsRequests(s, t);
    assert AllCountsOk(t) by {
      forall key ensures Sends(t.requests, key) == Sends(s.requests, key) && CountsOk(t, key) {
        SendsIgnoresFate(s.requests, e.request, t.requests[e.request].fate, key);
        assert CountsOk(s, key);
      }
    }
  }

  /** Rows are never dropped, published rows never change, and requests keep their key. */
  ghost predicate Grows(s: State, t: State) {
    && t.approvals == s.approvals && |s.requests| <= |t.requests|
    && (forall i :: 0 <= i < |s.requests| ==> t.requests[i] == s.requests[i])
    && (forall key :: key in s.ledger ==> key in t.ledger)
    && (forall key :: key in s.ledger && s.ledger[key].status == Published ==> t.ledger[key] == s.ledger[key])
  }

  lemma GrowsKeepsPins(s: State, t: State, key: ApprovalId, pin: PinId)
    requires Grows(s, t) && PinMade(s, key, pin)
    ensures PinMade(t, key, pin)
  {
    var j :| 0 <= j < |s.requests| && s.requests[j].key == key && s.requests[j].fate == Pinned(pin);
    assert t.requests[j] == s.requests[j];
  }

  lemma GrowsKeepsWorker(s: State, t: State, wk: Worker)
    requires Grows(s, t) && WorkerOk(s, wk)
    requires Holds(wk) ==> t.ledger[wk.key] == s.ledger[wk.key]
    ensures WorkerOk(t, wk)
  {
    forall key, pin | PinMade(s, key, pin) ensures PinMade(t, key, pin) {
      GrowsKeepsPins(s, t, key, pin);
    }
  }

  /** Every worker but `w` is as it was, and holds a row that is as it was. */
  ghost predicate OthersUntouched(s: State, t: State, w: WorkerId) {
    forall v :: v in t.workers && v != w ==>
      && v in s.workers && t.workers[v] == s.workers[v]
      && (Holds(s.workers[v]) ==> s.workers[v].key in s.ledger && s.workers[v].key in t.ledger
                                  && t.ledger[s.workers[v].key] == s.ledger[s.workers[v].key])
  }

  lemma GrowsKeepsWorkers(s: State, t: State, w: WorkerId)
    requires WorkersOk(s) && Grows(s, t) && OthersUntouched(s, t, w)
    requires w in t.workers ==> WorkerOk(t, t.workers[w])
    ensures WorkersOk(t)
  {
    forall v | v in t.workers ensures WorkerOk(t, t.workers[v]) {
      if v != w {
        GrowsKeepsWorker(s, t, s.workers[v]);
      }
    }
  }

  /** Changing the row of `w`'s key touches no other holder, provided nobody else holds that key. */
  lemma OneRowOneHolder(s: State, t: State, w: WorkerId)
    requires WorkersOk(s) && w in s.workers && w in t.workers && t.workers == s.workers[w := t.workers[w]]
    requires forall v :: v in s.workers && v != w && Holds(s.workers[v]) ==> s.workers[v].key != s.workers[w].key
    requires forall k :: k in s.ledger && k != s.workers[w].key ==> k in t.ledger && t.ledger[k] == s.ledger[k]
    ensures OthersUntouched(s, t, w)
  {
    forall v | v in s.workers && v != w && Holds(s.workers[v]) ensures s.workers[v].key in s.ledger {
      assert WorkerOk(s, s.workers[v]);
    }
  }

  lemma GrowsKeepsLedger(s: State, t: State, key: ApprovalId)
    requires LedgerOk(s) && CompletionsOk(s) && Grows(s, t) && t.completions == s.completions
    requires forall k :: k in t.ledger && k != key ==> k in s.ledger && t.ledger[k] == s.ledger[k]
    requires key in t.ledger && t.ledger[key].status == Published ==>
               t.ledger[key].pin.Some? && PinMade(s, key, t.ledger[key].pin.value)
    ensures LedgerOk(t) && CompletionsOk(t)
  {
    forall k | k in t.ledger && t.ledger[k].status == Published
      ensures t.ledger[k].pin.Some? && PinMade(t, k, t.ledger[k].pin.value)
    {
      GrowsKeepsPins(s, t, k, t.ledger[k].pin.value);
    }
  }

  /** A write keeps the books: entering `publishing` costs a reservation, entering `failed` a failure. */
  lemma WriteKeepsCounts(s: State, t: State, key: ApprovalId, row: Row)
    requires forall k :: CountsOk(s, k)
    requires t == Write(s, key, Cell(s.ledger, key), Some(row)).(workers := t.workers)
    requires if row.status == Publishing then key !in s.ledger || s.ledger[key].status == Failed
             else key in s.ledger && s.ledger[key].status == Publishing
    ensures forall k :: CountsOk(t, k)
    ensures forall k :: Count(s.reserved, k) <= Count(t.reserved, k)
    ensures row.status == Publishing ==> Sends(t.requests, key) < Count(t.reserved, key)
  {
    assert t.requests == s.requests;
    forall k ensures CountsOk(t, k) {
      WriteKeepsCount(s, t, key, row, k);
    }
    assert CountsOk(s, key);
  }

  lemma WriteKeepsCount(s: State, t: State, key: ApprovalId, row: Row, k: ApprovalId)
    requires CountsOk(s, k) && t.requests == s.requests
    requires t == Write(s, key, Cell(s.ledger, key), Some(row)).(workers := t.workers)
    requires if row.status == Publishing then key !in s.ledger || s.ledger[key].status == Failed
             else key in s.ledger && s.ledger[key].status == Publishing
    ensures CountsOk(t, k)
  {
    assert Cell(s.ledger, key) != Some(row);
    if k == key {
      assert t.ledger[key] == row;
    } else {
      assert Count(t.reserved, k) == Count(s.reserved, k) && Count(t.failures, k) == Count(s.failures, k);
    }
  }

  /** One worker appears, moves on or disappears; nothing else changes. */
  ghost predicate OnlyWorker(s: State, t: State, w: WorkerId) {
    && t == s.(workers := t.workers)
    && forall v :: v in t.workers && v != w ==> v in s.workers && t.workers[v] == s.workers[v]
  }

  /** The worker takes no reservation: what it holds it held, with the same requests as its own. */
  ghost predicate TakesNothing(s: State, t: State, w: WorkerId) {
    w in t.workers && t.workers[w].stage.InConnector? && Holds(t.workers[w]) ==>
      && w in s.workers && s.workers[w].key == t.workers[w].key && Holds(s.workers[w])
      && (t.workers[w].stage.pc.Holding? ==> s.workers[w].stage.pc.Holding?)
      && forall i :: Live(s, i) && s.requests[i].key == t.workers[w].key ==> OwnRequest(t.workers[w], i)
  }

  lemma OnlyWorkerKeeps(s: State, t: State, w: WorkerId)
    requires Inv(s) && OnlyWorker(s, t, w) && TakesNothing(s, t, w)
    requires w in t.workers ==> WorkerOk(s, t.workers[w])
    ensures Inv(t)
  {
    assert WorkersOk(t) by {
      forall v | v in t.workers ensures WorkerOk(t, t.workers[v]) {
        GrowsKeepsWorker(s, t, t.workers[v]);
      }
    }
    assert LedgerOk(t) && CompletionsOk(t) by {
      GrowsKeepsLedger(s, t, 0);
    }
    OnlyWorkerKeepsRest(s, t, w);
  }

  lemma OnlyWorkerKeepsRest(s: State, t: State, w: WorkerId)
    requires OneHolder(s) && RequestsOk(s) && OneLive(s) && LiveIsOwn(s) && AllCountsOk(s)
    requires OnlyWorker(s, t, w) && TakesNothing(s, t, w)
    ensures OneHolder(t) && RequestsOk(t) && OneLive(t) && LiveIsOwn(t) && AllCountsOk(t)
  {
    assert forall i :: Live(t, i) ==> Live(s, i);
    assert forall key :: CountsOk(s, key) ==> CountsOk(t, key);
  }

  lemma CrashKeeps(s: State, w: WorkerId)
    requires Inv(s) && w in s.workers
    ensures Inv(Apply(s, Crash(w)))
  {
    OnlyWorkerKeeps(s, Apply(s, Crash(w)), w);
  }

  /** A worker moves on without touching the ledger or the requests. */
  lemma LocalStepKeeps(s: State, w: WorkerId, wk: Worker)
    requires Inv(s) && w in s.workers && wk.key == s.workers[w].key
    requires WorkerOk(s, wk)
    requires Holds(wk) ==> Holds(s.workers[w])
    requires Holds(wk) ==> forall i :: Live(s, i) && s.requests[i].key == wk.key ==> OwnRequest(wk, i)
    requires wk.stage.InConnector? && wk.stage.pc.Holding? ==>
               s.workers[w].stage.InConnector? && s.workers[w].stage.pc.Holding?
    ensures Inv(Put(s, w, wk))
  {
    OnlyWorkerKeeps(s, Put(s, w, wk), w);
  }

  lemma DecisionGrows(rows: Table, id: ApprovalId, target: Status, stamp: Stamp)
    ensures ApprovalsGrow(rows, DbTransition(rows, id, target, stamp).0)
  {
  }

  lemma ApproveStepKeeps(s: State, w: WorkerId)
    requires Inv(s) && w in s.workers
    ensures Inv(ApproveStep(s, w))
  {
    var wk := s.workers[w];
    if wk.key !in s.approvals || s.approvals[wk.key].owner != wk.user || wk.user == None {
      StageWithoutDuties(s, w, wk.(stage := Over(NotFound)));
    } else {
      DecisionGrows(s.approvals, wk.key, Approved, ApproveStamp(s.now, wk.user));
      var (rows, reply) := DbTransition(s.approvals, wk.key, Approved, ApproveStamp(s.now, wk.user));
      var mid := s.(approvals := rows);
      SurroundingsChange(s, mid);
      StageWithoutDuties(mid, w, wk.(stage := if reply.Success? then ReadingApproval else Over(BadRequest)));
    }
  }

  /** Stages outside the connector that report nothing can be entered at any time. */
  lemma StageWithoutDuties(s: State, w: WorkerId, wk: Worker)
    requires Inv(s) && w in s.workers && wk.key == s.workers[w].key
    requires wk.stage.ReadingApproval? || wk.stage == Over(NotFound) || wk.stage == Over(BadRequest)
    ensures Inv(Put(s, w, wk))
  {
    LocalStepKeeps(s, w, wk);
  }

  lemma GuardStepsKeep(s: State, w: WorkerId, chance: Chance)
    requires Inv(s) && w in s.workers
    requires s.workers[w].stage.ReadingApproval? || s.workers[w].stage.ReadingLedger?
    ensures Inv(WorkerStep(s, w, chance))
  {
    var t := WorkerStep(s, w, chance);
    assert WorkerOk(s, s.workers[w]);
    LocalStepKeeps(s, w, t.workers[w]);
  }

  /** Entering `publishing`, from nothing or from a failed row: nobody held the key and no
      request for it can still make a pin. */
  lemma ReserveKeeps(s: State, t: State, w: WorkerId, pc: Pc, row: Row)
    requires Inv(s) && w in s.workers
    requires s.workers[w].stage.InConnector? && !Holds(s.workers[w])
    requires s.workers[w].key !in s.ledger || s.ledger[s.workers[w].key].status == Failed
    requires row.status == Publishing && s.workers[w].user == Some(row.owner)
    requires pc == Holding || (pc.Finished? && !Succeeded(pc.result))
    requires t == Put(Write(s, s.workers[w].key, Cell(s.ledger, s.workers[w].key), Some(row)), w,
                      s.workers[w].(stage := s.workers[w].stage.(pc := pc)))
    ensures Inv(t)
  {
    var key := s.workers[w].key;
    assert WorkerOk(s, s.workers[w]);
    assert t.ledger == s.ledger[key := row] && t.requests == s.requests;
    NobodyHolds(s, key);
    OneRowOneHolder(s, t, w);
    GrowsKeepsWorkers(s, t, w);
    ReserveKeepsRequests(s, t, key, row);
    ReserveKeepsHolders(s, t, w);
  }

  lemma NobodyHolds(s: State, key: ApprovalId)
    requires WorkersOk(s)
    requires key !in s.ledger || s.ledger[key].status != Publishing
    ensures forall v :: v in s.workers && Holds(s.workers[v]) ==> s.workers[v].key != key
  {
    forall v | v in s.workers && Holds(s.workers[v]) ensures s.workers[v].key != key {
      assert WorkerOk(s, s.workers[v]);
    }
  }

  lemma ReserveKeepsHolders(s: State, t: State, w: WorkerId)
    requires OneHolder(s) && LiveIsOwn(s)
    requires w in s.workers && w in t.workers && t.workers == s.workers[w := t.workers[w]] && t.requests == s.requests
    requires forall v :: v in s.workers && Holds(s.workers[v]) ==> s.workers[v].key != t.workers[w].key
    requires forall i :: Live(s, i) ==> s.requests[i].key != t.workers[w].key
    ensures OneHolder(t) && LiveIsOwn(t)
  {
    assert forall i :: Live(t, i) ==> Live(s, i);
  }

  lemma ReserveKeepsRequests(s: State, t: State, key: ApprovalId, row: Row)
    requires RequestsOk(s) && OneLive(s) && LedgerOk(s) && CompletionsOk(s) && AllCountsOk(s) && Grows(s, t)
    requires row.status == Publishing && (key !in s.ledger || s.ledger[key].status == Failed)
    requires t == Write(s, key, Cell(s.ledger, key), Some(row)).(workers := t.workers)
    requires forall w :: w in t.workers && t.workers[w].stage.InConnector?
                         && t.workers[w].stage.pc.Holding? && t.workers[w].key != key ==>
               w in s.workers && s.workers[w] == t.workers[w]
    ensures RequestsOk(t) && OneLive(t) && LedgerOk(t) && CompletionsOk(t) && AllCountsOk(t)
    ensures forall i :: Live(s, i) ==> s.requests[i].key != key
  {
    assert forall i :: Live(s, i) ==> s.requests[i].key != key;
    assert RequestsOk(t) && OneLive(t) by {
      assert forall i :: Live(t, i) ==> Live(s, i);
    }
    assert LedgerOk(t) && CompletionsOk(t) by {
      GrowsKeepsLedger(s, t, key);
    }
    assert AllCountsOk(t) by {
      WriteKeepsCounts(s, t, key, row);
    }
  }

  lemma ClaimStepKeeps(s: State, w: WorkerId, chance: Chance)
    requires Inv(s) && w in s.workers && s.workers[w].stage.InConnector? && s.workers[w].stage.pc == Claiming
    ensures Inv(WorkerStep(s, w, chance))
  {
    var t, wk := WorkerStep(s, w, chance), s.workers[w];
    assert WorkerOk(s, wk);
    var cell := Cell(s.ledger, wk.key);
    var (pc, cell') := Claim(cell, wk.user.value, chance.fault);
    if cell' == cell {
      LocalStepKeeps(s, w, t.workers[w]);
    } else {
      ReserveKeeps(s, t, w, pc, cell'.value);
    }
  }

  lemma ReclaimStepKeeps(s: State, w: WorkerId, chance: Chance)
    requires Inv(s) && w in s.workers && s.workers[w].stage.InConnector? && s.workers[w].stage.pc.Reclaiming?
    ensures Inv(WorkerStep(s, w, chance))
  {
    var t, wk := WorkerStep(s, w, chance), s.workers[w];
    assert WorkerOk(s, wk);
    var cell := Cell(s.ledger, wk.key);
    var (pc, cell') := Reclaim(wk.stage.pc.seen, cell, wk.user.value, chance.fault);
    if cell' == cell {
      LocalStepKeeps(s, w, t.workers[w]);
    } else {
      ReserveKeeps(s, t, w, pc, cell'.value);
    }
  }

  /** Sending: the holder adds the only live request for its key. */
  lemma SendKeeps(s: State, w: WorkerId, chance: Chance)
    requires Inv(s) && w in s.workers && s.workers[w].stage.InConnector? && s.workers[w].stage.pc.Holding?
    requires chance.lookup.BoardKnown?
    ensures Inv(WorkerStep(s, w, chance))
  {
    var t, wk := WorkerStep(s, w, chance), s.workers[w];
    assert WorkerOk(s, wk);
    var n, key := |s.requests|, wk.key;
    assert t.requests == s.requests + [Request(key, wk.user.value, wk.stage.checkedAt, InFlight)];
    assert Grows(s, t) && OneHolder(t);
    assert WorkersOk(t) by { GrowsKeepsWorkers(s, t, w); }
    assert AllCountsOk(t) by { SendKeepsCounts(s, t, w); }
    assert OneLive(t) && LiveIsOwn(t) by { SendKeepsLive(s, t, w); }
    assert LedgerOk(t) && CompletionsOk(t) by { GrowsKeepsLedger(s, t, key); }
    assert RequestsOk(t) by { SendKeepsRequests(s, t, key); }
  }

  lemma SendKeepsRequests(s: State, t: State, key: ApprovalId)
    requires RequestsOk(s) && Grows(s, t) && t.ledger == s.ledger
    requires |t.requests| == |s.requests| + 1 && t.requests[|s.requests|].key == key
    requires ApprovedAt(t, key, t.requests[|s.requests|].checkedAt)
    requires key in s.ledger && s.ledger[key].status == Publishing
    ensures RequestsOk(t)
  {
    assert forall i :: Live(t, i) && i < |s.requests| ==> Live(s, i);
  }

  lemma SendKeepsCounts(s: State, t: State, w: WorkerId)
    requires AllCountsOk(s) && OneHolder(s) && w in s.workers && w in t.workers && s.workers[w].stage.InConnector?
    requires s.workers[w].stage.pc.Holding?
    requires t == s.(requests := t.requests, workers := s.workers[w := t.workers[w]])
    requires t.workers[w].stage.InConnector? && t.workers[w].stage.pc.Awaiting?
    requires exists r: Request :: r.key == s.workers[w].key && t.requests == s.requests + [r]
    ensures AllCountsOk(t)
  {
    var n, key := |s.requests|, s.workers[w].key;
    assert t.requests[..n] == s.requests && t.requests[n].key == key;
    forall k ensures CountsOk(t, k) && Sends(t.requests, k) == Sends(s.requests, k) + (if k == key then 1 else 0) {
      assert CountsOk(s, k);
    }
  }

  lemma SendKeepsLive(s: State, t: State, w: WorkerId)
    requires Inv(s) && w in s.workers && s.workers[w].stage.InConnector? && s.workers[w].stage.pc.Holding?
    requires Grows(s, t) && |t.requests| == |s.requests| + 1 && t.requests[|s.requests|].key == s.workers[w].key
    requires w in t.workers && t.workers == s.workers[w := t.workers[w]] && t.workers[w].key == s.workers[w].key
    requires t.workers[w].stage.InConnector? && t.workers[w].stage.pc.Awaiting?
    requires t.workers[w].stage.request == Some(|s.requests|)
    ensures OneLive(t) && LiveIsOwn(t)
  {
    var n, key := |s.requests|, s.workers[w].key;
    assert forall i :: Live(t, i) && i < n ==> Live(s, i);
    assert forall i :: Live(s, i) && s.requests[i].key == key ==> OwnRequest(s.workers[w], i);
    forall v, i | v in t.workers && Holds(t.workers[v]) && Live(t, i) && t.requests[i].key == t.workers[v].key
      ensures OwnRequest(t.workers[v], i)
    {
      if i == n {
        assert v == w;
      } else {
        assert Live(s, i);
      }
    }
  }

  lemma ReceiveKeeps(s: State, w: WorkerId, chance: Chance)
    requires Inv(s) && w in s.workers && s.workers[w].stage.InConnector? && s.workers[w].stage.pc.Awaiting?
    requires Honest(s, w, chance)
    ensures Inv(WorkerStep(s, w, chance))
  {
    var wk := s.workers[w];
    var wk' := wk.(stage := wk.stage.(pc := Receive(chance.response)));
    assert WorkerOk(s, wk') by { ReceivedIsOk(s, w, chance); }
    forall j | Live(s, j) && s.requests[j].key == wk.key ensures Holds(wk') ==> OwnRequest(wk', j) {
      assert WorkerOk(s, wk) && OwnRequest(wk, j);
    }
    LocalStepKeeps(s, w, wk');
    assert WorkerOk(s, wk) && WorkerStep(s, w, chance) == Put(s, w, wk');
  }

  /** A pin id in a reply names a pin that the worker's own request made. */
  lemma ReceivedIsOk(s: State, w: WorkerId, chance: Chance)
    requires WorkersOk(s) && w in s.workers && s.workers[w].stage.InConnector? && s.workers[w].stage.pc.Awaiting?
    requires Honest(s, w, chance)
    ensures WorkerOk(s, s.workers[w].(stage := s.workers[w].stage.(pc := Receive(chance.response))))
  {
    var wk := s.workers[w];
    assert WorkerOk(s, wk);
    if chance.response.Accepted? && chance.response.pin.Some? {
      var i := wk.stage.request.value;
      assert s.requests[i].key == wk.key && s.requests[i].fate == Pinned(chance.response.pin.value);
      assert PinMade(s, wk.key, chance.response.pin.value);
    }
  }

  /** The holder overwrites `publishing`; nobody else can. */
  lemma SettleKeeps(s: State, w: WorkerId, chance: Chance)
    requires Inv(s) && w in s.workers && s.workers[w].stage.InConnector? && s.workers[w].stage.pc.Settling?
    ensures Inv(WorkerStep(s, w, chance))
  {
    var t, wk := WorkerStep(s, w, chance), s.workers[w];
    assert WorkerOk(s, wk);
    var key := wk.key;
    var verdict := wk.stage.pc.verdict;
    var (pc, cell') := Settle(verdict, Cell(s.ledger, key), wk.user.value, chance.fault);
    if cell' == Cell(s.ledger, key) {
      LocalStepKeeps(s, w, t.workers[w]);
    } else {
      SettleWriteKeeps(s, t, w, pc, cell'.value);
    }
  }

  lemma SettleWriteKeeps(s: State, t: State, w: WorkerId, pc: Pc, row: Row)
    requires Inv(s) && w in s.workers && s.workers[w].stage.InConnector? && s.workers[w].stage.pc.Settling?
    requires WorkerOk(s, s.workers[w])
    requires row == s.ledger[s.workers[w].key].(status := Target(s.workers[w].stage.pc.verdict), pin := row.pin)
    requires row.status == Published ==> row.pin == VerdictPin(s.workers[w].stage.pc.verdict)
    requires pc.Finished? && (Succeeded(pc.result) ==> row.status == Published && row.pin == Some(pc.result.pin))
    requires t == Put(Write(s, s.workers[w].key, Cell(s.ledger, s.workers[w].key), Some(row)), w,
                      s.workers[w].(stage := s.workers[w].stage.(pc := pc)))
    ensures Inv(t)
  {
    var key := s.workers[w].key;
    assert t.ledger == s.ledger[key := row] && t.requests == s.requests;
    SettleKeepsWorkers(s, t, w, pc, row);
    assert LedgerOk(t) && CompletionsOk(t) by {
      GrowsKeepsLedger(s, t, key);
    }
    assert AllCountsOk(t) by {
      WriteKeepsCounts(s, t, key, row);
    }
    SettleKeepsRequests(s, t, w, row.status);
  }

  lemma SettleKeepsWorkers(s: State, t: State, w: WorkerId, pc: Pc, row: Row)
    requires WorkersOk(s) && OneHolder(s) && w in s.workers && Holds(s.workers[w]) && s.workers[w].stage.pc.Settling?
    requires WorkerOk(s, s.workers[w])
    requires pc.Finished? && (Succeeded(pc.result) ==> row.status == Published && row.pin == Some(pc.result.pin))
    requires row.status == Published ==> row.pin == VerdictPin(s.workers[w].stage.pc.verdict)
    requires Grows(s, t) && t.requests == s.requests && t.ledger == s.ledger[s.workers[w].key := row]
    requires t.workers == s.workers[w := s.workers[w].(stage := s.workers[w].stage.(pc := pc))]
    requires row.status == Published ==> s.workers[w].stage.pc.verdict.AsPublished?
    ensures WorkersOk(t)
  {
    if Succeeded(pc.result) {
      GrowsKeepsPins(s, t, s.workers[w].key, pc.result.pin);
    }
    OneRowOneHolder(s, t, w);
    GrowsKeepsWorkers(s, t, w);
  }

  lemma SettleKeepsRequests(s: State, t: State, w: WorkerId, status: PinStatus)
    requires RequestsOk(s) && OneHolder(s) && OneLive(s) && LiveIsOwn(s)
    requires w in s.workers && s.workers[w].stage.InConnector? && s.workers[w].stage.pc.Settling?
    requires status == Target(s.workers[w].stage.pc.verdict)
    requires t.approvals == s.approvals && t.requests == s.requests && w in t.workers && !Holds(t.workers[w])
    requires t.workers == s.workers[w := t.workers[w]]
    requires s.workers[w].key in s.ledger && s.workers[w].key in t.ledger
    requires t.ledger == s.ledger[s.workers[w].key := t.ledger[s.workers[w].key]]
    requires t.ledger[s.workers[w].key].status == status
    ensures RequestsOk(t) && OneHolder(t) && OneLive(t) && LiveIsOwn(t)
  {
    assert forall i :: Live(t, i) ==> Live(s, i);
    assert forall i :: Live(s, i) && s.requests[i].key == s.workers[w].key ==> OwnRequest(s.workers[w], i);
  }

  lemma ReportStepKeeps(s: State, w: WorkerId)
    requires Inv(s) && w in s.workers && s.workers[w].stage.Reporting?
    ensures Inv(ReportStep(s, w, s.workers[w].stage.outcome))
  {
    assert WorkerOk(s, s.workers[w]);
    LocalStepKeeps(s, w, ReportStep(s, w, s.workers[w].stage.outcome).workers[w]);
  }

  lemma RecordStepKeeps(s: State, w: WorkerId)
    requires Inv(s) && w in s.workers && s.workers[w].stage.Recording?
    ensures Inv(RecordStep(s, w, s.workers[w].stage.outcome, s.workers[w].stage.mission))
  {
    var wk := s.workers[w];
    var t := RecordStep(s, w, wk.stage.outcome, wk.stage.mission);
    var mid := Put(s, w, wk.(stage := Over(wk.stage.outcome)));
    assert Inv(mid) by {
      assert WorkerOk(s, wk);
      LocalStepKeeps(s, w, wk.(stage := Over(wk.stage.outcome)));
    }
    assert Inv(mid.(missions := t.missions)) by { SurroundingsChange(mid, mid.(missions := t.missions)); }
    RecordedCompletionIsOk(s, w);
    CompletionsChange(mid.(missions := t.missions), t.completions);
  }

  /** The mission a report completes is the one its published approval names. */
  lemma RecordedCompletionIsOk(s: State, w: WorkerId)
    requires WorkersOk(s) && CompletionsOk(s) && w in s.workers && s.workers[w].stage.Recording?
    ensures var wk := s.workers[w];
            var t := RecordStep(s, w, wk.stage.outcome, wk.stage.mission);
            && t == Put(s, w, wk.(stage := Over(wk.stage.outcome)))
                    .(missions := t.missions, completions := t.completions)
            && CompletionsOk(t)
  {
    assert WorkerOk(s, s.workers[w]);
  }

  lemma CompletionsChange(s: State, completions: set<(MissionId, ApprovalId)>)
    requires Inv(s) && CompletionsOk(s.(completions := completions))
    ensures Inv(s.(completions := completions))
  {
    var t := s.(completions := completions);
    GrowsKeepsLedger(s, t.(completions := s.completions), 0);
    forall v | v in t.workers ensures WorkerOk(t, t.workers[v]) {
      GrowsKeepsWorker(s, t, s.workers[v]);
    }
    forall key | key in t.ledger && t.ledger[key].status == Published ensures PinMade(t, key, t.ledger[key].pin.value) {
      GrowsKeepsPins(s, t, key, s.ledger[key].pin.value);
    }
    assert forall i :: Live(t, i) ==> Live(s, i);
    assert forall key :: CountsOk(s, key) ==> CountsOk(t, key);
  }

  lemma WorkKeeps(s: State, w: WorkerId, chance: Chance)
    requires Inv(s) && Enabled(s, Work(w, chance))
    ensures Inv(Apply(s, Work(w, chance)))
  {
    var wk := s.workers[w];
    assert WorkerOk(s, wk);
    match wk.stage
    case Approving => ApproveStepKeeps(s, w);
    case ReadingApproval => GuardStepsKeep(s, w, chance);
    case ReadingLedger(_) => GuardStepsKeep(s, w, chance);
    case Reporting(_) => ReportStepKeeps(s, w);
    case Recording(_, _) => RecordStepKeeps(s, w);
    case Over(_) =>
    case InConnector(_, _, _) => ConnectorStepKeeps(s, w, chance);
  }

  lemma ConnectorStepKeeps(s: State, w: WorkerId, chance: Chance)
    requires Inv(s) && Enabled(s, Work(w, chance)) && s.workers[w].stage.InConnector?
    ensures Inv(WorkerStep(s, w, chance))
  {
      match s.workers[w].stage.pc
      case Claiming => ClaimStepKeeps(s, w, chance);
      case Reclaiming(_) => ReclaimStepKeeps(s, w, chance);
      case Awaiting => ReceiveKeeps(s, w, chance);
      case Settling(_) => SettleKeeps(s, w, chance);
      case Checking => PlainStepKeeps(s, w, chance);
      case Finished(_) => PlainStepKeeps(s, w, chance);
      case Holding =>
        if chance.lookup.BoardKnown? {
          SendKeeps(s, w, chance);
        } else {
          PlainStepKeeps(s, w, chance);
        }
  }

  lemma CheckKeeps(s: State, w: WorkerId, chance: Chance)
    requires Inv(s) && w in s.workers && s.workers[w].stage.InConnector? && s.workers[w].stage.pc.Checking?
    ensures Inv(WorkerStep(s, w, chance))
  {
    assert WorkerOk(s, s.workers[w]);
    LocalStepKeeps(s, w, WorkerStep(s, w, chance).workers[w]);
  }

  lemma NoBoardKeeps(s: State, w: WorkerId, chance: Chance)
    requires Inv(s) && w in s.workers && s.workers[w].stage.InConnector? && s.workers[w].stage.pc.Holding?
    requires !chance.lookup.BoardKnown?
    ensures Inv(WorkerStep(s, w, chance))
  {
    var wk := s.workers[w];
    var wk' := wk.(stage := wk.stage.(pc := Prepare(chance.lookup)));
    assert WorkerOk(s, wk) && WorkerOk(s, wk');
    assert forall i :: Live(s, i) && s.requests[i].key == wk.key ==> OwnRequest(wk, i);
    LocalStepKeeps(s, w, wk');
  }

  lemma FinishKeeps(s: State, w: WorkerId, chance: Chance)
    requires Inv(s) && w in s.workers && s.workers[w].stage.InConnector? && s.workers[w].stage.pc.Finished?
    ensures Inv(WorkerStep(s, w, chance))
  {
    assert WorkerOk(s, s.workers[w]);
    LocalStepKeeps(s, w, WorkerStep(s, w, chance).workers[w]);
  }

  lemma PlainStepKeeps(s: State, w: WorkerId, chance: Chance)
    requires Inv(s) && w in s.workers && s.workers[w].stage.InConnector?
    requires s.workers[w].stage.pc.Checking? || s.workers[w].stage.pc.Finished?
          || (s.workers[w].stage.pc.Holding? && !chance.lookup.BoardKnown?)
    ensures Inv(WorkerStep(s, w, chance))
  {
    match s.workers[w].stage.pc
    case Checking => CheckKeeps(s, w, chance);
    case Holding => NoBoardKeeps(s, w, chance);
    case Finished(_) => FinishKeeps(s, w, chance);
  }

  lemma StartKeeps(s: State, e: Event)
    requires Inv(s) && Enabled(s, e) && e.Start?
    ensures Inv(Apply(s, e))
  {
    OnlyWorkerKeeps(s, Apply(s, e), e.worker);
  }

  lemma EventKeeps(s: State, e: Event)
    requires Inv(s) && Enabled(s, e)
    ensures Inv(Apply(s, e))
  {
    match e
    case Start(_, _, _, _) => StartKeeps(s, e);
    case Work(w, chance) => WorkKeeps(s, w, chance);
    case Crash(w) => CrashKeeps(s, w);
    case ProviderPins(_, _) => ProviderKeeps(s, e);
    case ProviderRefuses(_) => ProviderKeeps(s, e);
    case _ => SurroundingKeeps(s, e);
  }

  lemma NextKeeps(s: State, t: State)
    requires Inv(s) && Next(s, t)
    ensures Inv(t)
  {
    var e :| Enabled(s, e) && t == Apply(s, e);
    EventKeeps(s, e);
  }

  lemma {:induction false} RunKeeps(run: seq<State>, i: nat)
    requires Run(run) && i < |run|
    ensures Inv(run[i])
  {
    if i == 0 {
      InitInv(run[0]);
    } else {
      RunKeeps(run, i - 1);
      assert Linked(run, i - 1);
      NextKeeps(run[i - 1], run[i]);
    }
  }
}
