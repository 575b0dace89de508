/** Any number of workers approving, resuming and publishing at once.

    Every database call is one atomic event; between two events of a worker anything may
    happen: other workers, crashes, lost replies, the clock, and a provider that may create
    the Pin long after the client gave up waiting. */
module PublishProtocol {
  import opened Wrappers
  import opened ApprovalGateway
  import opened PublishLedger
  import opened PublishWorker
  import M = MissionStates

  type WorkerId = nat

  // ------------------------------------------------------------------
  // State
  // ------------------------------------------------------------------

  /** A create request on its way. The provider decides it once: it makes a pin or it refuses. */
  datatype Fate = InFlight | Pinned(pin: PinId) | TurnedAway

  datatype Request = Request(key: ApprovalId, sender: User, checkedAt: Time, fate: Fate)

  /** The pipeline states `resume` reports, and the 400 of the approve route. */
  datatype Outcome =
    | NotFound | Unauthorized | StillPending | WasRejected | HasExpired | BadRequest
    | PublishInProgress | ReportedUncertain | AlreadyPublished(pin: PinId)
    | ResumeFailed | Resumed(pin: PinId)

  datatype Stage =
    | Approving
    | ReadingApproval
    | ReadingLedger(checkedAt: Time)
    | InConnector(pc: Pc, checkedAt: Time, request: Option<nat>)
    | Reporting(outcome: Outcome)
    | Recording(outcome: Outcome, mission: MissionId)
    | Over(outcome: Outcome)

  /** `route` marks a worker started by the approve route: it approves first and reports to the mission last. */
  datatype Worker = Worker(key: ApprovalId, user: Option<User>, route: bool, stage: Stage)

  /** `orchestrated` is the marker that tells orchestrated missions from older ones. */
  datatype Mission = Mission(state: M.MissionState, orchestrated: bool)

  /** The last three fields are history: reservations granted and failed settlements per key,
      and the missions the approve route moved to completed, with the approval it acted for. */
  datatype State = State(
    now: Time,
    approvals: Table,
    ledger: Ledger,
    workers: map<WorkerId, Worker>,
    requests: seq<Request>,
    missions: map<MissionId, Mission>,
    reserved: map<ApprovalId, nat>,
    failures: map<ApprovalId, nat>,
    completions: set<(MissionId, ApprovalId)>)

  ghost predicate Init(s: State) {
    && s.approvals == map[] && s.ledger == map[] && s.workers == map[] && s.requests == []
    && s.reserved == map[] && s.failures == map[] && s.completions == {}
  }

  function Count(counts: map<ApprovalId, nat>, key: ApprovalId): nat {
    if key in counts then counts[key] else 0
  }

  // ------------------------------------------------------------------
  // Events
  // ------------------------------------------------------------------

  /** How the outside world answers the next step of a worker. */
  datatype Chance = Chance(defect: Option<Defect>, fault: Fault, lookup: Lookup, response: Response)

  datatype Event =
    | Tick(to: Time)
    | NewRequest(id: ApprovalId, owner: Option<User>, mission: Option<MissionId>, ttl: Time)
    | OtherApproves(id: ApprovalId, actor: Option<User>)
    | OtherRejects(id: ApprovalId, actor: Option<User>, why: string)
    | ExpiryCheck(id: ApprovalId)
    | NewMission(m: MissionId, orchestrated: bool)
    | MoveMission(m: MissionId, target: M.MissionState)
    | Start(worker: WorkerId, key: ApprovalId, user: Option<User>, route: bool)
    | Work(worker: WorkerId, chance: Chance)
    | Crash(worker: WorkerId)
    | ProviderPins(request: nat, pin: PinId)
    | ProviderRefuses(request: nat)

  /** The provider's premise: it answers 200 with an id only for a pin it made, and 4xx only
      when it will never make one. All other answers, and silence, promise nothing. */
  predicate Honest(s: State, worker: WorkerId, chance: Chance)
    requires worker in s.workers
  {
    var stage := s.workers[worker].stage;
    stage.InConnector? && stage.pc == Awaiting ==>
      && stage.request.Some? && stage.request.value < |s.requests|
      && (chance.response.Accepted? && chance.response.pin.Some? ==>
            s.requests[stage.request.value].fate == Pinned(chance.response.pin.value))
      && (chance.response.Refused? ==> s.requests[stage.request.value].fate == TurnedAway)
  }

  predicate Enabled(s: State, e: Event) {
    match e
    case Tick(to) => s.now <= to
    case NewRequest(id, _, _, _) => id !in s.approvals
    case NewMission(m, _) => m !in s.missions
    case Start(w, _, _, _) => w !in s.workers
    case Work(w, chance) => w in s.workers && Honest(s, w, chance)
    case Crash(w) => w in s.workers
    case ProviderPins(i, _) => i < |s.requests| && s.requests[i].fate == InFlight
    case ProviderRefuses(i) => i < |s.requests| && s.requests[i].fate == InFlight
    case _ => true
  }

  function Apply(s: State, e: Event): State
    requires Enabled(s, e)
  {
    match e
    case Tick(to) => s.(now := to)
    case NewRequest(id, owner, mission, ttl) =>
      s.(approvals := s.approvals[id := NewApproval(owner, mission, s.now, ttl)])
    case OtherApproves(id, actor) =>
      s.(approvals := DbTransition(s.approvals, id, Approved, ApproveStamp(s.now, actor)).0)
    case OtherRejects(id, actor, why) =>
      s.(approvals := DbTransition(s.approvals, id, Rejected, RejectStamp(s.now, actor, why)).0)
    case ExpiryCheck(id) => s.(approvals := DbIsExpired(s.approvals, id, s.now).0)
    case NewMission(m, orchestrated) => s.(missions := s.missions[m := Mission(M.Pending, orchestrated)])
    case MoveMission(m, target) => s.(missions := MoveMissionTo(s.missions, m, target))
    case Start(w, key, user, route) =>
      s.(workers := s.workers[w := Worker(key, user, route, if route then Approving else ReadingApproval)])
    case Work(w, chance) => WorkerStep(s, w, chance)
    case Crash(w) => s.(workers := s.workers - {w})
    case ProviderPins(i, pin) => s.(requests := s.requests[i := s.requests[i].(fate := Pinned(pin))])
    case ProviderRefuses(i) => s.(requests := s.requests[i := s.requests[i].(fate := TurnedAway)])
  }

  /** The UPDATE of a transition, however long ago its writer read the state it starts from. */
  function MoveMissionTo(missions: map<MissionId, Mission>, m: MissionId, target: M.MissionState)
    : map<MissionId, Mission>
  {
    if m in missions then missions[m := missions[m].(state := target)] else missions
  }

  // ------------------------------------------------------------------
  // One step of a worker
  // ------------------------------------------------------------------

  /** The checks `resume` makes on the approval it read; `None` lets the worker through. */
  function ResumeGuard(row: Option<Approval>, user: Option<User>, now: Time): Option<Outcome> {
    if row == None then Some(NotFound)
    else if user.Some? && row.value.owner.Some? && row.value.owner != user then Some(Unauthorized)
    else if user == None && row.value.owner.Some? then Some(Unauthorized)
    else match row.value.status
      case Pending => Some(StillPending)
      case Rejected => Some(WasRejected)
      case Expired => Some(HasExpired)
      case Approved => if PastExpiry(row.value, now) then Some(HasExpired) else None
  }

  /** The guard on the persisted row. A read that fails counts as no row. */
  function LedgerGuard(cell: Option<Row>, user: Option<User>, fault: Fault): Option<Outcome> {
    if user == None || fault != NoFault then None
    else
      var existing := ReadCell(cell, user.value);
      if existing == None then None
      else if existing.value.status == Published && existing.value.pin.Some?
      then Some(AlreadyPublished(existing.value.pin.value))
      else if existing.value.status == Failed then None
      else if existing.value.status == Publishing then Some(PublishInProgress)
      else Some(ReportedUncertain)
  }

  function FromResult(r: PublishResult): Outcome {
    if Succeeded(r) then Resumed(r.pin) else ResumeFailed
  }

  function Finish(wk: Worker, outcome: Outcome): Worker {
    wk.(stage := if wk.route then Reporting(outcome) else Over(outcome))
  }

  /** The mission state an outcome is reflected to, when it is reflected at all. */
  function MissionTarget(outcome: Outcome): Option<M.MissionState> {
    match outcome
    case AlreadyPublished(_) => Some(M.Completed)
    case WasRejected => Some(M.Failed)
    case ReportedUncertain => Some(M.WaitingHuman)
    case Resumed(_) => Some(M.Completed)
    case _ => None
  }

  function Put(s: State, w: WorkerId, wk: Worker): State {
    s.(workers := s.workers[w := wk])
  }

  function WorkerStep(s: State, w: WorkerId, chance: Chance): State
    requires w in s.workers
  {
    var wk := s.workers[w];
    match wk.stage
    case Approving => ApproveStep(s, w)
    case ReadingApproval =>
      var verdict := ResumeGuard(if wk.key in s.approvals then Some(s.approvals[wk.key]) else None, wk.user, s.now);
      Put(s, w, if verdict.Some? then Finish(wk, verdict.value) else wk.(stage := ReadingLedger(s.now)))
    case ReadingLedger(t) =>
      var verdict := LedgerGuard(Cell(s.ledger, wk.key), wk.user, chance.fault);
      Put(s, w,
          if verdict.Some? then Finish(wk, verdict.value)
          else if wk.user == None then Finish(wk, ResumeFailed)
          else wk.(stage := InConnector(Checking, t, None)))
    case InConnector(_, _, _) => PublishStep(s, w, chance)
    case Reporting(outcome) => ReportStep(s, w, outcome)
    case Recording(outcome, mission) => RecordStep(s, w, outcome, mission)
    case Over(_) => s
  }

  function ApproveStep(s: State, w: WorkerId): State
    requires w in s.workers
  {
    var wk := s.workers[w];
    if wk.key !in s.approvals || s.approvals[wk.key].owner != wk.user || wk.user == None
    then Put(s, w, wk.(stage := Over(NotFound)))
    else
      var (rows, reply) := DbTransition(s.approvals, wk.key, Approved, ApproveStamp(s.now, wk.user));
      Put(s.(approvals := rows), w, wk.(stage := if reply.Success? then ReadingApproval else Over(BadRequest)))
  }

  function PublishStep(s: State, w: WorkerId, chance: Chance): State
    requires w in s.workers && s.workers[w].stage.InConnector?
  {
    var wk := s.workers[w];
    if wk.user == None then s
    else
      var stage, owner, cell := wk.stage, wk.user.value, Cell(s.ledger, wk.key);
      match stage.pc
      case Checking => Put(s, w, wk.(stage := stage.(pc := Check(chance.defect))))
      case Claiming =>
        var (pc, cell') := Claim(cell, owner, chance.fault);
        Put(Write(s, wk.key, cell, cell'), w, wk.(stage := stage.(pc := pc)))
      case Reclaiming(seen) =>
        var (pc, cell') := Reclaim(seen, cell, owner, chance.fault);
        Put(Write(s, wk.key, cell, cell'), w, wk.(stage := stage.(pc := pc)))
      case Holding =>
        var pc := Prepare(chance.lookup);
        if pc == Awaiting then
          Put(s.(requests := s.requests + [Request(wk.key, owner, stage.checkedAt, InFlight)]), w,
              wk.(stage := stage.(pc := pc, request := Some(|s.requests|))))
        else Put(s, w, wk.(stage := stage.(pc := pc)))
      case Awaiting => Put(s, w, wk.(stage := stage.(pc := Receive(chance.response))))
      case Settling(verdict) =>
        var (pc, cell') := Settle(verdict, cell, owner, chance.fault);
        Put(Write(s, wk.key, cell, cell'), w, wk.(stage := stage.(pc := pc)))
      case Finished(result) => Put(s, w, Finish(wk, FromResult(result)))
  }

  /** Store a row and keep the history counters: entering `publishing` is a reservation,
      entering `failed` a failed settlement. */
  function Write(s: State, key: ApprovalId, before: Option<Row>, after: Option<Row>): State {
    if before == after || after == None then s
    else
      s.(ledger := s.ledger[key := after.value],
         reserved := if after.value.status == Publishing then s.reserved[key := Count(s.reserved, key) + 1]
                     else s.reserved,
         failures := if after.value.status == Failed then s.failures[key := Count(s.failures, key) + 1] else s.failures)
  }

  /** The mission is read, and an outcome that moves it along an edge is about to be written. */
  function ReportStep(s: State, w: WorkerId, outcome: Outcome): State
    requires w in s.workers
  {
    var wk := s.workers[w];
    var mission := if wk.key in s.approvals then s.approvals[wk.key].mission else None;
    var target := MissionTarget(outcome);
    if mission == None || target == None || mission.value !in s.missions || !s.missions[mission.value].orchestrated
       || !M.MayMove(s.missions[mission.value].state, target.value)
    then Put(s, w, wk.(stage := Over(outcome)))
    else Put(s, w, wk.(stage := Recording(outcome, mission.value)))
  }

  function RecordStep(s: State, w: WorkerId, outcome: Outcome, mission: MissionId): State
    requires w in s.workers
  {
    var target := MissionTarget(outcome);
    var s' := Put(s, w, s.workers[w].(stage := Over(outcome)));
    if target == None then s'
    else
      s'.(missions := MoveMissionTo(s.missions, mission, target.value),
          completions := if target.value == M.Completed then s.completions + {(mission, s.workers[w].key)}
                         else s.completions)
  }

  ghost predicate Next(s: State, t: State) {
    exists e :: Enabled(s, e) && t == Apply(s, e)
  }

  /** State `i` of a run and the one after it are joined by an event. */
  ghost predicate Linked(run: seq<State>, i: int) {
    0 <= i < |run| - 1 ==> Next(run[i], run[i + 1])
  }

  /** A finite run: it starts empty and every state follows from the one before. */
  ghost predicate Run(run: seq<State>) {
    |run| > 0 && Init(run[0]) && forall i :: Linked(run, i)
  }
}
