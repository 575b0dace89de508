/** The approval gateway: one approval record per request, decided once.

    With a database configured every decision is a compare-and-set on the row's
    status; without one the gateway reads, checks and writes a process-local
    dictionary. The two are modelled as the code writes them and proved to answer
    alike on every sequence of calls. */
module ApprovalGateway {
  import opened Wrappers

  type ApprovalId = nat
  type User = nat
  type MissionId = nat
  type Time = nat

  datatype Status = Pending | Approved | Rejected | Expired

  datatype Approval = Approval(
    status: Status,
    owner: Option<User>,
    mission: Option<MissionId>,
    expiresAt: Option<Time>,
    approvedAt: Option<Time>,
    approvedBy: Option<User>,
    rejectedAt: Option<Time>,
    rejectedBy: Option<User>,
    reason: string)

  type Table = map<ApprovalId, Approval>

  /** The columns written together with a new status. */
  datatype Stamp =
    | ApproveStamp(at: Time, approver: Option<User>)
    | RejectStamp(at: Time, rejecter: Option<User>, why: string)
    | NoStamp

  function Stamped(row: Approval, status: Status, stamp: Stamp): Approval {
    match stamp
    case ApproveStamp(at, user) => row.(status := status, approvedAt := Some(at), approvedBy := user)
    case RejectStamp(at, user, why) => row.(status := status, rejectedAt := Some(at), rejectedBy := user, reason := why)
    case NoStamp => row.(status := status)
  }

  function NewApproval(owner: Option<User>, mission: Option<MissionId>, now: Time, ttl: Time): Approval {
    Approval(Pending, owner, mission, Some(now + ttl), None, None, None, None, "")
  }

  datatype CasResult = Updated(row: Approval) | Missing | Changed(row: Approval)

  /** UPDATE ... WHERE id = ? AND status = ?, then a probe that tells a missing row from a changed one. */
  function UpdateStatusIf(rows: Table, id: ApprovalId, expected: Status, status: Status, stamp: Stamp): (Table,
          CasResult) {
    if id !in rows then (rows, Missing)
    else if rows[id].status != expected then (rows, Changed(rows[id]))
    else
      var row := Stamped(rows[id], status, stamp);
      (rows[id := row], Updated(row))
  }

  datatype Error = IdRequired | RequestNotFound | InvalidTransition(current: Status)

  datatype Reply = Success(request: Approval, idempotent: bool) | Failure(error: Error)

  /** `clock` is the wall time at which a call runs. */
  datatype Op =
    | Create(id: ApprovalId, owner: Option<User>, mission: Option<MissionId>, ttl: Time)
    | Approve(id: ApprovalId, actor: Option<User>)
    | Reject(id: ApprovalId, actor: Option<User>, why: string)
    | CheckExpired(id: ApprovalId)

  datatype Timed = Timed(op: Op, now: Time)

  datatype Answer = Replied(reply: Reply) | IsExpired(expired: bool)

  predicate PastExpiry(row: Approval, now: Time) {
    row.expiresAt.Some? && now > row.expiresAt.value
  }

  // ------------------------------------------------------------------
  // With a database: compare-and-set, then classify the row that was found
  // ------------------------------------------------------------------

  function DbTransition(rows: Table, id: ApprovalId, target: Status, stamp: Stamp): (Table, Reply) {
    var (rows', r) := UpdateStatusIf(rows, id, Pending, target, stamp);
    match r
    case Updated(row) => (rows', Success(row, false))
    case Missing => (rows', Failure(RequestNotFound))
    case Changed(row) =>
      (rows', if row.status == target then Success(row, true) else Failure(InvalidTransition(row.status)))
  }

  function DbIsExpired(rows: Table, id: ApprovalId, now: Time): (Table, bool) {
    if id !in rows then (rows, false)
    else if rows[id].status == Expired then (rows, true)
    else if !PastExpiry(rows[id], now) then (rows, false)
    else if rows[id].status == Pending then
      var (rows', r) := UpdateStatusIf(rows, id, Pending, Expired, NoStamp);
      (rows', if r.Changed? then r.row.status == Expired else true)
    else (rows, true)
  }

  function DbStep(rows: Table, t: Timed): (Table, Answer) {
    match t.op
    case Create(id, owner, mission, ttl) =>
      var row := NewApproval(owner, mission, t.now, ttl);
      (rows[id := row], Replied(Success(row, false)))
    case Approve(id, actor) =>
      var (rows', r) := DbTransition(rows, id, Approved, ApproveStamp(t.now, actor)); (rows', Replied(r))
    case Reject(id, actor, why) =>
      var (rows', r) := DbTransition(rows, id, Rejected, RejectStamp(t.now, actor, why)); (rows', Replied(r))
    case CheckExpired(id) =>
      var (rows', e) := DbIsExpired(rows, id, t.now); (rows', IsExpired(e))
  }

  // ------------------------------------------------------------------
  // Without one: read, check, write
  // ------------------------------------------------------------------

  function MemApprove(store: Table, id: ApprovalId, actor: Option<User>, now: Time): (Table, Reply) {
    if id !in store then (store, Failure(RequestNotFound))
    else if store[id].status == Approved then (store, Success(store[id], true))
    else if store[id].status != Pending then (store, Failure(InvalidTransition(store[id].status)))
    else
      var row := store[id].(status := Approved, approvedAt := Some(now), approvedBy := actor);
      (store[id := row], Success(row, false))
  }

  function MemReject(store: Table, id: ApprovalId, actor: Option<User>, why: string, now: Time): (Table, Reply) {
    if id !in store then (store, Failure(RequestNotFound))
    else if store[id].status == Rejected then (store, Success(store[id], true))
    else if store[id].status != Pending then (store, Failure(InvalidTransition(store[id].status)))
    else
      var row := store[id].(status := Rejected, rejectedAt := Some(now), reason := why, rejectedBy := actor);
      (store[id := row], Success(row, false))
  }

  function MemIsExpired(store: Table, id: ApprovalId, now: Time): (Table, bool) {
    if id !in store then (store, false)
    else if store[id].status == Expired then (store, true)
    else if !PastExpiry(store[id], now) then (store, false)
    else if store[id].status == Pending then (store[id := store[id].(status := Expired)], true)
    else (store, true)
  }

  function MemStep(store: Table, t: Timed): (Table, Answer) {
    match t.op
    case Create(id, owner, mission, ttl) =>
      var row := NewApproval(owner, mission, t.now, ttl);
      (store[id := row], Replied(Success(row, false)))
    case Approve(id, actor) => var (s, r) := MemApprove(store, id, actor, t.now); (s, Replied(r))
    case Reject(id, actor, why) => var (s, r) := MemReject(store, id, actor, why, t.now); (s, Replied(r))
    case CheckExpired(id) => var (s, e) := MemIsExpired(store, id, t.now); (s, IsExpired(e))
  }

  // ------------------------------------------------------------------
  // The gateway object
  // ------------------------------------------------------------------

  class Gateway {
    const configured: bool
    var rows: Table
    var memory: Table

    constructor (configured: bool)
      ensures this.configured == configured && rows == map[] && memory == map[]
    {
      this.configured := configured;
      rows, memory := map[], map[];
    }

    /** The state a caller observes: the table when there is one, the dictionary otherwise. */
    function Store(): Table
      reads this
    {
      if configured then rows else memory
    }

    method WriteThrough(id: ApprovalId, row: Approval)
      modifies this`memory
      ensures memory == old(memory)[id := row]
    {
      memory := memory[id := row];
    }

    method CreateRequest(id: ApprovalId, owner: Option<User>, mission: Option<MissionId>, ttl: Time, now: Time)
      returns (reply: Reply)
      modifies this
      ensures configured ==> DbStep(old(rows), Timed(Create(id, owner, mission, ttl), now)) == (rows, Replied(reply))
      ensures !configured ==> rows == old(rows)
      ensures !configured ==>
                MemStep(old(memory), Timed(Create(id, owner, mission, ttl), now)) == (memory, Replied(reply))
    {
      var row := NewApproval(owner, mission, now, ttl);
      if configured {
        rows := rows[id := row];
        WriteThrough(id, row);
      } else {
        memory := memory[id := row];
      }
      reply := Success(row, false);
    }

    method CompareAndSet(id: ApprovalId, expected: Status, status: Status, stamp: Stamp) returns (r: CasResult)
      modifies this`rows
      ensures (rows, r) == UpdateStatusIf(old(rows), id, expected, status, stamp)
    {
      if id in rows && rows[id].status == expected {
        rows := rows[id := Stamped(rows[id], status, stamp)];
        return Updated(rows[id]);
      }
      if id in rows {
        return Changed(rows[id]);
      }
      return Missing;
    }

    method Transition(id: ApprovalId, target: Status, stamp: Stamp) returns (reply: Reply)
      modifies this
      ensures (rows, reply) == DbTransition(old(rows), id, target, stamp)
    {
      var r := CompareAndSet(id, Pending, target, stamp);
      match r
      case Updated(row) =>
        WriteThrough(id, row);
        return Success(row, false);
      case Missing =>
        return Failure(RequestNotFound);
      case Changed(row) =>
        if row.status == target {
          WriteThrough(id, row);
          return Success(row, true);
        }
        return Failure(InvalidTransition(row.status));
    }

    /** An empty id is answered before either store is consulted. */
    method ApproveRequest(id: Option<ApprovalId>, actor: Option<User>, now: Time) returns (reply: Reply)
      modifies this
      ensures id == None ==> reply == Failure(IdRequired) && rows == old(rows) && memory == old(memory)
      ensures id.Some? && configured ==>
                DbStep(old(rows), Timed(Approve(id.value, actor), now)) == (rows, Replied(reply))
      ensures id.Some? && !configured ==>
                MemStep(old(memory), Timed(Approve(id.value, actor), now)) == (memory, Replied(reply))
    {
      if id == None {
        return Failure(IdRequired);
      }
      if configured {
        reply := Transition(id.value, Approved, ApproveStamp(now, actor));
        return;
      }
      if id.value !in memory {
        return Failure(RequestNotFound);
      }
      var record := memory[id.value];
      if record.status == Approved {
        return Success(record, true);
      }
      if record.status != Pending {
        return Failure(InvalidTransition(record.status));
      }
      record := record.(status := Approved);
      record := record.(approvedAt := Some(now));
      record := record.(approvedBy := actor);
      memory := memory[id.value := record];
      return Success(record, false);
    }

    method RejectRequest(id: Option<ApprovalId>, actor: Option<User>, why: string, now: Time) returns (reply: Reply)
      modifies this
      ensures id == None ==> reply == Failure(IdRequired) && rows == old(rows) && memory == old(memory)
      ensures id.Some? && configured ==>
                DbStep(old(rows), Timed(Reject(id.value, actor, why), now)) == (rows, Replied(reply))
      ensures id.Some? && !configured ==>
                MemStep(old(memory), Timed(Reject(id.value, actor, why), now)) == (memory, Replied(reply))
    {
      if id == None {
        return Failure(IdRequired);
      }
      if configured {
        reply := Transition(id.value, Rejected, RejectStamp(now, actor, why));
        return;
      }
      if id.value !in memory {
        return Failure(RequestNotFound);
      }
      var record := memory[id.value];
      if record.status == Rejected {
        return Success(record, true);
      }
      if record.status != Pending {
        return Failure(InvalidTransition(record.status));
      }
      record := record.(status := Rejected);
      record := record.(rejectedAt := Some(now));
      record := record.(reason := why);
      record := record.(rejectedBy := actor);
      memory := memory[id.value := record];
      return Success(record, false);
    }

    method CheckIsExpired(id: ApprovalId, now: Time) returns (expired: bool)
      modifies this
      ensures configured ==> DbStep(old(rows), Timed(CheckExpired(id), now)) == (rows, IsExpired(expired))
      ensures !configured ==> MemStep(old(memory), Timed(CheckExpired(id), now)) == (memory, IsExpired(expired))
    {
      if id !in Store() {
        return false;
      }
      var request := Store()[id];
      if configured {
        WriteThrough(id, request);
      }
      if request.status == Expired {
        return true;
      }
      if request.expiresAt == None || now <= request.expiresAt.value {
        return false;
      }
      if configured && request.status == Pending {
        var r := CompareAndSet(id, Pending, Expired, NoStamp);
        match r
        case Updated(row) =>
          WriteThrough(id, row);
          return true;
        case Changed(row) =>
          return row.status == Expired;
        case Missing =>
          return true;
      }
      if !configured && memory[id].status == Pending {
        memory := memory[id := memory[id].(status := Expired)];
      }
      return true;
    }
  }

  // ------------------------------------------------------------------
  // Whole runs
  // ------------------------------------------------------------------

  function DbRun(ops: seq<Timed>): (r: (Table, seq<Answer>))
    ensures |r.1| == |ops|
    decreases |ops|
  {
    if ops == [] then (map[], [])
    else
      var (rows, answers) := DbRun(ops[..|ops| - 1]);
      var (rows', a) := DbStep(rows, ops[|ops| - 1]);
      (rows', answers + [a])
  }

  function MemRun(ops: seq<Timed>): (r: (Table, seq<Answer>))
    ensures |r.1| == |ops|
    decreases |ops|
  {
    if ops == [] then (map[], [])
    else
      var (store, answers) := MemRun(ops[..|ops| - 1]);
      var (store', a) := MemStep(store, ops[|ops| - 1]);
      (store', answers + [a])
  }

  lemma StepsAgree(rows: Table, t: Timed)
    ensures DbStep(rows, t) == MemStep(rows, t)
  {
    if t.op.CheckExpired? && t.op.id in rows {
      assert Stamped(rows[t.op.id], Expired, NoStamp) == rows[t.op.id].(status := Expired);
    }
  }

  /** Whatever the calls, in-memory and database gateways hold equal records and give equal
      answers: the same success, status and idempotent flags, call by call. */
  lemma {:induction false} GatewaysAgree(ops: seq<Timed>)
    ensures DbRun(ops) == MemRun(ops)
    decreases |ops|
  {
    if ops != [] {
      GatewaysAgree(ops[..|ops| - 1]);
      StepsAgree(DbRun(ops[..|ops| - 1]).0, ops[|ops| - 1]);
    }
  }

  // ------------------------------------------------------------------
  // One decision per request
  // ------------------------------------------------------------------

  /** What a reader of the call log alone would say happened to a request. */
  datatype Verdict =
    | NeverCreated
    | Undecided(deadline: Time)
    | ApprovedBy(actor: Option<User>, at: Time)
    | RejectedBy(actor: Option<User>, at: Time, why: string)
    | TimedOut

  predicate Decided(v: Verdict) {
    v.ApprovedBy? || v.RejectedBy? || v.TimedOut?
  }

  function Mentions(id: ApprovalId, t: Timed): bool {
    t.op.id == id
  }

  /** The verdict of the call log: the first decisive call after creation wins. */
  function FirstDecision(ops: seq<Timed>, id: ApprovalId): Verdict
    decreases |ops|
  {
    if ops == [] then NeverCreated
    else
      var before := FirstDecision(ops[..|ops| - 1], id);
      var last := ops[|ops| - 1];
      if !Mentions(id, last) || Decided(before) then before
      else
        match last.op
        case Create(_, _, _, ttl) => Undecided(last.now + ttl)
        case Approve(_, actor) => if before.Undecided? then ApprovedBy(actor, last.now) else before
        case Reject(_, actor, why) => if before.Undecided? then RejectedBy(actor, last.now, why) else before
        case CheckExpired(_) => if before.Undecided? && last.now > before.deadline then TimedOut else before
  }

  /** Request ids are fresh: no id is created twice. */
  predicate FreshIds(ops: seq<Timed>) {
    forall i, j :: 0 <= i < j < |ops| && ops[i].op.Create? && ops[j].op.Create? ==> ops[i].op.id != ops[j].op.id
  }

  predicate Shows(rows: Table, id: ApprovalId, v: Verdict) {
    match v
    case NeverCreated => id !in rows
    case Undecided(deadline) =>
      id in rows && rows[id].status == Pending && rows[id].expiresAt == Some(deadline)
      && rows[id].approvedBy == None && rows[id].rejectedBy == None
    case ApprovedBy(actor, at) =>
      id in rows && rows[id].status == Approved && rows[id].approvedBy == actor && rows[id].approvedAt == Some(at)
      && rows[id].rejectedBy == None
    case RejectedBy(actor, at, why) =>
      id in rows && rows[id].status == Rejected && rows[id].rejectedBy == actor && rows[id].rejectedAt == Some(at)
      && rows[id].reason == why && rows[id].approvedBy == None
    case TimedOut =>
      id in rows && rows[id].status == Expired && rows[id].approvedBy == None && rows[id].rejectedBy == None
  }

  /** The call that created a request. */
  function Creation(ops: seq<Timed>, id: ApprovalId): Option<Timed>
    decreases |ops|
  {
    if ops == [] then None
    else
      var last := ops[|ops| - 1];
      if last.op.Create? && last.op.id == id then Some(last) else Creation(ops[..|ops| - 1], id)
  }

  /** The row carries the owner, the mission and the deadline it was created with. */
  predicate CreatedAs(rows: Table, id: ApprovalId, creation: Option<Timed>) {
    (creation == None <==> id !in rows)
    && (creation.Some? && creation.value.op.Create? && id in rows ==>
          rows[id].owner == creation.value.op.owner && rows[id].mission == creation.value.op.mission
          && rows[id].expiresAt == Some(creation.value.now + creation.value.op.ttl))
  }

  /** Whatever is decided later, the record names its creator's owner, mission and deadline. */
  lemma {:induction false} RecordKeepsItsCreation(ops: seq<Timed>, id: ApprovalId)
    ensures CreatedAs(DbRun(ops).0, id, Creation(ops, id))
    decreases |ops|
  {
    if ops != [] {
      RecordKeepsItsCreation(ops[..|ops| - 1], id);
    }
  }

  lemma {:induction false} CreatedBefore(ops: seq<Timed>, id: ApprovalId)
    ensures FirstDecision(ops, id) != NeverCreated ==>
              exists i :: 0 <= i < |ops| && ops[i].op.Create? && ops[i].op.id == id
    decreases |ops|
  {
    if ops != [] {
      var shorter := ops[..|ops| - 1];
      CreatedBefore(shorter, id);
      if FirstDecision(shorter, id) != NeverCreated {
        var i :| 0 <= i < |shorter| && shorter[i].op.Create? && shorter[i].op.id == id;
        assert ops[i] == shorter[i];
      } else if FirstDecision(ops, id) != NeverCreated {
        assert ops[|ops| - 1].op.Create? && ops[|ops| - 1].op.id == id;
      }
    }
  }

  /** The record stored for a request is the first decision in the call log, with its actor,
      its time and its reason. No later call changes any of them. */
  lemma {:induction false} RecordIsFirstDecision(ops: seq<Timed>, id: ApprovalId)
    requires FreshIds(ops)
    ensures Shows(DbRun(ops).0, id, FirstDecision(ops, id))
    decreases |ops|
  {
    if ops != [] {
      var shorter, last := ops[..|ops| - 1], ops[|ops| - 1];
      assert forall i :: 0 <= i < |shorter| ==> shorter[i] == ops[i];
      RecordIsFirstDecision(shorter, id);
      if last.op.Create? && last.op.id == id {
        CreatedBefore(shorter, id);
      }
    }
  }

  /** A decided request is decided for good: extending the call log leaves the verdict,
      and therefore the stored status, actor, time and reason, as they were. */
  lemma {:induction false} DecisionIsFinal(ops: seq<Timed>, more: seq<Timed>, id: ApprovalId)
    requires FreshIds(ops + more)
    requires Decided(FirstDecision(ops, id))
    ensures FirstDecision(ops + more, id) == FirstDecision(ops, id)
    ensures Shows(DbRun(ops + more).0, id, FirstDecision(ops, id))
    decreases |more|
  {
    if more == [] {
      assert ops + more == ops;
    } else {
      var shorter := more[..|more| - 1];
      assert (ops + more)[..|ops + more| - 1] == ops + shorter;
      assert FreshIds(ops + shorter) by {
        assert forall i :: 0 <= i < |ops + shorter| ==> (ops + shorter)[i] == (ops + more)[i];
      }
      DecisionIsFinal(ops, shorter, id);
    }
    RecordIsFirstDecision(ops + more, id);
  }

  /** The request was answered with its row. */
  predicate Answered(rows: Table, id: ApprovalId, answer: Answer, idempotent: bool) {
    id in rows && answer == Replied(Success(rows[id], idempotent))
  }

  predicate AnswersAs(t: Timed, v: Verdict, creation: Option<Timed>, rows: Table, answer: Answer) {
    var id := t.op.id;
    (t.op.Create? ==> Answered(rows, id, answer, false))
    && ((t.op.Approve? || t.op.Reject?) && v == NeverCreated ==> answer == Replied(Failure(RequestNotFound)))
    && ((t.op.Approve? || t.op.Reject?) && v.Undecided? ==> Answered(rows, id, answer, false))
    && ((t.op.Approve? || t.op.Reject?) && v.TimedOut? ==> answer == Replied(Failure(InvalidTransition(Expired))))
    && (t.op.Approve? && v.ApprovedBy? ==> Answered(rows, id, answer, true))
    && (t.op.Approve? && v.RejectedBy? ==> answer == Replied(Failure(InvalidTransition(Rejected))))
    && (t.op.Reject? && v.RejectedBy? ==> Answered(rows, id, answer, true))
    && (t.op.Reject? && v.ApprovedBy? ==> answer == Replied(Failure(InvalidTransition(Approved))))
    && (t.op.CheckExpired? ==>
          (answer == IsExpired(true)
           <==> v.TimedOut? || (creation.Some? && creation.value.op.Create?
                                && t.now > creation.value.now + creation.value.op.ttl))
          && answer.IsExpired?)
  }

  /** What the next call about a request is answered follows from the decision so far alone: the first of
      a kind succeeds, its repetitions are idempotent, anything else is refused with the status; and the
      expiry check says yes exactly on an expired request or a deadline that has passed. */
  lemma AnswerFollowsFirstDecision(ops: seq<Timed>, t: Timed)
    requires FreshIds(ops)
    ensures AnswersAs(t, FirstDecision(ops, t.op.id), Creation(ops, t.op.id), DbStep(DbRun(ops).0, t).0,
                      DbStep(DbRun(ops).0, t).1)
  {
    RecordIsFirstDecision(ops, t.op.id);
    RecordKeepsItsCreation(ops, t.op.id);
    CreationIsOne(ops, t.op.id);
  }

  lemma {:induction false} CreationIsOne(ops: seq<Timed>, id: ApprovalId)
    ensures Creation(ops, id).Some? ==> Creation(ops, id).value.op.Create?
    decreases |ops|
  {
    if ops != [] {
      CreationIsOne(ops[..|ops| - 1], id);
    }
  }

  /** Approval does not look at the clock: a pending request is approved even past its deadline,
      unless an expiry check got there first. Success is decided by the status alone. */
  lemma ApprovalIgnoresTheClock(rows: Table, id: ApprovalId, actor: Option<User>, now: Time)
    ensures DbTransition(rows, id, Approved, ApproveStamp(now, actor)).1.Success?
       <==> id in rows && (rows[id].status == Pending || rows[id].status == Approved)
    ensures id in rows && rows[id].status == Pending && PastExpiry(rows[id], now) ==>
              var rows' := DbTransition(rows, id, Approved, ApproveStamp(now, actor)).0;
              rows'[id].status == Approved && DbIsExpired(rows', id, now) == (rows', true)
  {
  }
}
