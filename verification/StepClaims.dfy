/** Step claims: attempts with leases and fencing tokens.

    A claim inserts one attempt of one operation. It is refused while another attempt of the
    operation is completed or still leased; an attempt whose lease ran out is failed and loses
    its token, so that its old holder can no longer settle it. */
module StepClaims {
  import opened Wrappers

  type Time = nat
  type Token = nat
  type StepName = string

  datatype StepStatus = Waiting | Assigned | InProgress | Completed | Failed

  /** The composite string keys, kept apart as tuples. */
  datatype AttemptKey =
    | PlanKey(execution: nat, step: StepName, attempt: nat)
    | ApprovalKey(execution: nat)

  datatype OperationKey = OperationKey(mission: nat, execution: nat, step: StepName)

  datatype StepRow = StepRow(
    id: nat,
    execution: nat,
    owner: nat,
    name: StepName,
    status: StepStatus,
    attempt: nat,
    key: AttemptKey,
    operation: OperationKey,
    token: Option<Token>,
    lease: Option<Time>)

  datatype ClaimRequest = ClaimRequest(
    id: nat,
    execution: nat,
    owner: nat,
    name: StepName,
    attempt: nat,
    key: AttemptKey,
    operation: OperationKey,
    token: Token,
    leaseSeconds: nat)

  const DEFAULT_CLAIM_LEASE_SECONDS := 60

  datatype ClaimReply = ClaimReply(row: StepRow, claimed: bool)

  // ------------------------------------------------------------------
  // Specification
  // ------------------------------------------------------------------

  /** The first of the first `n` rows holding this owner's attempt key. */
  function FindKey(rows: seq<StepRow>, n: nat, owner: nat, key: AttemptKey): (r: Option<nat>)
    requires n <= |rows|
    ensures r.Some? ==> r.value < n && rows[r.value].owner == owner && rows[r.value].key == key
    ensures r == None ==> forall i :: 0 <= i < n ==> !(rows[i].owner == owner && rows[i].key == key)
  {
    if n == 0 then None
    else
      var before := FindKey(rows, n - 1, owner, key);
      if before.Some? then before
      else if rows[n - 1].owner == owner && rows[n - 1].key == key then Some(n - 1)
      else None
  }

  predicate Related(row: StepRow, execution: nat, owner: nat, operation: OperationKey) {
    row.execution == execution && row.owner == owner && row.operation == operation
  }

  /** Among the first `n` rows of the operation, the first with the largest attempt. */
  function Latest(rows: seq<StepRow>, n: nat, execution: nat, owner: nat, operation: OperationKey): (r: Option<nat>)
    requires n <= |rows|
    ensures r.Some? ==> r.value < n && Related(rows[r.value], execution, owner, operation)
    ensures r.Some? ==> forall i :: 0 <= i < n && Related(rows[i], execution, owner, operation) ==>
              rows[i].attempt <= rows[r.value].attempt && (rows[i].attempt == rows[r.value].attempt ==> r.value <= i)
    ensures r == None ==> forall i :: 0 <= i < n ==> !Related(rows[i], execution, owner, operation)
  {
    if n == 0 then None
    else
      var before := Latest(rows, n - 1, execution, owner, operation);
      if !Related(rows[n - 1], execution, owner, operation) then before
      else if before == None || rows[n - 1].attempt > rows[before.value].attempt then Some(n - 1)
      else before
  }

  predicate Leased(row: StepRow, now: Time) {
    row.status == InProgress && row.lease.Some? && row.lease.value > now
  }

  function Recovered(row: StepRow): StepRow {
    row.(status := Failed, token := None)
  }

  function NewRow(r: ClaimRequest, now: Time): StepRow {
    StepRow(r.id, r.execution, r.owner, r.name, InProgress, r.attempt, r.key, r.operation,
            Some(r.token), Some(now + r.leaseSeconds))
  }

  function GrantClaim(rows: seq<StepRow>, r: ClaimRequest, now: Time): (seq<StepRow>, ClaimReply) {
    var known := FindKey(rows, |rows|, r.owner, r.key);
    if known.Some? then (rows, ClaimReply(rows[known.value], false))
    else
      var latest := Latest(rows, |rows|, r.execution, r.owner, r.operation);
      if latest.Some? && (rows[latest.value].status == Completed || Leased(rows[latest.value], now)) then
        (rows, ClaimReply(rows[latest.value], false))
      else
        var rows' := if latest.Some? && rows[latest.value].status == InProgress
                     then rows[latest.value := Recovered(rows[latest.value])] else rows;
        (rows' + [NewRow(r, now)], ClaimReply(NewRow(r, now), true))
  }

  /** UPDATE ... WHERE id = ? AND execution = ? AND token = ?: the row found, or none. */
  function FindHeld(rows: seq<StepRow>, n: nat, execution: nat, id: nat, token: Token): (r: Option<nat>)
    requires n <= |rows|
    ensures r.Some? ==> r.value < n && rows[r.value].id == id && rows[r.value].execution == execution
                        && rows[r.value].token == Some(token)
    ensures r == None ==> forall i :: 0 <= i < n ==>
              !(rows[i].id == id && rows[i].execution == execution && rows[i].token == Some(token))
  {
    if n == 0 then None
    else
      var before := FindHeld(rows, n - 1, execution, id, token);
      if before.Some? then before
      else if rows[n - 1].id == id && rows[n - 1].execution == execution && rows[n - 1].token == Some(token)
      then Some(n - 1)
      else None
  }

  function Settled(row: StepRow, name: Option<StepName>, status: StepStatus): StepRow {
    row.(status := status, name := if name.Some? then name.value else row.name)
  }

  function SettleHeld(rows: seq<StepRow>, execution: nat, id: nat, name: Option<StepName>, token: Token,
          status: StepStatus)
    : (seq<StepRow>, bool)
  {
    var held := FindHeld(rows, |rows|, execution, id, token);
    if held == None then (rows, false)
    else (rows[held.value := Settled(rows[held.value], name, status)], true)
  }

  /** One more than the largest attempt recorded under the step's name. */
  function NextAttempt(rows: seq<StepRow>, n: nat, execution: nat, owner: nat, name: StepName): (a: nat)
    requires n <= |rows|
    ensures forall i :: 0 <= i < n && rows[i].execution == execution
                        && rows[i].owner == owner && rows[i].name == name ==>
              rows[i].attempt < a
    ensures a > 0 ==> exists i :: 0 <= i < n && rows[i].execution == execution && rows[i].owner == owner
                                  && rows[i].name == name && rows[i].attempt == a - 1
  {
    if n == 0 then 0
    else
      var before := NextAttempt(rows, n - 1, execution, owner, name);
      var row := rows[n - 1];
      if row.execution == execution && row.owner == owner && row.name == name && row.attempt >= before
      then row.attempt + 1
      else before
  }

  function CompletedNames(rows: seq<StepRow>, n: nat, execution: nat, owner: nat): (names: set<StepName>)
    requires n <= |rows|
    ensures forall name :: name in names <==>
              exists i :: 0 <= i < n && rows[i].execution == execution && rows[i].owner == owner
                          && rows[i].status == Completed && rows[i].name == name
  {
    if n == 0 then {}
    else
      var row := rows[n - 1];
      CompletedNames(rows, n - 1, execution, owner)
      + (if row.execution == execution && row.owner == owner && row.status == Completed then {row.name} else {})
  }

  // ------------------------------------------------------------------
  // The service
  // ------------------------------------------------------------------

  class MissionExecutionService {
    var steps: seq<StepRow>

    constructor ()
      ensures steps == []
    {
      steps := [];
    }

    method ClaimStep(r: ClaimRequest, now: Time) returns (reply: ClaimReply)
      modifies this
      ensures (steps, reply) == GrantClaim(old(steps), r, now)
    {
      var i := 0;
      while i < |steps|
        invariant i <= |steps|
        invariant FindKey(steps, i, r.owner, r.key) == None
      {
        if steps[i].owner == r.owner && steps[i].key == r.key {
          FindKeyStays(steps, i + 1, |steps|, r.owner, r.key);
          return ClaimReply(steps[i], false);
        }
        i := i + 1;
      }
      var latest: Option<nat> := None;
      i := 0;
      while i < |steps|
        invariant i <= |steps|
        invariant latest == Latest(steps, i, r.execution, r.owner, r.operation)
      {
        if Related(steps[i], r.execution, r.owner, r.operation)
           && (latest == None || steps[i].attempt > steps[latest.value].attempt)
        {
          latest := Some(i);
        }
        i := i + 1;
      }
      if latest.Some? && steps[latest.value].status == Completed {
        return ClaimReply(steps[latest.value], false);
      }
      if latest.Some? && steps[latest.value].status == InProgress {
        var lease := steps[latest.value].lease;
        if lease.Some? && lease.value > now {
          return ClaimReply(steps[latest.value], false);
        }
        steps := steps[latest.value := steps[latest.value].(status := Failed, token := None)];
      }
      var record := StepRow(r.id, r.execution, r.owner, r.name, InProgress, r.attempt, r.key, r.operation,
                            Some(r.token), Some(now + r.leaseSeconds));
      steps := steps + [record];
      return ClaimReply(record, true);
    }

    method UpdateStep(execution: nat, id: nat, name: Option<StepName>, token: Token,
            status: StepStatus) returns (updated: bool)
      modifies this
      ensures (steps, updated) == SettleHeld(old(steps), execution, id, name, token, status)
    {
      var i := 0;
      while i < |steps|
        invariant i <= |steps| && steps == old(steps)
        invariant FindHeld(steps, i, execution, id, token) == None
      {
        if steps[i].id == id && steps[i].execution == execution && steps[i].token == Some(token) {
          FindHeldStays(steps, i + 1, |steps|, execution, id, token);
          var record := steps[i].(status := status);
          if name.Some? {
            record := record.(name := name.value);
          }
          steps := steps[i := record];
          return true;
        }
        i := i + 1;
      }
      return false;
    }

    method NextAttemptIndex(execution: nat, owner: nat, name: StepName) returns (attempt: nat)
      ensures attempt == NextAttempt(steps, |steps|, execution, owner, name)
    {
      attempt := 0;
      var i := 0;
      while i < |steps|
        invariant i <= |steps|
        invariant attempt == NextAttempt(steps, i, execution, owner, name)
      {
        if steps[i].execution == execution && steps[i].owner == owner
           && steps[i].name == name && steps[i].attempt >= attempt {
          attempt := steps[i].attempt + 1;
        }
        i := i + 1;
      }
    }

    method LoadCompleted(execution: nat, owner: nat) returns (names: set<StepName>)
      ensures names == CompletedNames(steps, |steps|, execution, owner)
    {
      names := {};
      var i := 0;
      while i < |steps|
        invariant i <= |steps|
        invariant names == CompletedNames(steps, i, execution, owner)
      {
        if steps[i].execution == execution && steps[i].owner == owner && steps[i].status == Completed {
          names := names + {steps[i].name};
        }
        i := i + 1;
      }
    }
  }

  lemma {:induction false} FindKeyStays(rows: seq<StepRow>, m: nat, n: nat, owner: nat, key: AttemptKey)
    requires m <= n <= |rows| && FindKey(rows, m, owner, key).Some?
    ensures FindKey(rows, n, owner, key) == FindKey(rows, m, owner, key)
  {
    if m < n {
      FindKeyStays(rows, m, n - 1, owner, key);
    }
  }

  lemma {:induction false} FindHeldStays(rows: seq<StepRow>, m: nat, n: nat, execution: nat, id: nat, token: Token)
    requires m <= n <= |rows| && FindHeld(rows, m, execution, id, token).Some?
    ensures FindHeld(rows, n, execution, id, token) == FindHeld(rows, m, execution, id, token)
  {
    if m < n {
      FindHeldStays(rows, m, n - 1, execution, id, token);
    }
  }

  // ------------------------------------------------------------------
  // The attempt discipline
  // ------------------------------------------------------------------

  /** Attempts of an operation are recorded in order, and every one but the last has failed. */
  ghost predicate Ordered(rows: seq<StepRow>) {
    forall i, j :: 0 <= i < j < |rows| && Related(rows[j], rows[i].execution, rows[i].owner, rows[i].operation) ==>
      rows[i].attempt < rows[j].attempt && rows[i].status == Failed
  }

  ghost predicate Recorded(rows: seq<StepRow>, execution: nat, owner: nat, operation: OperationKey, attempt: nat) {
    exists i :: 0 <= i < |rows| && Related(rows[i], execution, owner, operation) && rows[i].attempt == attempt
  }

  /** No attempt is recorded before the one below it. */
  ghost predicate Contiguous(rows: seq<StepRow>) {
    forall i :: 0 <= i < |rows| && rows[i].attempt > 0 ==>
      Recorded(rows, rows[i].execution, rows[i].owner, rows[i].operation, rows[i].attempt - 1)
  }

  /** Every claim and every settlement so far left one of three statuses. */
  predicate Known(rows: seq<StepRow>) {
    forall i :: 0 <= i < |rows| ==>
      rows[i].status == InProgress || rows[i].status == Completed || rows[i].status == Failed
  }

  ghost predicate Disciplined(rows: seq<StepRow>) {
    Ordered(rows) && Contiguous(rows) && Known(rows)
  }

  /** Attempts start at zero and have no gaps. */
  lemma {:induction false} AttemptsReachDown(rows: seq<StepRow>, execution: nat, owner: nat, operation: OperationKey,
          top: nat, attempt: nat)
    requires Contiguous(rows) && Recorded(rows, execution, owner, operation, top) && attempt <= top
    ensures Recorded(rows, execution, owner, operation, attempt)
    decreases top
  {
    if attempt < top {
      var i :| 0 <= i < |rows| && Related(rows[i], execution, owner, operation) && rows[i].attempt == top;
      AttemptsReachDown(rows, execution, owner, operation, top - 1, attempt);
    }
  }

  /** In a disciplined table the recorded attempts of an operation are exactly 0, 1, ..., n - 1
      for some n, each recorded once; at most one is completed, and at most one is in progress. */
  lemma DisciplineMeans(rows: seq<StepRow>, i: nat, j: nat)
    requires Disciplined(rows) && i < |rows| && j < |rows|
    requires Related(rows[j], rows[i].execution, rows[i].owner, rows[i].operation)
    ensures rows[i].attempt == rows[j].attempt ==> i == j
    ensures rows[i].status == Completed && rows[j].status == Completed ==> i == j
    ensures rows[i].status == InProgress && rows[j].status == InProgress ==> i == j
    ensures rows[i].status == Completed ==> rows[j].attempt <= rows[i].attempt
    ensures forall a :: 0 <= a <= rows[i].attempt ==>
              Recorded(rows, rows[i].execution, rows[i].owner, rows[i].operation, a)
  {
    assert Recorded(rows, rows[i].execution, rows[i].owner, rows[i].operation, rows[i].attempt);
    forall a: nat | a <= rows[i].attempt
      ensures Recorded(rows, rows[i].execution, rows[i].owner, rows[i].operation, a)
    {
      AttemptsReachDown(rows, rows[i].execution, rows[i].owner, rows[i].operation, rows[i].attempt, a);
    }
  }

  /** The attempt key is derived from the operation's step and the attempt, as the plan runner derives it. */
  predicate Keyed(rows: seq<StepRow>) {
    forall i :: 0 <= i < |rows| ==> rows[i].key == PlanKey(rows[i].execution, rows[i].operation.step, rows[i].attempt)
  }

  /** Every operation key names its own execution, and an execution belongs to one mission. */
  predicate OfOneMission(rows: seq<StepRow>, operation: OperationKey) {
    forall i :: 0 <= i < |rows| && rows[i].execution == operation.execution ==>
      rows[i].operation.mission == operation.mission && rows[i].operation.execution == operation.execution
  }

  /** A claim whose attempt is backed by the attempt below it keeps the discipline, however stale
      the read that chose the attempt was. */
  lemma ClaimKeepsDiscipline(rows: seq<StepRow>, r: ClaimRequest, now: Time)
    requires Disciplined(rows) && Keyed(rows)
    requires r.key == PlanKey(r.execution, r.operation.step, r.attempt)
    requires r.attempt > 0 ==> Recorded(rows, r.execution, r.owner, r.operation, r.attempt - 1)
    ensures Disciplined(GrantClaim(rows, r, now).0) && Keyed(GrantClaim(rows, r, now).0)
  {
    if GrantClaim(rows, r, now).1.claimed {
      GrantKeepsDiscipline(rows, r, now);
      GrantKeepsKeys(rows, r, now);
    } else {
      RefusalChangesNothing(rows, r, now);
    }
  }

  lemma RefusalChangesNothing(rows: seq<StepRow>, r: ClaimRequest, now: Time)
    ensures !GrantClaim(rows, r, now).1.claimed ==> GrantClaim(rows, r, now).0 == rows
  {
  }

  lemma GrantKeepsDiscipline(rows: seq<StepRow>, r: ClaimRequest, now: Time)
    requires Disciplined(rows) && Keyed(rows) && r.key == PlanKey(r.execution, r.operation.step, r.attempt)
    requires r.attempt > 0 ==> Recorded(rows, r.execution, r.owner, r.operation, r.attempt - 1)
    requires GrantClaim(rows, r, now).1.claimed
    ensures Disciplined(GrantClaim(rows, r, now).0)
  {
    assert Ordered(GrantClaim(rows, r, now).0) by {
      ClaimedAttemptIsNew(rows, r, now);
      ClaimKeepsOrder(rows, r, now);
    }
    assert Contiguous(GrantClaim(rows, r, now).0) by {
      ClaimKeepsContiguity(rows, r, now);
    }
    assert Known(GrantClaim(rows, r, now).0) by {
      GrantKeepsStatuses(rows, r, now);
    }
  }

  lemma GrantKeepsStatuses(rows: seq<StepRow>, r: ClaimRequest, now: Time)
    requires Known(rows) && GrantClaim(rows, r, now).1.claimed
    ensures Known(GrantClaim(rows, r, now).0)
  {
    GrantAppends(rows, r, now);
  }

  lemma GrantKeepsKeys(rows: seq<StepRow>, r: ClaimRequest, now: Time)
    requires Keyed(rows) && r.key == PlanKey(r.execution, r.operation.step, r.attempt)
    requires GrantClaim(rows, r, now).1.claimed
    ensures Keyed(GrantClaim(rows, r, now).0)
  {
    GrantAppends(rows, r, now);
  }

  /** A granted attempt is larger than every recorded one. */
  lemma ClaimedAttemptIsNew(rows: seq<StepRow>, r: ClaimRequest, now: Time)
    requires Disciplined(rows) && Keyed(rows) && r.key == PlanKey(r.execution, r.operation.step, r.attempt)
    requires GrantClaim(rows, r, now).1.claimed
    ensures forall i :: 0 <= i < |rows| && Related(rows[i], r.execution, r.owner, r.operation) ==>
              rows[i].attempt < r.attempt
  {
    assert !Recorded(rows, r.execution, r.owner, r.operation, r.attempt) by {
      assert FindKey(rows, |rows|, r.owner, r.key) == None;
    }
    forall i | 0 <= i < |rows| && Related(rows[i], r.execution, r.owner, r.operation)
      ensures rows[i].attempt < r.attempt
    {
      assert Recorded(rows, r.execution, r.owner, r.operation, rows[i].attempt);
      if rows[i].attempt >= r.attempt {
        AttemptsReachDown(rows, r.execution, r.owner, r.operation, rows[i].attempt, r.attempt);
      }
    }
  }

  lemma ClaimKeepsOrder(rows: seq<StepRow>, r: ClaimRequest, now: Time)
    requires Disciplined(rows) && GrantClaim(rows, r, now).1.claimed
    requires forall i :: 0 <= i < |rows| && Related(rows[i], r.execution, r.owner, r.operation) ==>
               rows[i].attempt < r.attempt
    ensures Ordered(GrantClaim(rows, r, now).0)
  {
    var (rows', _) := GrantClaim(rows, r, now);
    var latest := Latest(rows, |rows|, r.execution, r.owner, r.operation);
    forall i, j | 0 <= i < j < |rows'| && Related(rows'[j], rows'[i].execution, rows'[i].owner, rows'[i].operation)
      ensures rows'[i].attempt < rows'[j].attempt && rows'[i].status == Failed
    {
      if j == |rows| {
        assert Related(rows[i], r.execution, r.owner, r.operation);
        if i < latest.value {
          assert Related(rows[latest.value], rows[i].execution, rows[i].owner, rows[i].operation);
        }
      } else {
        assert rows[i].attempt == rows'[i].attempt && rows[j].attempt == rows'[j].attempt;
      }
    }
  }

  lemma ClaimKeepsContiguity(rows: seq<StepRow>, r: ClaimRequest, now: Time)
    requires Contiguous(rows) && GrantClaim(rows, r, now).1.claimed
    requires r.attempt > 0 ==> Recorded(rows, r.execution, r.owner, r.operation, r.attempt - 1)
    ensures Contiguous(GrantClaim(rows, r, now).0)
  {
    var (rows', _) := GrantClaim(rows, r, now);
    forall execution, owner, operation, attempt | Recorded(rows, execution, owner, operation, attempt)
      ensures Recorded(rows', execution, owner, operation, attempt)
    {
      var k :| 0 <= k < |rows| && Related(rows[k], execution, owner, operation) && rows[k].attempt == attempt;
      assert Related(rows'[k], execution, owner, operation) && rows'[k].attempt == attempt;
    }
    forall i | 0 <= i < |rows'| && rows'[i].attempt > 0
      ensures Recorded(rows', rows'[i].execution, rows'[i].owner, rows'[i].operation, rows'[i].attempt - 1)
    {
      if i < |rows| {
        assert Recorded(rows, rows[i].execution, rows[i].owner, rows[i].operation, rows[i].attempt - 1);
      }
    }
  }

  /** Exactly when: for a granted claim, the table stays disciplined if and only if the claim's
      attempt is the number of attempts already recorded. The approval resume, which always
      claims attempt 0, breaks it as soon as one attempt exists. */
  lemma GrantKeepsDisciplineExactlyOnTheNextAttempt(rows: seq<StepRow>, r: ClaimRequest, now: Time)
    requires Disciplined(rows) && GrantClaim(rows, r, now).1.claimed
    ensures Disciplined(GrantClaim(rows, r, now).0)
       <==> (forall a: nat :: a < r.attempt <==> Recorded(rows, r.execution, r.owner, r.operation, a))
  {
    if forall a: nat :: a < r.attempt <==> Recorded(rows, r.execution, r.owner, r.operation, a) {
      NextGrantKeepsDiscipline(rows, r, now);
    }
    if Disciplined(GrantClaim(rows, r, now).0) {
      forall a: nat ensures a < r.attempt <==> Recorded(rows, r.execution, r.owner, r.operation, a) {
        GrantAppends(rows, r, now);
        DisciplinedGrantIsNext(rows, GrantClaim(rows, r, now).0, a);
      }
    }
  }

  lemma NextGrantKeepsDiscipline(rows: seq<StepRow>, r: ClaimRequest, now: Time)
    requires Disciplined(rows) && GrantClaim(rows, r, now).1.claimed
    requires forall a: nat :: a < r.attempt <==> Recorded(rows, r.execution, r.owner, r.operation, a)
    ensures Disciplined(GrantClaim(rows, r, now).0)
  {
    forall i | 0 <= i < |rows| && Related(rows[i], r.execution, r.owner, r.operation)
      ensures rows[i].attempt < r.attempt
    {
      assert Recorded(rows, r.execution, r.owner, r.operation, rows[i].attempt);
    }
    ClaimKeepsOrder(rows, r, now);
    ClaimKeepsContiguity(rows, r, now);
  }

  lemma DisciplinedGrantIsNext(rows: seq<StepRow>, rows': seq<StepRow>, a: nat)
    requires |rows'| == |rows| + 1 && Ordered(rows') && Contiguous(rows')
    requires forall k :: 0 <= k < |rows| ==>
               Related(rows'[k], rows[k].execution, rows[k].owner, rows[k].operation)
               && rows'[k].attempt == rows[k].attempt
    ensures a < rows'[|rows|].attempt
       <==> Recorded(rows, rows'[|rows|].execution, rows'[|rows|].owner, rows'[|rows|].operation, a)
  {
    var n := |rows|;
    var last := rows'[n];
    if a < last.attempt {
      assert Recorded(rows', last.execution, last.owner, last.operation, last.attempt);
      AttemptsReachDown(rows', last.execution, last.owner, last.operation, last.attempt, a);
      var k :| 0 <= k < |rows'| && Related(rows'[k], last.execution, last.owner, last.operation)
               && rows'[k].attempt == a;
      assert k < n && Related(rows[k], last.execution, last.owner, last.operation) && rows[k].attempt == a;
    }
    if Recorded(rows, last.execution, last.owner, last.operation, a) {
      var k :| 0 <= k < n && Related(rows[k], last.execution, last.owner, last.operation) && rows[k].attempt == a;
      assert Related(last, rows'[k].execution, rows'[k].owner, rows'[k].operation) && rows'[k].attempt == a;
    }
  }

  /** What a granted claim changes: one row is added, and at most one old row is failed. */
  lemma GrantAppends(rows: seq<StepRow>, r: ClaimRequest, now: Time)
    requires GrantClaim(rows, r, now).1.claimed
    ensures |GrantClaim(rows, r, now).0| == |rows| + 1 && GrantClaim(rows, r, now).0[|rows|] == NewRow(r, now)
    ensures forall k :: 0 <= k < |rows| ==>
              var old_, new_ := rows[k], GrantClaim(rows, r, now).0[k];
              new_ == old_
              || (new_ == Recovered(old_) && Related(old_, r.execution, r.owner, r.operation)
                  && old_.status == InProgress && !Leased(old_, now))
  {
  }

  // ------------------------------------------------------------------
  // Exactly which claims are granted, and updates made
  // ------------------------------------------------------------------

  /** Row `i` is the operation's last attempt: the first of those with the largest index. */
  predicate IsLast(rows: seq<StepRow>, i: nat, r: ClaimRequest) {
    i < |rows| && rows[i].execution == r.execution && rows[i].owner == r.owner && rows[i].operation == r.operation
    && forall j :: 0 <= j < |rows| && rows[j].execution == r.execution && rows[j].owner == r.owner
                   && rows[j].operation == r.operation ==>
         rows[j].attempt < rows[i].attempt || (rows[j].attempt == rows[i].attempt && i <= j)
  }

  predicate HasKey(rows: seq<StepRow>, r: ClaimRequest) {
    exists i :: 0 <= i < |rows| && rows[i].owner == r.owner && rows[i].key == r.key
  }

  /** Exactly when: a claim is granted if and only if its attempt key is new to the owner and the
      operation's last attempt, if there is one, is neither completed nor in progress under a lease. */
  lemma ClaimGrantedExactlyWhen(rows: seq<StepRow>, r: ClaimRequest, now: Time)
    ensures GrantClaim(rows, r, now).1.claimed
       <==> (!HasKey(rows, r)
             && forall i: nat :: IsLast(rows, i, r) ==>
                  rows[i].status != Completed
                  && !(rows[i].status == InProgress && rows[i].lease.Some? && now < rows[i].lease.value))
  {
    var known := FindKey(rows, |rows|, r.owner, r.key);
    var latest := Latest(rows, |rows|, r.execution, r.owner, r.operation);
    assert HasKey(rows, r) <==> known.Some?;
    if latest.Some? {
      assert IsLast(rows, latest.value, r);
      forall i: nat | IsLast(rows, i, r) ensures i == latest.value {
        assert Related(rows[i], r.execution, r.owner, r.operation);
      }
    }
  }

  /** So after a failed last attempt the next one, under its new key, is always granted. */
  lemma FailedAttemptIsRetried(rows: seq<StepRow>, i: nat, r: ClaimRequest, now: Time)
    requires IsLast(rows, i, r) && rows[i].status == Failed && !HasKey(rows, r)
    ensures GrantClaim(rows, r, now).1.claimed
  {
    forall j: nat | IsLast(rows, j, r) ensures j == i {
    }
    ClaimGrantedExactlyWhen(rows, r, now);
  }

  /** What a granted claim holds, and for how long. */
  lemma GrantedRowIs(rows: seq<StepRow>, r: ClaimRequest, now: Time)
    requires GrantClaim(rows, r, now).1.claimed
    ensures var row := GrantClaim(rows, r, now).1.row;
            row.id == r.id && row.execution == r.execution && row.owner == r.owner && row.name == r.name
            && row.status == InProgress && row.attempt == r.attempt && row.key == r.key && row.operation == r.operation
            && row.token == Some(r.token) && row.lease == Some(now + r.leaseSeconds)
    ensures GrantClaim(rows, r, now).0[|GrantClaim(rows, r, now).0| - 1] == GrantClaim(rows, r, now).1.row
  {
  }

  /** A refused claim is answered with the row of its key, or else with the last attempt. */
  lemma RefusalNames(rows: seq<StepRow>, r: ClaimRequest, now: Time, i: nat)
    requires !GrantClaim(rows, r, now).1.claimed && i < |rows|
    requires if HasKey(rows, r) then rows[i].owner == r.owner && rows[i].key == r.key
                                     && forall j :: 0 <= j < i ==> !(rows[j].owner == r.owner && rows[j].key == r.key)
             else IsLast(rows, i, r)
    ensures GrantClaim(rows, r, now) == (rows, ClaimReply(rows[i], false))
  {
    var known := FindKey(rows, |rows|, r.owner, r.key);
    FindKeyIsFirst(rows, |rows|, r.owner, r.key);
  }

  lemma {:induction false} FindKeyIsFirst(rows: seq<StepRow>, n: nat, owner: nat, key: AttemptKey)
    requires n <= |rows|
    ensures var k := FindKey(rows, n, owner, key);
            k.Some? ==> forall j :: 0 <= j < k.value ==> !(rows[j].owner == owner && rows[j].key == key)
  {
    if n > 0 {
      FindKeyIsFirst(rows, n - 1, owner, key);
    }
  }

  /** An update reaches exactly a row of that id and execution under that token, and changes nothing of it
      but the status and, when one is given, the name. */
  lemma UpdateReaches(rows: seq<StepRow>, execution: nat, id: nat, name: Option<StepName>, token: Token,
          status: StepStatus)
    ensures var (rows', updated) := SettleHeld(rows, execution, id, name, token, status);
            |rows'| == |rows|
            && (updated <==> exists i :: 0 <= i < |rows| && rows[i].id == id && rows[i].execution == execution
                                         && rows[i].token == Some(token))
            && (!updated ==> rows' == rows)
            && (forall i :: 0 <= i < |rows| ==>
                  rows'[i] == rows[i]
                  || (rows[i].id == id && rows[i].execution == execution && rows[i].token == Some(token)
                      && rows'[i] == rows[i].(status := status, name := rows'[i].name)
                      && rows'[i].name == if name.Some? then name.value else rows[i].name))
            && (updated ==> exists i :: 0 <= i < |rows| && rows[i].id == id && rows[i].execution == execution
                                        && rows[i].token == Some(token) && rows'[i].status == status)
  {
    var held := FindHeld(rows, |rows|, execution, id, token);
  }

  /** Once an attempt of an operation is completed, no claim of that operation is ever granted:
      whatever attempt it asks for, and whenever. */
  lemma NothingClaimableAfterCompletion(rows: seq<StepRow>, i: nat, r: ClaimRequest, now: Time)
    requires Ordered(rows) && i < |rows| && rows[i].status == Completed
    requires Related(rows[i], r.execution, r.owner, r.operation)
    ensures GrantClaim(rows, r, now).0 == rows && !GrantClaim(rows, r, now).1.claimed
  {
    var latest := Latest(rows, |rows|, r.execution, r.owner, r.operation);
    assert latest.Some? && latest.value == i;
  }

  /** A settlement by the holder of the last attempt keeps the discipline. */
  lemma SettlementKeepsDiscipline(rows: seq<StepRow>, i: nat, name: Option<StepName>, status: StepStatus)
    requires Disciplined(rows) && i < |rows| && rows[i].status == InProgress
    requires status == InProgress || status == Completed || status == Failed
    ensures Disciplined(rows[i := Settled(rows[i], name, status)])
  {
    SettlementKeepsOrder(rows, i, name, status);
    SettlementKeepsContiguity(rows, i, name, status);
  }

  lemma SettlementKeepsOrder(rows: seq<StepRow>, i: nat, name: Option<StepName>, status: StepStatus)
    requires Ordered(rows) && i < |rows| && rows[i].status == InProgress
    ensures Ordered(rows[i := Settled(rows[i], name, status)])
  {
    var rows' := rows[i := Settled(rows[i], name, status)];
    forall k, j | 0 <= k < j < |rows'| && Related(rows'[j], rows'[k].execution, rows'[k].owner, rows'[k].operation)
      ensures rows'[k].attempt < rows'[j].attempt && rows'[k].status == Failed
    {
      assert Related(rows[j], rows[k].execution, rows[k].owner, rows[k].operation);
    }
  }

  lemma SettlementKeepsContiguity(rows: seq<StepRow>, i: nat, name: Option<StepName>, status: StepStatus)
    requires Contiguous(rows) && i < |rows|
    ensures Contiguous(rows[i := Settled(rows[i], name, status)])
  {
    var rows' := rows[i := Settled(rows[i], name, status)];
    forall k | 0 <= k < |rows'| && rows'[k].attempt > 0
      ensures Recorded(rows', rows'[k].execution, rows'[k].owner, rows'[k].operation, rows'[k].attempt - 1)
    {
      var row := rows[k];
      assert Recorded(rows, row.execution, row.owner, row.operation, row.attempt - 1);
      var m :| 0 <= m < |rows| && Related(rows[m], row.execution, row.owner, row.operation)
               && rows[m].attempt == row.attempt - 1;
      assert Related(rows'[m], row.execution, row.owner, row.operation) && rows'[m].attempt == row.attempt - 1;
    }
  }

  // ------------------------------------------------------------------
  // Recovery depends on the step's name
  // ------------------------------------------------------------------

  /** Of the other rows of an execution and owner, exactly those of the operation carry its step's name. */
  predicate OthersRenamed(rows: seq<StepRow>, i: nat, r: ClaimRequest) {
    forall k :: 0 <= k < |rows| && k != i && rows[k].execution == r.execution && rows[k].owner == r.owner ==>
      (rows[k].name == r.operation.step <==> rows[k].operation == r.operation)
  }

  /** The plan runner asks for the next attempt of a step, whose row `i` is a stale claim. */
  ghost predicate AsksOverStale(rows: seq<StepRow>, i: nat, r: ClaimRequest, now: Time) {
    Disciplined(rows) && Keyed(rows) && OfOneMission(rows, r.operation) && r.operation.execution == r.execution
    && i < |rows| && rows[i].status == InProgress && !Leased(rows[i], now)
    && Related(rows[i], r.execution, r.owner, r.operation) && OthersRenamed(rows, i, r)
    && r.attempt == NextAttempt(rows, |rows|, r.execution, r.owner, r.operation.step)
    && r.key == PlanKey(r.execution, r.operation.step, r.attempt)
  }

  /** The attempt in progress is the last: every other attempt of its operation is smaller. */
  lemma OthersAreEarlier(rows: seq<StepRow>, i: nat, k: nat)
    requires Ordered(rows) && i < |rows| && k < |rows| && k != i && rows[i].status == InProgress
    requires Related(rows[k], rows[i].execution, rows[i].owner, rows[i].operation)
    ensures rows[k].attempt < rows[i].attempt && k < i
  {
    if k < i {
      assert Related(rows[i], rows[k].execution, rows[k].owner, rows[k].operation);
    }
  }

  /** A row under the request's key belongs to the request's operation. */
  lemma KeyedRowIsRelated(rows: seq<StepRow>, i: nat, r: ClaimRequest, now: Time, k: nat)
    requires AsksOverStale(rows, i, r, now) && k < |rows| && rows[k].owner == r.owner && rows[k].key == r.key
    ensures Related(rows[k], r.execution, r.owner, r.operation) && rows[k].attempt == r.attempt
  {
  }

  lemma RenamedIsNext(rows: seq<StepRow>, i: nat, r: ClaimRequest, now: Time)
    requires AsksOverStale(rows, i, r, now) && rows[i].name == r.operation.step
    ensures r.attempt == rows[i].attempt + 1
  {
    var k :| 0 <= k < |rows| && rows[k].execution == r.execution && rows[k].owner == r.owner
             && rows[k].name == r.operation.step && rows[k].attempt == r.attempt - 1;
    if k != i {
      OthersAreEarlier(rows, i, k);
    }
  }

  lemma RenamedIsRecovered(rows: seq<StepRow>, i: nat, r: ClaimRequest, now: Time)
    requires AsksOverStale(rows, i, r, now) && rows[i].name == r.operation.step
    ensures GrantClaim(rows, r, now).1.claimed
  {
    RenamedIsNext(rows, i, r, now);
    var known := FindKey(rows, |rows|, r.owner, r.key);
    if known.Some? {
      KeyedRowIsRelated(rows, i, r, now, known.value);
      if known.value != i {
        OthersAreEarlier(rows, i, known.value);
      }
    }
    forall k | 0 <= k < |rows| && k != i && Related(rows[k], r.execution, r.owner, r.operation)
      ensures rows[k].attempt < rows[i].attempt
    {
      OthersAreEarlier(rows, i, k);
    }
  }

  lemma NotRenamedIsAskedAgain(rows: seq<StepRow>, i: nat, r: ClaimRequest, now: Time)
    requires AsksOverStale(rows, i, r, now) && rows[i].name != r.operation.step
    ensures r.attempt == rows[i].attempt
  {
    if r.attempt > 0 {
      var k :| 0 <= k < |rows| && rows[k].execution == r.execution && rows[k].owner == r.owner
               && rows[k].name == r.operation.step && rows[k].attempt == r.attempt - 1;
      OthersAreEarlier(rows, i, k);
    }
    if rows[i].attempt > 0 {
      assert Recorded(rows, r.execution, r.owner, r.operation, rows[i].attempt - 1);
      var k :| 0 <= k < |rows| && Related(rows[k], r.execution, r.owner, r.operation)
               && rows[k].attempt == rows[i].attempt - 1;
      assert rows[k].name == r.operation.step;
    }
  }

  /** Exactly when: the database function names a claimed row "claimed_step" until the claimant renames
      it, and the next attempt is chosen by name. So whatever attempts came before, a stale claim is
      recovered, and the plan runner's next claim of the step granted, if and only if the stale row
      carries the step's own name; otherwise the same claim is asked for again and nothing changes. */
  lemma StaleClaimRecoveredExactlyWhenRenamed(rows: seq<StepRow>, i: nat, r: ClaimRequest, now: Time)
    requires AsksOverStale(rows, i, r, now)
    ensures GrantClaim(rows, r, now).1.claimed <==> rows[i].name == r.operation.step
    ensures rows[i].name != r.operation.step ==> GrantClaim(rows, r, now).0 == rows && r.key == rows[i].key
  {
    if rows[i].name == r.operation.step {
      RenamedIsRecovered(rows, i, r, now);
    } else {
      NotRenamedIsAskedAgain(rows, i, r, now);
      assert rows[i].key == r.key;
    }
  }
}
