/** The employee engine's retries: four mutually recursive methods that execute a step, classify
    its failure, retry it with the next attempt index, or give up. */
module RetryRecursion {
  import opened RetryCategories

  /** What one tool execution reports. A failure's reason need not be a known category. */
  datatype Outcome =
    | Success
    | PendingApproval
    | AwaitingHuman
    | WaitingInput
    | Failure(category: Category)
    | UnlistedFailure

  /** The step dictionary's own retry category, which no attempt updates: absent, null, or a value. */
  datatype Carried = Absent | Null | Value(category: Category)

  /** What attempt `k` meets: its claim, its tool, and the writes that follow. */
  datatype Env = Env(
    claims: nat -> bool,
    outcome: nat -> Outcome,
    persists: nat -> bool,
    counts: nat -> bool,
    opens: nat -> bool)

  datatype Result =
    | ClaimFailed
    | StoreFailed
    | Succeeded
    | WaitingApproval
    | WaitingHuman
    | WaitingForInput
    | GaveUp

  datatype Policy = Policy(maxExecution: nat, maxStep: nat)

  const DEFAULT_POLICY := Policy(MAX_EXECUTION_RETRIES, MAX_STEP_RETRIES)

  // ------------------------------------------------------------------
  // The reference: which attempts run
  // ------------------------------------------------------------------

  /** The category the engine falls back to when the failure's own is not retryable. */
  predicate CarriesNonRetryable(carried: Carried) {
    carried.Absent? || (carried.Value? && carried.category in NON_RETRYABLE_CATEGORIES)
  }

  /** Does a persisted failure of attempt `k` ask for another attempt? */
  predicate WantsRetry(policy: Policy, carried: Carried, retryCount: nat, k: nat, outcome: Outcome) {
    outcome.Failure? && k < policy.maxStep
    && (outcome.category in RETRYABLE_CATEGORIES
        || (outcome.category in NON_RETRYABLE_CATEGORIES
            && !CarriesNonRetryable(carried) && retryCount < policy.maxExecution))
  }

  /** Is attempt `k` followed by attempt `k + 1`? */
  predicate Continues(policy: Policy, env: Env, carried: Carried, retryCount: nat, k: nat) {
    env.claims(k) && env.persists(k) && WantsRetry(policy, carried, retryCount, k, env.outcome(k))
    && env.counts(k) && env.opens(k)
  }

  /** `m` is the last attempt tried from `k` on: every one before it continued, it does not. */
  predicate LastTried(policy: Policy, env: Env, carried: Carried, retryCount: nat, k: nat, m: nat) {
    k <= m && !Continues(policy, env, carried, retryCount, m)
    && forall j :: k <= j < m ==> Continues(policy, env, carried, retryCount, j)
  }

  /** There is exactly one such attempt, and it is within the step bound. */
  lemma LastTriedIsUnique(policy: Policy, env: Env, carried: Carried, retryCount: nat, k: nat, m: nat, n: nat)
    requires LastTried(policy, env, carried, retryCount, k, m) && LastTried(policy, env, carried, retryCount, k, n)
    ensures m == n && (m == k || m <= policy.maxStep)
  {
    if m > k {
      assert Continues(policy, env, carried, retryCount, m - 1);
    }
  }

  function Upto(k: nat, n: nat): (r: seq<nat>)
    requires k <= n
    ensures |r| == n - k && forall i :: 0 <= i < |r| ==> r[i] == k + i
  {
    seq(n - k, i => k + i)
  }

  /** The attempts whose tool ran: up to the last tried, and that one too if it was claimed. */
  function Executed(env: Env, k: nat, m: nat): seq<nat>
    requires k <= m
  {
    Upto(k, if env.claims(m) then m + 1 else m)
  }

  /** An attempt that continues is followed by what the next one tries. */
  lemma TriedEarlier(policy: Policy, env: Env, carried: Carried, retryCount: nat, k: nat, m: nat)
    requires Continues(policy, env, carried, retryCount, k) && LastTried(policy, env, carried, retryCount, k + 1, m)
    ensures LastTried(policy, env, carried, retryCount, k, m)
    ensures Executed(env, k, m)[1..] == Executed(env, k + 1, m)
  {
  }

  function ResultAt(policy: Policy, env: Env, carried: Carried, retryCount: nat, m: nat): Result {
    if !env.claims(m) then ClaimFailed
    else match env.outcome(m)
         case Success => if env.persists(m) then Succeeded else StoreFailed
         case PendingApproval => if env.persists(m) then WaitingApproval else StoreFailed
         case AwaitingHuman => if env.persists(m) then WaitingHuman else StoreFailed
         case WaitingInput => WaitingForInput
         case UnlistedFailure => StoreFailed
         case Failure(category) =>
           if !env.persists(m) then StoreFailed
           else if category == Approval then WaitingApproval
           else if category == MissingInput then WaitingForInput
           else if WantsRetry(policy, carried, retryCount, m, env.outcome(m)) then StoreFailed
           else GaveUp
  }

  /** A retry that the store refuses ends the recursion. */
  lemma StopsUnstored(policy: Policy, env: Env, carried: Carried, retryCount: nat, k: nat)
    requires env.claims(k) && env.persists(k) && WantsRetry(policy, carried, retryCount, k, env.outcome(k))
    requires !env.counts(k) || !env.opens(k)
    ensures LastTried(policy, env, carried, retryCount, k, k) && Executed(env, k, k)[1..] == []
    ensures ResultAt(policy, env, carried, retryCount, k) == StoreFailed
  {
  }

  /** Failures that another attempt may mend, and failures it may not. */
  predicate Mendable(outcome: Outcome) {
    outcome.Failure? && outcome.category in {Transient, Validation, Execution}
  }

  predicate Final(outcome: Outcome) {
    outcome.Failure? && outcome.category in {Authorization, ToolNotFound, Permanent}
  }

  /** The step carries a category of its own that does not say "final". A null one does not. */
  predicate Overrides(carried: Carried) {
    carried == Null || (carried.Value? && carried.category !in {Authorization, ToolNotFound, Permanent})
  }

  /** Does the failure of attempt `m` ask for another? A mendable one does up to the step bound; a final one
      does too, when the step's own category overrides it and the execution has retries left. */
  predicate AsksAgain(policy: Policy, carried: Carried, retryCount: nat, m: nat, outcome: Outcome) {
    m < policy.maxStep
    && (Mendable(outcome) || (Final(outcome) && Overrides(carried) && retryCount < policy.maxExecution))
  }

  /** Exactly when: each result of the last attempt, from what that attempt met. */
  lemma ResultsAre(policy: Policy, env: Env, carried: Carried, retryCount: nat, m: nat)
    ensures var result := ResultAt(policy, env, carried, retryCount, m);
            var outcome, asks := env.outcome(m), AsksAgain(policy, carried, retryCount, m, env.outcome(m));
            var kept := env.claims(m) && env.persists(m);
            (result == ClaimFailed <==> !env.claims(m))
            && (result == Succeeded <==> kept && outcome == Success)
            && (result == WaitingApproval <==> kept && outcome in {PendingApproval, Failure(Approval)})
            && (result == WaitingHuman <==> kept && outcome == AwaitingHuman)
            && (result == WaitingForInput
                <==> env.claims(m) && (outcome == WaitingInput || (kept && outcome == Failure(MissingInput))))
            && (result == GaveUp <==> kept && (Mendable(outcome) || Final(outcome)) && !asks)
            && (result == StoreFailed
                <==> env.claims(m) && (outcome == UnlistedFailure || (!kept && outcome != WaitingInput) || asks))
  {
    AsksIsWants(policy, carried, retryCount, m, env.outcome(m));
  }

  /** Exactly when: another attempt follows if and only if everything about this one was stored and its
      failure asks for it. */
  lemma ContinuesExactlyWhen(policy: Policy, env: Env, carried: Carried, retryCount: nat, m: nat)
    ensures Continues(policy, env, carried, retryCount, m)
       <==> (env.claims(m) && env.persists(m) && env.counts(m) && env.opens(m)
             && AsksAgain(policy, carried, retryCount, m, env.outcome(m)))
  {
    AsksIsWants(policy, carried, retryCount, m, env.outcome(m));
  }

  /** Was the execution's retry count written? */
  predicate CountWritten(policy: Policy, env: Env, carried: Carried, retryCount: nat, k: nat, m: nat) {
    m > k
    || (env.claims(m) && env.persists(m) && WantsRetry(policy, carried, retryCount, m, env.outcome(m)) && env.counts(m))
  }

  /** Attempt `j` asked for another and the execution's count was written for it. */
  predicate WroteCount(policy: Policy, env: Env, carried: Carried, retryCount: nat, j: nat) {
    env.claims(j) && env.persists(j) && AsksAgain(policy, carried, retryCount, j, env.outcome(j)) && env.counts(j)
  }

  /** Exactly when: the count was written if and only if some attempt wrote it. */
  lemma CountWrittenExactlyWhen(policy: Policy, env: Env, carried: Carried, retryCount: nat, k: nat, m: nat)
    requires LastTried(policy, env, carried, retryCount, k, m)
    ensures CountWritten(policy, env, carried, retryCount, k, m)
       <==> exists j: nat :: k <= j <= m && WroteCount(policy, env, carried, retryCount, j)
  {
    ContinuesExactlyWhen(policy, env, carried, retryCount, k);
    ResultsAre(policy, env, carried, retryCount, m);
    assert WroteCount(policy, env, carried, retryCount, m)
      <==> env.claims(m) && env.persists(m) && WantsRetry(policy, carried, retryCount, m, env.outcome(m))
           && env.counts(m) by {
      AsksIsWants(policy, carried, retryCount, m, env.outcome(m));
    }
    if m > k {
      assert Continues(policy, env, carried, retryCount, k);
      assert WroteCount(policy, env, carried, retryCount, k);
    }
  }

  lemma AsksIsWants(policy: Policy, carried: Carried, retryCount: nat, m: nat, outcome: Outcome)
    ensures AsksAgain(policy, carried, retryCount, m, outcome) <==> WantsRetry(policy, carried, retryCount, m, outcome)
  {
    if outcome.Failure? {
      CategoriesAre(outcome.category);
    }
    if carried.Value? {
      CategoriesAre(carried.category);
    }
  }

  // ------------------------------------------------------------------
  // The engine
  // ------------------------------------------------------------------

  /** The step's attempt index and the persisted rows, changed in place by the four methods. */
  class EmployeeEngine {
    const policy: Policy
    /** The attempts whose tool was executed, in order. */
    var executed: seq<nat>
    /** The persisted execution row's retry count. */
    var retryCount: nat
    /** The step dictionary's attempt index. */
    var attempt: nat
    var failed: bool

    constructor (policy: Policy, attempt: nat, retryCount: nat)
      ensures this.policy == policy && executed == [] && this.attempt == attempt && this.retryCount == retryCount
      ensures !failed
    {
      this.policy := policy;
      this.executed := [];
      this.attempt := attempt;
      this.retryCount := retryCount;
      this.failed := false;
    }

    /** Execute the step's current attempt; `snapshot` is the retry count read with the execution. */
    method ExecuteStep(env: Env, carried: Carried, snapshot: nat) returns (result: Result, ghost m: nat)
      modifies this
      ensures LastTried(policy, env, carried, snapshot, old(attempt), m) && attempt == m
      ensures executed == old(executed) + Executed(env, old(attempt), m)
      ensures result == ResultAt(policy, env, carried, snapshot, m)
      ensures retryCount == if CountWritten(policy, env, carried, snapshot, old(attempt), m) then snapshot + 1
                            else old(retryCount)
      ensures failed == (old(failed) || result == GaveUp)
      decreases if attempt < policy.maxStep then policy.maxStep - attempt else 0, 3
    {
      ghost var k := attempt;
      m := k;
      if !env.claims(attempt) {
        assert executed == executed + Executed(env, k, k);
        return ClaimFailed, k;
      }
      executed := executed + [attempt];
      assert Executed(env, k, k) == [k];
      match env.outcome(attempt)
      case PendingApproval => result := if env.persists(attempt) then WaitingApproval else StoreFailed;
      case AwaitingHuman => result := if env.persists(attempt) then WaitingHuman else StoreFailed;
      case WaitingInput => result := WaitingForInput;
      case Success => result := if env.persists(attempt) then Succeeded else StoreFailed;
      case UnlistedFailure => result := StoreFailed;
      case Failure(category) =>
        result, m := ClassifyAndPersistFailure(env, carried, snapshot, category);
    }

    method ClassifyAndPersistFailure(env: Env, carried: Carried, snapshot: nat,
            category: Category) returns (result: Result, ghost m: nat)
      requires env.claims(attempt) && env.outcome(attempt) == Failure(category)
      modifies this
      ensures LastTried(policy, env, carried, snapshot, old(attempt), m) && attempt == m
      ensures executed == old(executed) + Executed(env, old(attempt), m)[1..]
      ensures result == ResultAt(policy, env, carried, snapshot, m)
      ensures retryCount == if CountWritten(policy, env, carried, snapshot, old(attempt), m) then snapshot + 1
                            else old(retryCount)
      ensures failed == (old(failed) || result == GaveUp)
      decreases if attempt < policy.maxStep then policy.maxStep - attempt else 0, 2
    {
      m := attempt;
      assert executed == executed + Executed(env, attempt, attempt)[1..];
      if !env.persists(attempt) {
        return StoreFailed, m;
      }
      if category in RETRYABLE_CATEGORIES {
        if attempt < policy.maxStep {
          result, m := RetryStep(env, carried, snapshot, category);
          return;
        }
      }
      if category in HUMAN_WAIT_CATEGORIES {
        if category == Approval {
          return WaitingApproval, m;
        }
        return WaitingForInput, m;
      }
      result, m := HandleStepFailure(env, carried, snapshot, category);
    }

    method RetryStep(env: Env, carried: Carried, snapshot: nat, ghost category: Category) returns (result: Result,
            ghost m: nat)
      requires env.claims(attempt) && env.outcome(attempt) == Failure(category) && env.persists(attempt)
      requires WantsRetry(policy, carried, snapshot, attempt, Failure(category))
      modifies this
      ensures LastTried(policy, env, carried, snapshot, old(attempt), m) && attempt == m
      ensures executed == old(executed) + Executed(env, old(attempt), m)[1..]
      ensures result == ResultAt(policy, env, carried, snapshot, m)
      ensures retryCount == if CountWritten(policy, env, carried, snapshot, old(attempt), m) then snapshot + 1
                            else old(retryCount)
      ensures failed == (old(failed) || result == GaveUp)
      decreases if attempt < policy.maxStep then policy.maxStep - attempt else 0, 0
    {
      ghost var k := attempt;
      m := k;
      if !env.counts(attempt) {
        StopsUnstored(policy, env, carried, snapshot, k);
        return StoreFailed, m;
      }
      retryCount := snapshot + 1;
      if !env.opens(attempt) {
        StopsUnstored(policy, env, carried, snapshot, k);
        return StoreFailed, m;
      }
      attempt := attempt + 1;
      result, m := ExecuteStep(env, carried, snapshot);
      TriedEarlier(policy, env, carried, snapshot, k, m);
    }

    method HandleStepFailure(env: Env, carried: Carried, snapshot: nat,
            ghost category: Category) returns (result: Result, ghost m: nat)
      requires env.claims(attempt) && env.outcome(attempt) == Failure(category) && env.persists(attempt)
      requires category !in HUMAN_WAIT_CATEGORIES && (category in RETRYABLE_CATEGORIES ==> attempt >= policy.maxStep)
      modifies this
      ensures LastTried(policy, env, carried, snapshot, old(attempt), m) && attempt == m
      ensures executed == old(executed) + Executed(env, old(attempt), m)[1..]
      ensures result == ResultAt(policy, env, carried, snapshot, m)
      ensures retryCount == if CountWritten(policy, env, carried, snapshot, old(attempt), m) then snapshot + 1
                            else old(retryCount)
      ensures failed == (old(failed) || result == GaveUp)
      decreases if attempt < policy.maxStep then policy.maxStep - attempt else 0, 1
    {
      m := attempt;
      assert executed == executed + Executed(env, attempt, attempt)[1..];
      CategoriesPartition(category);
      if CarriesNonRetryable(carried) || attempt >= policy.maxStep {
        failed := true;
        return GaveUp, m;
      }
      if snapshot >= policy.maxExecution {
        failed := true;
        return GaveUp, m;
      }
      result, m := RetryStep(env, carried, snapshot, category);
    }

    /** The caller: unless the step waits for somebody, the retry count read before is written back.
        When that write fails, the retries' own write of one more than was read stays. */
    method ExecuteNextStep(env: Env, carried: Carried, writesBack: bool) returns (result: Result, ghost m: nat)
      modifies this
      ensures LastTried(policy, env, carried, old(retryCount), old(attempt), m)
      ensures executed == old(executed) + Executed(env, old(attempt), m)
      ensures var tried := ResultAt(policy, env, carried, old(retryCount), m);
              result == if tried !in {WaitingApproval, WaitingHuman, WaitingForInput} && !writesBack then StoreFailed
                        else tried
      ensures retryCount
              == old(retryCount) + (if KeepsCount(policy, env, carried, old(retryCount), old(attempt), m, writesBack)
                                    then 1 else 0)
      ensures |executed| - |old(executed)| <= if old(attempt) >= policy.maxStep then 1
                                              else policy.maxStep + 1 - old(attempt)
    {
      var snapshot := retryCount;
      result, m := ExecuteStep(env, carried, snapshot);
      LastTriedIsUnique(policy, env, carried, snapshot, old(attempt), m, m);
      if result !in WAITS {
        if !writesBack {
          return StoreFailed, m;
        }
        retryCount := snapshot;
      }
    }
  }

  const WAITS: set<Result> := {WaitingApproval, WaitingHuman, WaitingForInput}

  /** Does the execution row end one above the count it was read with? It does exactly when a retry
      wrote its count and no write-back followed. */
  predicate KeepsCount(policy: Policy, env: Env, carried: Carried, retryCount: nat, k: nat, m: nat, writesBack: bool) {
    CountWritten(policy, env, carried, retryCount, k, m)
    && (ResultAt(policy, env, carried, retryCount, m) in {WaitingApproval, WaitingHuman, WaitingForInput}
        || !writesBack)
  }

  // ------------------------------------------------------------------
  // What follows
  // ------------------------------------------------------------------

  /** The last attempt ended waiting for somebody. */
  predicate EndsWaiting(env: Env, m: nat) {
    env.claims(m)
    && (env.outcome(m) == WaitingInput
        || (env.persists(m)
            && env.outcome(m) in {PendingApproval, AwaitingHuman, Failure(Approval), Failure(MissingInput)}))
  }

  /** Exactly when: the execution's count ends one higher if and only if some attempt wrote it and it was not
      written back, because the step ended waiting or the write failed. */
  lemma CountEndsHigherExactlyWhen(policy: Policy, env: Env, carried: Carried, retryCount: nat, k: nat, m: nat,
          writesBack: bool)
    requires LastTried(policy, env, carried, retryCount, k, m)
    ensures KeepsCount(policy, env, carried, retryCount, k, m, writesBack)
       <==> ((exists j: nat :: k <= j <= m && WroteCount(policy, env, carried, retryCount, j))
             && (EndsWaiting(env, m) || !writesBack))
  {
    CountWrittenExactlyWhen(policy, env, carried, retryCount, k, m);
    ResultsAre(policy, env, carried, retryCount, m);
  }

  /** For every error stream, a step started at attempt `k` with step bound `N` runs at most
      max(1, N + 1 - k) attempts, with consecutive indices from `k`. */
  lemma AttemptsAreBounded(policy: Policy, env: Env, carried: Carried, retryCount: nat, k: nat, m: nat)
    requires LastTried(policy, env, carried, retryCount, k, m)
    ensures |Executed(env, k, m)| <= if k >= policy.maxStep then 1 else policy.maxStep + 1 - k
    ensures forall i :: 0 <= i < |Executed(env, k, m)| ==> Executed(env, k, m)[i] == k + i
  {
    LastTriedIsUnique(policy, env, carried, retryCount, k, m, m);
  }

  /** Every attempt before the last one tried runs its tool, and the last one does exactly when it is claimed. */
  lemma RunsExactlyTheClaimed(env: Env, k: nat, m: nat, j: nat)
    requires k <= m
    ensures j in Executed(env, k, m) <==> k <= j < m || (j == m && env.claims(m))
  {
    var n := if env.claims(m) then m + 1 else m;
    if k <= j < n {
      assert Upto(k, n)[j - k] == j;
    }
  }

  /** The bound is reached: a tool that always times out is tried N + 1 - k times. */
  lemma BoundIsReached(policy: Policy, env: Env, carried: Carried, retryCount: nat, k: nat, m: nat)
    requires LastTried(policy, env, carried, retryCount, k, m) && k <= policy.maxStep
    requires forall j: nat ::
               env.claims(j) && env.persists(j) && env.counts(j) && env.opens(j) && env.outcome(j) == Failure(Transient)
    ensures m == policy.maxStep && |Executed(env, k, m)| == policy.maxStep + 1 - k
  {
    assert Continues(policy, env, carried, retryCount, m) <==> m < policy.maxStep;
    LastTriedIsUnique(policy, env, carried, retryCount, k, m, m);
  }

  /** So by default a step that has not been tried runs at most four times, and one whose failures are
      final at most once when the execution has had its five retries. */
  lemma DefaultBounds(env: Env, carried: Carried, retryCount: nat, m: nat)
    requires LastTried(DEFAULT_POLICY, env, carried, retryCount, 0, m)
    ensures |Executed(env, 0, m)| <= 4
    ensures retryCount >= 5 && Final(env.outcome(0)) ==> |Executed(env, 0, m)| <= 1
    ensures (retryCount == 4 && Final(env.outcome(0)) && Overrides(carried)
             && env.claims(0) && env.persists(0) && env.counts(0) && env.opens(0)) ==>
              m > 0
  {
    AttemptsAreBounded(DEFAULT_POLICY, env, carried, retryCount, 0, m);
    ContinuesExactlyWhen(DEFAULT_POLICY, env, carried, retryCount, 0);
  }

  /** A failure that must never be retried is retried, in a store that keeps every write, exactly
      when the step carries no non-retryable category of its own: its own, not the failure's. A step
      loaded with a null category carries none. */
  lemma NonRetryableRetriedExactlyWhen(policy: Policy, env: Env, carried: Carried, retryCount: nat, k: nat, m: nat,
          category: Category)
    requires LastTried(policy, env, carried, retryCount, k, m)
    requires env.outcome(k) == Failure(category) && category in NON_RETRYABLE_CATEGORIES
    requires forall j: nat :: env.claims(j) && env.persists(j) && env.counts(j) && env.opens(j)
    ensures |Executed(env, k, m)| > 1
       <==> (k < policy.maxStep && retryCount < policy.maxExecution
             && (carried == Null || (carried.Value? && carried.category !in NON_RETRYABLE_CATEGORIES)))
  {
    if m == k {
      assert !Continues(policy, env, carried, retryCount, k);
    } else {
      assert Continues(policy, env, carried, retryCount, k);
    }
  }

  /** A failure that waits for a human is never retried. */
  lemma HumanWaitsAreNotRetried(policy: Policy, env: Env, carried: Carried, retryCount: nat, k: nat, m: nat,
          category: Category)
    requires LastTried(policy, env, carried, retryCount, k, m)
    requires env.outcome(k) == Failure(category) && category in HUMAN_WAIT_CATEGORIES
    ensures m == k && |Executed(env, k, m)| <= 1
  {
    assert !Continues(policy, env, carried, retryCount, k);
  }
}
