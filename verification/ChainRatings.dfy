/** A run from genesis in which a pool succeeds with every task and is rated below a hundred for it. */
module ChainRatings {
  import opened Prelude
  import opened Currency
  import opened SchedulerSpec
  import opened SchedulerSteps
  import opened SchedulerStatistics
  import opened Chain
  import opened ChainRuns
  import A = AttestationSpec

  const OWNER: AccountId := 1
  const USER: AccountId := 2
  const VERIFIER: AccountId := 3

  /** Pool deposit 10, task deposit 1, one task at a time, no attestation deposit. */
  const Settings := Config(10, 1, 2, 10, 10, 1, 80, A.Config(0, 10, 50, 1, 8, 8, 8))
  const WEALTH: nat := 1_000_000_000
  const Funds := Ledger(map[OWNER := 10, USER := WEALTH], map[], map[])

  const Work := Dimensions(1, 1, 1)
  const Price: Balance := 7

  /** The user has put eight units in reserve for each of `n` tasks. */
  predicate Spending(l: Ledger, n: nat) {
    Frozen(l, USER) == 0 && Reserved(l, USER) == 8 * n && Free(l, USER) + 8 * n == WEALTH
  }

  /** A pool without a failure after `n` tasks. */
  predicate Flawless(pool: Pool, n: nat) {
    && pool.owner == OWNER && pool.status == Active && pool.gpuMemory == 1 && pool.price == Price && !pool.hasNvlink
    && pool.totalTasks == n && pool.completedTasks == n
  }

  /** The pool waits for task number `n`. */
  predicate Idle(s: State, w: World, n: nat) {
    && 0 in s.pools && Flawless(s.pools[0], n) && s.nextTaskId == n
    && ActiveTasks(s.activeCount, 0) == 0 && TasksOf(s.poolTasks, 0) == []
    && w.now == 0 && Spending(w.ledger, n)
  }

  /** The pool works on task number `n`. */
  predicate Busy(s: State, w: World, n: nat, status: TaskStatus) {
    && 0 in s.pools && Flawless(s.pools[0], n) && s.nextTaskId == n + 1
    && ActiveTasks(s.activeCount, 0) == 1 && TasksOf(s.poolTasks, 0) == [n]
    && n in s.tasks && s.tasks[n].poolId == 0 && s.tasks[n].status == status && s.tasks[n].submittedAt == 0
    && (status == ProofSubmitted ==> s.tasks[n].proofHash.Some?) && s.tasks[n].rewardAmount.Some?
    && w.now == 0 && Spending(w.ledger, n + 1)
  }

  const Registration := DoRegisterPool(OWNER, 1, false, 100, Price)
  const Submission := DoSubmitTask(USER, Work, Normal, Some(0), [])

  function Proof(n: TaskId): Call {
    DoSubmitProof(OWNER, n, 9)
  }

  function Approval(n: TaskId): Call {
    DoVerifyProof(VERIFIER, n, true)
  }

  // ---- One task.

  lemma RegisterStep()
    ensures var step := Exec(Settings, Empty, World(Funds, A.Empty, 0), Registration);
            step.r.Ok? && Idle(step.s, step.w, 0)
  {
  }

  lemma PriceOfWork()
    ensures forall efficiency :: CalculateReward(Work, Price, false, efficiency) == Ok(Price)
  {
  }

  lemma ReserveStep(l: Ledger, n: nat)
    requires Spending(l, n) && 8 * (n + 1) <= WEALTH
    ensures Reserve(l, USER, 8).Ok? && Spending(Reserve(l, USER, 8).value, n + 1)
  {
  }

  lemma SubmitStep(s: State, w: World, n: nat)
    requires Idle(s, w, n) && 8 * (n + 1) <= WEALTH
    ensures var step := Exec(Settings, s, w, Submission);
            step.r.Ok? && Busy(step.s, step.w, n, Computing)
  {
    PriceOfWork();
    ReserveStep(w.ledger, n);
  }

  lemma ProofStep(s: State, w: World, n: nat)
    requires Busy(s, w, n, Computing)
    ensures var step := Exec(Settings, s, w, Proof(n));
            step.r.Ok? && Busy(step.s, step.w, n, ProofSubmitted)
  {
  }

  lemma ConcludeStep(s: State, w: World, n: nat, w': World)
    requires Busy(s, w, n, ProofSubmitted) && n < U32_MAX && w'.now == 0 && Spending(w'.ledger, n + 1)
    ensures Idle(UpdateReputation(ApprovedState(s, n), 0, true), w', n + 1)
  {
    assert Without([n], n) == [];
  }

  lemma NotifyStep(w: World, n: nat, t: TaskId, hash: Hash)
    requires w.now == 0 && Spending(w.ledger, n)
    ensures var w' := NotifyCompletion(Settings, w, OWNER, t, hash);
            w'.now == 0 && Spending(w'.ledger, n)
  {
  }

  lemma ApproveStep(s: State, w: World, n: nat)
    requires Busy(s, w, n, ProofSubmitted) && n < U32_MAX
    ensures var step := Exec(Settings, s, w, Approval(n));
            step.r.Ok? && Idle(step.s, step.w, n + 1)
  {
    ApprovalShape(Settings, s, w, n);
    NotifyStep(w, n + 1, n, s.tasks[n].proofHash.value);
    ConcludeStep(s, w, n, NotifyCompletion(Settings, w, OWNER, n, s.tasks[n].proofHash.value));
  }

  // ---- Runs.

  ghost predicate Leads(trace: seq<Event>, k: Chain) {
    LegalRun(Settings, Genesis(Funds, 0), trace) && After(Settings, Genesis(Funds, 0), trace) == k
  }

  lemma Onward(trace: seq<Event>, k: Chain, call: Call) returns (longer: seq<Event>, k': Chain)
    requires Leads(trace, k)
    ensures Leads(longer, k') && k'.s == Exec(Settings, k.s, k.w, call).s && k'.w == Exec(Settings, k.s, k.w, call).w
  {
    longer, k' := trace + [Dispatch(call)], Next(Settings, k, Dispatch(call));
    assert longer[..|longer| - 1] == trace;
  }

  lemma Round(trace: seq<Event>, k: Chain, n: nat) returns (longer: seq<Event>, k': Chain)
    requires Leads(trace, k) && Idle(k.s, k.w, n) && 8 * (n + 1) <= WEALTH
    ensures Leads(longer, k') && Idle(k'.s, k'.w, n + 1)
  {
    SubmitStep(k.s, k.w, n);
    longer, k' := Onward(trace, k, Submission);
    ProofStep(k'.s, k'.w, n);
    longer, k' := Onward(longer, k', Proof(n));
    ApproveStep(k'.s, k'.w, n);
    longer, k' := Onward(longer, k', Approval(n));
  }

  lemma {:induction false} FlawlessRun(n: nat) returns (trace: seq<Event>, k: Chain)
    requires 8 * n <= WEALTH
    ensures Leads(trace, k) && Idle(k.s, k.w, n)
  {
    if n == 0 {
      RegisterStep();
      trace, k := Onward([], Genesis(Funds, 0), Registration);
    } else {
      trace, k := FlawlessRun(n - 1);
      trace, k := Round(trace, k, n - 1);
    }
  }

  /** After 42949673 tasks, all of them approved, the pool is rated below a hundred. */
  lemma FlawlessBelowHundred() returns (trace: seq<Event>)
    ensures LegalRun(Settings, Genesis(Funds, 0), trace)
    ensures var s := After(Settings, Genesis(Funds, 0), trace).s;
            && 0 in s.pools && s.pools[0].totalTasks == s.pools[0].completedTasks == 42_949_673
            && s.pools[0].successRate < 100
  {
    var k;
    trace, k := FlawlessRun(42_949_673);
    GenesisSound(Settings, Funds, 0);
    RunSound(Settings, Genesis(Funds, 0), trace);
    FlawlessRateIff(k.s.pools[0], k.s.minerReputation[OWNER]);
  }
}
