/** Two runs from genesis that end badly: a reward refunded after it was paid, and an escrow that nobody can reach. */
module ChainScenarios {
  import opened Prelude
  import opened Currency
  import opened SchedulerSpec
  import opened SchedulerInvariant
  import opened SchedulerSteps
  import opened SchedulerLedger
  import opened SchedulerBooks
  import opened Chain
  import opened ChainRuns
  import A = AttestationSpec

  const OWNER: AccountId := 1
  const USER: AccountId := 2
  const VERIFIER: AccountId := 3

  /** Pool deposit 10, task deposit 1, slash 2, attestation deposit 5. */
  const Settings := Config(10, 1, 2, 10, 10, 1, 80, A.Config(5, 10, 50, 1, 8, 8, 8))
  const Funds := Ledger(map[OWNER := 100, USER := 100], map[], map[])

  const Work := Dimensions(1, 1, 1)
  const Price: Balance := 7

  // ---- The common beginning: a pool, a task, its proof and its approval.

  const FreshPool := Pool(OWNER, 1, false, 100, Price, 80, 100, 0, 0, 0, Active, 10, PoolScore(0, 0, 0, 0, 0))
  const NewTask := Task(USER, 0, Work, Normal, Computing, 0, None, None, Some(Price), false)
  const ProvedTask := NewTask.(proofHash := Some(9), status := ProofSubmitted)
  const DoneTask := Finished(ProvedTask, true)

  const Registered := Empty.(nextPoolId := 1, pools := map[0 := FreshPool], poolByOwner := map[OWNER := 0],
                             minerReputation := map[OWNER := Reputation(80, 0, 0, 0)], activeCount := map[0 := 0])

  const ScoredPool := FreshPool.(score := PoolScore(3200, 3000, 2000, 0, 8200))
  const Submitted := Registered.(nextTaskId := 1, pools := map[0 := ScoredPool], tasks := map[0 := NewTask],
                                 poolTasks := map[0 := [0]], activeCount := map[0 := 1],
                                 escrows := map[0 := Escrow(USER, OWNER, Price, 1, false)])
  const Proved := Submitted.(tasks := map[0 := ProvedTask], proofSubmittedAt := map[0 := 0])
  const ReputedScored := ScoredPool.(reputation := 81, totalTasks := 1, completedTasks := 1)
  const Approved := Proved.(pools := map[0 := ReputedScored], tasks := map[0 := DoneTask], poolTasks := map[0 := []],
                            activeCount := map[0 := 0], minerReputation := map[OWNER := Reputation(81, 1, 1, 0)],
                            rewards := map[0 := Price], proofSubmittedAt := map[])

  const AfterRegister := Ledger(map[OWNER := 90, USER := 100], map[OWNER := 10], map[])
  const AfterSubmit := Ledger(map[OWNER := 90, USER := 92], map[OWNER := 10, USER := 8], map[])
  const AfterNotify := Ledger(map[OWNER := 85, USER := 92], map[OWNER := 15, USER := 8], map[])

  /** What the attestation pallet stores for the completed task. */
  const Attested := A.Stored(Settings.attestation, A.Empty, 0, OWNER, 0, 9, [], 0, 0)

  const Registration := DoRegisterPool(OWNER, 1, false, 100, Price)
  const Submission := DoSubmitTask(USER, Work, Normal, Some(0), [])
  const Proof := DoSubmitProof(OWNER, 0, 9)
  const Approval := DoVerifyProof(VERIFIER, 0, true)

  const Claim := DoClaimReward(OWNER, 0)
  const Stake := DoStake(USER, 0, 8)
  const Dispute := DoDispute(USER, 0)

  lemma RegisterStep()
    ensures Exec(Settings, Empty, World(Funds, A.Empty, 0), Registration) ==
            Done(Registered, World(AfterRegister, A.Empty, 0))
  {
    assert Funds.free[OWNER := 90] == AfterRegister.free;
  }

  lemma PriceOfWork()
    ensures CalculateReward(Work, Price, false, 100) == Ok(Price)
    ensures CalculatePoolScore(FreshPool, Price, Price) == ScoredPool.score
  {
  }

  lemma SubmitStep()
    ensures Exec(Settings, Registered, World(AfterRegister, A.Empty, 0), Submission) ==
            Done(Submitted, World(AfterSubmit, A.Empty, 0))
  {
    PriceOfWork();
    assert AfterRegister.free[USER := 92] == AfterSubmit.free;
    SubmittedIsWithTask();
  }

  lemma SubmittedIsWithTask()
    ensures WithTask(Settings, Registered, 0, USER, Work, Normal, 0, ScoredPool.score, Price) == Submitted
  {
    var s' := WithTask(Settings, Registered, 0, USER, Work, Normal, 0, ScoredPool.score, Price);
    assert s'.pools == Submitted.pools;
    assert s'.tasks == Submitted.tasks;
    assert TasksOf(Registered.poolTasks, 0) + [Registered.nextTaskId] == [0];
    assert s'.poolTasks == Submitted.poolTasks;
    assert s'.activeCount == Submitted.activeCount;
    assert s'.escrows == Submitted.escrows;
  }

  lemma ProofStep(w: World)
    requires w.now == 0
    ensures Exec(Settings, Submitted, w, Proof) == Done(Proved, w)
  {
  }

  lemma NotifyStep()
    ensures NotifyCompletion(Settings, World(AfterSubmit, A.Empty, 0), OWNER, 0, 9) == World(AfterNotify, Attested, 0)
  {
    assert AfterSubmit.free[OWNER := 85] == AfterNotify.free;
    assert AfterSubmit.reserved[OWNER := 15] == AfterNotify.reserved;
  }

  lemma ReputedStep()
    ensures UpdateReputation(ApprovedState(Proved, 0), 0, true) == Approved
  {
    assert ReputedPool(ScoredPool, true) == ReputedScored;
    assert Without([0], 0) == [];
  }

  lemma VerifyStep()
    ensures Exec(Settings, Proved, World(AfterSubmit, A.Empty, 0), Approval) ==
            Done(Approved, World(AfterNotify, Attested, 0))
  {
    ApprovalShape(Settings, Proved, World(AfterSubmit, A.Empty, 0), 0);
    NotifyStep();
    ReputedStep();
  }

  // ---- Runs, one event at a time.

  /** Calls to the scheduler, none of them a dispute. */
  ghost predicate Quiet(trace: seq<Event>) {
    forall i :: 0 <= i < |trace| ==> trace[i].Dispatch? && !trace[i].call.DoDispute?
  }

  /** The run `trace` from genesis is legal and leads to this storage and world. */
  ghost predicate Leads(trace: seq<Event>, s: State, w: World) {
    LegalRun(Settings, Genesis(Funds, 0), trace) && After(Settings, Genesis(Funds, 0), trace) == Chain(s, w)
  }

  /** One more call. */
  lemma Onward(trace: seq<Event>, s: State, w: World, call: Call, s': State, w': World) returns (longer: seq<Event>)
    requires Leads(trace, s, w) && Exec(Settings, s, w, call) == Done(s', w')
    ensures longer == trace + [Dispatch(call)] && Leads(longer, s', w')
    ensures Quiet(trace) && !call.DoDispute? ==> Quiet(longer)
  {
    longer := trace + [Dispatch(call)];
    assert longer[..|longer| - 1] == trace;
  }

  lemma SubmittedRun() returns (trace: seq<Event>)
    ensures Leads(trace, Submitted, World(AfterSubmit, A.Empty, 0)) && Quiet(trace) && |trace| == 2
  {
    RegisterStep();
    trace := Onward([], Empty, World(Funds, A.Empty, 0), Registration, Registered, World(AfterRegister, A.Empty, 0));
    SubmitStep();
    trace := Onward(trace, Registered, World(AfterRegister, A.Empty, 0), Submission, Submitted, World(AfterSubmit, A.Empty, 0));
  }

  lemma ProvedRun() returns (trace: seq<Event>)
    ensures Leads(trace, Proved, World(AfterSubmit, A.Empty, 0)) && Quiet(trace) && |trace| == 3
  {
    trace := SubmittedRun();
    ProofStep(World(AfterSubmit, A.Empty, 0));
    trace := Onward(trace, Submitted, World(AfterSubmit, A.Empty, 0), Proof, Proved, World(AfterSubmit, A.Empty, 0));
  }

  /** Pool, task, proof and approval. */
  lemma ApprovedRun() returns (trace: seq<Event>)
    ensures Leads(trace, Approved, World(AfterNotify, Attested, 0)) && Quiet(trace) && |trace| == 4
  {
    trace := ProvedRun();
    VerifyStep();
    trace := Onward(trace, Proved, World(AfterSubmit, A.Empty, 0), Approval, Approved, World(AfterNotify, Attested, 0));
  }

  // ---- The reward is claimed, the user stakes as much as the escrow held, and disputes.

  const Paid := Approved.(escrows := map[0 := Escrow(USER, OWNER, Price, 1, true)], rewards := map[])
  const AfterClaim := Ledger(map[OWNER := 92, USER := 93], map[OWNER := 15, USER := 0], map[])

  const Staked := Paid.(poolStakes := map[(0, USER) := 8], totalPoolStake := map[0 := 8])
  const AfterStake := Ledger(map[OWNER := 92, USER := 85], map[OWNER := 15, USER := 8], map[])

  lemma ClaimLedger()
    ensures var paid := RepatriateReserved(AfterNotify, USER, OWNER, Price);
            paid.Ok? && paid.value.1 == 0 && Unreserve(paid.value.0, USER, 1).0 == AfterClaim
  {
    var paid := RepatriateReserved(AfterNotify, USER, OWNER, Price).value.0;
    assert paid.free == map[OWNER := 92, USER := 92] && paid.reserved == map[OWNER := 15, USER := 1];
    assert paid.free[USER := 93] == AfterClaim.free;
    assert paid.reserved[USER := 0] == AfterClaim.reserved;
  }

  lemma ClaimStep()
    ensures Exec(Settings, Approved, World(AfterNotify, Attested, 0), Claim) == Done(Paid, World(AfterClaim, Attested, 0))
  {
    ClaimLedger();
    assert Approved.escrows[0 := Approved.escrows[0].(claimed := true)] == Paid.escrows;
    assert Approved.rewards - {0} == Paid.rewards;
  }

  lemma StakeLedger()
    ensures Reserve(AfterClaim, USER, 8) == Ok(AfterStake)
  {
    assert AfterClaim.free[USER := 85] == AfterStake.free;
    assert AfterClaim.reserved[USER := 8] == AfterStake.reserved;
  }

  lemma StakeStep()
    ensures Exec(Settings, Paid, World(AfterClaim, Attested, 0), Stake) == Done(Staked, World(AfterStake, Attested, 0))
  {
    StakeLedger();
  }

  lemma PaidRun() returns (trace: seq<Event>)
    ensures Leads(trace, Paid, World(AfterClaim, Attested, 0)) && Quiet(trace) && |trace| == 5
  {
    trace := ApprovedRun();
    ClaimStep();
    trace := Onward(trace, Approved, World(AfterNotify, Attested, 0), Claim, Paid, World(AfterClaim, Attested, 0));
  }

  lemma StakedRun() returns (trace: seq<Event>)
    ensures Leads(trace, Staked, World(AfterStake, Attested, 0)) && Quiet(trace) && |trace| == 6
  {
    trace := PaidRun();
    StakeStep();
    trace := Onward(trace, Paid, World(AfterClaim, Attested, 0), Stake, Staked, World(AfterStake, Attested, 0));
  }

  lemma {:induction false} QuietRun(k: Chain, trace: seq<Event>)
    requires Quiet(trace)
    ensures HonestRun(Settings, k, trace) && NobodyElse(trace)
  {
    if trace != [] {
      QuietRun(k, trace[..|trace| - 1]);
      assert trace[|trace| - 1].Dispatch? && !trace[|trace| - 1].call.DoDispute?;
    }
  }

  /** Task 0 was claimed, its user may dispute it, and the only reserve of the user backs a stake. */
  ghost predicate ReadyToDispute(s: State, w: World) {
    && Claimed(s, 0) && EscrowTotal(s.escrows[0]) == 8 && Reserved(w.ledger, USER) == 8
    && 0 in s.tasks && Shaped(s.tasks[0]) && s.tasks[0].user == USER && s.tasks[0].status == Completed && !s.tasks[0].disputed
    && s.tasks[0].poolId in s.pools && StakeOf(s, 0, USER) == 8
  }

  lemma StakedReady()
    ensures ReadyToDispute(Staked, World(AfterStake, Attested, 0))
  {
  }

  /** Claimed and staked: six calls, and the user may dispute. */
  lemma ReadyRun() returns (trace: seq<Event>, k: Chain)
    ensures Leads(trace, k.s, k.w) && Quiet(trace) && |trace| == 6 && ReadyToDispute(k.s, k.w)
  {
    trace := StakedRun();
    StakedReady();
    k := Chain(Staked, World(AfterStake, Attested, 0));
  }

  /** Before the dispute everything owed is in reserve, to the unit. */
  lemma QuietBooks(trace: seq<Event>, k: Chain)
    requires Leads(trace, k.s, k.w) && Quiet(trace)
    ensures Sound(Settings, k) && BooksOk(Settings, k.s, k.w) && Surplus(k.s, k.w, USER) == 0
  {
    var start := Genesis(Funds, 0);
    QuietRun(start, trace);
    GenesisSound(Settings, Funds, 0);
    RunSound(Settings, start, trace);
    RunBooks(Settings, start, trace);
    ReserveIsOwed(Settings, Funds, 0, trace, USER);
  }

  lemma DisputeDone(s: State, w: World) returns (s': State, w': World)
    requires ReadyToDispute(s, w)
    ensures Exec(Settings, s, w, Dispute) == Done(s', w')
    ensures DisputeVerification(Settings, s, w, USER, 0) == Done(s', w')
  {
    DisputeIff(Settings, s, w, USER, 0);
    s', w' := Exec(Settings, s, w, Dispute).s, Exec(Settings, s, w, Dispute).w;
  }

  lemma RefundedTwice(quiet: seq<Event>, k: Chain) returns (s': State, w': World)
    requires Leads(quiet, k.s, k.w) && Quiet(quiet) && ReadyToDispute(k.s, k.w)
    ensures Exec(Settings, k.s, k.w, Dispute) == Done(s', w')
    ensures Surplus(s', w', USER) == -8 && !Covered(s', w')
  {
    s', w' := DisputeDone(k.s, k.w);
    QuietBooks(quiet, k);
    DisputeCoveredIff(Settings, k.s, k.w, USER, 0, s', w');
  }

  /**
    A run from genesis of seven ordinary calls after which the user's stake of
    eight has no reserve behind it: register, submit, prove, approve, claim,
    stake, dispute.
  */
  lemma DisputeUnbacks() returns (trace: seq<Event>)
    ensures LegalRun(Settings, Genesis(Funds, 0), trace) && |trace| == 7 && Quiet(trace[..6]) && trace[6] == Dispatch(Dispute)
    ensures var k := After(Settings, Genesis(Funds, 0), trace);
            Surplus(k.s, k.w, USER) == -8 && !Covered(k.s, k.w)
  {
    var quiet, k := ReadyRun();
    var s', w' := RefundedTwice(quiet, k);
    trace := Onward(quiet, k.s, k.w, Dispute, s', w');
    assert trace[..6] == quiet;
  }

  // ---- The pool is deregistered before the reward is claimed.

  const Deregistration := DoDeregisterPool(OWNER, 0)

  lemma StrandedRun() returns (trace: seq<Event>, k: Chain)
    ensures Leads(trace, k.s, k.w) && |trace| == 5 && Stranded(k.s, 0, Escrow(USER, OWNER, Price, 1, false))
  {
    var w := World(AfterNotify, Attested, 0);
    var step := DeregisterPool(Approved, w, OWNER, 0);
    k := Chain(step.s, step.w);
    trace := ApprovedRun();
    trace := Onward(trace, Approved, w, Deregistration, step.s, step.w);
  }

  /** A run from genesis of five ordinary calls after which no continuation pays the escrow out or back. */
  lemma DeregistrationStrands(rest: seq<Event>) returns (trace: seq<Event>, k: Chain)
    ensures LegalRun(Settings, Genesis(Funds, 0), trace) && After(Settings, Genesis(Funds, 0), trace) == k && |trace| == 5
    ensures LegalRun(Settings, k, rest) ==> Stranded(After(Settings, k, rest).s, 0, Escrow(USER, OWNER, Price, 1, false))
  {
    trace, k := StrandedRun();
    GenesisSound(Settings, Funds, 0);
    RunSound(Settings, Genesis(Funds, 0), trace);
    if LegalRun(Settings, k, rest) {
      StrandedForever(Settings, k, rest, 0, Escrow(USER, OWNER, Price, 1, false));
    }
  }
}
