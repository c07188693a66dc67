/** Every call keeps the scheduler's books, except a dispute over an escrow that was already claimed. */
module SchedulerBooks {
  import opened Prelude
  import opened MapSum
  import opened Currency
  import opened SchedulerSpec
  import opened SchedulerInvariant
  import opened SchedulerSteps
  import opened SchedulerCalls
  import opened SchedulerLedger
  import SchedulerArithmetic
  import AP = AttestationProofs

  /** Obligations backed, deposits in closed form, attestations in order. */
  ghost predicate BooksOk(c: Config, s: State, w: World) {
    Covered(s, w) && DepositsOk(c, s.pools) && AP.Inv(w.att)
  }

  /** What one step does to the books. */
  ghost predicate KeepsBooks(c: Config, s: State, w: World, s': State, w': World) {
    BooksOk(c, s', w') && Balanced(s, w, s', w') && AP.Extends(w.att, w'.att)
  }

  lemma Unchanged(c: Config, s: State, w: World)
    requires BooksOk(c, s, w)
    ensures KeepsBooks(c, s, w, s, w)
  {
  }

  /** Balance carries coverage along. */
  lemma StaysCovered(s: State, w: World, s': State, w': World)
    requires Covered(s, w) && Balanced(s, w, s', w')
    ensures Covered(s', w')
  {
    assert forall who :: Surplus(s', w', who) == Surplus(s, w, who);
  }

  /** The books read three maps only. */
  lemma SameBooks(s: State, w: World, s1: State)
    requires s1.pools == s.pools && s1.escrows == s.escrows && s1.poolStakes == s.poolStakes
    ensures Balanced(s, w, s1, w)
  {
  }

  // ---- Finishing a task.

  lemma ApproveBooks(c: Config, s: State, w: World, t: TaskId)
    requires Inv(c, s) && BooksOk(c, s, w) && t in s.tasks && s.tasks[t].status == ProofSubmitted
    ensures var step := FinalizeVerification(c, s, w, t, s.tasks[t].poolId, true);
            KeepsBooks(c, s, w, step.s, step.w)
  {
    assert Shaped(s.tasks[t]);
    var p := s.tasks[t].poolId;
    ApprovalShape(c, s, w, t);
    var s1 := ApprovedState(s, t);
    SameBooks(s, w, s1);
    ReputationBalanced(s1, w, p, true);
    SuccessKeepsDeposits(c, s1, p);
    var s2 := UpdateReputation(s1, p, true);
    BalancedTrans(s, w, s1, w, s2, w);
    NotifyBalanced(c, s2, w, s.pools[p].owner, t, s.tasks[t].proofHash.value);
    var w2 := NotifyCompletion(c, w, s.pools[p].owner, t, s.tasks[t].proofHash.value);
    BalancedTrans(s, w, s2, w, s2, w2);
  }

  /** Refund, reputation loss and slash, from any state whose escrow of `t` is unclaimed. */
  lemma RefundAndSlashBooks(c: Config, s: State, w: World, s1: State, t: TaskId, p: PoolId)
    requires BooksOk(c, s, w) && p in s.pools && (t in s.escrows ==> !s.escrows[t].claimed)
    requires s1.pools == s.pools && s1.poolStakes == s.poolStakes && s1.escrows == s.escrows - {t}
    ensures var step := SlashPool(c, UpdateReputation(s1, p, false), Refunded(s, w, t), p);
            KeepsBooks(c, s, w, step.s, step.w)
  {
    var w1 := Refunded(s, w, t);
    ReleaseBalanced(s, w, s1, t);
    StaysCovered(s, w, s1, w1);
    FailureKeepsDeposits(c, s1, w1, p);
    var step := SlashPool(c, UpdateReputation(s1, p, false), w1, p);
    BalancedTrans(s, w, s1, w1, step.s, step.w);
    assert step.w.att == w.att;
  }

  lemma FailBooks(c: Config, s: State, w: World, t: TaskId)
    requires Inv(c, s) && BooksOk(c, s, w) && t in s.tasks && !IsTerminal(s.tasks[t].status)
    ensures var step := MarkTaskFailed(c, s, w, t);
            KeepsBooks(c, s, w, step.s, step.w)
  {
    FailureShape(c, s, w, t);
    if t in s.escrows {
      assert EscrowOk(s.tasks[t], s.escrows[t], t in s.rewards, s.pools);
    }
    RefundAndSlashBooks(c, s, w, FailedState(s, t), t, s.tasks[t].poolId);
  }

  lemma VerifyBooks(c: Config, s: State, w: World, who: AccountId, t: TaskId, result: bool)
    requires Inv(c, s) && BooksOk(c, s, w)
    requires VerifyProof(c, s, w, who, t, result).r.Ok?
    ensures var step := VerifyProof(c, s, w, who, t, result);
            KeepsBooks(c, s, w, step.s, step.w)
  {
    VerifyShape(c, s, w, who, t, result);
    if result {
      ApproveBooks(c, s, w, t);
    } else {
      FailBooks(c, s, w, t);
    }
  }

  // ---- Disputes.

  /** The reward of this task has already been paid out of its escrow. */
  predicate Claimed(s: State, t: TaskId) {
    t in s.escrows && s.escrows[t].claimed
  }

  lemma RestoreBooks(c: Config, s: State, w: World, t: TaskId, p: PoolId)
    requires BooksOk(c, s, w) && t in s.tasks && s.tasks[t].rewardAmount.Some?
    ensures KeepsBooks(c, s, w, UpdateReputation(RestoredState(s, t), p, true), w)
  {
    var s1 := RestoredState(s, t);
    SameBooks(s, w, s1);
    ReputationBalanced(s1, w, p, true);
    SuccessKeepsDeposits(c, s1, p);
    BalancedTrans(s, w, s1, w, UpdateReputation(s1, p, true), w);
  }

  lemma DisputeBooks(c: Config, s: State, w: World, who: AccountId, t: TaskId)
    requires Inv(c, s) && BooksOk(c, s, w) && !Claimed(s, t)
    requires DisputeVerification(c, s, w, who, t).r.Ok?
    ensures var step := DisputeVerification(c, s, w, who, t);
            KeepsBooks(c, s, w, step.s, step.w)
  {
    var step := DisputeVerification(c, s, w, who, t);
    assert Shaped(s.tasks[t]);
    var p := s.tasks[t].poolId;
    if s.tasks[t].status == Completed {
      DisputeApprovalShape(c, s, w, who, t);
      assert p in s.pools;
      RefundAndSlashBooks(c, s, w, RevokedState(s, t), t, p);
    } else {
      DisputeFailureShape(c, s, w, who, t);
      RestoreBooks(c, s, w, t, p);
    }
  }

  // ---- Pools, tasks, payments and stakes.

  /** Replacing or adding a pool record moves the reserve of its owner by the change in the deposit held. */
  lemma PoolRecordBalanced(s: State, w: World, s': State, w': World, p: PoolId, pool: Pool)
    requires s'.pools == s.pools[p := pool] && s'.escrows == s.escrows && s'.poolStakes == s.poolStakes && w'.att == w.att
    requires p in s.pools ==> s.pools[p].owner == pool.owner
    requires forall a :: Reserved(w'.ledger, a) == Reserved(w.ledger, a) +
                         if a == pool.owner then pool.depositHeld - (if p in s.pools then s.pools[p].depositHeld else 0) else 0
    ensures Balanced(s, w, s', w')
  {
    forall a
      ensures Surplus(s', w', a) == Surplus(s, w, a)
    {
      SumUpdate(s.pools, p, pool, HeldFor(a));
    }
  }

  lemma RegisterBooks(c: Config, s: State, w: World, who: AccountId, gpuMemory: u32, hasNvlink: bool, efficiency: u32, price: Balance)
    requires Inv(c, s) && BooksOk(c, s, w)
    requires RegisterPool(c, s, w, who, gpuMemory, hasNvlink, efficiency, price).r.Ok?
    ensures var step := RegisterPool(c, s, w, who, gpuMemory, hasNvlink, efficiency, price);
            KeepsBooks(c, s, w, step.s, step.w)
  {
    var step := RegisterPool(c, s, w, who, gpuMemory, hasNvlink, efficiency, price);
    RegisterShape(c, s, w, who, gpuMemory, hasNvlink, efficiency, price);
    var p := s.nextPoolId;
    var pool := step.s.pools[p];
    PoolRecordBalanced(s, w, step.s, step.w, p, pool);
    StaysCovered(s, w, step.s, step.w);
    FreshDeposit(c, pool);
    DepositsEdit(c, s.pools, p, pool);
  }

  lemma UpdateConfigBooks(c: Config, s: State, w: World, who: AccountId, p: PoolId, gpuMemory: u32, hasNvlink: bool, efficiency: u32, price: Balance)
    requires Inv(c, s) && BooksOk(c, s, w)
    requires UpdatePoolConfig(s, w, who, p, gpuMemory, hasNvlink, efficiency, price).r.Ok?
    ensures var step := UpdatePoolConfig(s, w, who, p, gpuMemory, hasNvlink, efficiency, price);
            KeepsBooks(c, s, w, step.s, step.w)
  {
    var step := UpdatePoolConfig(s, w, who, p, gpuMemory, hasNvlink, efficiency, price);
    PoolRecordBalanced(s, w, step.s, w, p, step.s.pools[p]);
    StaysCovered(s, w, step.s, w);
    assert DepositOk(c, s.pools[p]);
  }

  lemma DeregisterBooks(c: Config, s: State, w: World, who: AccountId, p: PoolId)
    requires Inv(c, s) && BooksOk(c, s, w)
    requires DeregisterPool(s, w, who, p).r.Ok?
    ensures var step := DeregisterPool(s, w, who, p);
            KeepsBooks(c, s, w, step.s, step.w)
  {
    var step := DeregisterPool(s, w, who, p);
    forall a
      ensures Surplus(step.s, step.w, a) == Surplus(s, w, a)
    {
      SumDrop(s.pools, p, HeldFor(a));
      assert Surplus(s, w, a) >= 0;
    }
    StaysCovered(s, w, step.s, step.w);
  }

  lemma TaskBalanced(c: Config, s: State, w: World, who: AccountId, d: Dimensions, priority: TaskPriority,
                     p: PoolId, score: PoolScore, reward: Balance, ledger: Ledger)
    requires p in s.pools && s.nextTaskId < U64_MAX && s.nextTaskId !in s.escrows
    requires Reserve(w.ledger, who, SatAdd128(reward, c.taskDeposit)) == Ok(ledger)
    ensures Balanced(s, w, WithTask(c, s, w.now, who, d, priority, p, score, reward), w.(ledger := ledger))
  {
    var s' := WithTask(c, s, w.now, who, d, priority, p, score, reward);
    forall a
      ensures Surplus(s', w.(ledger := ledger), a) == Surplus(s, w, a)
    {
      SumUpdate(s.pools, p, s'.pools[p], HeldFor(a));
      SumUpdate(s.escrows, s.nextTaskId, s'.escrows[s.nextTaskId], EscrowFor(a));
    }
  }

  lemma SubmitTaskBooks(c: Config, s: State, w: World, who: AccountId, d: Dimensions, priority: TaskPriority,
                        preferred: Option<PoolId>, order: seq<PoolId>)
    requires Inv(c, s) && BooksOk(c, s, w)
    requires SubmitTask(c, s, w, who, d, priority, preferred, order).r.Ok?
    ensures var step := SubmitTask(c, s, w, who, d, priority, preferred, order);
            KeepsBooks(c, s, w, step.s, step.w)
  {
    var step := SubmitTask(c, s, w, who, d, priority, preferred, order);
    var p, score, reward, ledger := SubmitTaskShape(c, s, w, who, d, priority, preferred, order);
    TaskBalanced(c, s, w, who, d, priority, p, score, reward, ledger);
    StaysCovered(s, w, step.s, step.w);
    assert DepositOk(c, s.pools[p]);
  }

  lemma StakeBooks(c: Config, s: State, w: World, who: AccountId, p: PoolId, amount: Balance)
    requires BooksOk(c, s, w)
    requires StakeToPool(s, w, who, p, amount).r.Ok?
    ensures var step := StakeToPool(s, w, who, p, amount);
            KeepsBooks(c, s, w, step.s, step.w)
  {
    var step := StakeToPool(s, w, who, p, amount);
    SumAtLeast(s.poolStakes, (p, who), StakeFor(who));
    assert Surplus(s, w, who) >= 0;
    var stake: Balance := step.s.poolStakes[(p, who)];
    forall a
      ensures Surplus(step.s, step.w, a) == Surplus(s, w, a)
    {
      SumUpdate(s.poolStakes, (p, who), stake, StakeFor(a));
    }
    StaysCovered(s, w, step.s, step.w);
  }

  lemma UnstakeBooks(c: Config, s: State, w: World, who: AccountId, p: PoolId, amount: Balance)
    requires BooksOk(c, s, w)
    requires UnstakeFromPool(s, w, who, p, amount).r.Ok?
    ensures var step := UnstakeFromPool(s, w, who, p, amount);
            KeepsBooks(c, s, w, step.s, step.w)
  {
    var step := UnstakeFromPool(s, w, who, p, amount);
    SumAtLeast(s.poolStakes, (p, who), StakeFor(who));
    assert Surplus(s, w, who) >= 0;
    var stake: Balance := step.s.poolStakes[(p, who)];
    forall a
      ensures Surplus(step.s, step.w, a) == Surplus(s, w, a)
    {
      SumUpdate(s.poolStakes, (p, who), stake, StakeFor(a));
    }
    StaysCovered(s, w, step.s, step.w);
  }

  lemma ClaimShape(c: Config, s: State, w: World, who: AccountId, t: TaskId) returns (paid: (Ledger, Balance))
    requires Inv(c, s) && ClaimReward(s, w, who, t).r.Ok?
    ensures t in s.tasks && t in s.escrows && !s.escrows[t].claimed && s.tasks[t].rewardAmount == Some(s.escrows[t].reward)
    ensures s.tasks[t].verificationResult == Some(true) && !s.tasks[t].disputed && who == s.escrows[t].poolOwner
    ensures RepatriateReserved(w.ledger, s.escrows[t].user, who, s.escrows[t].reward) == Ok(paid) && paid.1 == 0
    ensures ClaimReward(s, w, who, t) ==
            Done(s.(escrows := s.escrows[t := s.escrows[t].(claimed := true)], rewards := s.rewards - {t}),
                 w.(ledger := Unreserve(paid.0, s.escrows[t].user, s.escrows[t].deposit).0))
  {
    assert EscrowOk(s.tasks[t], s.escrows[t], t in s.rewards, s.pools);
    paid := RepatriateReserved(w.ledger, s.escrows[t].user, who, s.rewards[t]).value;
  }

  /**
    A submission goes to an eligible pool, the preferred one if there is one;
    the escrow is new, names that pool's owner and that pool's price for the
    work, and exactly what it holds went from free to reserved for the user.
  */
  lemma SubmitTerms(c: Config, s: State, w: World, user: AccountId, d: Dimensions, priority: TaskPriority,
                    preferred: Option<PoolId>, order: seq<PoolId>) returns (p: PoolId)
    requires Inv(c, s) && SubmitTask(c, s, w, user, d, priority, preferred, order).r.Ok?
    ensures Eligible(c, s.pools, s.activeCount, p, d.k)
    ensures if preferred.Some? then p == preferred.value else p in Scanned(order)
    ensures var (t, step) := (s.nextTaskId, SubmitTask(c, s, w, user, d, priority, preferred, order));
            && t !in s.tasks && t !in s.escrows && t in step.s.tasks && t in step.s.escrows
            && step.s.tasks[t].user == user && step.s.tasks[t].poolId == p && step.s.tasks[t].submittedAt == w.now
            && var (e, l, l') := (step.s.escrows[t], w.ledger, step.w.ledger);
               && e.user == user && e.poolOwner == s.pools[p].owner && e.deposit == c.taskDeposit && !e.claimed
               && CalculateReward(d, s.pools[p].price, s.pools[p].hasNvlink, s.pools[p].nvlinkEfficiency) == Ok(e.reward)
               && Reserved(l', user) == Reserved(l, user) + Min(e.reward + e.deposit, U128_MAX)
               && Free(l', user) == Free(l, user) - Min(e.reward + e.deposit, U128_MAX)
               && (forall a :: a != user ==> Reserved(l', a) == Reserved(l, a) && Free(l', a) == Free(l, a))
  {
    var score, reward, ledger;
    p, score, reward, ledger := SubmitTaskShape(c, s, w, user, d, priority, preferred, order);
    if preferred.None? {
      SchedulerArithmetic.SelectionIsArgmax(c, s.pools, s.activeCount, order, d.k);
    }
  }

  /**
    Whatever the books say: a claim is by the recorded pool owner, for a task
    verified true and undisputed, and pays exactly the reward fixed at
    submission out of the user's reserve; the deposit is freed as far as the
    reserve goes.
  */
  lemma ClaimTerms(c: Config, s: State, w: World, who: AccountId, t: TaskId)
    requires Inv(c, s) && ClaimReward(s, w, who, t).r.Ok?
    ensures t in s.tasks && t in s.escrows
    ensures var (e, l, l') := (s.escrows[t], w.ledger, ClaimReward(s, w, who, t).w.ledger);
            && s.tasks[t].verificationResult == Some(true) && !s.tasks[t].disputed && !e.claimed
            && who == e.poolOwner && s.tasks[t].rewardAmount == Some(e.reward) && e.reward <= Reserved(l, e.user)
            && Reserved(l', e.user) == SatSub(Reserved(l, e.user) - e.reward, e.deposit)
            && (who != e.user ==> Free(l', who) == Free(l, who) + e.reward)
            && (forall a :: a != e.user ==> Reserved(l', a) == Reserved(l, a))
            && (forall a :: a != e.user && a != who ==> Free(l', a) == Free(l, a))
  {
    var _ := ClaimShape(c, s, w, who, t);
  }

  lemma EscrowInReserve(s: State, w: World, t: TaskId)
    requires Covered(s, w) && t in s.escrows && !s.escrows[t].claimed
    ensures EscrowTotal(s.escrows[t]) <= Reserved(w.ledger, s.escrows[t].user)
  {
    SumAtLeast(s.escrows, t, EscrowFor(s.escrows[t].user));
    assert Surplus(s, w, s.escrows[t].user) >= 0;
  }

  /** With the books in order the deposit is freed in full. */
  lemma ClaimPays(c: Config, s: State, w: World, who: AccountId, t: TaskId)
    requires Inv(c, s) && Covered(s, w) && ClaimReward(s, w, who, t).r.Ok?
    ensures t in s.tasks && t in s.escrows
    ensures var (e, l, l') := (s.escrows[t], w.ledger, ClaimReward(s, w, who, t).w.ledger);
            && s.tasks[t].verificationResult == Some(true) && !s.tasks[t].disputed && !e.claimed
            && who == e.poolOwner && s.tasks[t].rewardAmount == Some(e.reward)
            && Reserved(l', e.user) == Reserved(l, e.user) - EscrowTotal(e)
            && (forall a :: a != e.user ==> Reserved(l', a) == Reserved(l, a))
            && (who != e.user ==> Free(l', who) == Free(l, who) + e.reward)
            && (who != e.user ==> Free(l', e.user) == SatAdd128(Free(l, e.user), EscrowTotal(e) - e.reward))
  {
    var paid := ClaimShape(c, s, w, who, t);
    EscrowInReserve(s, w, t);
    PayThenFree(w.ledger, s.escrows[t].user, who, s.escrows[t].reward, s.escrows[t].deposit, paid);
  }

  /** The account can be paid the amount out of the user's reserve. */
  predicate CanReceive(l: Ledger, user: AccountId, who: AccountId, amount: Balance) {
    amount == 0 || who == user || (who in l.free && Free(l, who) + amount <= U128_MAX)
  }

  lemma PaymentIff(l: Ledger, user: AccountId, who: AccountId, amount: Balance)
    requires amount <= Reserved(l, user)
    ensures var paid := RepatriateReserved(l, user, who, amount);
            (paid.Ok? && paid.value.1 == 0) <==> CanReceive(l, user, who, amount)
  {
  }

  /**
    Exactly when a claim succeeds: the escrow is there and unclaimed, the task
    is completed, its pool still exists, the caller is the recorded owner and
    can receive the money. The reserve is never what is missing.
  */
  lemma ClaimIff(c: Config, s: State, w: World, who: AccountId, t: TaskId)
    requires Inv(c, s) && Covered(s, w)
    ensures ClaimReward(s, w, who, t).r.Ok? <==>
            && t in s.escrows && t in s.tasks && !s.escrows[t].claimed && s.tasks[t].status == Completed
            && s.tasks[t].poolId in s.pools && who == s.escrows[t].poolOwner
            && CanReceive(w.ledger, s.escrows[t].user, who, s.escrows[t].reward)
  {
    if t in s.escrows && t in s.tasks {
      var e := s.escrows[t];
      assert EscrowOk(s.tasks[t], e, t in s.rewards, s.pools) && Shaped(s.tasks[t]);
      if !e.claimed {
        SumAtLeast(s.escrows, t, EscrowFor(e.user));
        assert Surplus(s, w, e.user) >= 0;
        PaymentIff(w.ledger, e.user, who, e.reward);
      }
    }
  }

  /** Marking an escrow claimed is balanced by taking its total out of the user's reserve. */
  lemma ClaimedBalanced(s: State, w: World, s': State, w': World, t: TaskId)
    requires t in s.escrows && !s.escrows[t].claimed && s'.escrows == s.escrows[t := s.escrows[t].(claimed := true)]
    requires s'.pools == s.pools && s'.poolStakes == s.poolStakes && w'.att == w.att
    requires Reserved(w'.ledger, s.escrows[t].user) == Reserved(w.ledger, s.escrows[t].user) - EscrowTotal(s.escrows[t])
    requires forall a :: a != s.escrows[t].user ==> Reserved(w'.ledger, a) == Reserved(w.ledger, a)
    ensures Balanced(s, w, s', w')
  {
    forall a
      ensures Surplus(s', w', a) == Surplus(s, w, a)
    {
      SumUpdate(s.escrows, t, s.escrows[t].(claimed := true), EscrowFor(a));
    }
  }

  lemma ClaimBooks(c: Config, s: State, w: World, who: AccountId, t: TaskId)
    requires Inv(c, s) && BooksOk(c, s, w)
    requires ClaimReward(s, w, who, t).r.Ok?
    ensures var step := ClaimReward(s, w, who, t);
            KeepsBooks(c, s, w, step.s, step.w)
  {
    var step := ClaimReward(s, w, who, t);
    var _ := ClaimShape(c, s, w, who, t);
    ClaimPays(c, s, w, who, t);
    ClaimedBalanced(s, w, step.s, step.w, t);
    StaysCovered(s, w, step.s, step.w);
  }

  lemma SubmitProofBooks(c: Config, s: State, w: World, who: AccountId, t: TaskId, hash: Hash)
    requires BooksOk(c, s, w)
    requires SubmitProof(c, s, w, who, t, hash).r.Ok?
    ensures var step := SubmitProof(c, s, w, who, t, hash);
            KeepsBooks(c, s, w, step.s, step.w)
  {
    SubmitProofShape(c, s, w, who, t, hash);
    var step := SubmitProof(c, s, w, who, t, hash);
    SameBooks(s, w, step.s);
    StaysCovered(s, w, step.s, w);
  }

  // ---- Any call.

  /** The one call the books do not survive: disputing a task whose reward was claimed. */
  predicate DisputesClaimed(s: State, call: Call) {
    call.DoDispute? && Claimed(s, call.task)
  }

  lemma ExecBooks(c: Config, s: State, w: World, call: Call)
    requires Inv(c, s) && BooksOk(c, s, w) && !DisputesClaimed(s, call)
    ensures var step := Exec(c, s, w, call);
            KeepsBooks(c, s, w, step.s, step.w)
  {
    if Exec(c, s, w, call).r.Err? {
      ErrorsChangeNothing(c, s, w, call);
      Unchanged(c, s, w);
      return;
    }
    match call
    case DoRegisterPool(who, gpuMemory, hasNvlink, efficiency, price) =>
      RegisterBooks(c, s, w, who, gpuMemory, hasNvlink, efficiency, price);
    case DoUpdatePoolConfig(who, pool, gpuMemory, hasNvlink, efficiency, price) =>
      UpdateConfigBooks(c, s, w, who, pool, gpuMemory, hasNvlink, efficiency, price);
    case DoDeregisterPool(who, pool) => DeregisterBooks(c, s, w, who, pool);
    case DoSubmitTask(who, d, priority, preferred, order) => SubmitTaskBooks(c, s, w, who, d, priority, preferred, order);
    case DoSubmitProof(who, task, hash) => SubmitProofBooks(c, s, w, who, task, hash);
    case DoVerifyProof(who, task, result) => VerifyBooks(c, s, w, who, task, result);
    case DoClaimReward(who, task) => ClaimBooks(c, s, w, who, task);
    case DoDispute(who, task) => DisputeBooks(c, s, w, who, task);
    case DoStake(who, pool, amount) => StakeBooks(c, s, w, who, pool, amount);
    case DoUnstake(who, pool, amount) => UnstakeBooks(c, s, w, who, pool, amount);
  }

  // ---- The dispute that breaks the books.

  /** A slash takes from the record only what it takes from the reserve, backed or not. */
  lemma SlashSurplus(c: Config, s: State, w: World, p: PoolId, a: AccountId)
    requires p in s.pools
    ensures var step := SlashPool(c, s, w, p);
            Surplus(step.s, step.w, a) == Surplus(s, w, a)
  {
    var step := SlashPool(c, s, w, p);
    if s.pools[p].depositHeld != 0 {
      SumUpdate(s.pools, p, step.s.pools[p], HeldFor(a));
    }
  }

  lemma PenaltySurplus(c: Config, s: State, w: World, p: PoolId, a: AccountId)
    requires p in s.pools
    ensures var step := SlashPool(c, UpdateReputation(s, p, false), w, p);
            Surplus(step.s, step.w, a) == Surplus(s, w, a)
  {
    ReputationBalanced(s, w, p, false);
    assert Surplus(UpdateReputation(s, p, false), w, a) == Surplus(s, w, a);
    SlashSurplus(c, UpdateReputation(s, p, false), w, p, a);
  }

  /** Paying back an escrow that owes nothing takes surplus from its user. */
  lemma SecondRefund(s: State, w: World, t: TaskId, a: AccountId)
    requires t in s.tasks && Claimed(s, t)
    ensures Surplus(RevokedState(s, t), Refunded(s, w, t), a) == Surplus(s, w, a) -
            if a == s.escrows[t].user then Min(Reserved(w.ledger, a), EscrowTotal(s.escrows[t])) else 0
  {
    SumDrop(s.escrows, t, EscrowFor(a));
  }

  /**
    After a claim the escrow record is still there, so a dispute pays it back
    a second time: the user's surplus falls by whatever the reserve can give,
    and nobody else's moves.
  */
  lemma DisputeSurplus(c: Config, s: State, w: World, who: AccountId, t: TaskId, a: AccountId)
    requires Inv(c, s) && Claimed(s, t) && DisputeVerification(c, s, w, who, t).r.Ok?
    ensures var step := DisputeVerification(c, s, w, who, t);
            Surplus(step.s, step.w, a) == Surplus(s, w, a) -
            if a == who then Min(Reserved(w.ledger, who), EscrowTotal(s.escrows[t])) else 0
  {
    assert EscrowOk(s.tasks[t], s.escrows[t], t in s.rewards, s.pools);
    assert Shaped(s.tasks[t]);
    DisputeApprovalShape(c, s, w, who, t);
    SecondRefund(s, w, t, a);
    PenaltySurplus(c, RevokedState(s, t), Refunded(s, w, t), s.tasks[t].poolId, a);
  }

  lemma OneAccountCovered(s: State, w: World, s': State, w': World, who: AccountId, amount: nat)
    requires Covered(s, w) && forall a :: Surplus(s', w', a) == Surplus(s, w, a) - if a == who then amount else 0
    ensures Covered(s', w') <==> amount <= Surplus(s, w, who)
  {
    assert Surplus(s', w', who) == Surplus(s, w, who) - amount;
  }

  /** Exactly when the second refund leaves some obligation of the user without reserve: when it exceeds the user's surplus. */
  lemma DisputeCoveredIff(c: Config, s: State, w: World, who: AccountId, t: TaskId, s': State, w': World)
    requires Inv(c, s) && Covered(s, w) && Claimed(s, t) && DisputeVerification(c, s, w, who, t) == Done(s', w')
    ensures var second := Min(Reserved(w.ledger, who), EscrowTotal(s.escrows[t]));
            Surplus(s', w', who) == Surplus(s, w, who) - second && (Covered(s', w') <==> second <= Surplus(s, w, who))
  {
    var second := Min(Reserved(w.ledger, who), EscrowTotal(s.escrows[t]));
    forall a
      ensures Surplus(s', w', a) == Surplus(s, w, a) - if a == who then second else 0
    {
      DisputeSurplus(c, s, w, who, t, a);
    }
    OneAccountCovered(s, w, s', w', who, second);
  }

  lemma OneAccountMoves(s: State, w: World, s': State, w': World, who: AccountId, amount: nat)
    requires forall a :: Surplus(s', w', a) == Surplus(s, w, a) - if a == who then amount else 0
    ensures Balanced(s, w, s', w') <==> amount == 0
  {
    assert Surplus(s', w', who) == Surplus(s, w, who) - amount;
  }

  /**
    Exactly when a successful dispute keeps the books: the escrow was not
    claimed, or there is nothing to pay back twice.
  */
  lemma DisputeBalancedIff(c: Config, s: State, w: World, who: AccountId, t: TaskId)
    requires Inv(c, s) && BooksOk(c, s, w) && DisputeVerification(c, s, w, who, t).r.Ok?
    ensures var step := DisputeVerification(c, s, w, who, t);
            Balanced(s, w, step.s, step.w) <==>
            (Claimed(s, t) ==> Reserved(w.ledger, who) == 0 || EscrowTotal(s.escrows[t]) == 0)
  {
    if !Claimed(s, t) {
      DisputeBooks(c, s, w, who, t);
    } else {
      var step := DisputeVerification(c, s, w, who, t);
      var second := Min(Reserved(w.ledger, who), EscrowTotal(s.escrows[t]));
      forall a
        ensures Surplus(step.s, step.w, a) == Surplus(s, w, a) - if a == who then second else 0
      {
        DisputeSurplus(c, s, w, who, t, a);
      }
      OneAccountMoves(s, w, step.s, step.w, who, second);
    }
  }
}
