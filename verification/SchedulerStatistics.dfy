/** Pool records and miner reputations tell the same story, and the counters mean what they say. */
module SchedulerStatistics {
  import opened Prelude
  import opened SchedulerSpec
  import opened SchedulerInvariant
  import opened SchedulerSteps
  import opened SchedulerCalls

  ghost predicate RecordOk(pool: Pool, rep: Reputation) {
    && rep == Reputation(pool.reputation, pool.totalTasks, pool.completedTasks, pool.failedTasks)
    && pool.reputation <= 100
    && pool.completedTasks <= pool.totalTasks && pool.failedTasks <= pool.totalTasks
    && (pool.totalTasks < U32_MAX ==> pool.totalTasks == pool.completedTasks + pool.failedTasks)
    && pool.successRate == (if pool.totalTasks == 0 then 100
                            else Min(Quotient(SatMul32(pool.completedTasks, 100), pool.totalTasks), 100))
  }

  /** Every pool's record is mirrored in its owner's reputation. */
  ghost predicate Mirrored(pools: map<PoolId, Pool>, reps: map<AccountId, Reputation>) {
    forall p :: p in pools ==> pools[p].owner in reps && RecordOk(pools[p], reps[pools[p].owner])
  }

  lemma OutcomeKeepsRecord(pool: Pool, rep: Reputation, success: bool)
    requires RecordOk(pool, rep)
    ensures RecordOk(ReputedPool(pool, success), ReputedMiner(rep, success))
  {
  }

  /** A success raises the reputation by one up to a hundred, a failure lowers it by two down to zero; one counter moves. */
  lemma OutcomeMoves(pool: Pool, success: bool)
    requires pool.reputation <= 100
    ensures var after := ReputedPool(pool, success);
            && (success ==> (if pool.reputation < 100 then after.reputation == pool.reputation + 1 else after.reputation == 100))
            && (!success ==> (if pool.reputation >= 2 then after.reputation + 2 == pool.reputation else after.reputation == 0))
            && (success ==> after.failedTasks == pool.failedTasks && after.completedTasks >= pool.completedTasks)
            && (!success ==> after.completedTasks == pool.completedTasks && after.failedTasks >= pool.failedTasks)
            && (pool.totalTasks < U32_MAX && pool.completedTasks < U32_MAX && pool.failedTasks < U32_MAX ==>
                  after.completedTasks + after.failedTasks == pool.completedTasks + pool.failedTasks + 1)
            && after.owner == pool.owner && after.depositHeld == pool.depositHeld && after.price == pool.price
  {
  }

  /** Until the product overflows, the rate is the exact percentage, rounded down. */
  lemma SuccessRateExact(pool: Pool, rep: Reputation)
    requires RecordOk(pool, rep) && pool.totalTasks > 0 && pool.completedTasks <= 42_949_672
    ensures pool.successRate == 100 * pool.completedTasks / pool.totalTasks
  {
    var q := 100 * pool.completedTasks / pool.totalTasks;
    DivisionBounds(100 * pool.completedTasks, pool.totalTasks);
    if q > 100 {
      MulMonotone(101, q, pool.totalTasks);
    }
  }

  /** A pool that never failed is rated 100 exactly up to 42949672 successes; from then on the product saturates. */
  lemma FlawlessRateIff(pool: Pool, rep: Reputation)
    requires RecordOk(pool, rep) && pool.totalTasks > 0 && pool.completedTasks == pool.totalTasks
    ensures pool.successRate == 100 <==> pool.completedTasks <= 42_949_672
  {
    var n := pool.totalTasks;
    if n <= 42_949_672 {
      SuccessRateExact(pool, rep);
      assert 100 * n / n == 100;
    } else {
      DivisionBounds(U32_MAX, n);
      if Quotient(U32_MAX, n) >= 100 {
        MulMonotone(100, Quotient(U32_MAX, n), n);
      }
    }
  }

  lemma ReputationMirrored(s: State, p: PoolId, success: bool)
    requires Owned(s.pools, s.poolByOwner) && Mirrored(s.pools, s.minerReputation)
    ensures var s' := UpdateReputation(s, p, success);
            Mirrored(s'.pools, s'.minerReputation)
  {
    if p in s.pools {
      OutcomeKeepsRecord(s.pools[p], s.minerReputation[s.pools[p].owner], success);
    }
  }

  /** Only the deposit field changes when a pool is slashed. */
  lemma SlashMirrored(c: Config, s: State, w: World, p: PoolId)
    requires Mirrored(s.pools, s.minerReputation)
    ensures var s' := SlashPool(c, s, w, p).s;
            Mirrored(s'.pools, s'.minerReputation)
  {
    if p in s.pools && s.pools[p].depositHeld != 0 {
      var pool := SlashPool(c, s, w, p).s.pools[p];
      assert RecordOk(pool, s.minerReputation[pool.owner]);
    }
  }

  lemma LossMirrored(c: Config, s: State, w: World, p: PoolId)
    requires Owned(s.pools, s.poolByOwner) && Mirrored(s.pools, s.minerReputation)
    ensures var s' := SlashPool(c, UpdateReputation(s, p, false), w, p).s;
            Mirrored(s'.pools, s'.minerReputation)
  {
    ReputationMirrored(s, p, false);
    SlashMirrored(c, UpdateReputation(s, p, false), w, p);
  }

  lemma ApproveMirrored(c: Config, s: State, w: World, t: TaskId)
    requires Inv(c, s) && Mirrored(s.pools, s.minerReputation) && t in s.tasks && s.tasks[t].status == ProofSubmitted
    ensures var s' := FinalizeVerification(c, s, w, t, s.tasks[t].poolId, true).s;
            Mirrored(s'.pools, s'.minerReputation)
  {
    assert Shaped(s.tasks[t]);
    ApprovalShape(c, s, w, t);
    ReputationMirrored(ApprovedState(s, t), s.tasks[t].poolId, true);
  }

  lemma FailMirrored(c: Config, s: State, w: World, t: TaskId)
    requires Inv(c, s) && Mirrored(s.pools, s.minerReputation) && t in s.tasks && !IsTerminal(s.tasks[t].status)
    ensures var s' := MarkTaskFailed(c, s, w, t).s;
            Mirrored(s'.pools, s'.minerReputation)
  {
    FailureShape(c, s, w, t);
    LossMirrored(c, FailedState(s, t), Refunded(s, w, t), s.tasks[t].poolId);
  }

  lemma VerifyMirrored(c: Config, s: State, w: World, who: AccountId, t: TaskId, result: bool)
    requires Inv(c, s) && Mirrored(s.pools, s.minerReputation)
    requires VerifyProof(c, s, w, who, t, result).r.Ok?
    ensures var s' := VerifyProof(c, s, w, who, t, result).s;
            Mirrored(s'.pools, s'.minerReputation)
  {
    VerifyShape(c, s, w, who, t, result);
    if result {
      ApproveMirrored(c, s, w, t);
    } else {
      FailMirrored(c, s, w, t);
    }
  }

  lemma DisputeMirrored(c: Config, s: State, w: World, who: AccountId, t: TaskId)
    requires Inv(c, s) && Mirrored(s.pools, s.minerReputation)
    requires DisputeVerification(c, s, w, who, t).r.Ok?
    ensures var s' := DisputeVerification(c, s, w, who, t).s;
            Mirrored(s'.pools, s'.minerReputation)
  {
    assert Shaped(s.tasks[t]);
    var p := s.tasks[t].poolId;
    if s.tasks[t].status == Completed {
      DisputeApprovalShape(c, s, w, who, t);
      LossMirrored(c, RevokedState(s, t), Refunded(s, w, t), p);
    } else {
      DisputeFailureShape(c, s, w, who, t);
      ReputationMirrored(RestoredState(s, t), p, true);
    }
  }

  lemma RegisterMirrored(c: Config, s: State, w: World, who: AccountId, gpuMemory: u32, hasNvlink: bool, efficiency: u32, price: Balance)
    requires Inv(c, s) && Mirrored(s.pools, s.minerReputation)
    requires RegisterPool(c, s, w, who, gpuMemory, hasNvlink, efficiency, price).r.Ok?
    ensures var s' := RegisterPool(c, s, w, who, gpuMemory, hasNvlink, efficiency, price).s;
            Mirrored(s'.pools, s'.minerReputation)
  {
    var step := RegisterPool(c, s, w, who, gpuMemory, hasNvlink, efficiency, price);
    assert RecordOk(step.s.pools[s.nextPoolId], step.s.minerReputation[who]);
    assert forall p :: p in s.pools ==> s.pools[p].owner != who;
  }

  /** Pools edited in place under the same owner with the same record. */
  lemma SameRecords(pools: map<PoolId, Pool>, pools': map<PoolId, Pool>, reps: map<AccountId, Reputation>)
    requires Mirrored(pools, reps)
    requires forall p :: p in pools' ==>
               && p in pools && pools'[p].owner == pools[p].owner
               && pools'[p] == pools[p].(gpuMemory := pools'[p].gpuMemory, hasNvlink := pools'[p].hasNvlink,
                                         nvlinkEfficiency := pools'[p].nvlinkEfficiency, price := pools'[p].price,
                                         score := pools'[p].score)
    ensures Mirrored(pools', reps)
  {
    forall p | p in pools'
      ensures pools'[p].owner in reps && RecordOk(pools'[p], reps[pools'[p].owner])
    {
      assert RecordOk(pools[p], reps[pools[p].owner]);
    }
  }

  lemma SubmitTaskMirrored(c: Config, s: State, w: World, who: AccountId, d: Dimensions, priority: TaskPriority,
                           preferred: Option<PoolId>, order: seq<PoolId>)
    requires Mirrored(s.pools, s.minerReputation)
    requires SubmitTask(c, s, w, who, d, priority, preferred, order).r.Ok?
    ensures var s' := SubmitTask(c, s, w, who, d, priority, preferred, order).s;
            Mirrored(s'.pools, s'.minerReputation)
  {
    var p, score, reward, _ := SubmitTaskShape(c, s, w, who, d, priority, preferred, order);
    SameRecords(s.pools, s.pools[p := s.pools[p].(score := score)], s.minerReputation);
  }

  lemma UpdateConfigMirrored(s: State, w: World, who: AccountId, p: PoolId, gpuMemory: u32, hasNvlink: bool, efficiency: u32, price: Balance)
    requires Mirrored(s.pools, s.minerReputation)
    requires UpdatePoolConfig(s, w, who, p, gpuMemory, hasNvlink, efficiency, price).r.Ok?
    ensures var s' := UpdatePoolConfig(s, w, who, p, gpuMemory, hasNvlink, efficiency, price).s;
            Mirrored(s'.pools, s'.minerReputation)
  {
    var step := UpdatePoolConfig(s, w, who, p, gpuMemory, hasNvlink, efficiency, price);
    SameRecords(s.pools, step.s.pools, s.minerReputation);
  }

  lemma DeregisterMirrored(s: State, w: World, who: AccountId, p: PoolId)
    requires Mirrored(s.pools, s.minerReputation)
    ensures var s' := DeregisterPool(s, w, who, p).s;
            Mirrored(s'.pools, s'.minerReputation)
  {
    SameRecords(s.pools, s.pools - {p}, s.minerReputation);
  }

  lemma PoolsUntouched(c: Config, s: State, w: World, call: Call)
    requires call.DoSubmitProof? || call.DoClaimReward? || call.DoStake? || call.DoUnstake?
    ensures var s' := Exec(c, s, w, call).s;
            s'.pools == s.pools && s'.minerReputation == s.minerReputation
  {
  }

  lemma ExecMirrored(c: Config, s: State, w: World, call: Call)
    requires Inv(c, s) && Mirrored(s.pools, s.minerReputation)
    ensures var s' := Exec(c, s, w, call).s;
            Mirrored(s'.pools, s'.minerReputation)
  {
    if Exec(c, s, w, call).r.Err? {
      ErrorsChangeNothing(c, s, w, call);
      return;
    }
    match call
    case DoRegisterPool(who, gpuMemory, hasNvlink, efficiency, price) =>
      RegisterMirrored(c, s, w, who, gpuMemory, hasNvlink, efficiency, price);
    case DoUpdatePoolConfig(who, pool, gpuMemory, hasNvlink, efficiency, price) =>
      UpdateConfigMirrored(s, w, who, pool, gpuMemory, hasNvlink, efficiency, price);
    case DoDeregisterPool(who, pool) => DeregisterMirrored(s, w, who, pool);
    case DoSubmitTask(who, d, priority, preferred, order) => SubmitTaskMirrored(c, s, w, who, d, priority, preferred, order);
    case DoVerifyProof(who, task, result) => VerifyMirrored(c, s, w, who, task, result);
    case DoDispute(who, task) => DisputeMirrored(c, s, w, who, task);
    case DoSubmitProof(who, task, hash) => PoolsUntouched(c, s, w, call);
    case DoClaimReward(who, task) => PoolsUntouched(c, s, w, call);
    case DoStake(who, pool, amount) => PoolsUntouched(c, s, w, call);
    case DoUnstake(who, pool, amount) => PoolsUntouched(c, s, w, call);
  }
}
