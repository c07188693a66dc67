/**
  The compute-pool scheduler with its storage updated in place. Each method
  writes in the order of the source, puts storage back when a dispatchable
  fails late, and is proved to do exactly what its function in SchedulerSpec
  says to the storage, to the currency and to the attestation pallet.
*/
module SchedulerPallet {
  import opened Prelude
  import opened Currency
  import opened SchedulerSpec
  import AttestationPallet
  import Chain
  import SchedulerBooks

  class Pallet {
    const config: Config
    const currency: Balances
    const attestation: AttestationPallet.Pallet

    var nextPoolId: PoolId
    var nextTaskId: TaskId
    var pools: map<PoolId, Pool>
    var poolByOwner: map<AccountId, PoolId>
    var tasks: map<TaskId, Task>
    var poolTasks: map<PoolId, seq<TaskId>>
    var activeCount: map<PoolId, u32>
    var minerReputation: map<AccountId, Reputation>
    var rewards: map<TaskId, Balance>
    var escrows: map<TaskId, Escrow>
    var poolStakes: map<(PoolId, AccountId), Balance>
    var totalPoolStake: map<PoolId, Balance>
    var proofSubmittedAt: map<TaskId, BlockNumber>

    function Snapshot(): State
      reads this
    {
      State(nextPoolId, nextTaskId, pools, poolByOwner, tasks, poolTasks, activeCount, minerReputation, rewards, escrows,
            poolStakes, totalPoolStake, proofSubmittedAt)
    }

    /** The pallets around the scheduler, at block `now`. */
    function Around(now: BlockNumber): World
      reads currency, attestation
    {
      World(currency.Snapshot(), attestation.Snapshot(), now)
    }

    /** Scheduler and attestation pallet share one currency and agree on the configuration. */
    ghost predicate Wired() {
      attestation.currency == currency && attestation.config == config.attestation
    }

    /** At block `now`: indexes, counters, escrows, ratings and attestations agree, and nothing is overdue. */
    ghost predicate Valid(now: BlockNumber)
      reads this, currency, attestation
    {
      Chain.Sound(config, Chain.Chain(Snapshot(), Around(now)))
    }

    /** What is owed is in reserve, and every pool's deposit is what its slashes leave. */
    ghost predicate InBooks(now: BlockNumber)
      reads this, currency, attestation
    {
      SchedulerBooks.BooksOk(config, Snapshot(), Around(now))
    }

    constructor (config: Config, currency: Balances, attestation: AttestationPallet.Pallet)
      requires attestation.currency == currency && attestation.config == config.attestation
      ensures Wired() && Snapshot() == Empty && this.config == config
      ensures this.currency == currency && this.attestation == attestation
      ensures attestation.Valid() ==> forall now :: Valid(now)
    {
      this.config, this.currency, this.attestation := config, currency, attestation;
      nextPoolId, nextTaskId := 0, 0;
      pools, poolByOwner, tasks, poolTasks, activeCount := map[], map[], map[], map[], map[];
      minerReputation, rewards, escrows, poolStakes, totalPoolStake, proofSubmittedAt := map[], map[], map[], map[], map[], map[];
    }

    method RollbackTasks(s: State)
      modifies `nextTaskId, `tasks, `poolTasks, `activeCount, `rewards, `escrows, `proofSubmittedAt
      ensures nextTaskId == s.nextTaskId && tasks == s.tasks && poolTasks == s.poolTasks && activeCount == s.activeCount
      ensures rewards == s.rewards && escrows == s.escrows && proofSubmittedAt == s.proofSubmittedAt
    {
      nextTaskId, tasks, poolTasks, activeCount := s.nextTaskId, s.tasks, s.poolTasks, s.activeCount;
      rewards, escrows, proofSubmittedAt := s.rewards, s.escrows, s.proofSubmittedAt;
    }

    method RollbackOwn(s: State)
      modifies this
      ensures Snapshot() == s
    {
      nextPoolId, pools, poolByOwner, minerReputation := s.nextPoolId, s.pools, s.poolByOwner, s.minerReputation;
      poolStakes, totalPoolStake := s.poolStakes, s.totalPoolStake;
      RollbackTasks(s);
    }

    /** Puts back what a failed dispatchable started from. */
    method Rollback(s: State, w: World)
      requires Wired()
      modifies this, currency, attestation
      ensures Snapshot() == s && currency.Snapshot() == w.ledger && attestation.Snapshot() == w.att
    {
      RollbackOwn(s);
      currency.Rollback(w.ledger);
      attestation.Rollback(w.att);
    }

    // ---- Pools.

    method RegisterPool(now: BlockNumber, owner: AccountId, gpuMemory: u32, hasNvlink: bool, efficiency: u32, price: Balance)
      returns (r: Result<(), Error>)
      requires Wired()
      modifies this, currency, attestation
      ensures Step(Snapshot(), Around(now), r) ==
              SchedulerSpec.RegisterPool(config, old(Snapshot()), old(Around(now)), owner, gpuMemory, hasNvlink, efficiency, price)
    {
      var s0, w0 := Snapshot(), Around(now);
      if owner in poolByOwner { return Err(PoolAlreadyExists); }
      if gpuMemory == 0 { return Err(InvalidDimensions); }
      if price == 0 { return Err(InsufficientBalance); }
      if !NvlinkOk(hasNvlink, efficiency) { return Err(InvalidNvlinkEfficiency); }
      var reserved := currency.TryReserve(owner, config.poolDeposit);
      if !reserved { return Err(InsufficientBalance); }
      var inserted := InsertPool(owner, gpuMemory, hasNvlink, efficiency, price);
      if !inserted {
        Rollback(s0, w0);
        return Err(ArithmeticOverflow);
      }
      return Ok(());
    }

    /** Enters a pool under the next id; false, to be undone by the caller, when there is no id after it. */
    method InsertPool(owner: AccountId, gpuMemory: u32, hasNvlink: bool, efficiency: u32, price: Balance)
      returns (inserted: bool)
      modifies `pools, `poolByOwner, `minerReputation, `activeCount, `nextPoolId
      ensures inserted == (old(nextPoolId) < U64_MAX)
      ensures inserted ==> Snapshot() == WithPool(config, old(Snapshot()), owner, gpuMemory, hasNvlink, efficiency, price)
    {
      var id := nextPoolId;
      var reputation: u32 := Min(config.initialReputation, 100);
      pools := pools[id := Pool(owner, gpuMemory, hasNvlink, efficiency, price, reputation, 100, 0, 0, 0, Active,
                                config.poolDeposit, PoolScore(0, 0, 0, 0, 0))];
      poolByOwner := poolByOwner[owner := id];
      minerReputation := minerReputation[owner := Reputation(reputation, 0, 0, 0)];
      activeCount := activeCount[id := 0];
      if id == U64_MAX { return false; }
      nextPoolId := id + 1;
      return true;
    }

    method UpdatePoolConfig(now: BlockNumber, sender: AccountId, id: PoolId, gpuMemory: u32, hasNvlink: bool, efficiency: u32, price: Balance)
      returns (r: Result<(), Error>)
      modifies this
      ensures Step(Snapshot(), Around(now), r) ==
              SchedulerSpec.UpdatePoolConfig(old(Snapshot()), old(Around(now)), sender, id, gpuMemory, hasNvlink, efficiency, price)
    {
      if gpuMemory == 0 { return Err(InvalidDimensions); }
      if price == 0 { return Err(InsufficientBalance); }
      if !NvlinkOk(hasNvlink, efficiency) { return Err(InvalidNvlinkEfficiency); }
      if id !in pools { return Err(PoolNotFound); }
      var pool := pools[id];
      if pool.owner != sender { return Err(NotPoolOwner); }
      if pool.status == Deregistered { return Err(PoolInactive); }
      pool := pool.(gpuMemory := gpuMemory);
      pool := pool.(hasNvlink := hasNvlink);
      pool := pool.(nvlinkEfficiency := efficiency);
      pool := pool.(price := price);
      pools := pools[id := pool];
      return Ok(());
    }

    method RemovePool(id: PoolId, owner: AccountId)
      modifies `pools, `poolTasks, `activeCount, `poolByOwner
      ensures Snapshot() == WithoutPool(old(Snapshot()), id, owner)
    {
      pools := pools - {id};
      poolTasks := poolTasks - {id};
      activeCount := activeCount - {id};
      poolByOwner := poolByOwner - {owner};
    }

    method DeregisterPool(now: BlockNumber, sender: AccountId, id: PoolId) returns (r: Result<(), Error>)
      requires Wired()
      modifies this, currency
      ensures Step(Snapshot(), Around(now), r) == SchedulerSpec.DeregisterPool(old(Snapshot()), old(Around(now)), sender, id)
    {
      if id !in pools { return Err(PoolNotFound); }
      var pool := pools[id];
      if pool.owner != sender { return Err(NotPoolOwner); }
      if ActiveTasks(activeCount, id) != 0 { return Err(ActiveTasksExist); }
      RemovePool(id, pool.owner);
      currency.DoUnreserve(pool.owner, pool.depositHeld);
      return Ok(());
    }

    // ---- Choosing a pool.

    method GatherCandidates(scanned: seq<PoolId>, k: u32) returns (candidates: seq<PoolId>)
      ensures candidates == Candidates(config, pools, activeCount, scanned, k)
    {
      candidates := [];
      for i := 0 to |scanned|
        invariant candidates == Candidates(config, pools, activeCount, scanned[..i], k)
      {
        assert scanned[..i + 1][..i] == scanned[..i];
        var id := scanned[i];
        if id !in pools || pools[id].status != Active { continue; }
        if ActiveTasks(activeCount, id) >= config.maxTasksPerPool { continue; }
        if pools[id].gpuMemory < k { continue; }
        candidates := candidates + [id];
      }
      assert scanned[..|scanned|] == scanned;
    }

    method PriceRange(candidates: seq<PoolId>) returns (lo: Balance, hi: Balance)
      requires forall id :: id in candidates ==> id in pools
      ensures lo == LowestPrice(pools, candidates) && hi == HighestPrice(pools, candidates)
    {
      lo, hi := U128_MAX, 0;
      for i := 0 to |candidates|
        invariant forall id :: id in candidates[..i] ==> id in candidates
        invariant lo == LowestPrice(pools, candidates[..i]) && hi == HighestPrice(pools, candidates[..i])
      {
        assert candidates[..i + 1][..i] == candidates[..i];
        assert candidates[i] in candidates;
        var price := pools[candidates[i]].price;
        if price < lo { lo := price; }
        if price > hi { hi := price; }
      }
      assert candidates[..|candidates|] == candidates;
    }

    method PickBest(candidates: seq<PoolId>, lo: Balance, hi: Balance) returns (best: Option<(PoolId, PoolScore)>)
      requires forall id :: id in candidates ==> id in pools
      ensures best == BestOf(pools, candidates, lo, hi)
    {
      best := None;
      for i := 0 to |candidates|
        invariant forall id :: id in candidates[..i] ==> id in candidates
        invariant best == BestOf(pools, candidates[..i], lo, hi)
      {
        assert candidates[..i + 1][..i] == candidates[..i];
        assert candidates[i] in candidates;
        var score := CalculatePoolScore(pools[candidates[i]], lo, hi);
        if best.None? || best.value.1.final < score.final {
          best := Some((candidates[i], score));
        }
      }
      assert candidates[..|candidates|] == candidates;
    }

    method SelectBestPool(order: seq<PoolId>, k: u32) returns (best: Option<(PoolId, PoolScore)>)
      modifies `pools
      ensures best == SchedulerSpec.SelectBestPool(config, old(pools), activeCount, order, k)
      ensures pools == if best.Some? && best.value.0 in old(pools)
                       then old(pools)[best.value.0 := old(pools)[best.value.0].(score := best.value.1)] else old(pools)
    {
      var candidates := GatherCandidates(Scanned(order), k);
      if candidates == [] { return None; }
      var lo, hi := PriceRange(candidates);
      best := PickBest(candidates, lo, hi);
      if best.Some? && best.value.0 in pools {
        pools := pools[best.value.0 := pools[best.value.0].(score := best.value.1)];
      }
    }

    // ---- Helpers shared by the paths that finish a task.

    method DecrementActivity(id: PoolId, t: TaskId)
      modifies `activeCount, `poolTasks
      ensures Snapshot() == SchedulerSpec.DecrementActivity(old(Snapshot()), id, t)
    {
      activeCount := activeCount[id := SatSub(ActiveTasks(activeCount, id), 1)];
      poolTasks := poolTasks[id := Without(TasksOf(poolTasks, id), t)];
    }

    method UpdateReputation(id: PoolId, success: bool)
      modifies `pools, `minerReputation
      ensures Snapshot() == SchedulerSpec.UpdateReputation(old(Snapshot()), id, success)
    {
      if id !in pools { return; }
      var pool := pools[id];
      pool := pool.(totalTasks := SatAdd32(pool.totalTasks, 1));
      if success {
        pool := pool.(completedTasks := SatAdd32(pool.completedTasks, 1));
      } else {
        pool := pool.(failedTasks := SatAdd32(pool.failedTasks, 1));
      }
      if pool.totalTasks > 0 {
        pool := pool.(successRate := Min(Quotient(SatMul32(pool.completedTasks, 100), pool.totalTasks), 100));
      }
      pool := pool.(reputation := if success then Min(SatAdd32(pool.reputation, 1), 100) else SatSub(pool.reputation, 2));
      var rep := ReputationOf(minerReputation, pool.owner);
      rep := rep.(total := SatAdd32(rep.total, 1));
      if success {
        rep := rep.(successful := SatAdd32(rep.successful, 1));
        rep := rep.(reputation := Min(SatAdd32(rep.reputation, 1), 100));
      } else {
        rep := rep.(failed := SatAdd32(rep.failed, 1));
        rep := rep.(reputation := SatSub(rep.reputation, 2));
      }
      minerReputation := minerReputation[pool.owner := rep];
      pools := pools[id := pool];
    }

    method ReleaseEscrow(now: BlockNumber, t: TaskId)
      requires Wired()
      modifies `rewards, `escrows, currency
      ensures (Snapshot(), Around(now)) == SchedulerSpec.ReleaseEscrow(old(Snapshot()), old(Around(now)), t)
    {
      rewards := rewards - {t};
      if t in escrows {
        var escrow := escrows[t];
        escrows := escrows - {t};
        currency.DoUnreserve(escrow.user, SatAdd128(escrow.reward, escrow.deposit));
      }
    }

    method SlashPool(now: BlockNumber, id: PoolId) returns (r: Result<(), Error>)
      requires Wired()
      modifies `pools, currency
      ensures Step(Snapshot(), Around(now), r) == SchedulerSpec.SlashPool(config, old(Snapshot()), old(Around(now)), id)
    {
      if id !in pools { return Err(PoolNotFound); }
      var pool := pools[id];
      if pool.depositHeld == 0 { return Ok(()); }
      var amount := if pool.depositHeld > config.failureSlash then config.failureSlash else pool.depositHeld;
      var unslashed := currency.DoSlashReserved(pool.owner, amount);
      var slashed := SatSub(amount, unslashed);
      pools := pools[id := pool.(depositHeld := SatSub(pool.depositHeld, slashed))];
      return Ok(());
    }

    /** The writes that every way of finishing a task begins with. */
    method Conclude(t: TaskId, id: PoolId, result: bool)
      requires t in tasks
      modifies `tasks, `activeCount, `poolTasks, `pools, `minerReputation, `proofSubmittedAt
      ensures Snapshot() == Concluded(old(Snapshot()), t, id, result)
    {
      tasks := tasks[t := tasks[t].(verificationResult := Some(result), status := if result then Completed else Failed)];
      DecrementActivity(id, t);
      UpdateReputation(id, result);
      proofSubmittedAt := proofSubmittedAt - {t};
    }

    /** The intermediate status is overwritten by the verdict. */
    static lemma VerifyingIsTransient(s: State, t: TaskId, id: PoolId, result: bool)
      requires t in s.tasks
      ensures Concluded(s.(tasks := s.tasks[t := s.tasks[t].(status := Verifying)]), t, id, result) == Concluded(s, t, id, result)
    {
      var task := s.tasks[t].(verificationResult := Some(result), status := if result then Completed else Failed);
      assert s.tasks[t := s.tasks[t].(status := Verifying)][t := task] == s.tasks[t := task];
    }

    method FinalizeVerification(now: BlockNumber, t: TaskId, id: PoolId, result: bool) returns (r: Result<(), Error>)
      requires Wired()
      modifies this, currency, attestation
      ensures Step(Snapshot(), Around(now), r) ==
              SchedulerSpec.FinalizeVerification(config, old(Snapshot()), old(Around(now)), t, id, result)
    {
      if t !in tasks || tasks[t].proofHash.None? { return Err(ProofNotSubmitted); }
      var proofHash := tasks[t].proofHash.value;
      ghost var s0 := Snapshot();
      tasks := tasks[t := tasks[t].(status := Verifying)];
      Conclude(t, id, result);
      VerifyingIsTransient(s0, t, id, result);
      if result {
        if tasks[t].rewardAmount.Some? {
          rewards := rewards[t := tasks[t].rewardAmount.value];
        }
        var task := tasks[t];
        if task.poolId !in pools { return Err(PoolNotFound); }
        var _ := attestation.OnTaskCompleted(now, pools[task.poolId].owner, t, proofHash, [], 0, 0);
        return Ok(());
      } else {
        ReleaseEscrow(now, t);
        r := SlashPool(now, id);
      }
    }

    method MarkTaskFailed(now: BlockNumber, t: TaskId) returns (r: Result<(), Error>)
      requires Wired()
      modifies this, currency
      ensures Step(Snapshot(), Around(now), r) == SchedulerSpec.MarkTaskFailed(config, old(Snapshot()), old(Around(now)), t)
    {
      if t !in tasks { return Err(TaskNotFound); }
      var task := tasks[t];
      if IsTerminal(task.status) { return Ok(()); }
      Conclude(t, task.poolId, false);
      ReleaseEscrow(now, t);
      r := SlashPool(now, task.poolId);
    }

    // ---- Tasks.

    method SubmitTask(now: BlockNumber, user: AccountId, d: Dimensions, priority: TaskPriority, preferred: Option<PoolId>, order: seq<PoolId>)
      returns (r: Result<(), Error>)
      requires Wired()
      modifies this, currency, attestation
      ensures Step(Snapshot(), Around(now), r) ==
              SchedulerSpec.SubmitTask(config, old(Snapshot()), old(Around(now)), user, d, priority, preferred, order)
    {
      var s0, w0 := Snapshot(), Around(now);
      if d.m == 0 || d.n == 0 || d.k == 0 { return Err(InvalidDimensions); }
      r := Place(now, user, d, priority, preferred, order);
      if r.Err? {
        Rollback(s0, w0);
      }
    }

    /** Writes the task, chooses its pool and assigns it. Errors are left to the caller to undo. */
    method Place(now: BlockNumber, user: AccountId, d: Dimensions, priority: TaskPriority, preferred: Option<PoolId>, order: seq<PoolId>)
      returns (r: Result<(), Error>)
      requires Wired()
      modifies this, currency
      ensures match ChoosePool(config, old(pools), old(activeCount), d.k, preferred, order)
              case Err(e) => r == Err(e)
              case Ok(chosen) =>
                var step := Settled(config, old(Snapshot()), old(Around(now)), user, d, priority, chosen.0, chosen.1);
                r == step.r && (r.Ok? ==> Snapshot() == step.s && Around(now) == step.w)
    {
      ghost var s0 := Snapshot();
      tasks := tasks[nextTaskId := Pended(now, user, d, priority)];
      var chosen := Choose(d.k, preferred, order);
      if chosen.Err? { return Err(chosen.error); }
      r := Assign(now, user, d, priority, chosen.value.0, chosen.value.1, s0);
    }

    /** A task as it is first written, before a pool is chosen. */
    static function Pended(now: BlockNumber, user: AccountId, d: Dimensions, priority: TaskPriority): Task {
      Task(user, 0, d, priority, Pending, now, None, None, None, false)
    }

    /** The wanted pool, or the best of the scanned ones; its score is written to its record. */
    method Choose(k: u32, preferred: Option<PoolId>, order: seq<PoolId>) returns (chosen: Result<(PoolId, PoolScore), Error>)
      modifies `pools
      ensures chosen == ChoosePool(config, old(pools), activeCount, k, preferred, order)
      ensures pools == if chosen.Ok? then Scored(old(pools), chosen.value.0, chosen.value.1) else old(pools)
    {
      match preferred {
        case Some(wanted) =>
          if wanted !in pools { return Err(PoolNotFound); }
          var pool := pools[wanted];
          if pool.status != Active { return Err(PoolInactive); }
          if ActiveTasks(activeCount, wanted) >= config.maxTasksPerPool { return Err(TooManyActiveTasks); }
          if pool.gpuMemory < k { return Err(NoAvailablePool); }
          var score := CalculatePoolScore(pool, pool.price, pool.price);
          pools := pools[wanted := pool.(score := score)];
          return Ok((wanted, score));
        case None =>
          var best := SelectBestPool(order, k);
          if best.None? { return Err(NoAvailablePool); }
          return Ok(best.value);
      }
    }

    /** The pool table with the score of the chosen pool written. */
    static function Scored(table: map<PoolId, Pool>, id: PoolId, score: PoolScore): map<PoolId, Pool> {
      if id in table then table[id := table[id].(score := score)] else table
    }

    /** `s0` with the pending task and the score of the chosen pool written. */
    ghost predicate Underway(s0: State, pended: Task, id: PoolId, score: PoolScore)
      reads this
    {
      Snapshot() == s0.(tasks := s0.tasks[s0.nextTaskId := pended], pools := Scored(s0.pools, id, score))
    }

    /** Prices the task, reserves for it and records it. Errors are left to the caller to undo. */
    method Assign(now: BlockNumber, user: AccountId, d: Dimensions, priority: TaskPriority, id: PoolId, score: PoolScore, ghost s0: State)
      returns (r: Result<(), Error>)
      requires Wired() && Underway(s0, Pended(now, user, d, priority), id, score)
      modifies this, currency
      ensures r == Settled(config, s0, old(Around(now)), user, d, priority, id, score).r
      ensures r.Ok? ==> Snapshot() == Settled(config, s0, old(Around(now)), user, d, priority, id, score).s
      ensures r.Ok? ==> Around(now) == Settled(config, s0, old(Around(now)), user, d, priority, id, score).w
    {
      if id !in pools { return Err(PoolNotFound); }
      var pool := pools[id];
      if ActiveTasks(activeCount, id) >= config.maxTasksPerPool { return Err(TooManyActiveTasks); }
      var priced := CalculateReward(d, pool.price, pool.hasNvlink, pool.nvlinkEfficiency);
      if priced.Err? { return Err(priced.error); }
      var reward := priced.value;
      var reserved := currency.TryReserve(user, SatAdd128(reward, config.taskDeposit));
      if !reserved { return Err(InsufficientBalance); }
      r := Record(now, user, d, priority, id, score, reward, s0);
    }

    /** Takes the task through Assigned to Computing and writes its place in the index and its escrow. */
    method Record(now: BlockNumber, user: AccountId, d: Dimensions, priority: TaskPriority, id: PoolId, score: PoolScore,
                  reward: Balance, ghost s0: State)
      returns (r: Result<(), Error>)
      requires Underway(s0, Pended(now, user, d, priority), id, score) && id in s0.pools
      modifies `tasks, `poolTasks, `activeCount, `escrows, `nextTaskId
      ensures r == if |TasksOf(s0.poolTasks, id)| >= config.maxTasksPerPool then Err(TooManyActiveTasks)
                   else if s0.nextTaskId == U64_MAX then Err(ArithmeticOverflow) else Ok(())
      ensures r.Ok? ==> Snapshot() == WithTask(config, s0, now, user, d, priority, id, score, reward)
    {
      var t := nextTaskId;
      Advance(t, id, reward);
      assert tasks == s0.tasks[t := Task(user, id, d, priority, Computing, now, None, None, Some(reward), false)];
      var listed := TasksOf(poolTasks, id);
      if |listed| >= config.maxTasksPerPool { return Err(TooManyActiveTasks); }
      Enlist(t, id, listed, Escrow(user, pools[id].owner, reward, config.taskDeposit, false));
      if t == U64_MAX { return Err(ArithmeticOverflow); }
      nextTaskId := t + 1;
      return Ok(());
    }

    method Enlist(t: TaskId, id: PoolId, listed: seq<TaskId>, escrow: Escrow)
      modifies `poolTasks, `activeCount, `escrows
      ensures poolTasks == old(poolTasks)[id := listed + [t]]
      ensures activeCount == old(activeCount)[id := SatAdd32(ActiveTasks(old(activeCount), id), 1)]
      ensures escrows == old(escrows)[t := escrow]
    {
      poolTasks := poolTasks[id := listed + [t]];
      activeCount := activeCount[id := SatAdd32(ActiveTasks(activeCount, id), 1)];
      escrows := escrows[t := escrow];
    }

    /** Pool and reward go into the record, and the status passes through Assigned. */
    method Advance(t: TaskId, id: PoolId, reward: Balance)
      requires t in tasks
      modifies `tasks
      ensures tasks == old(tasks)[t := old(tasks)[t].(poolId := id, rewardAmount := Some(reward), status := Computing)]
    {
      tasks := tasks[t := tasks[t].(poolId := id, status := Assigned, rewardAmount := Some(reward))];
      tasks := tasks[t := tasks[t].(status := Computing)];
    }

    method SubmitProof(now: BlockNumber, sender: AccountId, t: TaskId, hash: Hash) returns (r: Result<(), Error>)
      modifies this
      ensures Step(Snapshot(), Around(now), r) == SchedulerSpec.SubmitProof(config, old(Snapshot()), old(Around(now)), sender, t, hash)
    {
      if hash == 0 { return Err(InvalidProof); }
      if t !in tasks { return Err(TaskNotFound); }
      var task := tasks[t];
      if task.status != Computing { return Err(InvalidTaskState); }
      if task.poolId !in pools { return Err(PoolNotFound); }
      if pools[task.poolId].owner != sender { return Err(NotAssignedPoolOwner); }
      if now > SatAdd32(task.submittedAt, config.taskTimeout) { return Err(TaskExpired); }
      task := task.(proofHash := Some(hash));
      task := task.(status := ProofSubmitted);
      tasks := tasks[t := task];
      proofSubmittedAt := proofSubmittedAt[t := now];
      return Ok(());
    }

    method VerifyProof(now: BlockNumber, sender: AccountId, t: TaskId, result: bool) returns (r: Result<(), Error>)
      requires Wired()
      modifies this, currency, attestation
      ensures Step(Snapshot(), Around(now), r) == SchedulerSpec.VerifyProof(config, old(Snapshot()), old(Around(now)), sender, t, result)
    {
      var s0, w0 := Snapshot(), Around(now);
      if t !in tasks { return Err(TaskNotFound); }
      var task := tasks[t];
      if task.status != ProofSubmitted { return Err(InvalidTaskState); }
      if task.proofHash.None? { return Err(ProofNotSubmitted); }
      if task.poolId !in pools { return Err(PoolNotFound); }
      if pools[task.poolId].owner == sender { return Err(SelfVerificationNotAllowed); }
      r := FinalizeVerification(now, t, task.poolId, result);
      if r.Err? {
        Rollback(s0, w0);
      }
    }

    method ClaimReward(now: BlockNumber, sender: AccountId, t: TaskId) returns (r: Result<(), Error>)
      requires Wired()
      modifies this, currency, attestation
      ensures Step(Snapshot(), Around(now), r) == SchedulerSpec.ClaimReward(old(Snapshot()), old(Around(now)), sender, t)
    {
      var s0, w0 := Snapshot(), Around(now);
      if t !in tasks { return Err(TaskNotFound); }
      var task := tasks[t];
      if task.status != Completed { return Err(InvalidTaskState); }
      if task.verificationResult != Some(true) { return Err(RewardNotAvailable); }
      if task.poolId !in pools { return Err(PoolNotFound); }
      if pools[task.poolId].owner != sender { return Err(NotAssignedPoolOwner); }
      if t !in rewards { return Err(RewardNotAvailable); }
      var reward := rewards[t];
      if t !in escrows { return Err(RewardNotAvailable); }
      var escrow := escrows[t];
      if escrow.claimed { return Err(RewardAlreadyClaimed); }
      var paid := currency.TryRepatriate(escrow.user, sender, reward);
      if paid.Err? { return Err(InsufficientBalance); }
      if paid.value != 0 {
        Rollback(s0, w0);
        return Err(InsufficientBalance);
      }
      currency.DoUnreserve(escrow.user, escrow.deposit);
      escrows := escrows[t := escrow.(claimed := true)];
      rewards := rewards - {t};
      return Ok(());
    }

    /** Reputation loss, refund and slash, in that order. */
    method Revoke(now: BlockNumber, t: TaskId) returns (r: Result<(), Error>)
      requires Wired() && t in tasks
      modifies `tasks, `pools, `minerReputation, `rewards, `escrows, currency
      ensures Step(Snapshot(), Around(now), r) == SchedulerSpec.Revoke(config, old(Snapshot()), old(Around(now)), t)
    {
      var id := tasks[t].poolId;
      tasks := tasks[t := tasks[t].(status := Failed, verificationResult := Some(false), disputed := true)];
      UpdateReputation(id, false);
      ReleaseEscrow(now, t);
      r := SlashPool(now, id);
    }

    method RevokeOrRollback(now: BlockNumber, t: TaskId) returns (r: Result<(), Error>)
      requires Wired() && t in tasks
      modifies this, currency, attestation
      ensures Step(Snapshot(), Around(now), r) ==
              Transactional(old(Snapshot()), old(Around(now)), SchedulerSpec.Revoke(config, old(Snapshot()), old(Around(now)), t))
    {
      var s0, w0 := Snapshot(), Around(now);
      r := Revoke(now, t);
      if r.Err? {
        Rollback(s0, w0);
      }
    }

    method Restore(t: TaskId)
      requires t in tasks
      modifies `tasks, `pools, `minerReputation, `rewards
      ensures Snapshot() == SchedulerSpec.Restore(old(Snapshot()), t)
    {
      var task := tasks[t];
      tasks := tasks[t := task.(status := Completed, verificationResult := Some(true), disputed := true)];
      if task.rewardAmount.Some? {
        rewards := rewards[t := task.rewardAmount.value];
      }
      UpdateReputation(task.poolId, true);
    }

    method DisputeVerification(now: BlockNumber, sender: AccountId, t: TaskId) returns (r: Result<(), Error>)
      requires Wired()
      modifies this, currency, attestation
      ensures Step(Snapshot(), Around(now), r) == SchedulerSpec.DisputeVerification(config, old(Snapshot()), old(Around(now)), sender, t)
    {
      if t !in tasks { return Err(TaskNotFound); }
      var task := tasks[t];
      if task.user != sender { return Err(NotTaskUser); }
      if task.status != Completed && task.status != Failed { return Err(DisputeNotAllowed); }
      if task.disputed { return Err(DisputeAlreadyFiled); }
      if task.verificationResult == Some(true) {
        r := RevokeOrRollback(now, t);
      } else if task.verificationResult == Some(false) {
        Restore(t);
        return Ok(());
      } else {
        return Err(DisputeNotAllowed);
      }
    }

    // ---- Stakes.

    method StakeToPool(now: BlockNumber, who: AccountId, id: PoolId, amount: Balance) returns (r: Result<(), Error>)
      requires Wired()
      modifies this, currency
      ensures Step(Snapshot(), Around(now), r) == SchedulerSpec.StakeToPool(old(Snapshot()), old(Around(now)), who, id, amount)
    {
      if id !in pools { return Err(PoolNotFound); }
      var reserved := currency.TryReserve(who, amount);
      if !reserved { return Err(InsufficientBalance); }
      var stake := if (id, who) in poolStakes then poolStakes[(id, who)] else 0;
      poolStakes := poolStakes[(id, who) := SatAdd128(stake, amount)];
      var total := if id in totalPoolStake then totalPoolStake[id] else 0;
      totalPoolStake := totalPoolStake[id := SatAdd128(total, amount)];
      return Ok(());
    }

    method UnstakeFromPool(now: BlockNumber, who: AccountId, id: PoolId, amount: Balance) returns (r: Result<(), Error>)
      requires Wired()
      modifies this, currency
      ensures Step(Snapshot(), Around(now), r) == SchedulerSpec.UnstakeFromPool(old(Snapshot()), old(Around(now)), who, id, amount)
    {
      var stake := if (id, who) in poolStakes then poolStakes[(id, who)] else 0;
      if stake < amount { return Err(StakeNotFound); }
      currency.DoUnreserve(who, amount);
      poolStakes := poolStakes[(id, who) := SatSub(stake, amount)];
      var total := if id in totalPoolStake then totalPoolStake[id] else 0;
      totalPoolStake := totalPoolStake[id := SatSub(total, amount)];
      return Ok(());
    }

    // ---- The block hook.

    /** Sorts the tasks of one pool's list into overdue proofs and overdue tasks, after those of the pools before it. */
    method ScanPool(now: BlockNumber, listed: seq<TaskId>, ghost earlier: seq<TaskId>, proofs: seq<TaskId>, late: seq<TaskId>)
      returns (autoVerify: seq<TaskId>, expired: seq<TaskId>)
      requires proofs == OverdueProofs(config, Snapshot(), now, earlier) && late == OverdueTasks(config, Snapshot(), now, earlier)
      ensures autoVerify == OverdueProofs(config, Snapshot(), now, earlier + listed)
      ensures expired == OverdueTasks(config, Snapshot(), now, earlier + listed)
    {
      autoVerify, expired := proofs, late;
      ghost var s := Snapshot();
      assert earlier + listed[..0] == earlier;
      for j := 0 to |listed|
        invariant autoVerify == OverdueProofs(config, s, now, earlier + listed[..j])
        invariant expired == OverdueTasks(config, s, now, earlier + listed[..j])
      {
        ghost var next := earlier + listed[..j + 1];
        assert next[..|next| - 1] == earlier + listed[..j];
        var t := listed[j];
        if t !in tasks { continue; }
        var task := tasks[t];
        if IsTerminal(task.status) { continue; }
        if task.status == ProofSubmitted && t in proofSubmittedAt
           && now > SatAdd32(proofSubmittedAt[t], config.verificationTimeout) {
          autoVerify := autoVerify + [t];
          continue;
        }
        if now > SatAdd32(task.submittedAt, config.taskTimeout) {
          expired := expired + [t];
        }
      }
      assert listed[..|listed|] == listed;
    }

    /** Scans the task lists of the pools in storage order and sorts out what is overdue. */
    method ScanOverdue(now: BlockNumber, order: seq<PoolId>) returns (autoVerify: seq<TaskId>, expired: seq<TaskId>)
      ensures autoVerify == OverdueProofs(config, Snapshot(), now, Listed(Snapshot(), order))
      ensures expired == OverdueTasks(config, Snapshot(), now, Listed(Snapshot(), order))
    {
      autoVerify, expired := [], [];
      for i := 0 to |order|
        invariant autoVerify == OverdueProofs(config, Snapshot(), now, Listed(Snapshot(), order[..i]))
        invariant expired == OverdueTasks(config, Snapshot(), now, Listed(Snapshot(), order[..i]))
      {
        assert order[..i + 1][..i] == order[..i];
        autoVerify, expired :=
          ScanPool(now, TasksOf(poolTasks, order[i]), Listed(Snapshot(), order[..i]), autoVerify, expired);
      }
      assert order[..|order|] == order;
    }

    method OnInitialize(now: BlockNumber, order: seq<PoolId>)
      requires Wired()
      modifies this, currency, attestation
      ensures (Snapshot(), Around(now)) == SchedulerSpec.OnInitialize(config, old(Snapshot()), old(Around(now)), order)
    {
      ghost var s0, w0 := Snapshot(), Around(now);
      var autoVerify, expired := ScanOverdue(now, order);
      for i := 0 to |autoVerify|
        invariant (Snapshot(), Around(now)) == ApproveAll(config, s0, w0, autoVerify[..i])
      {
        assert autoVerify[..i + 1][..i] == autoVerify[..i];
        var t := autoVerify[i];
        if t in tasks {
          var _ := FinalizeVerification(now, t, tasks[t].poolId, true);
        }
      }
      assert autoVerify[..|autoVerify|] == autoVerify;
      ghost var s1, w1 := Snapshot(), Around(now);
      for i := 0 to |expired|
        invariant (Snapshot(), Around(now)) == FailAll(config, s1, w1, expired[..i])
      {
        assert expired[..i + 1][..i] == expired[..i];
        var _ := MarkTaskFailed(now, expired[i]);
      }
      assert expired[..|expired|] == expired;
    }

    // ---- Any call, and any block.

    method Route(now: BlockNumber, call: Call) returns (r: Result<(), Error>)
      requires Wired()
      modifies this, currency, attestation
      ensures Step(Snapshot(), Around(now), r) == Exec(config, old(Snapshot()), old(Around(now)), call)
    {
      match call
      case DoRegisterPool(who, gpuMemory, hasNvlink, efficiency, price) =>
        r := RegisterPool(now, who, gpuMemory, hasNvlink, efficiency, price);
      case DoUpdatePoolConfig(who, pool, gpuMemory, hasNvlink, efficiency, price) =>
        r := UpdatePoolConfig(now, who, pool, gpuMemory, hasNvlink, efficiency, price);
      case DoDeregisterPool(who, pool) => r := DeregisterPool(now, who, pool);
      case DoSubmitTask(who, d, priority, preferred, order) => r := SubmitTask(now, who, d, priority, preferred, order);
      case DoSubmitProof(who, task, hash) => r := SubmitProof(now, who, task, hash);
      case DoVerifyProof(who, task, result) => r := VerifyProof(now, who, task, result);
      case DoClaimReward(who, task) => r := ClaimReward(now, who, task);
      case DoDispute(who, task) => r := DisputeVerification(now, who, task);
      case DoStake(who, pool, amount) => r := StakeToPool(now, who, pool, amount);
      case DoUnstake(who, pool, amount) => r := UnstakeFromPool(now, who, pool, amount);
    }

    /**
      One call from outside keeps all three pallets in agreement; unless it
      disputes a claimed escrow, it also keeps every account's reserve in
      step with what is owed.
    */
    method Dispatch(now: BlockNumber, call: Call) returns (r: Result<(), Error>)
      requires Wired() && Valid(now)
      modifies this, currency, attestation
      ensures Valid(now)
      ensures Step(Snapshot(), Around(now), r) == Exec(config, old(Snapshot()), old(Around(now)), call)
      ensures old(InBooks(now)) && !SchedulerBooks.DisputesClaimed(old(Snapshot()), call) ==>
              SchedulerBooks.KeepsBooks(config, old(Snapshot()), old(Around(now)), Snapshot(), Around(now))
    {
      ghost var s, w := Snapshot(), Around(now);
      Chain.DispatchSound(config, Chain.Chain(s, w), call);
      if InBooks(now) && !SchedulerBooks.DisputesClaimed(s, call) {
        SchedulerBooks.ExecBooks(config, s, w, call);
      }
      r := Route(now, call);
    }

    /** The hook of the next block finishes whatever falls due and keeps agreement and books. */
    method NextBlock(now: BlockNumber, order: seq<PoolId>)
      requires Wired() && Valid(now) && now < U32_MAX && Enumerates(order, poolTasks.Keys)
      modifies this, currency, attestation
      ensures Valid(now + 1)
      ensures (Snapshot(), Around(now + 1)) == SchedulerSpec.OnInitialize(config, old(Snapshot()), old(Around(now + 1)), order)
      ensures old(InBooks(now)) ==> InBooks(now + 1)
    {
      ghost var k := Chain.Chain(Snapshot(), Around(now));
      Chain.NewBlockSound(config, k, order);
      if InBooks(now) {
        Chain.NewBlockBooks(config, k, order);
      }
      OnInitialize(now + 1, order);
    }
  }
}
