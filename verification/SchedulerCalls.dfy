/** One dispatch of the scheduler: the calls, and what holds across any single one of them. */
module SchedulerCalls {
  import opened Prelude
  import opened SchedulerSpec
  import opened SchedulerInvariant
  import opened SchedulerSteps

  lemma FailedVerify(c: Config, s: State, w: World, who: AccountId, t: TaskId, result: bool)
    ensures var step := VerifyProof(c, s, w, who, t, result);
            step.r.Err? ==> step == Fail(s, w, step.r.error)
  {
  }

  lemma FailedDispute(c: Config, s: State, w: World, who: AccountId, t: TaskId)
    ensures var step := DisputeVerification(c, s, w, who, t);
            step.r.Err? ==> step == Fail(s, w, step.r.error)
  {
  }

  /** A call that returns an error leaves storage, currency and attestations as they were. */
  lemma ErrorsChangeNothing(c: Config, s: State, w: World, call: Call)
    requires Exec(c, s, w, call).r.Err?
    ensures Exec(c, s, w, call) == Fail(s, w, Exec(c, s, w, call).r.error)
  {
    match call
    case DoVerifyProof(who, task, result) => FailedVerify(c, s, w, who, task, result);
    case DoDispute(who, task) => FailedDispute(c, s, w, who, task);
    case _ =>
  }

  lemma ExecKeeps(c: Config, s: State, w: World, call: Call)
    requires Inv(c, s)
    ensures Inv(c, Exec(c, s, w, call).s)
  {
    if Exec(c, s, w, call).r.Err? {
      ErrorsChangeNothing(c, s, w, call);
      return;
    }
    match call
    case DoRegisterPool(who, gpuMemory, hasNvlink, efficiency, price) =>
      RegisterPoolKeeps(c, s, w, who, gpuMemory, hasNvlink, efficiency, price);
    case DoUpdatePoolConfig(who, pool, gpuMemory, hasNvlink, efficiency, price) =>
      UpdatePoolConfigKeeps(c, s, w, who, pool, gpuMemory, hasNvlink, efficiency, price);
    case DoDeregisterPool(who, pool) => DeregisterPoolKeeps(c, s, w, who, pool);
    case DoSubmitTask(who, d, priority, preferred, order) => SubmitTaskKeeps(c, s, w, who, d, priority, preferred, order);
    case DoSubmitProof(who, task, hash) => SubmitProofKeeps(c, s, w, who, task, hash);
    case DoVerifyProof(who, task, result) => VerifyProofKeeps(c, s, w, who, task, result);
    case DoClaimReward(who, task) => ClaimRewardKeeps(c, s, w, who, task);
    case DoDispute(who, task) => DisputeKeeps(c, s, w, who, task);
    case DoStake(who, pool, amount) => StakeKeeps(c, s, w, who, pool, amount);
    case DoUnstake(who, pool, amount) => UnstakeKeeps(c, s, w, who, pool, amount);
  }

  // ---- How the records of one task, escrow and pool may change in one step.

  ghost predicate TaskMoves(task: Task, task': Task) {
    || task' == task
    || (task.status == Computing && task' == task.(status := ProofSubmitted, proofHash := task'.proofHash))
    || (task.status == ProofSubmitted && task' == Finished(task, true))
    || (!IsTerminal(task.status) && task' == Finished(task, false))
    || (IsTerminal(task.status) && !task.disputed && task' == Overturned(task))
  }

  ghost predicate TasksEvolve(tasks: map<TaskId, Task>, tasks': map<TaskId, Task>, next: TaskId, now: BlockNumber) {
    && (forall t :: t in tasks ==> t in tasks' && TaskMoves(tasks[t], tasks'[t]))
    && (forall t :: t in tasks' && t !in tasks ==> t >= next && tasks'[t].status == Computing && tasks'[t].submittedAt == now)
  }

  ghost predicate ProofsEvolve(proofAt: map<TaskId, BlockNumber>, proofAt': map<TaskId, BlockNumber>, now: BlockNumber) {
    forall t :: t in proofAt' ==> proofAt'[t] == now || (t in proofAt && proofAt'[t] == proofAt[t])
  }

  /** An escrow is created once, may be marked claimed, and once gone never comes back. */
  ghost predicate EscrowsEvolve(escrows: map<TaskId, Escrow>, escrows': map<TaskId, Escrow>, next: TaskId) {
    forall t :: t in escrows' ==>
      || t >= next
      || (t in escrows && escrows'[t] in {escrows[t], escrows[t].(claimed := true)})
  }

  /** A pool keeps its owner, and a deregistered id is never used again. */
  ghost predicate PoolsEvolve(pools: map<PoolId, Pool>, pools': map<PoolId, Pool>, next: PoolId) {
    forall p :: p in pools' ==> p >= next || (p in pools && pools'[p].owner == pools[p].owner)
  }

  ghost predicate Evolves(s: State, s': State, now: BlockNumber) {
    && TasksEvolve(s.tasks, s'.tasks, s.nextTaskId, now)
    && ProofsEvolve(s.proofSubmittedAt, s'.proofSubmittedAt, now)
    && EscrowsEvolve(s.escrows, s'.escrows, s.nextTaskId)
    && PoolsEvolve(s.pools, s'.pools, s.nextPoolId)
    && s.nextTaskId <= s'.nextTaskId && s.nextPoolId <= s'.nextPoolId
  }

  lemma TasksStill(tasks: map<TaskId, Task>, next: TaskId, now: BlockNumber)
    ensures TasksEvolve(tasks, tasks, next, now)
  {
  }

  lemma TasksEdit(tasks: map<TaskId, Task>, next: TaskId, now: BlockNumber, t: TaskId, task: Task)
    requires t in tasks && TaskMoves(tasks[t], task)
    ensures TasksEvolve(tasks, tasks[t := task], next, now)
  {
  }

  lemma StillEvolves(s: State, now: BlockNumber)
    ensures Evolves(s, s, now)
  {
    TasksStill(s.tasks, s.nextTaskId, now);
  }

  /** A step that leaves tasks, proofs and counters alone evolves if its escrows and pools do. */
  lemma MoneyEvolves(s: State, s': State, now: BlockNumber)
    requires s'.tasks == s.tasks && s'.proofSubmittedAt == s.proofSubmittedAt
    requires s'.nextTaskId == s.nextTaskId && s'.nextPoolId >= s.nextPoolId
    requires EscrowsEvolve(s.escrows, s'.escrows, s.nextTaskId) && PoolsEvolve(s.pools, s'.pools, s.nextPoolId)
    ensures Evolves(s, s', now)
  {
    TasksStill(s.tasks, s.nextTaskId, now);
  }

  lemma PoolsEdit(pools: map<PoolId, Pool>, next: PoolId, p: PoolId, pool: Pool)
    requires p in pools && pool.owner == pools[p].owner
    ensures PoolsEvolve(pools, pools[p := pool], next)
  {
  }

  /** A step that writes the pool tables only. */
  lemma PoolTablesEvolve(s: State, s': State, now: BlockNumber)
    requires s' == s.(pools := s'.pools, poolByOwner := s'.poolByOwner, poolTasks := s'.poolTasks, activeCount := s'.activeCount)
    requires PoolsEvolve(s.pools, s'.pools, s.nextPoolId)
    ensures Evolves(s, s', now)
  {
    MoneyEvolves(s, s', now);
  }

  /** A step that moves one task, and at most drops its escrow and proof time. */
  lemma OneTaskEvolves(s: State, s': State, now: BlockNumber, t: TaskId)
    requires t in s.tasks && t in s'.tasks && TaskMoves(s.tasks[t], s'.tasks[t]) && s'.tasks == s.tasks[t := s'.tasks[t]]
    requires s'.escrows == s.escrows || s'.escrows == s.escrows - {t}
    requires s'.proofSubmittedAt == s.proofSubmittedAt || s'.proofSubmittedAt == s.proofSubmittedAt - {t}
    requires PoolsEvolve(s.pools, s'.pools, s.nextPoolId) && s'.nextTaskId == s.nextTaskId && s'.nextPoolId == s.nextPoolId
    ensures Evolves(s, s', now)
  {
    TasksEdit(s.tasks, s.nextTaskId, now, t, s'.tasks[t]);
  }

  /** Reputation updates and slashes write the pool and reputation tables only, and keep every owner. */
  lemma ReputationEvolves(s: State, p: PoolId, success: bool)
    ensures var s1 := UpdateReputation(s, p, success);
            s1 == s.(pools := s1.pools, minerReputation := s1.minerReputation) && PoolsEvolve(s.pools, s1.pools, s.nextPoolId)
  {
    ReputationFrame(s, p, success);
    if p in s.pools {
      PoolsEdit(s.pools, s.nextPoolId, p, ReputedPool(s.pools[p], success));
    }
  }

  lemma SlashEvolves(c: Config, s: State, w: World, p: PoolId)
    ensures var s1 := SlashPool(c, s, w, p).s;
            s1 == s.(pools := s1.pools) && PoolsEvolve(s.pools, s1.pools, s.nextPoolId)
  {
    SlashFrame(c, s, w, p);
    if p in s.pools && s.pools[p].depositHeld > 0 {
      PoolsEdit(s.pools, s.nextPoolId, p, SlashPool(c, s, w, p).s.pools[p]);
    }
  }

  lemma PenaltyEvolves(c: Config, s: State, w: World, p: PoolId)
    ensures var s2 := SlashPool(c, UpdateReputation(s, p, false), w, p).s;
            s2 == s.(pools := s2.pools, minerReputation := s2.minerReputation) && PoolsEvolve(s.pools, s2.pools, s.nextPoolId)
  {
    ReputationEvolves(s, p, false);
    SlashEvolves(c, UpdateReputation(s, p, false), w, p);
  }

  lemma ApproveEvolves(c: Config, s: State, w: World, t: TaskId)
    requires Inv(c, s) && t in s.tasks && s.tasks[t].status == ProofSubmitted
    ensures Evolves(s, FinalizeVerification(c, s, w, t, s.tasks[t].poolId, true).s, w.now)
  {
    assert Shaped(s.tasks[t]);
    ApprovalShape(c, s, w, t);
    ReputationEvolves(ApprovedState(s, t), s.tasks[t].poolId, true);
    OneTaskEvolves(s, UpdateReputation(ApprovedState(s, t), s.tasks[t].poolId, true), w.now, t);
  }

  lemma FailEvolves(c: Config, s: State, w: World, t: TaskId)
    requires t in s.tasks && !IsTerminal(s.tasks[t].status)
    ensures Evolves(s, MarkTaskFailed(c, s, w, t).s, w.now)
  {
    var p := s.tasks[t].poolId;
    FailureShape(c, s, w, t);
    PenaltyEvolves(c, FailedState(s, t), Refunded(s, w, t), p);
    OneTaskEvolves(s, SlashPool(c, UpdateReputation(FailedState(s, t), p, false), Refunded(s, w, t), p).s, w.now, t);
  }

  lemma VerifyEvolves(c: Config, s: State, w: World, who: AccountId, t: TaskId, result: bool)
    requires Inv(c, s)
    requires VerifyProof(c, s, w, who, t, result).r.Ok?
    ensures Evolves(s, VerifyProof(c, s, w, who, t, result).s, w.now)
  {
    VerifyShape(c, s, w, who, t, result);
    if result {
      ApproveEvolves(c, s, w, t);
    } else {
      FailEvolves(c, s, w, t);
    }
  }

  lemma RevokeEvolves(c: Config, s: State, w: World, t: TaskId, p: PoolId)
    requires t in s.tasks && IsTerminal(s.tasks[t].status) && !s.tasks[t].disputed
    ensures Evolves(s, SlashPool(c, UpdateReputation(RevokedState(s, t), p, false), Refunded(s, w, t), p).s, w.now)
  {
    PenaltyEvolves(c, RevokedState(s, t), Refunded(s, w, t), p);
    OneTaskEvolves(s, SlashPool(c, UpdateReputation(RevokedState(s, t), p, false), Refunded(s, w, t), p).s, w.now, t);
  }

  lemma RestoreEvolves(s: State, w: World, t: TaskId, p: PoolId)
    requires t in s.tasks && IsTerminal(s.tasks[t].status) && !s.tasks[t].disputed && s.tasks[t].rewardAmount.Some?
    ensures Evolves(s, UpdateReputation(RestoredState(s, t), p, true), w.now)
  {
    ReputationEvolves(RestoredState(s, t), p, true);
    OneTaskEvolves(s, UpdateReputation(RestoredState(s, t), p, true), w.now, t);
  }

  lemma DisputeEvolves(c: Config, s: State, w: World, who: AccountId, t: TaskId)
    requires Inv(c, s)
    requires DisputeVerification(c, s, w, who, t).r.Ok?
    ensures Evolves(s, DisputeVerification(c, s, w, who, t).s, w.now)
  {
    assert Shaped(s.tasks[t]);
    var p := s.tasks[t].poolId;
    if s.tasks[t].status == Completed {
      DisputeApprovalShape(c, s, w, who, t);
      RevokeEvolves(c, s, w, t, p);
    } else {
      DisputeFailureShape(c, s, w, who, t);
      RestoreEvolves(s, w, t, p);
    }
  }

  lemma WithTaskEvolves(c: Config, s: State, w: World, user: AccountId, d: Dimensions, priority: TaskPriority,
                        p: PoolId, score: PoolScore, reward: Balance)
    requires p in s.pools && s.nextTaskId < U64_MAX && s.nextTaskId !in s.tasks
    ensures Evolves(s, WithTask(c, s, w.now, user, d, priority, p, score, reward), w.now)
  {
  }

  lemma SubmitTaskEvolves(c: Config, s: State, w: World, who: AccountId, d: Dimensions, priority: TaskPriority,
                          preferred: Option<PoolId>, order: seq<PoolId>)
    requires Inv(c, s)
    requires SubmitTask(c, s, w, who, d, priority, preferred, order).r.Ok?
    ensures Evolves(s, SubmitTask(c, s, w, who, d, priority, preferred, order).s, w.now)
  {
    var p, score, reward, _ := SubmitTaskShape(c, s, w, who, d, priority, preferred, order);
    WithTaskEvolves(c, s, w, who, d, priority, p, score, reward);
  }

  lemma RegisterEvolves(c: Config, s: State, w: World, who: AccountId, gpuMemory: u32, hasNvlink: bool, efficiency: u32, price: Balance)
    requires RegisterPool(c, s, w, who, gpuMemory, hasNvlink, efficiency, price).r.Ok?
    ensures Evolves(s, RegisterPool(c, s, w, who, gpuMemory, hasNvlink, efficiency, price).s, w.now)
  {
    var step := RegisterPool(c, s, w, who, gpuMemory, hasNvlink, efficiency, price);
    assert step.s.pools == s.pools[s.nextPoolId := step.s.pools[s.nextPoolId]];
    MoneyEvolves(s, step.s, w.now);
  }

  lemma UpdateConfigEvolves(s: State, w: World, who: AccountId, p: PoolId, gpuMemory: u32, hasNvlink: bool, efficiency: u32, price: Balance)
    requires UpdatePoolConfig(s, w, who, p, gpuMemory, hasNvlink, efficiency, price).r.Ok?
    ensures Evolves(s, UpdatePoolConfig(s, w, who, p, gpuMemory, hasNvlink, efficiency, price).s, w.now)
  {
    var step := UpdatePoolConfig(s, w, who, p, gpuMemory, hasNvlink, efficiency, price);
    PoolsEdit(s.pools, s.nextPoolId, p, step.s.pools[p]);
    PoolTablesEvolve(s, step.s, w.now);
  }

  lemma DeregisterEvolves(s: State, w: World, who: AccountId, p: PoolId)
    requires DeregisterPool(s, w, who, p).r.Ok?
    ensures Evolves(s, DeregisterPool(s, w, who, p).s, w.now)
  {
    var step := DeregisterPool(s, w, who, p);
    assert step.s.pools == s.pools - {p};
    PoolTablesEvolve(s, step.s, w.now);
  }

  lemma ClaimEvolves(s: State, w: World, who: AccountId, t: TaskId)
    requires ClaimReward(s, w, who, t).r.Ok?
    ensures Evolves(s, ClaimReward(s, w, who, t).s, w.now)
  {
    var step := ClaimReward(s, w, who, t);
    assert step.s.escrows == s.escrows[t := s.escrows[t].(claimed := true)];
    MoneyEvolves(s, step.s, w.now);
  }

  /** A step that writes the stake tables only. */
  lemma StakeTablesEvolve(s: State, s': State, now: BlockNumber)
    requires s' == s.(poolStakes := s'.poolStakes, totalPoolStake := s'.totalPoolStake)
    ensures Evolves(s, s', now)
  {
    MoneyEvolves(s, s', now);
  }

  lemma StakeEvolves(s: State, w: World, who: AccountId, p: PoolId, amount: Balance)
    ensures Evolves(s, StakeToPool(s, w, who, p, amount).s, w.now)
  {
    StakeFrame(s, w, who, p, amount);
    StakeTablesEvolve(s, StakeToPool(s, w, who, p, amount).s, w.now);
  }

  lemma UnstakeEvolves(s: State, w: World, who: AccountId, p: PoolId, amount: Balance)
    ensures Evolves(s, UnstakeFromPool(s, w, who, p, amount).s, w.now)
  {
    UnstakeFrame(s, w, who, p, amount);
    StakeTablesEvolve(s, UnstakeFromPool(s, w, who, p, amount).s, w.now);
  }

  lemma ProofTimesEdit(proofAt: map<TaskId, BlockNumber>, t: TaskId, now: BlockNumber)
    ensures ProofsEvolve(proofAt, proofAt[t := now], now)
  {
  }

  lemma SubmitProofEvolves(c: Config, s: State, w: World, who: AccountId, t: TaskId, hash: Hash)
    requires SubmitProof(c, s, w, who, t, hash).r.Ok?
    ensures Evolves(s, SubmitProof(c, s, w, who, t, hash).s, w.now)
  {
    var step := SubmitProof(c, s, w, who, t, hash);
    var task := s.tasks[t].(proofHash := Some(hash), status := ProofSubmitted);
    assert step.s == s.(tasks := s.tasks[t := task], proofSubmittedAt := s.proofSubmittedAt[t := w.now]);
    TasksEdit(s.tasks, s.nextTaskId, w.now, t, task);
    ProofTimesEdit(s.proofSubmittedAt, t, w.now);
  }

  /** No call does more to the records than the moves listed above. */
  lemma ExecEvolves(c: Config, s: State, w: World, call: Call)
    requires Inv(c, s)
    ensures Evolves(s, Exec(c, s, w, call).s, w.now)
  {
    if Exec(c, s, w, call).r.Err? {
      ErrorsChangeNothing(c, s, w, call);
      StillEvolves(s, w.now);
      return;
    }
    match call
    case DoSubmitTask(who, d, priority, preferred, order) => SubmitTaskEvolves(c, s, w, who, d, priority, preferred, order);
    case DoSubmitProof(who, task, hash) => SubmitProofEvolves(c, s, w, who, task, hash);
    case DoVerifyProof(who, task, result) => VerifyEvolves(c, s, w, who, task, result);
    case DoDispute(who, task) => DisputeEvolves(c, s, w, who, task);
    case DoRegisterPool(who, gpuMemory, hasNvlink, efficiency, price) =>
      RegisterEvolves(c, s, w, who, gpuMemory, hasNvlink, efficiency, price);
    case DoUpdatePoolConfig(who, pool, gpuMemory, hasNvlink, efficiency, price) =>
      UpdateConfigEvolves(s, w, who, pool, gpuMemory, hasNvlink, efficiency, price);
    case DoDeregisterPool(who, pool) => DeregisterEvolves(s, w, who, pool);
    case DoClaimReward(who, task) => ClaimEvolves(s, w, who, task);
    case DoStake(who, pool, amount) => StakeEvolves(s, w, who, pool, amount);
    case DoUnstake(who, pool, amount) => UnstakeEvolves(s, w, who, pool, amount);
  }
}
