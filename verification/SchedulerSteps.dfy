/** Every dispatchable of the scheduler, and the two helpers its block hook calls, keep the invariant. */
module SchedulerSteps {
  import opened Prelude
  import opened Currency
  import opened SchedulerSpec
  import opened SchedulerInvariant

  // ---- The record a finished task leaves behind.

  function Finished(task: Task, result: bool): Task {
    task.(verificationResult := Some(result), status := if result then Completed else Failed)
  }

  // ---- Finishing an unfinished task.

  /** Everything approval writes except the reputation records. */
  function ApprovedState(s: State, t: TaskId): State
    requires t in s.tasks && s.tasks[t].rewardAmount.Some?
  {
    var p := s.tasks[t].poolId;
    s.(tasks := s.tasks[t := Finished(s.tasks[t], true)],
       poolTasks := s.poolTasks[p := Without(TasksOf(s.poolTasks, p), t)],
       activeCount := s.activeCount[p := SatSub(ActiveTasks(s.activeCount, p), 1)],
       proofSubmittedAt := s.proofSubmittedAt - {t},
       rewards := s.rewards[t := s.tasks[t].rewardAmount.value])
  }

  /** Everything a failure writes except the reputation and deposit records. */
  function FailedState(s: State, t: TaskId): State
    requires t in s.tasks
  {
    var p := s.tasks[t].poolId;
    s.(tasks := s.tasks[t := Finished(s.tasks[t], false)],
       poolTasks := s.poolTasks[p := Without(TasksOf(s.poolTasks, p), t)],
       activeCount := s.activeCount[p := SatSub(ActiveTasks(s.activeCount, p), 1)],
       proofSubmittedAt := s.proofSubmittedAt - {t},
       rewards := s.rewards - {t},
       escrows := s.escrows - {t})
  }

  lemma ApprovedStateKeeps(c: Config, s: State, t: TaskId)
    requires Inv(c, s) && t in s.tasks && s.tasks[t].status == ProofSubmitted
    ensures Inv(c, ApprovedState(s, t))
  {
    var task := Finished(s.tasks[t], true);
    assert Shaped(s.tasks[t]);
    IndexedConclude(c.maxTasksPerPool, s.tasks, s.poolTasks, s.activeCount, s.pools, t, task);
    ShapedEdit(s.tasks, s.proofSubmittedAt, t, task);
    EscrowedApprove(s.tasks, s.escrows, s.rewards, s.pools, t, task);
    IdsEdit(s.tasks, s.pools, s.nextTaskId, s.nextPoolId, t, task);
  }

  lemma FailedStateKeeps(c: Config, s: State, t: TaskId)
    requires Inv(c, s) && t in s.tasks && !IsTerminal(s.tasks[t].status)
    ensures Inv(c, FailedState(s, t))
  {
    var task := Finished(s.tasks[t], false);
    assert Shaped(s.tasks[t]);
    IndexedConclude(c.maxTasksPerPool, s.tasks, s.poolTasks, s.activeCount, s.pools, t, task);
    ShapedEdit(s.tasks, s.proofSubmittedAt, t, task);
    EscrowedFail(s.tasks, s.escrows, s.rewards, s.pools, t, task);
    IdsEdit(s.tasks, s.pools, s.nextTaskId, s.nextPoolId, t, task);
  }

  /** The ledger after the escrow of `t`, if any, went back to the user. */
  function Refunded(s: State, w: World, t: TaskId): World {
    ReleaseEscrow(s, w, t).1
  }

  lemma ApprovalShape(c: Config, s: State, w: World, t: TaskId)
    requires t in s.tasks && s.tasks[t].proofHash.Some? && s.tasks[t].rewardAmount.Some? && s.tasks[t].poolId in s.pools
    ensures var p := s.tasks[t].poolId;
            FinalizeVerification(c, s, w, t, p, true) ==
            Done(UpdateReputation(ApprovedState(s, t), p, true),
                 NotifyCompletion(c, w, s.pools[p].owner, t, s.tasks[t].proofHash.value))
  {
  }

  /** Paying an escrow back and updating a reputation write different tables. */
  lemma ReleaseCommutes(s: State, w: World, p: PoolId, t: TaskId)
    ensures ReleaseEscrow(UpdateReputation(s, p, false), w, t) ==
            (UpdateReputation(s.(rewards := s.rewards - {t}, escrows := s.escrows - {t}), p, false), Refunded(s, w, t))
  {
    if t !in s.escrows {
      assert s.escrows - {t} == s.escrows;
    }
  }

  lemma FailureShape(c: Config, s: State, w: World, t: TaskId)
    requires t in s.tasks
    ensures var p := s.tasks[t].poolId;
            var (s2, w2) := ReleaseEscrow(Concluded(s, t, p, false), w, t);
            s2 == UpdateReputation(FailedState(s, t), p, false) && w2 == Refunded(s, w, t)
  {
    var p := s.tasks[t].poolId;
    var s1 := DecrementActivity(s.(tasks := s.tasks[t := Finished(s.tasks[t], false)]), p, t);
    var s2 := s1.(proofSubmittedAt := s.proofSubmittedAt - {t});
    assert Concluded(s, t, p, false) == UpdateReputation(s2, p, false);
    ReleaseCommutes(s2, w, p, t);
  }

  /** Neither verdict moves the clock. */
  lemma ClockStill(c: Config, s: State, w: World, t: TaskId, p: PoolId)
    ensures FinalizeVerification(c, s, w, t, p, true).w.now == w.now
    ensures MarkTaskFailed(c, s, w, t).w.now == w.now
  {
  }

  /** Approving a submitted proof never errs, keeps the invariant and touches no other task. */
  lemma ApproveKeeps(c: Config, s: State, w: World, t: TaskId)
    requires Inv(c, s) && t in s.tasks && s.tasks[t].status == ProofSubmitted
    ensures var step := FinalizeVerification(c, s, w, t, s.tasks[t].poolId, true);
            && step.r.Ok? && Inv(c, step.s)
            && step.s.tasks == s.tasks[t := Finished(s.tasks[t], true)]
            && step.s.proofSubmittedAt == s.proofSubmittedAt - {t}
            && step.w.now == w.now
  {
    ClockStill(c, s, w, t, s.tasks[t].poolId);
    assert Shaped(s.tasks[t]);
    ApprovalShape(c, s, w, t);
    ApprovedStateKeeps(c, s, t);
    TouchReputation(c, ApprovedState(s, t), s.tasks[t].poolId, true);
  }

  /** Lowering a pool's reputation and slashing its deposit keeps the invariant and touches no task. */
  lemma PenaltyKeeps(c: Config, s: State, w: World, p: PoolId)
    requires Inv(c, s)
    ensures var step := SlashPool(c, UpdateReputation(s, p, false), w, p);
            && Inv(c, step.s) && step.s.tasks == s.tasks && step.s.proofSubmittedAt == s.proofSubmittedAt
            && (p in s.pools ==> step.r.Ok?)
  {
    ReputationFrame(s, p, false);
    SlashFrame(c, UpdateReputation(s, p, false), w, p);
    TouchReputation(c, s, p, false);
    TouchSlash(c, UpdateReputation(s, p, false), w, p);
  }

  /** What a rejected proof and a missed deadline have in common. */
  lemma FailKeeps(c: Config, s: State, w: World, t: TaskId)
    requires Inv(c, s) && t in s.tasks && !IsTerminal(s.tasks[t].status)
    ensures var step := MarkTaskFailed(c, s, w, t);
            && step.r.Ok? && Inv(c, step.s)
            && step.s.tasks == s.tasks[t := Finished(s.tasks[t], false)]
            && step.s.proofSubmittedAt == s.proofSubmittedAt - {t}
            && step.w.now == w.now
  {
    ClockStill(c, s, w, t, s.tasks[t].poolId);
    FailureShape(c, s, w, t);
    FailedStateKeeps(c, s, t);
    PenaltyKeeps(c, FailedState(s, t), Refunded(s, w, t), s.tasks[t].poolId);
  }

  lemma RejectIsFail(c: Config, s: State, w: World, t: TaskId)
    requires t in s.tasks && s.tasks[t].proofHash.Some? && !IsTerminal(s.tasks[t].status)
    ensures FinalizeVerification(c, s, w, t, s.tasks[t].poolId, false) == MarkTaskFailed(c, s, w, t)
  {
  }

  // ---- The dispatchables.

  lemma RegisterShape(c: Config, s: State, w: World, owner: AccountId, gpuMemory: u32, hasNvlink: bool,
                      efficiency: u32, price: Balance)
    requires RegisterPool(c, s, w, owner, gpuMemory, hasNvlink, efficiency, price).r.Ok?
    ensures owner !in s.poolByOwner && s.nextPoolId < U64_MAX
    ensures var s' := RegisterPool(c, s, w, owner, gpuMemory, hasNvlink, efficiency, price).s;
            && s.nextPoolId in s'.pools && s'.pools[s.nextPoolId].owner == owner && Terms(s'.pools[s.nextPoolId])
            && s'.pools[s.nextPoolId].depositHeld == c.poolDeposit && s'.pools[s.nextPoolId].failedTasks == 0
            && s' == s.(pools := s.pools[s.nextPoolId := s'.pools[s.nextPoolId]],
                        poolByOwner := s.poolByOwner[owner := s.nextPoolId],
                        minerReputation := s'.minerReputation,
                        activeCount := s.activeCount[s.nextPoolId := 0],
                        nextPoolId := s.nextPoolId + 1)
    ensures var w' := RegisterPool(c, s, w, owner, gpuMemory, hasNvlink, efficiency, price).w;
            && w' == w.(ledger := w'.ledger)
            && forall a :: Reserved(w'.ledger, a) == Reserved(w.ledger, a) + if a == owner then c.poolDeposit else 0
  {
  }

  lemma RegisterPoolKeeps(c: Config, s: State, w: World, owner: AccountId, gpuMemory: u32, hasNvlink: bool,
                          efficiency: u32, price: Balance)
    requires Inv(c, s)
    requires RegisterPool(c, s, w, owner, gpuMemory, hasNvlink, efficiency, price).r.Ok?
    ensures Inv(c, RegisterPool(c, s, w, owner, gpuMemory, hasNvlink, efficiency, price).s)
  {
    var step := RegisterPool(c, s, w, owner, gpuMemory, hasNvlink, efficiency, price);
    RegisterShape(c, s, w, owner, gpuMemory, hasNvlink, efficiency, price);
    var p := s.nextPoolId;
    var pool := step.s.pools[p];
    IndexedAddPool(c.maxTasksPerPool, s.tasks, s.poolTasks, s.activeCount, s.pools, p, pool);
    OwnedAdd(s.pools, s.poolByOwner, p, pool);
    EscrowedPools(s.tasks, s.escrows, s.rewards, s.pools, s.pools[p := pool]);
  }

  lemma UpdatePoolConfigKeeps(c: Config, s: State, w: World, sender: AccountId, p: PoolId, gpuMemory: u32, hasNvlink: bool,
                              efficiency: u32, price: Balance)
    requires Inv(c, s)
    requires UpdatePoolConfig(s, w, sender, p, gpuMemory, hasNvlink, efficiency, price).r.Ok?
    ensures Inv(c, UpdatePoolConfig(s, w, sender, p, gpuMemory, hasNvlink, efficiency, price).s)
  {
    var step := UpdatePoolConfig(s, w, sender, p, gpuMemory, hasNvlink, efficiency, price);
    TouchPool(c, s, p, step.s.pools[p]);
  }

  lemma DeregisterPoolKeeps(c: Config, s: State, w: World, sender: AccountId, p: PoolId)
    requires Inv(c, s)
    requires DeregisterPool(s, w, sender, p).r.Ok?
    ensures Inv(c, DeregisterPool(s, w, sender, p).s)
  {
    IndexedDropPool(c.maxTasksPerPool, s.tasks, s.poolTasks, s.activeCount, s.pools, p);
    OwnedDrop(s.pools, s.poolByOwner, p);
    EscrowedPools(s.tasks, s.escrows, s.rewards, s.pools, s.pools - {p});
  }

  lemma NewTaskKeeps(c: Config, s: State, t: TaskId, task: Task, e: Escrow)
    requires Inv(c, s) && t == s.nextTaskId < U64_MAX && task.poolId in s.pools
    requires |TasksOf(s.poolTasks, task.poolId)| < c.maxTasksPerPool
    requires task.status == Computing && Shaped(task) && EscrowOk(task, e, false, s.pools)
    ensures var p := task.poolId;
            Inv(c, s.(tasks := s.tasks[t := task],
                      poolTasks := s.poolTasks[p := TasksOf(s.poolTasks, p) + [t]],
                      activeCount := s.activeCount[p := SatAdd32(ActiveTasks(s.activeCount, p), 1)],
                      escrows := s.escrows[t := e],
                      nextTaskId := t + 1))
  {
    IndexedAssign(c.maxTasksPerPool, s.tasks, s.poolTasks, s.activeCount, s.pools, t, task);
    EscrowedAssign(s.tasks, s.escrows, s.rewards, s.pools, t, task, e);
    ShapedAdd(s.tasks, s.proofSubmittedAt, t, task);
    IdsAddTask(s.tasks, s.pools, s.nextTaskId, s.nextPoolId, task);
  }

  lemma WithTaskKeeps(c: Config, s: State, w: World, user: AccountId, d: Dimensions, priority: TaskPriority,
                      p: PoolId, score: PoolScore, reward: Balance)
    requires Inv(c, s) && p in s.pools && s.nextTaskId < U64_MAX && |TasksOf(s.poolTasks, p)| < c.maxTasksPerPool
    ensures Inv(c, WithTask(c, s, w.now, user, d, priority, p, score, reward))
  {
    var pool := s.pools[p].(score := score);
    var task := Task(user, p, d, priority, Computing, w.now, None, None, Some(reward), false);
    assert Terms(s.pools[p]);
    TouchPool(c, s, p, pool);
    NewTaskKeeps(c, s.(pools := s.pools[p := pool]), s.nextTaskId, task,
                 Escrow(user, s.pools[p].owner, reward, c.taskDeposit, false));
  }

  /** The pool, score, reward and reserve behind a submission that succeeds. */
  lemma SubmitTaskShape(c: Config, s: State, w: World, user: AccountId, d: Dimensions, priority: TaskPriority,
                        preferred: Option<PoolId>, order: seq<PoolId>)
    returns (p: PoolId, score: PoolScore, reward: Balance, ledger: Ledger)
    requires SubmitTask(c, s, w, user, d, priority, preferred, order).r.Ok?
    ensures ChoosePool(c, s.pools, s.activeCount, d.k, preferred, order) == Ok((p, score)) && p in s.pools
    ensures CalculateReward(d, s.pools[p].price, s.pools[p].hasNvlink, s.pools[p].nvlinkEfficiency) == Ok(reward)
    ensures Reserve(w.ledger, user, SatAdd128(reward, c.taskDeposit)) == Ok(ledger)
    ensures |TasksOf(s.poolTasks, p)| < c.maxTasksPerPool && s.nextTaskId < U64_MAX
    ensures SubmitTask(c, s, w, user, d, priority, preferred, order) ==
            Done(WithTask(c, s, w.now, user, d, priority, p, score, reward), w.(ledger := ledger))
  {
    p, score := ChoosePool(c, s.pools, s.activeCount, d.k, preferred, order).value.0, ChoosePool(c, s.pools, s.activeCount, d.k, preferred, order).value.1;
    reward := CalculateReward(d, s.pools[p].price, s.pools[p].hasNvlink, s.pools[p].nvlinkEfficiency).value;
    ledger := Reserve(w.ledger, user, SatAdd128(reward, c.taskDeposit)).value;
  }

  lemma SubmitTaskKeeps(c: Config, s: State, w: World, user: AccountId, d: Dimensions, priority: TaskPriority,
                        preferred: Option<PoolId>, order: seq<PoolId>)
    requires Inv(c, s)
    requires SubmitTask(c, s, w, user, d, priority, preferred, order).r.Ok?
    ensures Inv(c, SubmitTask(c, s, w, user, d, priority, preferred, order).s)
  {
    var p, score, reward, _ := SubmitTaskShape(c, s, w, user, d, priority, preferred, order);
    WithTaskKeeps(c, s, w, user, d, priority, p, score, reward);
  }

  lemma WithProofKeeps(c: Config, s: State, t: TaskId, hash: Hash, now: BlockNumber)
    requires Inv(c, s) && t in s.tasks && s.tasks[t].status == Computing
    ensures Inv(c, s.(tasks := s.tasks[t := s.tasks[t].(proofHash := Some(hash), status := ProofSubmitted)],
                      proofSubmittedAt := s.proofSubmittedAt[t := now]))
  {
    var task := s.tasks[t].(proofHash := Some(hash), status := ProofSubmitted);
    assert Shaped(s.tasks[t]);
    IndexedEdit(c.maxTasksPerPool, s.tasks, s.poolTasks, s.activeCount, s.pools, t, task);
    ShapedProof(s.tasks, s.proofSubmittedAt, t, task, now);
    EscrowedProof(s.tasks, s.escrows, s.rewards, s.pools, t, task);
    IdsEdit(s.tasks, s.pools, s.nextTaskId, s.nextPoolId, t, task);
  }

  lemma SubmitProofShape(c: Config, s: State, w: World, sender: AccountId, t: TaskId, hash: Hash)
    requires SubmitProof(c, s, w, sender, t, hash).r.Ok?
    ensures t in s.tasks && s.tasks[t].status == Computing && w.now <= s.tasks[t].submittedAt + c.taskTimeout
    ensures SubmitProof(c, s, w, sender, t, hash) ==
            Done(s.(tasks := s.tasks[t := s.tasks[t].(proofHash := Some(hash), status := ProofSubmitted)],
                    proofSubmittedAt := s.proofSubmittedAt[t := w.now]), w)
  {
  }

  lemma SubmitProofKeeps(c: Config, s: State, w: World, sender: AccountId, t: TaskId, hash: Hash)
    requires Inv(c, s)
    requires SubmitProof(c, s, w, sender, t, hash).r.Ok?
    ensures Inv(c, SubmitProof(c, s, w, sender, t, hash).s)
  {
    var step := SubmitProof(c, s, w, sender, t, hash);
    SubmitProofShape(c, s, w, sender, t, hash);
    WithProofKeeps(c, s, t, hash, w.now);
  }

  /** A verification that succeeds is an approval or a failure of a task that had a proof, by someone else. */
  lemma VerifyShape(c: Config, s: State, w: World, sender: AccountId, t: TaskId, result: bool)
    requires VerifyProof(c, s, w, sender, t, result).r.Ok?
    ensures t in s.tasks && s.tasks[t].status == ProofSubmitted && s.tasks[t].poolId in s.pools
    ensures s.pools[s.tasks[t].poolId].owner != sender
    ensures VerifyProof(c, s, w, sender, t, result) ==
            if result then FinalizeVerification(c, s, w, t, s.tasks[t].poolId, true) else MarkTaskFailed(c, s, w, t)
  {
    if !result {
      RejectIsFail(c, s, w, t);
    }
  }

  lemma VerifyProofKeeps(c: Config, s: State, w: World, sender: AccountId, t: TaskId, result: bool)
    requires Inv(c, s)
    requires VerifyProof(c, s, w, sender, t, result).r.Ok?
    ensures Inv(c, VerifyProof(c, s, w, sender, t, result).s)
  {
    VerifyShape(c, s, w, sender, t, result);
    if result {
      ApproveKeeps(c, s, w, t);
    } else {
      FailKeeps(c, s, w, t);
    }
  }

  lemma ClaimRewardKeeps(c: Config, s: State, w: World, sender: AccountId, t: TaskId)
    requires Inv(c, s)
    requires ClaimReward(s, w, sender, t).r.Ok?
    ensures Inv(c, ClaimReward(s, w, sender, t).s)
  {
    EscrowedClaim(s.tasks, s.escrows, s.rewards, s.pools, t);
    var s' := ClaimReward(s, w, sender, t).s;
    assert s' == s.(escrows := s.escrows[t := s.escrows[t].(claimed := true)], rewards := s.rewards - {t});
  }

  // ---- Disputes.

  /** The record of a task whose verdict a dispute turned over. */
  function Overturned(task: Task): Task {
    var result := task.verificationResult != Some(true);
    task.(status := if result then Completed else Failed, verificationResult := Some(result), disputed := true)
  }

  /** What disputing an approval writes, except the reputation and deposit records. */
  function RevokedState(s: State, t: TaskId): State
    requires t in s.tasks
  {
    s.(tasks := s.tasks[t := Overturned(s.tasks[t])], rewards := s.rewards - {t}, escrows := s.escrows - {t})
  }

  /** What disputing a failure writes, except the reputation records. */
  function RestoredState(s: State, t: TaskId): State
    requires t in s.tasks && s.tasks[t].rewardAmount.Some?
  {
    s.(tasks := s.tasks[t := Overturned(s.tasks[t])], rewards := s.rewards[t := s.tasks[t].rewardAmount.value])
  }

  /** A dispute edits a finished task in place: the index, the shapes and the ids are not affected. */
  lemma OverturnedParts(c: Config, s: State, t: TaskId)
    requires Inv(c, s) && t in s.tasks && IsTerminal(s.tasks[t].status)
    ensures var tasks := s.tasks[t := Overturned(s.tasks[t])];
            && Indexed(c.maxTasksPerPool, tasks, s.poolTasks, s.activeCount, s.pools)
            && TasksShaped(tasks, s.proofSubmittedAt)
            && IdsBelowNext(tasks, s.pools, s.nextTaskId, s.nextPoolId)
  {
    var task := Overturned(s.tasks[t]);
    assert Shaped(s.tasks[t]);
    IndexedEdit(c.maxTasksPerPool, s.tasks, s.poolTasks, s.activeCount, s.pools, t, task);
    ShapedEdit(s.tasks, s.proofSubmittedAt, t, task);
    assert s.proofSubmittedAt - {t} == s.proofSubmittedAt;
    IdsEdit(s.tasks, s.pools, s.nextTaskId, s.nextPoolId, t, task);
  }

  lemma RevokedKeeps(c: Config, s: State, t: TaskId)
    requires Inv(c, s) && t in s.tasks && s.tasks[t].status == Completed
    ensures Inv(c, RevokedState(s, t))
  {
    assert Shaped(s.tasks[t]);
    OverturnedParts(c, s, t);
    EscrowedFail(s.tasks, s.escrows, s.rewards, s.pools, t, Overturned(s.tasks[t]));
  }

  lemma RestoredKeeps(c: Config, s: State, t: TaskId)
    requires Inv(c, s) && t in s.tasks && s.tasks[t].status == Failed
    ensures Shaped(s.tasks[t]) && Inv(c, RestoredState(s, t))
  {
    assert Shaped(s.tasks[t]);
    OverturnedParts(c, s, t);
    EscrowedRestore(s.tasks, s.escrows, s.rewards, s.pools, t, Overturned(s.tasks[t]));
  }

  /** Refunding after a reputation change is refunding before it. */
  lemma RevokeShape(s: State, w: World, t: TaskId)
    requires t in s.tasks
    ensures var p := s.tasks[t].poolId;
            ReleaseEscrow(UpdateReputation(s.(tasks := s.tasks[t := Overturned(s.tasks[t])]), p, false), w, t) ==
            (UpdateReputation(RevokedState(s, t), p, false), Refunded(s, w, t))
  {
    ReleaseCommutes(s.(tasks := s.tasks[t := Overturned(s.tasks[t])]), w, s.tasks[t].poolId, t);
  }

  /** Disputing an approval: refund the user, lower the reputation, slash the pool. */
  lemma DisputeApprovalShape(c: Config, s: State, w: World, sender: AccountId, t: TaskId)
    requires t in s.tasks && Shaped(s.tasks[t]) && s.tasks[t].status == Completed
    requires DisputeVerification(c, s, w, sender, t).r.Ok?
    ensures var p := s.tasks[t].poolId;
            && !s.tasks[t].disputed && s.tasks[t].user == sender
            && DisputeVerification(c, s, w, sender, t) ==
               SlashPool(c, UpdateReputation(RevokedState(s, t), p, false), Refunded(s, w, t), p)
  {
    RevokeShape(s, w, t);
  }

  /** Disputing a failure: offer the reward again and raise the reputation. */
  lemma DisputeFailureShape(c: Config, s: State, w: World, sender: AccountId, t: TaskId)
    requires t in s.tasks && Shaped(s.tasks[t]) && s.tasks[t].status != Completed
    requires DisputeVerification(c, s, w, sender, t).r.Ok?
    ensures var p := s.tasks[t].poolId;
            && s.tasks[t].status == Failed && !s.tasks[t].disputed && s.tasks[t].user == sender
            && DisputeVerification(c, s, w, sender, t) == Done(UpdateReputation(RestoredState(s, t), p, true), w)
  {
  }

  /**
    Exactly when a dispute succeeds: it is the user's first over a finished
    task, and the pool to slash still exists. A finished task always has a
    verdict, so the branch without one is never taken.
  */
  lemma DisputeIff(c: Config, s: State, w: World, sender: AccountId, t: TaskId)
    requires t in s.tasks && Shaped(s.tasks[t])
    ensures DisputeVerification(c, s, w, sender, t).r.Ok? <==>
            && s.tasks[t].user == sender && IsTerminal(s.tasks[t].status) && !s.tasks[t].disputed
            && (s.tasks[t].status == Completed ==> s.tasks[t].poolId in s.pools)
  {
    if s.tasks[t].status == Completed {
      RevokeShape(s, w, t);
    }
  }

  lemma DisputeKeeps(c: Config, s: State, w: World, sender: AccountId, t: TaskId)
    requires Inv(c, s)
    requires DisputeVerification(c, s, w, sender, t).r.Ok?
    ensures Inv(c, DisputeVerification(c, s, w, sender, t).s)
  {
    assert Shaped(s.tasks[t]);
    if s.tasks[t].status == Completed {
      DisputeApprovalShape(c, s, w, sender, t);
      RevokedKeeps(c, s, t);
      PenaltyKeeps(c, RevokedState(s, t), Refunded(s, w, t), s.tasks[t].poolId);
    } else {
      DisputeFailureShape(c, s, w, sender, t);
      RestoredKeeps(c, s, t);
      TouchReputation(c, RestoredState(s, t), s.tasks[t].poolId, true);
    }
  }

  lemma StakeKeeps(c: Config, s: State, w: World, who: AccountId, p: PoolId, amount: Balance)
    requires Inv(c, s)
    ensures Inv(c, StakeToPool(s, w, who, p, amount).s)
  {
    StakeFrame(s, w, who, p, amount);
  }

  lemma UnstakeKeeps(c: Config, s: State, w: World, who: AccountId, p: PoolId, amount: Balance)
    requires Inv(c, s)
    ensures Inv(c, UnstakeFromPool(s, w, who, p, amount).s)
  {
    UnstakeFrame(s, w, who, p, amount);
  }
}
