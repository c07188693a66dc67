/**
  The structural invariant of the scheduler's storage maps. Each part speaks
  about the maps it needs, so that each kind of edit is checked once.
*/
module SchedulerInvariant {
  import opened Prelude
  import opened SchedulerSpec

  // ---- The task index.

  ghost predicate ListOk(tasks: map<TaskId, Task>, p: PoolId, ts: seq<TaskId>) {
    && Distinct(ts)
    && (forall t :: t in ts ==> t in tasks && tasks[t].poolId == p && !IsTerminal(tasks[t].status))
  }

  /** Each `PoolTasks` list names exactly the unfinished tasks of its pool, once each, and is counted. */
  ghost predicate Indexed(max: nat, tasks: map<TaskId, Task>, lists: map<PoolId, seq<TaskId>>, active: map<PoolId, u32>,
                          pools: map<PoolId, Pool>) {
    && (forall p :: p in lists ==> ListOk(tasks, p, lists[p]))
    && (forall t :: t in tasks && !IsTerminal(tasks[t].status) ==>
          tasks[t].poolId in pools && t in TasksOf(lists, tasks[t].poolId))
    && (forall p :: ActiveTasks(active, p) == |TasksOf(lists, p)| <= max)
  }

  lemma {:induction false} WithoutFacts(ts: seq<TaskId>, x: TaskId)
    ensures forall t :: t in Without(ts, x) <==> t in ts && t != x
    ensures |Without(ts, x)| <= |ts|
    ensures Distinct(ts) ==> Distinct(Without(ts, x)) && |Without(ts, x)| == |ts| - (if x in ts then 1 else 0)
  {
    if ts != [] {
      WithoutFacts(ts[1..], x);
      var rest := Without(ts[1..], x);
      if Distinct(ts) {
        assert ts[0] !in ts[1..] && Distinct(ts[1..]);
        assert forall j :: 0 <= j < |rest| ==> rest[j] in rest;
      }
    }
  }

  lemma IndexedConclude(max: nat, tasks: map<TaskId, Task>, lists: map<PoolId, seq<TaskId>>, active: map<PoolId, u32>,
                        pools: map<PoolId, Pool>, t: TaskId, task: Task)
    requires Indexed(max, tasks, lists, active, pools)
    requires t in tasks && !IsTerminal(tasks[t].status) && IsTerminal(task.status)
    ensures var p := tasks[t].poolId;
            Indexed(max, tasks[t := task], lists[p := Without(TasksOf(lists, p), t)],
                    active[p := SatSub(ActiveTasks(active, p), 1)], pools)
  {
    var p := tasks[t].poolId;
    assert ListOk(tasks, p, lists[p]);
    WithoutFacts(lists[p], t);
    var lists' := lists[p := Without(TasksOf(lists, p), t)];
    var active' := active[p := SatSub(ActiveTasks(active, p), 1)];
    forall q
      ensures ActiveTasks(active', q) == |TasksOf(lists', q)| <= max
    {
      assert ActiveTasks(active, q) == |TasksOf(lists, q)| <= max;
    }
    assert forall q :: q in lists' && q != p ==> ListOk(tasks, q, lists[q]);
    assert forall u :: u in tasks && !IsTerminal(tasks[u].status) ==> u in TasksOf(lists, tasks[u].poolId);
  }

  lemma IndexedAssign(max: nat, tasks: map<TaskId, Task>, lists: map<PoolId, seq<TaskId>>, active: map<PoolId, u32>,
                      pools: map<PoolId, Pool>, t: TaskId, task: Task)
    requires Indexed(max, tasks, lists, active, pools) && max <= U32_MAX
    requires t !in tasks && !IsTerminal(task.status) && task.poolId in pools && |TasksOf(lists, task.poolId)| < max
    ensures var p := task.poolId;
            Indexed(max, tasks[t := task], lists[p := TasksOf(lists, p) + [t]],
                    active[p := SatAdd32(ActiveTasks(active, p), 1)], pools)
  {
    var p := task.poolId;
    var ts := TasksOf(lists, p);
    var lists' := lists[p := ts + [t]];
    var active' := active[p := SatAdd32(ActiveTasks(active, p), 1)];
    assert ListOk(tasks, p, ts);
    assert forall j :: 0 <= j < |ts| ==> ts[j] in ts;
    forall q
      ensures ActiveTasks(active', q) == |TasksOf(lists', q)| <= max
    {
      assert ActiveTasks(active, q) == |TasksOf(lists, q)| <= max;
    }
    assert forall q :: q in lists' && q != p ==> ListOk(tasks, q, lists[q]);
    assert forall u :: u in tasks && !IsTerminal(tasks[u].status) ==> u in TasksOf(lists, tasks[u].poolId);
  }

  lemma IndexedDropPool(max: nat, tasks: map<TaskId, Task>, lists: map<PoolId, seq<TaskId>>, active: map<PoolId, u32>,
                        pools: map<PoolId, Pool>, p: PoolId)
    requires Indexed(max, tasks, lists, active, pools) && ActiveTasks(active, p) == 0
    ensures Indexed(max, tasks, lists - {p}, active - {p}, pools - {p})
  {
    forall q
      ensures ActiveTasks(active - {p}, q) == |TasksOf(lists - {p}, q)| <= max
    {
      assert ActiveTasks(active, q) == |TasksOf(lists, q)| <= max;
    }
    assert TasksOf(lists, p) == [];
  }

  lemma SomeElement(ts: seq<TaskId>)
    ensures ts != [] ==> exists t :: t in ts
  {
    if ts != [] {
      assert ts[0] in ts;
    }
  }

  lemma IndexedAddPool(max: nat, tasks: map<TaskId, Task>, lists: map<PoolId, seq<TaskId>>, active: map<PoolId, u32>,
                       pools: map<PoolId, Pool>, p: PoolId, pool: Pool)
    requires Indexed(max, tasks, lists, active, pools)
    requires forall t :: t in tasks ==> tasks[t].poolId != p
    ensures Indexed(max, tasks, lists, active[p := 0], pools[p := pool])
  {
    assert p in lists ==> ListOk(tasks, p, lists[p]);
    SomeElement(TasksOf(lists, p));
    forall q
      ensures ActiveTasks(active[p := 0], q) == |TasksOf(lists, q)| <= max
    {
      assert ActiveTasks(active, q) == |TasksOf(lists, q)| <= max;
    }
  }

  /** Editing a task without finishing it, or after it finished, leaves the index exact. */
  lemma IndexedEdit(max: nat, tasks: map<TaskId, Task>, lists: map<PoolId, seq<TaskId>>, active: map<PoolId, u32>,
                    pools: map<PoolId, Pool>, t: TaskId, task: Task)
    requires Indexed(max, tasks, lists, active, pools)
    requires t in tasks && task.poolId == tasks[t].poolId && IsTerminal(task.status) == IsTerminal(tasks[t].status)
    ensures Indexed(max, tasks[t := task], lists, active, pools)
  {
    assert forall q :: q in lists ==> ListOk(tasks, q, lists[q]);
  }

  // ---- The task state machine.

  ghost predicate Shaped(task: Task) {
    && task.status in {Computing, ProofSubmitted, Completed, Failed}
    && (task.status == Completed <==> task.verificationResult == Some(true))
    && (task.status == Failed <==> task.verificationResult == Some(false))
    && (task.status == ProofSubmitted ==> task.proofHash.Some?)
    && task.rewardAmount.Some?
    && (task.disputed ==> IsTerminal(task.status))
  }

  ghost predicate TasksShaped(tasks: map<TaskId, Task>, proofAt: map<TaskId, BlockNumber>) {
    && (forall t :: t in tasks ==> Shaped(tasks[t]))
    && (forall t :: t in proofAt <==> t in tasks && tasks[t].status == ProofSubmitted)
  }

  // ---- Escrows and rewards.

  ghost predicate EscrowOk(task: Task, e: Escrow, offered: bool, pools: map<PoolId, Pool>) {
    && !task.disputed && task.status != Failed
    && e.user == task.user && task.rewardAmount == Some(e.reward)
    && (task.poolId in pools ==> pools[task.poolId].owner == e.poolOwner)
    && (offered <==> task.status == Completed && !e.claimed)
    && (e.claimed ==> task.status == Completed)
  }

  /** A task has an escrow until it fails or is disputed, and the reward offered is the escrowed one. */
  ghost predicate Escrowed(tasks: map<TaskId, Task>, escrows: map<TaskId, Escrow>, rewards: map<TaskId, Balance>,
                           pools: map<PoolId, Pool>) {
    && (forall t :: t in escrows ==> t in tasks && EscrowOk(tasks[t], escrows[t], t in rewards, pools))
    && (forall t :: t in tasks && !tasks[t].disputed && tasks[t].status != Failed ==> t in escrows)
    && (forall t :: t in rewards ==> t in tasks && tasks[t].status == Completed && tasks[t].rewardAmount == Some(rewards[t]))
  }

  // ---- Pools and their owners.

  ghost predicate Terms(pool: Pool) {
    && pool.status == Active && pool.price > 0
    && NvlinkOk(pool.hasNvlink, pool.nvlinkEfficiency)
  }

  /** One pool per owner and back; every pool is active and its terms are admissible. */
  ghost predicate Owned(pools: map<PoolId, Pool>, byOwner: map<AccountId, PoolId>) {
    && (forall p :: p in pools ==> pools[p].owner in byOwner && byOwner[pools[p].owner] == p && Terms(pools[p]))
    && (forall who :: who in byOwner ==> byOwner[who] in pools && pools[byOwner[who]].owner == who)
  }

  ghost predicate IdsBelowNext(tasks: map<TaskId, Task>, pools: map<PoolId, Pool>, nextTask: TaskId, nextPool: PoolId) {
    && (forall p :: p in pools ==> p < nextPool)
    && (forall t :: t in tasks ==> t < nextTask && tasks[t].poolId < nextPool)
  }

  ghost predicate Inv(c: Config, s: State) {
    && Indexed(c.maxTasksPerPool, s.tasks, s.poolTasks, s.activeCount, s.pools)
    && TasksShaped(s.tasks, s.proofSubmittedAt)
    && Escrowed(s.tasks, s.escrows, s.rewards, s.pools)
    && Owned(s.pools, s.poolByOwner)
    && IdsBelowNext(s.tasks, s.pools, s.nextTaskId, s.nextPoolId)
  }

  lemma EmptyInv(c: Config)
    ensures Inv(c, Empty)
  {
  }

  // ---- Edits of the pool table.

  lemma OwnedTouch(pools: map<PoolId, Pool>, byOwner: map<AccountId, PoolId>, p: PoolId, pool: Pool)
    requires Owned(pools, byOwner) && p in pools && pool.owner == pools[p].owner && Terms(pool)
    ensures Owned(pools[p := pool], byOwner)
  {
  }

  lemma OwnedAdd(pools: map<PoolId, Pool>, byOwner: map<AccountId, PoolId>, p: PoolId, pool: Pool)
    requires Owned(pools, byOwner) && p !in pools && pool.owner !in byOwner && Terms(pool)
    ensures Owned(pools[p := pool], byOwner[pool.owner := p])
  {
  }

  lemma OwnedDrop(pools: map<PoolId, Pool>, byOwner: map<AccountId, PoolId>, p: PoolId)
    requires Owned(pools, byOwner) && p in pools
    ensures Owned(pools - {p}, byOwner - {pools[p].owner})
  {
  }

  /** Escrows look at the pool table only for the owner of a pool that is still there. */
  lemma EscrowedPools(tasks: map<TaskId, Task>, escrows: map<TaskId, Escrow>, rewards: map<TaskId, Balance>,
                      pools: map<PoolId, Pool>, pools': map<PoolId, Pool>)
    requires Escrowed(tasks, escrows, rewards, pools)
    requires forall t :: t in tasks && tasks[t].poolId in pools' ==>
                         tasks[t].poolId in pools && pools'[tasks[t].poolId].owner == pools[tasks[t].poolId].owner
    ensures Escrowed(tasks, escrows, rewards, pools')
  {
    assert forall t :: t in escrows ==> EscrowOk(tasks[t], escrows[t], t in rewards, pools);
  }

  /** Replacing a pool's record under the same owner and admissible terms. */
  lemma TouchPool(c: Config, s: State, p: PoolId, pool: Pool)
    requires Inv(c, s) && p in s.pools && pool.owner == s.pools[p].owner && Terms(pool)
    ensures Inv(c, s.(pools := s.pools[p := pool]))
  {
    OwnedTouch(s.pools, s.poolByOwner, p, pool);
    EscrowedPools(s.tasks, s.escrows, s.rewards, s.pools, s.pools[p := pool]);
  }

  // ---- What the helpers leave alone.

  lemma ReputationFrame(s: State, p: PoolId, success: bool)
    ensures var s1 := UpdateReputation(s, p, success);
            s1 == s.(pools := s1.pools, minerReputation := s1.minerReputation)
  {
  }

  lemma SlashFrame(c: Config, s: State, w: World, p: PoolId)
    ensures var s1 := SlashPool(c, s, w, p).s;
            s1 == s.(pools := s1.pools)
  {
  }

  lemma StakeFrame(s: State, w: World, who: AccountId, p: PoolId, amount: Balance)
    ensures var s1 := StakeToPool(s, w, who, p, amount).s;
            s1 == s.(poolStakes := s1.poolStakes, totalPoolStake := s1.totalPoolStake)
  {
  }

  lemma UnstakeFrame(s: State, w: World, who: AccountId, p: PoolId, amount: Balance)
    ensures var s1 := UnstakeFromPool(s, w, who, p, amount).s;
            s1 == s.(poolStakes := s1.poolStakes, totalPoolStake := s1.totalPoolStake)
  {
  }

  /** Reputation records are not part of the structural invariant. */
  lemma TouchReputation(c: Config, s: State, p: PoolId, success: bool)
    requires Inv(c, s)
    ensures Inv(c, UpdateReputation(s, p, success))
  {
    if p in s.pools {
      TouchPool(c, s, p, ReputedPool(s.pools[p], success));
    }
  }

  lemma TouchSlash(c: Config, s: State, w: World, p: PoolId)
    requires Inv(c, s)
    ensures Inv(c, SlashPool(c, s, w, p).s)
  {
    var s' := SlashPool(c, s, w, p).s;
    if p in s.pools && s.pools[p].depositHeld != 0 {
      assert s' == s.(pools := s.pools[p := s'.pools[p]]);
      TouchPool(c, s, p, s'.pools[p]);
    }
  }

  // ---- Edits of one task.

  lemma ShapedEdit(tasks: map<TaskId, Task>, proofAt: map<TaskId, BlockNumber>, t: TaskId, task: Task)
    requires TasksShaped(tasks, proofAt) && Shaped(task) && task.status != ProofSubmitted
    ensures TasksShaped(tasks[t := task], proofAt - {t})
  {
  }

  lemma ShapedAdd(tasks: map<TaskId, Task>, proofAt: map<TaskId, BlockNumber>, t: TaskId, task: Task)
    requires TasksShaped(tasks, proofAt) && t !in tasks && Shaped(task) && task.status != ProofSubmitted
    ensures TasksShaped(tasks[t := task], proofAt)
  {
  }

  lemma ShapedProof(tasks: map<TaskId, Task>, proofAt: map<TaskId, BlockNumber>, t: TaskId, task: Task, now: BlockNumber)
    requires TasksShaped(tasks, proofAt) && Shaped(task) && task.status == ProofSubmitted
    ensures TasksShaped(tasks[t := task], proofAt[t := now])
  {
  }

  lemma IdsAddTask(tasks: map<TaskId, Task>, pools: map<PoolId, Pool>, nextTask: TaskId, nextPool: PoolId, task: Task)
    requires IdsBelowNext(tasks, pools, nextTask, nextPool) && task.poolId in pools && nextTask < U64_MAX
    ensures IdsBelowNext(tasks[nextTask := task], pools, nextTask + 1, nextPool)
  {
  }

  lemma IdsEdit(tasks: map<TaskId, Task>, pools: map<PoolId, Pool>, nextTask: TaskId, nextPool: PoolId, t: TaskId, task: Task)
    requires IdsBelowNext(tasks, pools, nextTask, nextPool) && t in tasks && task.poolId == tasks[t].poolId
    ensures IdsBelowNext(tasks[t := task], pools, nextTask, nextPool)
  {
  }

  lemma EscrowedApprove(tasks: map<TaskId, Task>, escrows: map<TaskId, Escrow>, rewards: map<TaskId, Balance>,
                        pools: map<PoolId, Pool>, t: TaskId, task: Task)
    requires Escrowed(tasks, escrows, rewards, pools) && t in tasks && tasks[t].status == ProofSubmitted
    requires Shaped(tasks[t]) && task == tasks[t].(status := Completed, verificationResult := Some(true))
    ensures Escrowed(tasks[t := task], escrows, rewards[t := task.rewardAmount.value], pools)
  {
    assert forall u :: u in escrows ==> EscrowOk(tasks[u], escrows[u], u in rewards, pools);
  }

  /** A failed task keeps neither escrow nor reward, whether or not the failure came from a dispute. */
  lemma EscrowedFail(tasks: map<TaskId, Task>, escrows: map<TaskId, Escrow>, rewards: map<TaskId, Balance>,
                     pools: map<PoolId, Pool>, t: TaskId, task: Task)
    requires Escrowed(tasks, escrows, rewards, pools) && t in tasks && task.status == Failed
    ensures Escrowed(tasks[t := task], escrows - {t}, rewards - {t}, pools)
  {
    assert forall u :: u in escrows ==> EscrowOk(tasks[u], escrows[u], u in rewards, pools);
  }

  /** A failed task brought back by a dispute is offered its reward again, but has no escrow to pay it. */
  lemma EscrowedRestore(tasks: map<TaskId, Task>, escrows: map<TaskId, Escrow>, rewards: map<TaskId, Balance>,
                        pools: map<PoolId, Pool>, t: TaskId, task: Task)
    requires Escrowed(tasks, escrows, rewards, pools) && t in tasks && tasks[t].status == Failed
    requires task.disputed && task.status == Completed && task.rewardAmount.Some?
    ensures Escrowed(tasks[t := task], escrows, rewards[t := task.rewardAmount.value], pools)
  {
    assert forall u :: u in escrows ==> EscrowOk(tasks[u], escrows[u], u in rewards, pools);
  }

  lemma EscrowedProof(tasks: map<TaskId, Task>, escrows: map<TaskId, Escrow>, rewards: map<TaskId, Balance>,
                      pools: map<PoolId, Pool>, t: TaskId, task: Task)
    requires Escrowed(tasks, escrows, rewards, pools) && t in tasks && tasks[t].status == Computing && !tasks[t].disputed
    requires task == tasks[t].(status := ProofSubmitted, proofHash := task.proofHash)
    ensures Escrowed(tasks[t := task], escrows, rewards, pools)
  {
    assert forall u :: u in escrows ==> EscrowOk(tasks[u], escrows[u], u in rewards, pools);
  }

  lemma EscrowedClaim(tasks: map<TaskId, Task>, escrows: map<TaskId, Escrow>, rewards: map<TaskId, Balance>,
                      pools: map<PoolId, Pool>, t: TaskId)
    requires Escrowed(tasks, escrows, rewards, pools) && t in escrows && t in tasks && tasks[t].status == Completed
    ensures Escrowed(tasks, escrows[t := escrows[t].(claimed := true)], rewards - {t}, pools)
  {
    assert forall u :: u in escrows ==> EscrowOk(tasks[u], escrows[u], u in rewards, pools);
  }

  lemma EscrowedAssign(tasks: map<TaskId, Task>, escrows: map<TaskId, Escrow>, rewards: map<TaskId, Balance>,
                       pools: map<PoolId, Pool>, t: TaskId, task: Task, e: Escrow)
    requires Escrowed(tasks, escrows, rewards, pools) && t !in tasks && EscrowOk(task, e, false, pools)
    ensures Escrowed(tasks[t := task], escrows[t := e], rewards, pools)
  {
    assert forall u :: u in escrows ==> EscrowOk(tasks[u], escrows[u], u in rewards, pools);
  }
}
