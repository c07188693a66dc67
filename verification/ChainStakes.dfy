/** The recorded total of every pool is the sum of its stakes, over whole runs. */
module ChainStakes {
  import opened Prelude
  import MapSum
  import opened SchedulerSpec
  import opened SchedulerBooks
  import opened SchedulerStakes
  import opened Chain
  import opened ChainRuns

  predicate SameStakes(s: State, s': State) {
    s'.poolStakes == s.poolStakes && s'.totalPoolStake == s.totalPoolStake
  }

  // ---- Verdicts, disputes and the block hook leave stakes alone.

  lemma ReputationStakes(s: State, p: PoolId, success: bool)
    ensures SameStakes(s, UpdateReputation(s, p, success))
  {
  }

  lemma ReleaseStakes(s: State, w: World, t: TaskId)
    ensures SameStakes(s, ReleaseEscrow(s, w, t).0)
  {
  }

  lemma SlashStakes(c: Config, s: State, w: World, p: PoolId)
    ensures SameStakes(s, SlashPool(c, s, w, p).s)
  {
  }

  /** The refund and the slash that follow a failure. */
  lemma PenaltyStakes(c: Config, s: State, w: World, t: TaskId, p: PoolId)
    ensures SameStakes(s, SlashPool(c, ReleaseEscrow(s, w, t).0, ReleaseEscrow(s, w, t).1, p).s)
  {
    ReleaseStakes(s, w, t);
    SlashStakes(c, ReleaseEscrow(s, w, t).0, ReleaseEscrow(s, w, t).1, p);
  }

  lemma IndexStakes(s: State, t: TaskId, task: Task, p: PoolId)
    ensures SameStakes(s, DecrementActivity(s.(tasks := s.tasks[t := task]), p, t))
  {
  }

  lemma ConcludedStakes(s: State, t: TaskId, p: PoolId, result: bool)
    requires t in s.tasks
    ensures SameStakes(s, Concluded(s, t, p, result))
  {
    var task := s.tasks[t].(verificationResult := Some(result), status := if result then Completed else Failed);
    IndexStakes(s, t, task, p);
    ReputationStakes(DecrementActivity(s.(tasks := s.tasks[t := task]), p, t), p, result);
  }

  lemma OfferedStakes(s: State, t: TaskId, reward: Option<Balance>)
    ensures SameStakes(s, Offered(s, t, reward))
  {
  }

  lemma FinalizeStakes(c: Config, s: State, w: World, t: TaskId, p: PoolId, result: bool)
    ensures SameStakes(s, FinalizeVerification(c, s, w, t, p, result).s)
  {
    if t in s.tasks {
      var s1 := Concluded(s, t, p, result);
      ConcludedStakes(s, t, p, result);
      if result {
        OfferedStakes(s1, t, s.tasks[t].rewardAmount);
      } else {
        PenaltyStakes(c, s1, w, t, p);
      }
    }
  }

  lemma FailStakes(c: Config, s: State, w: World, t: TaskId)
    ensures SameStakes(s, MarkTaskFailed(c, s, w, t).s)
  {
    if t in s.tasks {
      var p := s.tasks[t].poolId;
      ConcludedStakes(s, t, p, false);
      PenaltyStakes(c, Concluded(s, t, p, false), w, t, p);
    }
  }

  lemma RevokeStakes(c: Config, s: State, w: World, t: TaskId)
    requires t in s.tasks
    ensures SameStakes(s, Revoke(c, s, w, t).s)
  {
    var task := s.tasks[t];
    var s1 := s.(tasks := s.tasks[t := task.(status := Failed, verificationResult := Some(false), disputed := true)]);
    ReputationStakes(s1, task.poolId, false);
    PenaltyStakes(c, UpdateReputation(s1, task.poolId, false), w, t, task.poolId);
  }

  lemma RestoreStakes(s: State, t: TaskId)
    requires t in s.tasks
    ensures SameStakes(s, Restore(s, t))
  {
    var task := s.tasks[t];
    var s1 := s.(tasks := s.tasks[t := task.(status := Completed, verificationResult := Some(true), disputed := true)]);
    OfferedStakes(s1, t, task.rewardAmount);
    ReputationStakes(Offered(s1, t, task.rewardAmount), task.poolId, true);
  }

  lemma DisputeStakes(c: Config, s: State, w: World, who: AccountId, t: TaskId)
    ensures SameStakes(s, DisputeVerification(c, s, w, who, t).s)
  {
    if t in s.tasks {
      RevokeStakes(c, s, w, t);
      RestoreStakes(s, t);
    }
  }

  lemma {:induction false} ApproveAllStakes(c: Config, s: State, w: World, ts: seq<TaskId>)
    ensures SameStakes(s, ApproveAll(c, s, w, ts).0)
  {
    if ts != [] {
      var (s1, w1) := ApproveAll(c, s, w, ts[..|ts| - 1]);
      var t := ts[|ts| - 1];
      ApproveAllStakes(c, s, w, ts[..|ts| - 1]);
      if t in s1.tasks {
        FinalizeStakes(c, s1, w1, t, s1.tasks[t].poolId, true);
      }
    }
  }

  lemma {:induction false} FailAllStakes(c: Config, s: State, w: World, ts: seq<TaskId>)
    ensures SameStakes(s, FailAll(c, s, w, ts).0)
  {
    if ts != [] {
      var (s1, w1) := FailAll(c, s, w, ts[..|ts| - 1]);
      FailAllStakes(c, s, w, ts[..|ts| - 1]);
      FailStakes(c, s1, w1, ts[|ts| - 1]);
    }
  }

  lemma HookStakes(c: Config, s: State, w: World, order: seq<PoolId>)
    ensures SameStakes(s, OnInitialize(c, s, w, order).0)
  {
    var listed := Listed(s, order);
    var (s1, w1) := ApproveAll(c, s, w, OverdueProofs(c, s, w.now, listed));
    ApproveAllStakes(c, s, w, OverdueProofs(c, s, w.now, listed));
    FailAllStakes(c, s1, w1, OverdueTasks(c, s, w.now, listed));
  }

  lemma RolledBackStakes(s: State, w: World, step: Step)
    requires SameStakes(s, step.s)
    ensures SameStakes(s, Transactional(s, w, step).s)
  {
  }

  lemma VerifyStakes(c: Config, s: State, w: World, who: AccountId, t: TaskId, result: bool)
    ensures SameStakes(s, VerifyProof(c, s, w, who, t, result).s)
  {
    if t in s.tasks {
      FinalizeStakes(c, s, w, t, s.tasks[t].poolId, result);
      RolledBackStakes(s, w, FinalizeVerification(c, s, w, t, s.tasks[t].poolId, result));
    }
  }

  lemma OthersStakes(c: Config, s: State, w: World, call: Call)
    requires !call.DoStake? && !call.DoUnstake? && !call.DoVerifyProof? && !call.DoDispute?
    ensures SameStakes(s, Exec(c, s, w, call).s)
  {
  }

  // ---- The totals.

  /** A stake that goes through does not take the total of its pool beyond its width. */
  predicate HasRoom(c: Config, s: State, w: World, call: Call) {
    call.DoStake? && Exec(c, s, w, call).r.Ok? ==> TotalStake(s, call.pool) + call.amount <= U128_MAX
  }

  lemma SameTotals(s: State, s': State)
    requires TotalsExact(s) && SameStakes(s, s')
    ensures TotalsExact(s')
  {
    forall p
      ensures TotalStake(s', p) == MapSum.Sum(s'.poolStakes, InPool(p))
    {
      assert TotalStake(s, p) == MapSum.Sum(s.poolStakes, InPool(p));
    }
  }

  lemma StakeStep(c: Config, s: State, w: World, who: AccountId, p: PoolId, amount: Balance)
    requires BooksOk(c, s, w) && TotalsExact(s)
    ensures var step := StakeToPool(s, w, who, p, amount);
            TotalsExact(step.s) <==> step.r.Ok? ==> TotalStake(s, p) + amount <= U128_MAX
  {
    if StakeToPool(s, w, who, p, amount).r.Ok? {
      StakeTotalsIff(s, w, who, p, amount);
    }
  }

  lemma UnstakeStep(s: State, w: World, who: AccountId, p: PoolId, amount: Balance)
    requires TotalsExact(s)
    ensures TotalsExact(UnstakeFromPool(s, w, who, p, amount).s)
  {
    if UnstakeFromPool(s, w, who, p, amount).r.Ok? {
      UnstakeTotals(s, w, who, p, amount);
    }
  }

  /** A call keeps the totals exact if and only if it is not a stake that overflows one. */
  lemma ExecTotals(c: Config, s: State, w: World, call: Call)
    requires BooksOk(c, s, w) && TotalsExact(s)
    ensures TotalsExact(Exec(c, s, w, call).s) <==> HasRoom(c, s, w, call)
  {
    match call
    case DoStake(who, pool, amount) => StakeStep(c, s, w, who, pool, amount);
    case DoUnstake(who, pool, amount) => UnstakeStep(s, w, who, pool, amount);
    case DoVerifyProof(who, task, result) =>
      VerifyStakes(c, s, w, who, task, result);
      SameTotals(s, Exec(c, s, w, call).s);
    case DoDispute(who, task) =>
      DisputeStakes(c, s, w, who, task);
      SameTotals(s, Exec(c, s, w, call).s);
    case _ =>
      OthersStakes(c, s, w, call);
      SameTotals(s, Exec(c, s, w, call).s);
  }

  predicate Roomy(c: Config, k: Chain, ev: Event) {
    ev.Dispatch? ==> HasRoom(c, k.s, k.w, ev.call)
  }

  lemma NextTotals(c: Config, k: Chain, ev: Event)
    requires BooksOk(c, k.s, k.w) && TotalsExact(k.s)
    ensures TotalsExact(Next(c, k, ev).s) <==> Roomy(c, k, ev)
  {
    match ev
    case Dispatch(call) => ExecTotals(c, k.s, k.w, call);
    case NewBlock(order) =>
      if k.w.now < U32_MAX {
        NewBlockShape(c, k, order);
        HookStakes(c, k.s, k.w.(now := k.w.now + 1), order);
        SameTotals(k.s, Next(c, k, ev).s);
      }
    case Attest(_) =>
    case Elsewhere(_) =>
  }

  ghost predicate RoomyRun(c: Config, k: Chain, trace: seq<Event>) {
    trace == [] ||
    var init := trace[..|trace| - 1];
    RoomyRun(c, k, init) && Roomy(c, After(c, k, init), trace[|trace| - 1])
  }

  /** The totals are exact at every moment of every run in which no total overflows. */
  lemma {:induction false} RunTotals(c: Config, k: Chain, trace: seq<Event>)
    requires Sound(c, k) && BooksOk(c, k.s, k.w) && TotalsExact(k.s)
    requires LegalRun(c, k, trace) && HonestRun(c, k, trace) && RoomyRun(c, k, trace)
    ensures TotalsExact(After(c, k, trace).s)
  {
    if trace != [] {
      var init := trace[..|trace| - 1];
      RunTotals(c, k, init);
      RunBooks(c, k, init);
      NextTotals(c, After(c, k, init), trace[|trace| - 1]);
    }
  }
}
