/** Which escrows can still be settled: those whose pool is registered, and no others. */
module ChainEscrows {
  import opened Prelude
  import opened SchedulerSpec
  import opened SchedulerInvariant
  import opened SchedulerSteps
  import opened Chain
  import opened ChainRuns

  lemma OneCall(c: Config, k: Chain, call: Call) returns (trace: seq<Event>)
    ensures trace == [Dispatch(call)] && LegalRun(c, k, trace)
    ensures After(c, k, trace).s == Exec(c, k.s, k.w, call).s && After(c, k, trace).w == Exec(c, k.s, k.w, call).w
  {
    trace := [Dispatch(call)];
    assert trace[..0] == [];
    assert After(c, k, []) == k && LegalRun(c, k, []);
    assert After(c, k, trace) == Next(c, k, Dispatch(call));
  }

  lemma {:induction false} Joined(c: Config, k: Chain, first: seq<Event>, second: seq<Event>)
    requires LegalRun(c, k, first) && LegalRun(c, After(c, k, first), second)
    ensures LegalRun(c, k, first + second) && After(c, k, first + second) == After(c, After(c, k, first), second)
  {
    if second == [] {
      assert first + second == first;
    } else {
      var init := second[..|second| - 1];
      Joined(c, k, first, init);
      assert (first + second)[..|first + second| - 1] == first + init;
    }
  }

  /** A proof that waits for its verdict can be rejected, which pays the escrow back. */
  lemma RejectSpends(c: Config, s: State, w: World, who: AccountId, t: TaskId)
    requires Inv(c, s) && t in s.tasks && s.tasks[t].status == ProofSubmitted
    requires s.tasks[t].poolId in s.pools && s.pools[s.tasks[t].poolId].owner != who
    ensures Spent(VerifyProof(c, s, w, who, t, false).s, t)
  {
    assert Shaped(s.tasks[t]);
    RejectIsFail(c, s, w, t);
    FailKeeps(c, s, w, t);
    FailedHasNoEscrow(c, MarkTaskFailed(c, s, w, t).s, t);
  }

  lemma FailedHasNoEscrow(c: Config, s: State, t: TaskId)
    requires Inv(c, s) && t in s.tasks && s.tasks[t].status == Failed
    ensures Spent(s, t)
  {
    assert t in s.escrows ==> EscrowOk(s.tasks[t], s.escrows[t], t in s.rewards, s.pools);
  }

  lemma VerifyCall(c: Config, s: State, w: World, who: AccountId, t: TaskId)
    ensures Exec(c, s, w, DoVerifyProof(who, t, false)).s == VerifyProof(c, s, w, who, t, false).s
  {
  }

  lemma DisputeCall(c: Config, s: State, w: World, who: AccountId, t: TaskId)
    ensures Exec(c, s, w, DoDispute(who, t)).s == DisputeVerification(c, s, w, who, t).s
  {
  }

  lemma RejectingRun(c: Config, k: Chain, t: TaskId) returns (trace: seq<Event>)
    requires Sound(c, k) && t in k.s.tasks && k.s.tasks[t].status == ProofSubmitted && k.s.tasks[t].poolId in k.s.pools
    ensures |trace| == 1 && LegalRun(c, k, trace) && Spent(After(c, k, trace).s, t)
  {
    var who := k.s.pools[k.s.tasks[t].poolId].owner + 1;
    RejectSpends(c, k.s, k.w, who, t);
    VerifyCall(c, k.s, k.w, who, t);
    trace := OneCall(c, k, DoVerifyProof(who, t, false));
  }

  lemma ProofSubmits(c: Config, s: State, w: World, t: TaskId)
    requires t in s.tasks && s.tasks[t].status == Computing && s.tasks[t].poolId in s.pools
    requires w.now <= s.tasks[t].submittedAt + c.taskTimeout
    ensures var s' := Exec(c, s, w, DoSubmitProof(s.pools[s.tasks[t].poolId].owner, t, 1)).s;
            s'.pools == s.pools && t in s'.tasks && s'.tasks[t].status == ProofSubmitted && s'.tasks[t].poolId == s.tasks[t].poolId
  {
  }

  /** A task that is being computed is not past its deadline, so its pool can still hand in a proof. */
  lemma ProvingRun(c: Config, k: Chain, t: TaskId) returns (trace: seq<Event>)
    requires Sound(c, k) && t in k.s.tasks && k.s.tasks[t].status == Computing && k.s.tasks[t].poolId in k.s.pools
    ensures |trace| == 1 && LegalRun(c, k, trace)
    ensures var s' := After(c, k, trace).s;
            s'.pools == k.s.pools && t in s'.tasks && s'.tasks[t].status == ProofSubmitted && s'.tasks[t].poolId == k.s.tasks[t].poolId
  {
    ProofSubmits(c, k.s, k.w, t);
    trace := OneCall(c, k, DoSubmitProof(k.s.pools[k.s.tasks[t].poolId].owner, t, 1));
  }

  lemma DisputeSettles(c: Config, s: State, w: World, t: TaskId)
    requires Inv(c, s) && t in s.tasks && s.tasks[t].status == Completed && !s.tasks[t].disputed && s.tasks[t].poolId in s.pools
    ensures Spent(DisputeVerification(c, s, w, s.tasks[t].user, t).s, t)
  {
    assert Shaped(s.tasks[t]);
    DisputeIff(c, s, w, s.tasks[t].user, t);
    DisputeSpends(c, s, w, s.tasks[t].user, t);
  }

  lemma DisputingRun(c: Config, k: Chain, t: TaskId) returns (trace: seq<Event>)
    requires Sound(c, k) && t in k.s.tasks && k.s.tasks[t].status == Completed && !k.s.tasks[t].disputed
    requires k.s.tasks[t].poolId in k.s.pools
    ensures |trace| == 1 && LegalRun(c, k, trace) && Spent(After(c, k, trace).s, t)
  {
    DisputeSettles(c, k.s, k.w, t);
    DisputeCall(c, k.s, k.w, k.s.tasks[t].user, t);
    trace := OneCall(c, k, DoDispute(k.s.tasks[t].user, t));
  }

  /** While its pool is registered, an escrow is at most two calls away from being settled. */
  lemma SettlingRun(c: Config, k: Chain, t: TaskId) returns (trace: seq<Event>)
    requires Sound(c, k) && t in k.s.escrows && t in k.s.tasks && k.s.tasks[t].poolId in k.s.pools
    ensures |trace| <= 2 && LegalRun(c, k, trace) && Spent(After(c, k, trace).s, t)
  {
    var task := k.s.tasks[t];
    assert Shaped(task) && EscrowOk(task, k.s.escrows[t], t in k.s.rewards, k.s.pools);
    if task.status == Completed {
      trace := DisputingRun(c, k, t);
    } else if task.status == ProofSubmitted {
      trace := RejectingRun(c, k, t);
    } else {
      var first := ProvingRun(c, k, t);
      RunSound(c, k, first);
      var second := RejectingRun(c, After(c, k, first), t);
      Joined(c, k, first, second);
      trace := first + second;
    }
  }

  /** Without its pool, an escrow that was not claimed is stranded. */
  lemma PoollessIsStranded(c: Config, s: State, t: TaskId)
    requires Inv(c, s) && t in s.escrows && !s.escrows[t].claimed && t in s.tasks && s.tasks[t].poolId !in s.pools
    ensures Stranded(s, t, s.escrows[t])
  {
    assert Shaped(s.tasks[t]) && EscrowOk(s.tasks[t], s.escrows[t], t in s.rewards, s.pools);
  }

  /** Some continuation pays the escrow out or back. */
  ghost predicate Settleable(c: Config, k: Chain, t: TaskId) {
    exists trace :: LegalRun(c, k, trace) && Spent(After(c, k, trace).s, t)
  }

  lemma StrandedIsUnspent(s: State, t: TaskId, e: Escrow)
    requires Stranded(s, t, e)
    ensures !Spent(s, t)
  {
  }

  lemma PoollessNeverSettles(c: Config, k: Chain, t: TaskId)
    requires Sound(c, k) && t in k.s.escrows && !k.s.escrows[t].claimed && t in k.s.tasks && k.s.tasks[t].poolId !in k.s.pools
    ensures !Settleable(c, k, t)
  {
    var e := k.s.escrows[t];
    PoollessIsStranded(c, k.s, t);
    forall trace | LegalRun(c, k, trace)
      ensures !Spent(After(c, k, trace).s, t)
    {
      StrandedForever(c, k, trace, t, e);
      StrandedIsUnspent(After(c, k, trace).s, t, e);
    }
  }

  /**
    In every reachable state, an escrow that was not claimed can be settled by
    some continuation if and only if the pool of its task is registered.
  */
  lemma SettleableIff(c: Config, k: Chain, t: TaskId)
    requires Sound(c, k) && t in k.s.escrows && !k.s.escrows[t].claimed
    ensures t in k.s.tasks && (Settleable(c, k, t) <==> k.s.tasks[t].poolId in k.s.pools)
  {
    if k.s.tasks[t].poolId in k.s.pools {
      var trace := SettlingRun(c, k, t);
    } else {
      PoollessNeverSettles(c, k, t);
    }
  }
}
