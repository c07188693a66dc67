/** What the block hook does to the books, the escrows, the pool records and the attestations. */
module SchedulerSweep {
  import opened Prelude
  import opened SchedulerSpec
  import opened SchedulerInvariant
  import opened SchedulerSteps
  import opened SchedulerHook
  import opened SchedulerCalls
  import opened SchedulerLedger
  import opened SchedulerBooks
  import opened SchedulerStatistics
  import AP = AttestationProofs

  // ---- Each task of a batch meets the state it needs.

  lemma ApproveNext(c: Config, s: State, w: World, ts: seq<TaskId>)
    requires Inv(c, s) && Distinct(ts) && AllProofSubmitted(s.tasks, ts) && ts != []
    ensures var (s1, t) := (ApproveAll(c, s, w, ts[..|ts| - 1]).0, ts[|ts| - 1]);
            Inv(c, s1) && t in s1.tasks && s1.tasks[t].status == ProofSubmitted
  {
    var init, t := ts[..|ts| - 1], ts[|ts| - 1];
    ApproveAllKeeps(c, s, w, init);
    assert t in ts && t !in init;
  }

  lemma FailNext(c: Config, s: State, w: World, ts: seq<TaskId>)
    requires Inv(c, s) && Distinct(ts) && AllUnfinished(s.tasks, ts) && ts != []
    ensures var (s1, t) := (FailAll(c, s, w, ts[..|ts| - 1]).0, ts[|ts| - 1]);
            Inv(c, s1) && t in s1.tasks && !IsTerminal(s1.tasks[t].status)
  {
    var init, t := ts[..|ts| - 1], ts[|ts| - 1];
    FailAllKeeps(c, s, w, init);
    assert t in ts && t !in init;
  }

  // ---- Escrows, pools and ids.

  /** Escrows are kept as they are or dropped, pools keep their owners, and no id is handed out. */
  ghost predicate Settles(s: State, s': State) {
    && (forall t :: t in s'.escrows ==> t in s.escrows && s'.escrows[t] == s.escrows[t])
    && PoolsEvolve(s.pools, s'.pools, s.nextPoolId)
    && s'.nextTaskId == s.nextTaskId && s'.nextPoolId == s.nextPoolId
  }

  lemma SettlesTrans(s: State, s1: State, s2: State)
    requires Settles(s, s1) && Settles(s1, s2)
    ensures Settles(s, s2)
  {
  }

  lemma ApproveSettles(c: Config, s: State, w: World, t: TaskId)
    requires Inv(c, s) && t in s.tasks && s.tasks[t].status == ProofSubmitted
    ensures Settles(s, FinalizeVerification(c, s, w, t, s.tasks[t].poolId, true).s)
  {
    assert Shaped(s.tasks[t]);
    ApprovalShape(c, s, w, t);
    ReputationEvolves(ApprovedState(s, t), s.tasks[t].poolId, true);
  }

  lemma FailSettles(c: Config, s: State, w: World, t: TaskId)
    requires t in s.tasks && !IsTerminal(s.tasks[t].status)
    ensures Settles(s, MarkTaskFailed(c, s, w, t).s)
  {
    FailureShape(c, s, w, t);
    PenaltyEvolves(c, FailedState(s, t), Refunded(s, w, t), s.tasks[t].poolId);
  }

  lemma {:induction false} ApproveAllSettles(c: Config, s: State, w: World, ts: seq<TaskId>)
    requires Inv(c, s) && Distinct(ts) && AllProofSubmitted(s.tasks, ts)
    ensures Settles(s, ApproveAll(c, s, w, ts).0)
  {
    if ts != [] {
      ApproveAllSettles(c, s, w, ts[..|ts| - 1]);
      ApproveNext(c, s, w, ts);
      var (s1, w1) := ApproveAll(c, s, w, ts[..|ts| - 1]);
      ApproveSettles(c, s1, w1, ts[|ts| - 1]);
      SettlesTrans(s, s1, ApproveAll(c, s, w, ts).0);
    }
  }

  lemma {:induction false} FailAllSettles(c: Config, s: State, w: World, ts: seq<TaskId>)
    requires Inv(c, s) && Distinct(ts) && AllUnfinished(s.tasks, ts)
    ensures Settles(s, FailAll(c, s, w, ts).0)
  {
    if ts != [] {
      FailAllSettles(c, s, w, ts[..|ts| - 1]);
      FailNext(c, s, w, ts);
      var (s1, w1) := FailAll(c, s, w, ts[..|ts| - 1]);
      FailSettles(c, s1, w1, ts[|ts| - 1]);
      SettlesTrans(s, s1, FailAll(c, s, w, ts).0);
    }
  }

  // ---- The books.

  lemma KeepsBooksTrans(c: Config, s: State, w: World, s1: State, w1: World, s2: State, w2: World)
    requires KeepsBooks(c, s, w, s1, w1) && KeepsBooks(c, s1, w1, s2, w2)
    ensures KeepsBooks(c, s, w, s2, w2)
  {
    BalancedTrans(s, w, s1, w1, s2, w2);
  }

  lemma {:induction false} ApproveAllBooks(c: Config, s: State, w: World, ts: seq<TaskId>)
    requires Inv(c, s) && BooksOk(c, s, w) && Distinct(ts) && AllProofSubmitted(s.tasks, ts)
    ensures var (s', w') := ApproveAll(c, s, w, ts);
            KeepsBooks(c, s, w, s', w')
  {
    if ts == [] {
      Unchanged(c, s, w);
    } else {
      ApproveAllBooks(c, s, w, ts[..|ts| - 1]);
      ApproveNext(c, s, w, ts);
      var (s1, w1) := ApproveAll(c, s, w, ts[..|ts| - 1]);
      ApproveBooks(c, s1, w1, ts[|ts| - 1]);
      var (s2, w2) := ApproveAll(c, s, w, ts);
      KeepsBooksTrans(c, s, w, s1, w1, s2, w2);
    }
  }

  lemma {:induction false} FailAllBooks(c: Config, s: State, w: World, ts: seq<TaskId>)
    requires Inv(c, s) && BooksOk(c, s, w) && Distinct(ts) && AllUnfinished(s.tasks, ts)
    ensures var (s', w') := FailAll(c, s, w, ts);
            KeepsBooks(c, s, w, s', w')
  {
    if ts == [] {
      Unchanged(c, s, w);
    } else {
      FailAllBooks(c, s, w, ts[..|ts| - 1]);
      FailNext(c, s, w, ts);
      var (s1, w1) := FailAll(c, s, w, ts[..|ts| - 1]);
      FailBooks(c, s1, w1, ts[|ts| - 1]);
      var (s2, w2) := FailAll(c, s, w, ts);
      KeepsBooksTrans(c, s, w, s1, w1, s2, w2);
    }
  }

  // ---- Attestations alone, with or without the books.

  lemma ApproveAttests(c: Config, s: State, w: World, t: TaskId)
    requires Inv(c, s) && AP.Inv(w.att) && t in s.tasks && s.tasks[t].status == ProofSubmitted
    ensures var w' := FinalizeVerification(c, s, w, t, s.tasks[t].poolId, true).w;
            AP.Inv(w'.att) && AP.Extends(w.att, w'.att)
  {
    assert Shaped(s.tasks[t]);
    ApprovalShape(c, s, w, t);
    AP.OnTaskCompletedKeeps(c.attestation, w.att, w.ledger, w.now, s.pools[s.tasks[t].poolId].owner, t, s.tasks[t].proofHash.value, [], 0, 0);
  }

  lemma FailAttests(c: Config, s: State, w: World, t: TaskId)
    requires t in s.tasks
    ensures MarkTaskFailed(c, s, w, t).w.att == w.att
  {
  }

  lemma {:induction false} ApproveAllAttests(c: Config, s: State, w: World, ts: seq<TaskId>)
    requires Inv(c, s) && AP.Inv(w.att) && Distinct(ts) && AllProofSubmitted(s.tasks, ts)
    ensures var w' := ApproveAll(c, s, w, ts).1;
            AP.Inv(w'.att) && AP.Extends(w.att, w'.att)
  {
    if ts != [] {
      ApproveAllAttests(c, s, w, ts[..|ts| - 1]);
      ApproveNext(c, s, w, ts);
      var (s1, w1) := ApproveAll(c, s, w, ts[..|ts| - 1]);
      ApproveAttests(c, s1, w1, ts[|ts| - 1]);
    }
  }

  lemma {:induction false} FailAllAttests(c: Config, s: State, w: World, ts: seq<TaskId>)
    requires Inv(c, s) && Distinct(ts) && AllUnfinished(s.tasks, ts)
    ensures FailAll(c, s, w, ts).1.att == w.att
  {
    if ts != [] {
      FailAllAttests(c, s, w, ts[..|ts| - 1]);
      FailNext(c, s, w, ts);
      var (s1, w1) := FailAll(c, s, w, ts[..|ts| - 1]);
      FailAttests(c, s1, w1, ts[|ts| - 1]);
    }
  }

  // ---- The mirrored records.

  lemma {:induction false} ApproveAllMirrored(c: Config, s: State, w: World, ts: seq<TaskId>)
    requires Inv(c, s) && Mirrored(s.pools, s.minerReputation) && Distinct(ts) && AllProofSubmitted(s.tasks, ts)
    ensures var s' := ApproveAll(c, s, w, ts).0;
            Mirrored(s'.pools, s'.minerReputation)
  {
    if ts != [] {
      ApproveAllMirrored(c, s, w, ts[..|ts| - 1]);
      ApproveNext(c, s, w, ts);
      var (s1, w1) := ApproveAll(c, s, w, ts[..|ts| - 1]);
      ApproveMirrored(c, s1, w1, ts[|ts| - 1]);
    }
  }

  lemma {:induction false} FailAllMirrored(c: Config, s: State, w: World, ts: seq<TaskId>)
    requires Inv(c, s) && Mirrored(s.pools, s.minerReputation) && Distinct(ts) && AllUnfinished(s.tasks, ts)
    ensures var s' := FailAll(c, s, w, ts).0;
            Mirrored(s'.pools, s'.minerReputation)
  {
    if ts != [] {
      FailAllMirrored(c, s, w, ts[..|ts| - 1]);
      FailNext(c, s, w, ts);
      var (s1, w1) := FailAll(c, s, w, ts[..|ts| - 1]);
      FailMirrored(c, s1, w1, ts[|ts| - 1]);
    }
  }

  // ---- The whole hook.

  /** The two batches the hook runs, and that each starts where it may. */
  lemma HookBatches(c: Config, s: State, w: World, order: seq<PoolId>) returns (proofs: seq<TaskId>, late: seq<TaskId>)
    requires Inv(c, s) && Enumerates(order, s.poolTasks.Keys)
    ensures Distinct(proofs) && AllProofSubmitted(s.tasks, proofs)
    ensures var (s1, w1) := ApproveAll(c, s, w, proofs);
            && Inv(c, s1) && Distinct(late) && AllUnfinished(s1.tasks, late)
            && OnInitialize(c, s, w, order) == FailAll(c, s1, w1, late)
  {
    ScanFacts(c, s, w.now, order);
    var listed := Listed(s, order);
    proofs, late := OverdueProofs(c, s, w.now, listed), OverdueTasks(c, s, w.now, listed);
    ApproveAllKeeps(c, s, w, proofs);
    var (s1, w1) := ApproveAll(c, s, w, proofs);
    StillUnfinished(s.tasks, s.proofSubmittedAt, s1.tasks, s1.proofSubmittedAt, proofs, late);
  }

  lemma HookBooks(c: Config, s: State, w: World, order: seq<PoolId>)
    requires Inv(c, s) && BooksOk(c, s, w) && Enumerates(order, s.poolTasks.Keys)
    ensures var (s', w') := OnInitialize(c, s, w, order);
            KeepsBooks(c, s, w, s', w')
  {
    var proofs, late := HookBatches(c, s, w, order);
    ApproveAllBooks(c, s, w, proofs);
    var (s1, w1) := ApproveAll(c, s, w, proofs);
    FailAllBooks(c, s1, w1, late);
    var (s2, w2) := FailAll(c, s1, w1, late);
    KeepsBooksTrans(c, s, w, s1, w1, s2, w2);
  }

  lemma HookMirrored(c: Config, s: State, w: World, order: seq<PoolId>)
    requires Inv(c, s) && Mirrored(s.pools, s.minerReputation) && Enumerates(order, s.poolTasks.Keys)
    ensures var s' := OnInitialize(c, s, w, order).0;
            Mirrored(s'.pools, s'.minerReputation)
  {
    var proofs, late := HookBatches(c, s, w, order);
    ApproveAllMirrored(c, s, w, proofs);
    var (s1, w1) := ApproveAll(c, s, w, proofs);
    FailAllMirrored(c, s1, w1, late);
  }

  lemma HookAttests(c: Config, s: State, w: World, order: seq<PoolId>)
    requires Inv(c, s) && AP.Inv(w.att) && Enumerates(order, s.poolTasks.Keys)
    ensures var w' := OnInitialize(c, s, w, order).1;
            AP.Inv(w'.att) && AP.Extends(w.att, w'.att)
  {
    var proofs, late := HookBatches(c, s, w, order);
    ApproveAllAttests(c, s, w, proofs);
    var (s1, w1) := ApproveAll(c, s, w, proofs);
    FailAllAttests(c, s1, w1, late);
  }

  lemma HookSettles(c: Config, s: State, w: World, order: seq<PoolId>)
    requires Inv(c, s) && Enumerates(order, s.poolTasks.Keys)
    ensures Settles(s, OnInitialize(c, s, w, order).0)
  {
    var proofs, late := HookBatches(c, s, w, order);
    ApproveAllSettles(c, s, w, proofs);
    var (s1, w1) := ApproveAll(c, s, w, proofs);
    FailAllSettles(c, s1, w1, late);
    SettlesTrans(s, s1, FailAll(c, s1, w1, late).0);
  }

  /** What the hook makes of a task is one legal move. */
  lemma SweptMoves(c: Config, s: State, s': State, now: BlockNumber)
    requires SweptAll(c, s, s', now) && Settles(s, s')
    ensures Evolves(s, s', now)
  {
    forall t | t in s.tasks
      ensures t in s'.tasks && TaskMoves(s.tasks[t], s'.tasks[t])
    {
      assert s'.tasks[t] == Swept(c, s, now, t);
    }
  }

  lemma HookEvolves(c: Config, s: State, w: World, order: seq<PoolId>)
    requires Inv(c, s) && Enumerates(order, s.poolTasks.Keys)
    ensures Evolves(s, OnInitialize(c, s, w, order).0, w.now)
  {
    OnInitializeKeeps(c, s, w, order);
    HookSettles(c, s, w, order);
    SweptMoves(c, s, OnInitialize(c, s, w, order).0, w.now);
  }
}
