/**
  The block hook: which tasks it finishes, that none of the errors it drops
  can arise, and that afterwards no unfinished task is past a deadline.
*/
module SchedulerHook {
  import opened Prelude
  import opened SchedulerSpec
  import opened SchedulerInvariant
  import opened SchedulerSteps

  // ---- The scan visits every unfinished task exactly once.

  lemma {:induction false} ListedContains(s: State, order: seq<PoolId>, t: TaskId)
    ensures t in Listed(s, order) <==> exists p :: p in order && t in TasksOf(s.poolTasks, p)
  {
    if order != [] {
      ListedContains(s, order[..|order| - 1], t);
      assert order == order[..|order| - 1] + [order[|order| - 1]];
    }
  }

  lemma DistinctAppend<T>(xs: seq<T>, ys: seq<T>)
    requires Distinct(xs) && Distinct(ys) && forall x :: x in xs ==> x !in ys
    ensures Distinct(xs + ys)
  {
    var zs := xs + ys;
    forall i, j | 0 <= i < j < |zs|
      ensures zs[i] != zs[j]
    {
      if i < |xs| <= j {
        assert zs[i] in xs && zs[j] in ys;
      }
    }
  }

  lemma {:induction false} ListedDistinct(c: Config, s: State, order: seq<PoolId>)
    requires Inv(c, s) && Distinct(order)
    ensures Distinct(Listed(s, order))
  {
    if order != [] {
      var init, p := order[..|order| - 1], order[|order| - 1];
      ListedDistinct(c, s, init);
      forall t | t in Listed(s, init)
        ensures t !in TasksOf(s.poolTasks, p)
      {
        ListedContains(s, init, t);
        var q :| q in init && t in TasksOf(s.poolTasks, q);
        assert ListOk(s.tasks, q, s.poolTasks[q]);
      }
      if p in s.poolTasks {
        assert ListOk(s.tasks, p, s.poolTasks[p]);
      }
      DistinctAppend(Listed(s, init), TasksOf(s.poolTasks, p));
    }
  }

  lemma ListedExact(c: Config, s: State, order: seq<PoolId>, t: TaskId)
    requires Inv(c, s) && Enumerates(order, s.poolTasks.Keys)
    ensures t in Listed(s, order) <==> t in s.tasks && !IsTerminal(s.tasks[t].status)
  {
    ListedContains(s, order, t);
    if t in Listed(s, order) {
      var p :| p in order && t in TasksOf(s.poolTasks, p);
      assert ListOk(s.tasks, p, s.poolTasks[p]);
    }
  }

  lemma {:induction false} OverdueDistinct(c: Config, s: State, now: BlockNumber, ts: seq<TaskId>)
    requires Distinct(ts)
    ensures Distinct(OverdueProofs(c, s, now, ts)) && Distinct(OverdueTasks(c, s, now, ts))
  {
    if ts != [] {
      var init, t := ts[..|ts| - 1], ts[|ts| - 1];
      OverdueDistinct(c, s, now, init);
      assert t !in init;
      DistinctAppend(OverdueProofs(c, s, now, init), if ProofOverdue(c, s, now, t) then [t] else []);
      DistinctAppend(OverdueTasks(c, s, now, init), if TaskOverdue(c, s, now, t) then [t] else []);
    }
  }

  // ---- Finishing a batch.

  /** The tasks named in `ts` became finished with `result`, and nothing else moved. */
  ghost predicate Batch(tasks: map<TaskId, Task>, proofAt: map<TaskId, BlockNumber>,
                        tasks': map<TaskId, Task>, proofAt': map<TaskId, BlockNumber>, ts: seq<TaskId>, result: bool) {
    && tasks'.Keys == tasks.Keys
    && (forall t :: t in tasks ==> tasks'[t] == if t in ts then Finished(tasks[t], result) else tasks[t])
    && (forall t :: t in proofAt' <==> t in proofAt && t !in ts)
    && (forall t :: t in proofAt' ==> proofAt'[t] == proofAt[t])
  }

  lemma BatchLast(tasks: map<TaskId, Task>, proofAt: map<TaskId, BlockNumber>,
                  tasks1: map<TaskId, Task>, proofAt1: map<TaskId, BlockNumber>, ts: seq<TaskId>, result: bool)
    requires ts != [] && Distinct(ts)
    requires Batch(tasks, proofAt, tasks1, proofAt1, ts[..|ts| - 1], result)
    requires ts[|ts| - 1] in tasks
    ensures var t := ts[|ts| - 1];
            tasks1[t] == tasks[t] && Batch(tasks, proofAt, tasks1[t := Finished(tasks1[t], result)], proofAt1 - {t}, ts, result)
  {
    var init, t := ts[..|ts| - 1], ts[|ts| - 1];
    assert t !in init;
    assert forall u :: u in ts <==> u in init || u == t;
  }

  lemma ApproveLast(c: Config, s: State, s1: State, w1: World, ts: seq<TaskId>)
    requires Inv(c, s1) && ts != [] && Distinct(ts)
    requires Batch(s.tasks, s.proofSubmittedAt, s1.tasks, s1.proofSubmittedAt, ts[..|ts| - 1], true)
    requires ts[|ts| - 1] in s.tasks && s.tasks[ts[|ts| - 1]].status == ProofSubmitted
    ensures ts[|ts| - 1] in s1.tasks
    ensures var step := FinalizeVerification(c, s1, w1, ts[|ts| - 1], s1.tasks[ts[|ts| - 1]].poolId, true);
            && step.r.Ok? && Inv(c, step.s) && step.w.now == w1.now
            && Batch(s.tasks, s.proofSubmittedAt, step.s.tasks, step.s.proofSubmittedAt, ts, true)
  {
    BatchLast(s.tasks, s.proofSubmittedAt, s1.tasks, s1.proofSubmittedAt, ts, true);
    ApproveKeeps(c, s1, w1, ts[|ts| - 1]);
  }

  /** Every result the approval loop throws away is a success. */
  ghost predicate ApprovesCleanly(c: Config, s: State, w: World, ts: seq<TaskId>) {
    ts == [] ||
    var init, t := ts[..|ts| - 1], ts[|ts| - 1];
    && ApprovesCleanly(c, s, w, init)
    && var (s1, w1) := ApproveAll(c, s, w, init);
    t in s1.tasks && FinalizeVerification(c, s1, w1, t, s1.tasks[t].poolId, true).r.Ok?
  }

  /** Every result the expiry loop throws away is a success. */
  ghost predicate FailsCleanly(c: Config, s: State, w: World, ts: seq<TaskId>) {
    ts == [] ||
    var init, t := ts[..|ts| - 1], ts[|ts| - 1];
    && FailsCleanly(c, s, w, init)
    && var (s1, w1) := FailAll(c, s, w, init);
    MarkTaskFailed(c, s1, w1, t).r.Ok?
  }

  ghost predicate AllProofSubmitted(tasks: map<TaskId, Task>, ts: seq<TaskId>) {
    forall t :: t in ts ==> t in tasks && tasks[t].status == ProofSubmitted
  }

  ghost predicate AllUnfinished(tasks: map<TaskId, Task>, ts: seq<TaskId>) {
    forall t :: t in ts ==> t in tasks && !IsTerminal(tasks[t].status)
  }

  /** Approving a batch of tasks with proofs, in the order given. */
  lemma {:induction false} ApproveAllKeeps(c: Config, s: State, w: World, ts: seq<TaskId>)
    requires Inv(c, s) && Distinct(ts)
    requires AllProofSubmitted(s.tasks, ts)
    ensures ApprovesCleanly(c, s, w, ts)
    ensures var (s', w') := ApproveAll(c, s, w, ts);
            Inv(c, s') && w'.now == w.now && Batch(s.tasks, s.proofSubmittedAt, s'.tasks, s'.proofSubmittedAt, ts, true)
  {
    if ts != [] {
      var (s1, w1) := ApproveAll(c, s, w, ts[..|ts| - 1]);
      ApproveAllKeeps(c, s, w, ts[..|ts| - 1]);
      assert ts[|ts| - 1] in ts;
      ApproveLast(c, s, s1, w1, ts);
    }
  }

  lemma FailLast(c: Config, s: State, s1: State, w1: World, ts: seq<TaskId>)
    requires Inv(c, s1) && ts != [] && Distinct(ts)
    requires Batch(s.tasks, s.proofSubmittedAt, s1.tasks, s1.proofSubmittedAt, ts[..|ts| - 1], false)
    requires ts[|ts| - 1] in s.tasks && !IsTerminal(s.tasks[ts[|ts| - 1]].status)
    ensures var step := MarkTaskFailed(c, s1, w1, ts[|ts| - 1]);
            && step.r.Ok? && Inv(c, step.s) && step.w.now == w1.now
            && Batch(s.tasks, s.proofSubmittedAt, step.s.tasks, step.s.proofSubmittedAt, ts, false)
  {
    BatchLast(s.tasks, s.proofSubmittedAt, s1.tasks, s1.proofSubmittedAt, ts, false);
    FailKeeps(c, s1, w1, ts[|ts| - 1]);
  }

  /** Failing a batch of unfinished tasks, in the order given. */
  lemma {:induction false} FailAllKeeps(c: Config, s: State, w: World, ts: seq<TaskId>)
    requires Inv(c, s) && Distinct(ts)
    requires AllUnfinished(s.tasks, ts)
    ensures FailsCleanly(c, s, w, ts)
    ensures var (s', w') := FailAll(c, s, w, ts);
            Inv(c, s') && w'.now == w.now && Batch(s.tasks, s.proofSubmittedAt, s'.tasks, s'.proofSubmittedAt, ts, false)
  {
    if ts != [] {
      var (s1, w1) := FailAll(c, s, w, ts[..|ts| - 1]);
      FailAllKeeps(c, s, w, ts[..|ts| - 1]);
      assert ts[|ts| - 1] in ts;
      FailLast(c, s, s1, w1, ts);
    }
  }

  // ---- The whole hook.

  /** No unfinished task is past its deadline and no submitted proof has waited too long. */
  ghost predicate Timely(c: Config, tasks: map<TaskId, Task>, proofAt: map<TaskId, BlockNumber>, now: BlockNumber) {
    && (forall t :: t in tasks && !IsTerminal(tasks[t].status) ==> now <= tasks[t].submittedAt + c.taskTimeout)
    && (forall t :: t in proofAt ==> now <= proofAt[t] + c.verificationTimeout)
  }

  /** What the hook makes of one task. */
  ghost function Swept(c: Config, s: State, now: BlockNumber, t: TaskId): Task
    requires t in s.tasks
  {
    if ProofOverdue(c, s, now, t) then Finished(s.tasks[t], true)
    else if TaskOverdue(c, s, now, t) then Finished(s.tasks[t], false)
    else s.tasks[t]
  }

  ghost predicate SweptAll(c: Config, s: State, s': State, now: BlockNumber) {
    && s'.tasks.Keys == s.tasks.Keys
    && (forall t :: t in s.tasks ==> s'.tasks[t] == Swept(c, s, now, t))
    && (forall t :: t in s'.proofSubmittedAt ==> t in s.proofSubmittedAt && s'.proofSubmittedAt[t] == s.proofSubmittedAt[t])
  }

  /** Two consecutive batches over a scan of every unfinished task do exactly what `Swept` says. */
  lemma TwoBatches(c: Config, s: State, s1: State, s2: State, now: BlockNumber, listed: seq<TaskId>)
    requires forall t :: t in listed <==> t in s.tasks && !IsTerminal(s.tasks[t].status)
    requires Batch(s.tasks, s.proofSubmittedAt, s1.tasks, s1.proofSubmittedAt, OverdueProofs(c, s, now, listed), true)
    requires Batch(s1.tasks, s1.proofSubmittedAt, s2.tasks, s2.proofSubmittedAt, OverdueTasks(c, s, now, listed), false)
    ensures SweptAll(c, s, s2, now)
  {
    forall t | t in s.tasks
      ensures s2.tasks[t] == Swept(c, s, now, t)
    {
      assert t in OverdueProofs(c, s, now, listed) <==> ProofOverdue(c, s, now, t);
      assert t in OverdueTasks(c, s, now, listed) <==> TaskOverdue(c, s, now, t);
    }
  }

  lemma SweptIsTimely(c: Config, s: State, s': State, now: BlockNumber)
    requires SweptAll(c, s, s', now) && TasksShaped(s.tasks, s.proofSubmittedAt) && TasksShaped(s'.tasks, s'.proofSubmittedAt)
    ensures Timely(c, s'.tasks, s'.proofSubmittedAt, now)
  {
    forall t | t in s'.proofSubmittedAt
      ensures now <= s'.proofSubmittedAt[t] + c.verificationTimeout
    {
      assert s'.tasks[t] == Swept(c, s, now, t);
    }
  }

  /** The scan lists every unfinished task once, so the two batches are disjoint and in the right states. */
  lemma ScanFacts(c: Config, s: State, now: BlockNumber, order: seq<PoolId>)
    requires Inv(c, s) && Enumerates(order, s.poolTasks.Keys)
    ensures var listed := Listed(s, order);
            && (forall t :: t in listed <==> t in s.tasks && !IsTerminal(s.tasks[t].status))
            && Distinct(OverdueProofs(c, s, now, listed)) && AllProofSubmitted(s.tasks, OverdueProofs(c, s, now, listed))
            && Distinct(OverdueTasks(c, s, now, listed)) && AllUnfinished(s.tasks, OverdueTasks(c, s, now, listed))
            && (forall t :: t in OverdueTasks(c, s, now, listed) ==> t !in OverdueProofs(c, s, now, listed))
  {
    var listed := Listed(s, order);
    ListedDistinct(c, s, order);
    OverdueDistinct(c, s, now, listed);
    forall t
      ensures t in listed <==> t in s.tasks && !IsTerminal(s.tasks[t].status)
    {
      ListedExact(c, s, order, t);
    }
  }

  lemma StillUnfinished(tasks: map<TaskId, Task>, proofAt: map<TaskId, BlockNumber>,
                        tasks1: map<TaskId, Task>, proofAt1: map<TaskId, BlockNumber>, proofs: seq<TaskId>, late: seq<TaskId>)
    requires Batch(tasks, proofAt, tasks1, proofAt1, proofs, true) && AllUnfinished(tasks, late)
    requires forall t :: t in late ==> t !in proofs
    ensures AllUnfinished(tasks1, late)
  {
  }

  /**
    The hook keeps the invariant, drops no error, finishes exactly the overdue
    tasks, and leaves no unfinished task or waiting proof past its deadline.
  */
  lemma OnInitializeKeeps(c: Config, s: State, w: World, order: seq<PoolId>)
    requires Inv(c, s) && Enumerates(order, s.poolTasks.Keys)
    ensures var proofs := OverdueProofs(c, s, w.now, Listed(s, order));
            var (s1, w1) := ApproveAll(c, s, w, proofs);
            ApprovesCleanly(c, s, w, proofs) && FailsCleanly(c, s1, w1, OverdueTasks(c, s, w.now, Listed(s, order)))
    ensures var (s', w') := OnInitialize(c, s, w, order);
            && Inv(c, s') && w'.now == w.now
            && SweptAll(c, s, s', w.now) && Timely(c, s'.tasks, s'.proofSubmittedAt, w.now)
  {
    ScanFacts(c, s, w.now, order);
    var listed := Listed(s, order);
    var proofs, late := OverdueProofs(c, s, w.now, listed), OverdueTasks(c, s, w.now, listed);
    ApproveAllKeeps(c, s, w, proofs);
    var (s1, w1) := ApproveAll(c, s, w, proofs);
    StillUnfinished(s.tasks, s.proofSubmittedAt, s1.tasks, s1.proofSubmittedAt, proofs, late);
    FailAllKeeps(c, s1, w1, late);
    var (s2, w2) := FailAll(c, s1, w1, late);
    TwoBatches(c, s, s1, s2, w.now, listed);
    SweptIsTimely(c, s, s2, w.now);
  }
}
