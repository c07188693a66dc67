/** Whole runs: soundness and timeliness in every reachable state, the reserve ledger, and the history of tasks and attestations. */
module ChainRuns {
  import opened Prelude
  import opened Currency
  import opened SchedulerSpec
  import opened SchedulerInvariant
  import opened SchedulerSteps
  import opened SchedulerHook
  import opened SchedulerCalls
  import opened SchedulerLedger
  import opened SchedulerBooks
  import opened SchedulerSweep
  import opened Chain
  import A = AttestationSpec
  import AP = AttestationProofs

  function After(c: Config, k: Chain, trace: seq<Event>): Chain {
    if trace == [] then k else Next(c, After(c, k, trace[..|trace| - 1]), trace[|trace| - 1])
  }

  ghost predicate LegalRun(c: Config, k: Chain, trace: seq<Event>) {
    trace == [] ||
    var init := trace[..|trace| - 1];
    LegalRun(c, k, init) && Legal(After(c, k, init), trace[|trace| - 1])
  }

  /** The chain before anything happened: empty pallets, a ledger that owes them nothing. */
  function Genesis(ledger: Ledger, now: BlockNumber): Chain {
    Chain(Empty, World(ledger, A.Empty, now))
  }

  lemma GenesisSound(c: Config, ledger: Ledger, now: BlockNumber)
    ensures Sound(c, Genesis(ledger, now)) && BooksOk(c, Empty, Genesis(ledger, now).w)
    ensures forall who :: TotalOwed(Empty, Genesis(ledger, now).w, who) == 0
  {
    AP.EmptyInv();
    EmptyInv(c);
  }

  // ---- Every reachable state.

  /**
    Every reachable state is sound. In particular no unfinished task is past
    its deadline and no submitted proof has waited too long, at any moment.
  */
  lemma {:induction false} RunSound(c: Config, k: Chain, trace: seq<Event>)
    requires Sound(c, k) && LegalRun(c, k, trace)
    ensures Sound(c, After(c, k, trace))
  {
    if trace != [] {
      RunSound(c, k, trace[..|trace| - 1]);
      NextSound(c, After(c, k, trace[..|trace| - 1]), trace[|trace| - 1]);
    }
  }

  /** At any moment of any run, a task past its deadline is finished and a proof past its own is decided. */
  lemma FinishedByDeadline(c: Config, k: Chain, trace: seq<Event>, t: TaskId)
    requires Sound(c, k) && LegalRun(c, k, trace) && t in After(c, k, trace).s.tasks
    ensures var (task, now) := (After(c, k, trace).s.tasks[t], After(c, k, trace).w.now);
            && (now > task.submittedAt + c.taskTimeout ==> IsTerminal(task.status))
            && (t in After(c, k, trace).s.proofSubmittedAt ==> now <= After(c, k, trace).s.proofSubmittedAt[t] + c.verificationTimeout)
  {
    RunSound(c, k, trace);
  }

  // ---- The reserve ledger.

  ghost predicate HonestRun(c: Config, k: Chain, trace: seq<Event>) {
    trace == [] ||
    var init := trace[..|trace| - 1];
    HonestRun(c, k, init) && Honours(After(c, k, init), trace[|trace| - 1])
  }

  /** Unless a claimed escrow is disputed, obligations stay backed and deposits keep their closed form. */
  lemma {:induction false} RunBooks(c: Config, k: Chain, trace: seq<Event>)
    requires Sound(c, k) && BooksOk(c, k.s, k.w) && LegalRun(c, k, trace) && HonestRun(c, k, trace)
    ensures BooksOk(c, After(c, k, trace).s, After(c, k, trace).w)
  {
    if trace != [] {
      var init := trace[..|trace| - 1];
      RunBooks(c, k, init);
      RunSound(c, k, init);
      NextBooks(c, After(c, k, init), trace[|trace| - 1]);
    }
  }

  ghost predicate NobodyElse(trace: seq<Event>) {
    forall i :: 0 <= i < |trace| ==> !trace[i].Elsewhere?
  }

  /** If no other pallet touches the currency, nobody's surplus moves at all. */
  lemma {:induction false} RunBalanced(c: Config, k: Chain, trace: seq<Event>)
    requires Sound(c, k) && BooksOk(c, k.s, k.w) && LegalRun(c, k, trace) && HonestRun(c, k, trace) && NobodyElse(trace)
    ensures Balanced(k.s, k.w, After(c, k, trace).s, After(c, k, trace).w)
  {
    if trace != [] {
      var init := trace[..|trace| - 1];
      var k1, k2 := After(c, k, init), After(c, k, trace);
      assert !trace[|trace| - 1].Elsewhere?;
      RunBalanced(c, k, init);
      RunBooks(c, k, init);
      RunSound(c, k, init);
      NextBooks(c, k1, trace[|trace| - 1]);
      BalancedTrans(k.s, k.w, k1.s, k1.w, k2.s, k2.w);
    }
  }

  /**
    From genesis, each account's reserve has grown by exactly what the two
    pallets now owe it: deposits its pools still hold, its unclaimed escrows,
    its pool stakes and its pending attestation deposits.
  */
  lemma ReserveIsOwed(c: Config, ledger: Ledger, now: BlockNumber, trace: seq<Event>, who: AccountId)
    requires LegalRun(c, Genesis(ledger, now), trace) && HonestRun(c, Genesis(ledger, now), trace) && NobodyElse(trace)
    ensures var k := After(c, Genesis(ledger, now), trace);
            Reserved(k.w.ledger, who) == Reserved(ledger, who) + TotalOwed(k.s, k.w, who)
  {
    GenesisSound(c, ledger, now);
    RunBalanced(c, Genesis(ledger, now), trace);
    var k := After(c, Genesis(ledger, now), trace);
    assert Surplus(k.s, k.w, who) == Surplus(Empty, Genesis(ledger, now).w, who);
  }

  // ---- The life of one task.

  /** Steps a task can still take. */
  function Rank(task: Task): nat {
    if task.disputed then 0 else if IsTerminal(task.status) then 1 else if task.status == ProofSubmitted then 2 else 3
  }

  lemma MovesLowerRank(task: Task, task': Task)
    requires Shaped(task) && TaskMoves(task, task')
    ensures task' == task || Rank(task') < Rank(task)
  {
  }

  /** How many events of the run change the record of `t`. */
  ghost function Changes(c: Config, k: Chain, trace: seq<Event>, t: TaskId): nat {
    if trace == [] then 0
    else
      var (k1, k2) := (After(c, k, trace[..|trace| - 1]), After(c, k, trace));
      Changes(c, k, trace[..|trace| - 1], t) +
      if t in k1.s.tasks && t in k2.s.tasks && k1.s.tasks[t] != k2.s.tasks[t] then 1 else 0
  }

  /** The record after `n` changes: the terms of the submission stand, and each change cost a rank. */
  predicate Descends(task: Task, task': Task, n: nat) {
    && n + Rank(task') <= Rank(task)
    && task'.user == task.user && task'.poolId == task.poolId && task'.dimensions == task.dimensions
    && task'.rewardAmount == task.rewardAmount && task'.submittedAt == task.submittedAt
  }

  lemma DescendsFurther(task: Task, task1: Task, task2: Task, n: nat)
    requires Descends(task, task1, n) && Shaped(task1) && TaskMoves(task1, task2)
    ensures Descends(task, task2, n + if task1 != task2 then 1 else 0)
  {
    MovesLowerRank(task1, task2);
  }

  /** A task is never removed, keeps what was fixed at submission, and changes at most three times. */
  lemma {:induction false} RunTask(c: Config, k: Chain, trace: seq<Event>, t: TaskId)
    requires Sound(c, k) && LegalRun(c, k, trace) && t in k.s.tasks
    ensures t in After(c, k, trace).s.tasks && Descends(k.s.tasks[t], After(c, k, trace).s.tasks[t], Changes(c, k, trace, t))
    ensures Changes(c, k, trace, t) <= 3
  {
    if trace != [] {
      var init := trace[..|trace| - 1];
      var k1 := After(c, k, init);
      RunTask(c, k, init, t);
      RunSound(c, k, init);
      NextEvolves(c, k1, trace[|trace| - 1]);
      assert Shaped(k1.s.tasks[t]) && TaskMoves(k1.s.tasks[t], After(c, k, trace).s.tasks[t]);
      DescendsFurther(k.s.tasks[t], k1.s.tasks[t], After(c, k, trace).s.tasks[t], Changes(c, k, init, t));
    }
  }

  // ---- A reward is paid at most once.

  /** The task exists and has nothing left to claim. */
  predicate Spent(s: State, t: TaskId) {
    t < s.nextTaskId && (t in s.escrows ==> s.escrows[t].claimed)
  }

  lemma SpentStays(s: State, s': State, now: BlockNumber, t: TaskId)
    requires Evolves(s, s', now) && Spent(s, t)
    ensures Spent(s', t)
  {
  }

  predicate Claims(c: Config, k: Chain, ev: Event, t: TaskId) {
    ev.Dispatch? && ev.call.DoClaimReward? && ev.call.task == t && ClaimReward(k.s, k.w, ev.call.who, t).r.Ok?
  }

  lemma ClaimSpends(c: Config, k: Chain, ev: Event, t: TaskId)
    requires Inv(c, k.s) && Claims(c, k, ev, t)
    ensures !Spent(k.s, t) && Spent(Next(c, k, ev).s, t)
  {
    var _ := ClaimShape(c, k.s, k.w, ev.call.who, t);
  }

  ghost function Payments(c: Config, k: Chain, trace: seq<Event>, t: TaskId): nat {
    if trace == [] then 0
    else
      var init := trace[..|trace| - 1];
      Payments(c, k, init, t) + if Claims(c, After(c, k, init), trace[|trace| - 1], t) then 1 else 0
  }

  /** Over any run a task's reward is paid at most once, and never after its escrow is spent. */
  lemma {:induction false} PaidAtMostOnce(c: Config, k: Chain, trace: seq<Event>, t: TaskId)
    requires Sound(c, k) && LegalRun(c, k, trace)
    ensures Payments(c, k, trace, t) <= 1
    ensures Spent(k.s, t) ==> Payments(c, k, trace, t) == 0
    ensures Payments(c, k, trace, t) == 1 || Spent(k.s, t) ==> Spent(After(c, k, trace).s, t)
  {
    if trace != [] {
      var init, ev := trace[..|trace| - 1], trace[|trace| - 1];
      var k1, k2 := After(c, k, init), After(c, k, trace);
      PaidAtMostOnce(c, k, init, t);
      RunSound(c, k, init);
      if Claims(c, k1, ev, t) {
        ClaimSpends(c, k1, ev, t);
      } else if Spent(k1.s, t) {
        NextEvolves(c, k1, ev);
        SpentStays(k1.s, k2.s, k2.w.now, t);
      }
    }
  }

  /** A successful dispute, in either direction, leaves nothing to claim, ever. */
  lemma DisputeSpends(c: Config, s: State, w: World, who: AccountId, t: TaskId)
    requires Inv(c, s) && DisputeVerification(c, s, w, who, t).r.Ok?
    ensures Spent(DisputeVerification(c, s, w, who, t).s, t) && t !in DisputeVerification(c, s, w, who, t).s.escrows
  {
    DisputeKeeps(c, s, w, who, t);
    assert Shaped(s.tasks[t]);
    DisputedRecord(c, s, w, who, t);
    DisputedHasNoEscrow(c, DisputeVerification(c, s, w, who, t).s, t);
  }

  lemma DisputedHasNoEscrow(c: Config, s: State, t: TaskId)
    requires Inv(c, s) && t in s.tasks && s.tasks[t].disputed
    ensures t !in s.escrows && t < s.nextTaskId
  {
    assert t in s.escrows ==> EscrowOk(s.tasks[t], s.escrows[t], t in s.rewards, s.pools);
  }

  lemma RevokedRecord(c: Config, s: State, w: World, t: TaskId, p: PoolId)
    requires t in s.tasks
    ensures var s' := SlashPool(c, UpdateReputation(RevokedState(s, t), p, false), w, p).s;
            s'.tasks == s.tasks[t := Overturned(s.tasks[t])] && s'.escrows == s.escrows - {t}
  {
    PenaltyEvolves(c, RevokedState(s, t), w, p);
  }

  lemma RestoredRecord(s: State, t: TaskId, p: PoolId)
    requires t in s.tasks && s.tasks[t].rewardAmount.Some?
    ensures var s' := UpdateReputation(RestoredState(s, t), p, true);
            s'.tasks == s.tasks[t := Overturned(s.tasks[t])] && s'.escrows == s.escrows
  {
    ReputationEvolves(RestoredState(s, t), p, true);
  }

  /** A successful dispute edits one record, and at most drops that task's escrow. */
  lemma DisputedRecord(c: Config, s: State, w: World, who: AccountId, t: TaskId)
    requires t in s.tasks && Shaped(s.tasks[t]) && DisputeVerification(c, s, w, who, t).r.Ok?
    ensures var s' := DisputeVerification(c, s, w, who, t).s;
            && s'.tasks == s.tasks[t := Overturned(s.tasks[t])]
            && (s'.escrows == s.escrows || s'.escrows == s.escrows - {t})
  {
    var p := s.tasks[t].poolId;
    if s.tasks[t].status == Completed {
      DisputeApprovalShape(c, s, w, who, t);
      RevokedRecord(c, s, Refunded(s, w, t), t, p);
    } else {
      DisputeFailureShape(c, s, w, who, t);
      RestoredRecord(s, t, p);
    }
  }

  // ---- The escrow that nobody can reach.

  /** A completed, unclaimed task whose pool is gone. */
  predicate Stranded(s: State, t: TaskId, e: Escrow) {
    && t in s.tasks && s.tasks[t].verificationResult == Some(true) && IsTerminal(s.tasks[t].status)
    && t in s.escrows && s.escrows[t] == e && !e.claimed
    && s.tasks[t].poolId !in s.pools && s.tasks[t].poolId < s.nextPoolId && t < s.nextTaskId
  }

  /** Deregistering a pool strands the escrows of its completed tasks that were not claimed. */
  lemma DeregisterStrands(c: Config, s: State, w: World, who: AccountId, p: PoolId, t: TaskId)
    requires Inv(c, s) && DeregisterPool(s, w, who, p).r.Ok?
    requires t in s.tasks && s.tasks[t].poolId == p && s.tasks[t].status == Completed && t in s.escrows && !s.escrows[t].claimed
    ensures Stranded(DeregisterPool(s, w, who, p).s, t, s.escrows[t])
  {
    assert Shaped(s.tasks[t]);
  }

  /** Neither the claim nor the dispute of a stranded task can succeed. */
  lemma StrandedRefused(c: Config, s: State, w: World, who: AccountId, t: TaskId, e: Escrow)
    requires Stranded(s, t, e)
    ensures ClaimReward(s, w, who, t).r.Err? && DisputeVerification(c, s, w, who, t).r.Err?
  {
  }

  /** An escrow that is neither claimed, refunded nor created by this call. */
  lemma EscrowUntouched(c: Config, s: State, w: World, call: Call, t: TaskId)
    requires TasksShaped(s.tasks, s.proofSubmittedAt) && t in s.escrows && t in s.tasks && IsTerminal(s.tasks[t].status) && t < s.nextTaskId
    requires !(call.DoClaimReward? && call.task == t) && !(call.DoDispute? && call.task == t)
    requires Exec(c, s, w, call).r.Ok?
    ensures var s' := Exec(c, s, w, call).s;
            t in s'.escrows && s'.escrows[t] == s.escrows[t] && t in s'.tasks && s'.tasks[t] == s.tasks[t]
  {
    match call
    case DoVerifyProof(who, task, result) => VerifyElsewhere(c, s, w, who, task, result, t);
    case DoDispute(who, task) => DisputeElsewhere(c, s, w, who, task, t);
    case _ => OthersElsewhere(c, s, w, call, t);
  }

  lemma OthersElsewhere(c: Config, s: State, w: World, call: Call, t: TaskId)
    requires t in s.escrows && t in s.tasks && IsTerminal(s.tasks[t].status) && t < s.nextTaskId
    requires !(call.DoClaimReward? && call.task == t) && !call.DoDispute? && !call.DoVerifyProof?
    requires Exec(c, s, w, call).r.Ok?
    ensures var s' := Exec(c, s, w, call).s;
            t in s'.escrows && s'.escrows[t] == s.escrows[t] && t in s'.tasks && s'.tasks[t] == s.tasks[t]
  {
  }

  lemma VerifyElsewhere(c: Config, s: State, w: World, who: AccountId, task: TaskId, result: bool, t: TaskId)
    requires t in s.escrows && t in s.tasks && IsTerminal(s.tasks[t].status) && VerifyProof(c, s, w, who, task, result).r.Ok?
    ensures var s' := VerifyProof(c, s, w, who, task, result).s;
            t in s'.escrows && s'.escrows[t] == s.escrows[t] && t in s'.tasks && s'.tasks[t] == s.tasks[t]
  {
    VerifyShape(c, s, w, who, task, result);
    if !result {
      FailureShape(c, s, w, task);
      PenaltyEvolves(c, FailedState(s, task), Refunded(s, w, task), s.tasks[task].poolId);
    }
  }

  lemma DisputeElsewhere(c: Config, s: State, w: World, who: AccountId, task: TaskId, t: TaskId)
    requires t in s.escrows && t in s.tasks && task != t && TasksShaped(s.tasks, s.proofSubmittedAt)
    requires DisputeVerification(c, s, w, who, task).r.Ok?
    ensures var s' := DisputeVerification(c, s, w, who, task).s;
            t in s'.escrows && s'.escrows[t] == s.escrows[t] && t in s'.tasks && s'.tasks[t] == s.tasks[t]
  {
    assert Shaped(s.tasks[task]);
    DisputedRecord(c, s, w, who, task);
  }

  lemma HookUntouched(c: Config, s: State, w: World, order: seq<PoolId>, t: TaskId)
    requires Inv(c, s) && Enumerates(order, s.poolTasks.Keys)
    requires t in s.escrows && t in s.tasks && IsTerminal(s.tasks[t].status)
    ensures var s' := OnInitialize(c, s, w, order).0;
            t in s'.escrows && s'.escrows[t] == s.escrows[t] && t in s'.tasks && s'.tasks[t] == s.tasks[t]
  {
    var s' := OnInitialize(c, s, w, order).0;
    OnInitializeKeeps(c, s, w, order);
    HookSettles(c, s, w, order);
    assert s'.tasks[t] == Swept(c, s, w.now, t);
    assert EscrowOk(s.tasks[t], s.escrows[t], t in s.rewards, s.pools);
  }

  lemma PoolStaysGone(s: State, s': State, now: BlockNumber, p: PoolId)
    requires Evolves(s, s', now) && p !in s.pools && p < s.nextPoolId
    ensures p !in s'.pools && p < s'.nextPoolId
  {
  }

  lemma StrandedStep(c: Config, k: Chain, ev: Event, t: TaskId, e: Escrow)
    requires Sound(c, k) && Legal(k, ev) && Stranded(k.s, t, e)
    ensures Stranded(Next(c, k, ev).s, t, e)
  {
    match ev
    case Dispatch(call) => StrandedDispatch(c, k.s, k.w, call, t, e);
    case NewBlock(order) => StrandedBlock(c, k, order, t, e);
    case Attest(_) => assert Next(c, k, ev).s == k.s;
    case Elsewhere(_) => assert Next(c, k, ev).s == k.s;
  }

  lemma StrandedBlock(c: Config, k: Chain, order: seq<PoolId>, t: TaskId, e: Escrow)
    requires Inv(c, k.s) && Enumerates(order, k.s.poolTasks.Keys) && Stranded(k.s, t, e)
    ensures Stranded(Next(c, k, NewBlock(order)).s, t, e)
  {
    if k.w.now < U32_MAX {
      NewBlockShape(c, k, order);
      StrandedHook(c, k.s, k.w.(now := k.w.now + 1), order, t, e);
    }
  }

  lemma StrandedDispatch(c: Config, s: State, w: World, call: Call, t: TaskId, e: Escrow)
    requires Inv(c, s) && Stranded(s, t, e)
    ensures Stranded(Exec(c, s, w, call).s, t, e)
  {
    if Exec(c, s, w, call).r.Err? {
      ErrorsChangeNothing(c, s, w, call);
    } else {
      ExecEvolves(c, s, w, call);
      PoolStaysGone(s, Exec(c, s, w, call).s, w.now, s.tasks[t].poolId);
      StrandedRefused(c, s, w, call.who, t, e);
      EscrowUntouched(c, s, w, call, t);
    }
  }

  lemma StrandedHook(c: Config, s: State, w: World, order: seq<PoolId>, t: TaskId, e: Escrow)
    requires Inv(c, s) && Enumerates(order, s.poolTasks.Keys) && Stranded(s, t, e)
    ensures Stranded(OnInitialize(c, s, w, order).0, t, e)
  {
    var s' := OnInitialize(c, s, w, order).0;
    HookEvolves(c, s, w, order);
    PoolStaysGone(s, s', w.now, s.tasks[t].poolId);
    HookUntouched(c, s, w, order, t);
  }

  /** A stranded escrow is stranded for good: no run pays it out or pays it back. */
  lemma {:induction false} StrandedForever(c: Config, k: Chain, trace: seq<Event>, t: TaskId, e: Escrow)
    requires Sound(c, k) && LegalRun(c, k, trace) && Stranded(k.s, t, e)
    ensures Stranded(After(c, k, trace).s, t, e)
  {
    if trace != [] {
      var init := trace[..|trace| - 1];
      StrandedForever(c, k, init, t, e);
      RunSound(c, k, init);
      StrandedStep(c, After(c, k, init), trace[|trace| - 1], t, e);
    }
  }

  // ---- The life of one attestation.

  function AttestationAt(k: Chain, id: A.AttestationId): Option<A.Attestation> {
    if id in k.w.att.attestations then Some(k.w.att.attestations[id]) else None
  }

  lemma OneAttestationStep(c: Config, k: Chain, ev: Event, id: A.AttestationId)
    requires Sound(c, k) && Legal(k, ev)
    ensures match (AttestationAt(k, id), AttestationAt(Next(c, k, ev), id))
            case (Some(a), Some(b)) => AP.Moves(a, b, Next(c, k, ev).w.now)
            case (Some(_), None) => false
            case (None, Some(b)) => b.status == A.Pending && b.challenger.None? && k.w.att.nextId <= id < Next(c, k, ev).w.att.nextId
            case (None, None) => true
    ensures k.w.att.nextId <= Next(c, k, ev).w.att.nextId
  {
    NextAttests(c, k, ev);
  }

  /** Once an attestation has left Pending its record never changes again; an id is never given to another. */
  lemma {:induction false} FinalForever(c: Config, k: Chain, trace: seq<Event>, id: A.AttestationId)
    requires Sound(c, k) && LegalRun(c, k, trace)
    ensures var (a, b) := (AttestationAt(k, id), AttestationAt(After(c, k, trace), id));
            && (a.Some? ==> b.Some? && b.value.attester == a.value.attester && b.value.taskId == a.value.taskId
                            && b.value.deposit == a.value.deposit && b.value.challengeEnd == a.value.challengeEnd)
            && (a.Some? && a.value.status != A.Pending ==> b == a)
            && (a.Some? && a.value.challenger.Some? ==> b.value.challenger == a.value.challenger)
    ensures k.w.att.nextId <= After(c, k, trace).w.att.nextId
    ensures id < k.w.att.nextId && AttestationAt(k, id).None? ==> AttestationAt(After(c, k, trace), id).None?
  {
    if trace != [] {
      var init := trace[..|trace| - 1];
      FinalForever(c, k, init, id);
      RunSound(c, k, init);
      OneAttestationStep(c, After(c, k, init), trace[|trace| - 1], id);
    }
  }

  /** Somebody challenged a pending attestation that nobody had challenged, while its window was open. */
  ghost predicate ChallengeMoment(before: Chain, after: Chain, id: A.AttestationId, challenger: Option<AccountId>) {
    && AttestationAt(before, id).Some? && AttestationAt(after, id).Some?
    && var (a, b) := (AttestationAt(before, id).value, AttestationAt(after, id).value);
       && a.status == A.Pending && a.challenger.None? && b.challenger == challenger && challenger.Some?
       && after.w.now <= b.challengeEnd
  }

  /** A pending attestation that nobody had challenged was confirmed after its window had closed. */
  ghost predicate ConfirmMoment(before: Chain, after: Chain, id: A.AttestationId) {
    && AttestationAt(before, id).Some? && AttestationAt(after, id).Some?
    && var (a, b) := (AttestationAt(before, id).value, AttestationAt(after, id).value);
       a.status == A.Pending && a.challenger.None? && b == a.(status := A.Confirmed) && b.challengeEnd < after.w.now
  }

  /** One event of the run was the challenge of this attestation by this challenger. */
  ghost predicate WasChallenged(c: Config, k: Chain, trace: seq<Event>, id: A.AttestationId, challenger: Option<AccountId>) {
    trace != [] &&
    var init := trace[..|trace| - 1];
    WasChallenged(c, k, init, id, challenger) || ChallengeMoment(After(c, k, init), After(c, k, trace), id, challenger)
  }

  /** One event of the run was the confirmation of this attestation. */
  ghost predicate WasConfirmed(c: Config, k: Chain, trace: seq<Event>, id: A.AttestationId) {
    trace != [] &&
    var init := trace[..|trace| - 1];
    WasConfirmed(c, k, init, id) || ConfirmMoment(After(c, k, init), After(c, k, trace), id)
  }

  lemma MomentOf(c: Config, k: Chain, ev: Event, id: A.AttestationId)
    requires Sound(c, k) && Legal(k, ev) && AttestationAt(Next(c, k, ev), id).Some?
    ensures var b := AttestationAt(Next(c, k, ev), id).value;
            && (b.challenger.Some? ==> ChallengeMoment(k, Next(c, k, ev), id, b.challenger)
                                       || (AttestationAt(k, id).Some? && AttestationAt(k, id).value.challenger == b.challenger))
            && (b.status == A.Confirmed ==> ConfirmMoment(k, Next(c, k, ev), id) || AttestationAt(k, id) == Some(b))
  {
    OneAttestationStep(c, k, ev, id);
  }

  /**
    Whatever a run ends with: a challenger on record challenged in time, and a
    confirmed attestation was confirmed after its window without a challenge.
  */
  lemma {:induction false} AttestationHistory(c: Config, k: Chain, trace: seq<Event>, id: A.AttestationId)
    requires Sound(c, k) && LegalRun(c, k, trace) && AttestationAt(After(c, k, trace), id).Some?
    requires AttestationAt(k, id).None? || (AttestationAt(k, id).value.challenger.None? && AttestationAt(k, id).value.status != A.Confirmed)
    ensures var end := AttestationAt(After(c, k, trace), id).value;
            && (end.challenger.Some? ==> WasChallenged(c, k, trace, id, end.challenger))
            && (end.status == A.Confirmed ==> WasConfirmed(c, k, trace, id))
  {
    if trace != [] {
      var init := trace[..|trace| - 1];
      RunSound(c, k, init);
      MomentOf(c, After(c, k, init), trace[|trace| - 1], id);
      if AttestationAt(After(c, k, init), id).Some? {
        AttestationHistory(c, k, init, id);
      }
    }
  }

  /** A verdict on a challenge presupposes a challenge made in time; a confirmation excludes one. */
  lemma VerdictHistory(c: Config, ledger: Ledger, now: BlockNumber, trace: seq<Event>, id: A.AttestationId)
    requires LegalRun(c, Genesis(ledger, now), trace) && AttestationAt(After(c, Genesis(ledger, now), trace), id).Some?
    ensures var end := AttestationAt(After(c, Genesis(ledger, now), trace), id).value;
            && (end.status in {A.Slashed, A.Defended} ==> WasChallenged(c, Genesis(ledger, now), trace, id, end.challenger))
            && (end.status == A.Confirmed ==> end.challenger.None? && WasConfirmed(c, Genesis(ledger, now), trace, id))
  {
    GenesisSound(c, ledger, now);
    RunSound(c, Genesis(ledger, now), trace);
    AttestationHistory(c, Genesis(ledger, now), trace, id);
  }
}
