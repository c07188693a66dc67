/**
  The scheduler, the attestation pallet and the native currency as a chain
  runs them: calls to either pallet in any order, the block hook once per
  block, and other pallets working on the same currency in between.
*/
module Chain {
  import opened Prelude
  import opened Currency
  import opened SchedulerSpec
  import opened SchedulerInvariant
  import opened SchedulerSteps
  import opened SchedulerHook
  import opened SchedulerCalls
  import opened SchedulerLedger
  import opened SchedulerBooks
  import opened SchedulerStatistics
  import opened SchedulerSweep
  import A = AttestationSpec
  import AP = AttestationProofs

  datatype Chain = Chain(s: State, w: World)

  datatype Event =
    | Dispatch(call: Call)
    | Attest(acall: AP.Call)
    | NewBlock(order: seq<PoolId>)
    | Elsewhere(ledger: Ledger)

  function Next(c: Config, k: Chain, ev: Event): Chain {
    match ev
    case Dispatch(call) =>
      var step := Exec(c, k.s, k.w, call);
      Chain(step.s, step.w)
    case Attest(acall) =>
      var step := AP.Exec(c.attestation, k.w.att, k.w.ledger, k.w.now, acall);
      Chain(k.s, k.w.(att := step.s, ledger := step.l))
    case NewBlock(order) =>
      if k.w.now == U32_MAX then k
      else
        var after := OnInitialize(c, k.s, k.w.(now := k.w.now + 1), order);
        Chain(after.0, after.1)
    case Elsewhere(ledger) => Chain(k.s, k.w.(ledger := ledger))
  }

  lemma NewBlockShape(c: Config, k: Chain, order: seq<PoolId>)
    requires k.w.now < U32_MAX
    ensures var after := OnInitialize(c, k.s, k.w.(now := k.w.now + 1), order);
            Next(c, k, NewBlock(order)).s == after.0 && Next(c, k, NewBlock(order)).w == after.1
  {
  }

  /** The hook scans the task lists in some order of the storage. */
  ghost predicate Legal(k: Chain, ev: Event) {
    ev.NewBlock? ==> Enumerates(ev.order, k.s.poolTasks.Keys)
  }

  ghost predicate Sound(c: Config, k: Chain) {
    && Inv(c, k.s) && Mirrored(k.s.pools, k.s.minerReputation) && AP.Inv(k.w.att)
    && Timely(c, k.s.tasks, k.s.proofSubmittedAt, k.w.now)
  }

  // ---- One dispatch.

  lemma VerifyAttests(c: Config, s: State, w: World, who: AccountId, t: TaskId, result: bool)
    requires Inv(c, s) && AP.Inv(w.att) && VerifyProof(c, s, w, who, t, result).r.Ok?
    ensures var w' := VerifyProof(c, s, w, who, t, result).w;
            AP.Inv(w'.att) && AP.Extends(w.att, w'.att) && w'.now == w.now
  {
    VerifyShape(c, s, w, who, t, result);
    ClockStill(c, s, w, t, s.tasks[t].poolId);
    if result {
      ApproveAttests(c, s, w, t);
    } else {
      FailAttests(c, s, w, t);
    }
  }

  lemma DisputeAttests(c: Config, s: State, w: World, who: AccountId, t: TaskId)
    ensures var w' := DisputeVerification(c, s, w, who, t).w;
            w' == w.(ledger := w'.ledger)
  {
  }

  lemma OthersAttest(c: Config, s: State, w: World, call: Call)
    requires !call.DoVerifyProof? && !call.DoDispute?
    ensures var w' := Exec(c, s, w, call).w;
            w' == w.(ledger := w'.ledger)
  {
  }

  lemma ExecAttests(c: Config, s: State, w: World, call: Call)
    requires Inv(c, s) && AP.Inv(w.att)
    ensures var w' := Exec(c, s, w, call).w;
            AP.Inv(w'.att) && AP.Extends(w.att, w'.att) && w'.now == w.now
  {
    if Exec(c, s, w, call).r.Err? {
      ErrorsChangeNothing(c, s, w, call);
    } else if call.DoVerifyProof? {
      VerifyAttests(c, s, w, call.who, call.task, call.result);
    } else if call.DoDispute? {
      DisputeAttests(c, s, w, call.who, call.task);
    } else {
      OthersAttest(c, s, w, call);
    }
  }

  /** Within a block nothing grows older: what is new is dated now, and the rest was on time already. */
  lemma TimelyKept(c: Config, s: State, s': State, now: BlockNumber)
    requires Evolves(s, s', now) && Timely(c, s.tasks, s.proofSubmittedAt, now)
    ensures Timely(c, s'.tasks, s'.proofSubmittedAt, now)
  {
    forall t | t in s'.tasks && !IsTerminal(s'.tasks[t].status)
      ensures now <= s'.tasks[t].submittedAt + c.taskTimeout
    {
      if t in s.tasks {
        assert TaskMoves(s.tasks[t], s'.tasks[t]);
      }
    }
  }

  // ---- One event.

  lemma DispatchSound(c: Config, k: Chain, call: Call)
    requires Sound(c, k)
    ensures Sound(c, Next(c, k, Dispatch(call)))
  {
    ExecKeeps(c, k.s, k.w, call);
    ExecMirrored(c, k.s, k.w, call);
    ExecAttests(c, k.s, k.w, call);
    ExecEvolves(c, k.s, k.w, call);
    TimelyKept(c, k.s, Exec(c, k.s, k.w, call).s, k.w.now);
  }

  lemma HookSound(c: Config, s: State, w: World, order: seq<PoolId>)
    requires Inv(c, s) && Mirrored(s.pools, s.minerReputation) && AP.Inv(w.att) && Enumerates(order, s.poolTasks.Keys)
    ensures Sound(c, Chain(OnInitialize(c, s, w, order).0, OnInitialize(c, s, w, order).1))
  {
    OnInitializeKeeps(c, s, w, order);
    HookMirrored(c, s, w, order);
    HookAttests(c, s, w, order);
  }

  lemma NewBlockSound(c: Config, k: Chain, order: seq<PoolId>)
    requires Sound(c, k) && Enumerates(order, k.s.poolTasks.Keys)
    ensures Sound(c, Next(c, k, NewBlock(order)))
  {
    if k.w.now < U32_MAX {
      NewBlockShape(c, k, order);
      HookSound(c, k.s, k.w.(now := k.w.now + 1), order);
    }
  }

  lemma NextSound(c: Config, k: Chain, ev: Event)
    requires Sound(c, k) && Legal(k, ev)
    ensures Sound(c, Next(c, k, ev))
  {
    match ev
    case Dispatch(call) => DispatchSound(c, k, call);
    case Attest(acall) => AP.ExecKeeps(c.attestation, k.w.att, k.w.ledger, k.w.now, acall);
    case NewBlock(order) => NewBlockSound(c, k, order);
    case Elsewhere(_) =>
  }

  lemma HookClock(c: Config, s: State, w: World, order: seq<PoolId>)
    requires Inv(c, s) && Enumerates(order, s.poolTasks.Keys)
    ensures OnInitialize(c, s, w, order).1.now == w.now
  {
    OnInitializeKeeps(c, s, w, order);
  }

  lemma NewBlockEvolves(c: Config, k: Chain, order: seq<PoolId>)
    requires Inv(c, k.s) && Enumerates(order, k.s.poolTasks.Keys)
    ensures var k' := Next(c, k, NewBlock(order));
            Evolves(k.s, k'.s, k'.w.now) && k.w.now <= k'.w.now
  {
    if k.w.now == U32_MAX {
      StillEvolves(k.s, k.w.now);
    } else {
      var w := k.w.(now := k.w.now + 1);
      NewBlockShape(c, k, order);
      HookClock(c, k.s, w, order);
      HookEvolves(c, k.s, w, order);
    }
  }

  /** Records, escrows and pools move only as one dispatch or one hook may move them. */
  lemma NextEvolves(c: Config, k: Chain, ev: Event)
    requires Sound(c, k) && Legal(k, ev)
    ensures Evolves(k.s, Next(c, k, ev).s, Next(c, k, ev).w.now)
  {
    match ev
    case Dispatch(call) =>
      ExecAttests(c, k.s, k.w, call);
      ExecEvolves(c, k.s, k.w, call);
    case NewBlock(order) => NewBlockEvolves(c, k, order);
    case Attest(_) => StillEvolves(k.s, k.w.now);
    case Elsewhere(_) => StillEvolves(k.s, k.w.now);
  }

  lemma ExtendsEvolves(s: A.State, s': A.State, now: BlockNumber)
    requires AP.Extends(s, s')
    ensures AP.Evolves(s, s', now)
  {
  }

  lemma NewBlockAttests(c: Config, k: Chain, order: seq<PoolId>)
    requires Inv(c, k.s) && AP.Inv(k.w.att) && Enumerates(order, k.s.poolTasks.Keys)
    ensures var k' := Next(c, k, NewBlock(order));
            AP.Evolves(k.w.att, k'.w.att, k'.w.now)
  {
    var k' := Next(c, k, NewBlock(order));
    if k.w.now < U32_MAX {
      NewBlockShape(c, k, order);
      HookAttests(c, k.s, k.w.(now := k.w.now + 1), order);
    }
    ExtendsEvolves(k.w.att, k'.w.att, k'.w.now);
  }

  /** Attestations move only as the challenge protocol allows. */
  lemma NextAttests(c: Config, k: Chain, ev: Event)
    requires Sound(c, k) && Legal(k, ev)
    ensures AP.Evolves(k.w.att, Next(c, k, ev).w.att, Next(c, k, ev).w.now)
  {
    match ev
    case Dispatch(call) =>
      ExecAttests(c, k.s, k.w, call);
      ExtendsEvolves(k.w.att, Next(c, k, ev).w.att, Next(c, k, ev).w.now);
    case Attest(acall) => AP.ExecKeeps(c.attestation, k.w.att, k.w.ledger, k.w.now, acall);
    case NewBlock(order) => NewBlockAttests(c, k, order);
    case Elsewhere(_) =>
  }

  // ---- The books over one event.

  /** The event is not a dispute over a claimed escrow, and other pallets leave what is owed in reserve. */
  ghost predicate Honours(k: Chain, ev: Event) {
    && (ev.Dispatch? ==> !DisputesClaimed(k.s, ev.call))
    && (ev.Elsewhere? ==> forall who :: Reserved(ev.ledger, who) >= TotalOwed(k.s, k.w, who))
  }

  lemma AttestBooks(c: Config, k: Chain, acall: AP.Call)
    requires BooksOk(c, k.s, k.w)
    ensures var k' := Next(c, k, Attest(acall));
            BooksOk(c, k'.s, k'.w) && Balanced(k.s, k.w, k'.s, k'.w)
  {
    AP.ExecKeeps(c.attestation, k.w.att, k.w.ledger, k.w.now, acall);
    var k' := Next(c, k, Attest(acall));
    forall who
      ensures Surplus(k'.s, k'.w, who) == Surplus(k.s, k.w, who)
    {
      assert Surplus(k.s, k.w, who) >= 0;
    }
    StaysCovered(k.s, k.w, k'.s, k'.w);
  }

  /** The books do not look at the clock. */
  lemma ClocklessBooks(c: Config, s: State, w: World, now: BlockNumber)
    requires BooksOk(c, s, w)
    ensures BooksOk(c, s, w.(now := now)) && Balanced(s, w, s, w.(now := now))
  {
    StaysCovered(s, w, s, w.(now := now));
  }

  lemma LaterBooks(c: Config, s: State, w: World, now: BlockNumber, s': State, w': World)
    requires Balanced(s, w, s, w.(now := now)) && KeepsBooks(c, s, w.(now := now), s', w')
    ensures BooksOk(c, s', w') && Balanced(s, w, s', w')
  {
    BalancedTrans(s, w, s, w.(now := now), s', w');
  }

  lemma NewBlockBooks(c: Config, k: Chain, order: seq<PoolId>)
    requires Sound(c, k) && BooksOk(c, k.s, k.w) && Enumerates(order, k.s.poolTasks.Keys)
    ensures var k' := Next(c, k, NewBlock(order));
            BooksOk(c, k'.s, k'.w) && Balanced(k.s, k.w, k'.s, k'.w)
  {
    if k.w.now < U32_MAX {
      var now: BlockNumber := k.w.now + 1;
      ClocklessBooks(c, k.s, k.w, now);
      HookBooks(c, k.s, k.w.(now := now), order);
      var (s', w') := OnInitialize(c, k.s, k.w.(now := now), order);
      LaterBooks(c, k.s, k.w, now, s', w');
    } else {
      Unchanged(c, k.s, k.w);
    }
  }

  /** Reserves and obligations move together; only other pallets move the difference. */
  lemma NextBooks(c: Config, k: Chain, ev: Event)
    requires Sound(c, k) && Legal(k, ev) && BooksOk(c, k.s, k.w) && Honours(k, ev)
    ensures var k' := Next(c, k, ev);
            BooksOk(c, k'.s, k'.w) && (!ev.Elsewhere? ==> Balanced(k.s, k.w, k'.s, k'.w))
  {
    match ev
    case Dispatch(call) => ExecBooks(c, k.s, k.w, call);
    case Attest(acall) => AttestBooks(c, k, acall);
    case NewBlock(order) => NewBlockBooks(c, k, order);
    case Elsewhere(ledger) => OtherPallets(c, k, ledger);
  }

  lemma OtherPallets(c: Config, k: Chain, ledger: Ledger)
    requires BooksOk(c, k.s, k.w) && forall who :: Reserved(ledger, who) >= TotalOwed(k.s, k.w, who)
    ensures BooksOk(c, k.s, k.w.(ledger := ledger))
  {
    var w := k.w.(ledger := ledger);
    forall who
      ensures Surplus(k.s, w, who) >= 0
    {
      assert TotalOwed(k.s, w, who) == TotalOwed(k.s, k.w, who);
    }
  }
}
