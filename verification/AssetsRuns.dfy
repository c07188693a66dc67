/** Whole runs of one asset id: agreement in every reachable state, where every token went, and the way to the end. */
module AssetsRuns {
  import opened Prelude
  import opened AssetsSpec
  import opened AssetsDebits
  import opened AssetsInvariant
  import opened AssetsSteps
  import opened AssetsDestruction
  import opened AssetsMinimum

  /** A call that returns an error leaves storage as it was. */
  lemma ErrorsChangeNothing(c: Config, e: Env, s: State, call: Call)
    requires Exec(c, e, s, call).r.Err?
    ensures Exec(c, e, s, call).s == s
  {
  }

  // ---- Where tokens come from and go to.

  /** Tokens minted by a call that succeeds. */
  function Minted(call: Call): nat {
    if call.DoMint? then call.amount else 0
  }

  /** Tokens burnt by a call that succeeds; the call reports them. */
  function Burnt(c: Config, e: Env, s: State, call: Call): nat
    requires Exec(c, e, s, call).r.Ok?
  {
    if call.DoBurn? then Exec(c, e, s, call).r.value else 0
  }

  /** Tokens that leave accounts and locks without leaving the supply. */
  ghost function Lost(c: Config, e: Env, s: State, call: Call): nat {
    match call
    case DoRefund(who, _) => if who in s.accounts then s.accounts[who].balance else 0
    case DoForceRemoveLock(target, id) => if id in LocksOf(s.locks, target) then LocksOf(s.locks, target)[id].balance else 0
    case DoDestroyAccounts(holders) => Estates(s, Batch(c, holders))
    case DoBurn(_, target, amount) =>
      if amount > 0 && s.details.Some? && target in s.accounts && Wiped(e, s.details.value, s.accounts[target], target)
      then s.accounts[target].balance else 0
    case _ => 0
  }

  /**
    What a call must meet for the maps to stay in agreement: the counter of
    approvals is not full when a new one is made, an id is not reused over
    locks that an earlier asset left behind, and the iteration orders are
    those of the storage.
  */
  ghost predicate Sane(s: State, call: Call) {
    match call
    case DoApprove(owner, delegate, _) => s.details.Some? && (owner, delegate) !in s.approvals ==> s.details.value.approvals < U32_MAX
    case DoCreate(_, _, _) => s.details.None? ==> s.locks == map[]
    case DoForceCreate(_, _, _) => s.details.None? ==> s.locks == map[]
    case DoDestroyAccounts(holders) => Enumerates(holders, s.accounts.Keys)
    case DoDestroyApprovals(keys) => Enumerates(keys, s.approvals.Keys)
    case _ => true
  }

  predicate EditsRecord(call: Call) {
    call.DoStartDestroy? || call.DoFreezeAsset? || call.DoThawAsset? || call.DoTransferOwnership? || call.DoSetTeam? ||
    call.DoSetMinBalance? || call.DoForceAssetStatus?
  }

  lemma RecordShape(c: Config, e: Env, s: State, call: Call)
    requires EditsRecord(call) && Exec(c, e, s, call).r.Ok?
    ensures var s' := Exec(c, e, s, call).s;
            && s.details.Some? && s'.details.Some? && s' == s.(details := s'.details)
            && s'.details.value.supply == s.details.value.supply && s'.details.value.accounts == s.details.value.accounts
            && s'.details.value.sufficients == s.details.value.sufficients && s'.details.value.approvals == s.details.value.approvals
  {
  }

  /** Calls that move tokens between accounts and locks, or in and out of the supply. */
  predicate MovesTokens(call: Call) {
    call.DoMint? || call.DoBurn? || call.DoTransfer? || call.DoTransferApproved? || call.DoTransferAndLock? ||
    call.DoUnlock? || call.DoForceRemoveLock?
  }

  lemma TokensKeep(c: Config, e: Env, s: State, call: Call)
    requires Inv(s) && s.details.Some? && MovesTokens(call) && Exec(c, e, s, call).r.Ok?
    ensures KeepsBut(s, Exec(c, e, s, call).s, Lost(c, e, s, call))
  {
    match call
    case DoMint(who, beneficiary, amount) => MintKeeps(e, s, beneficiary, amount, Some(who));
    case DoBurn(who, target, amount) => BurnOrWipe(e, s, target, amount, Some(who));
    case DoTransfer(source, dest, amount, needAdmin, keepAlive) =>
      TransferKeeps(e, s, source, dest, amount, needAdmin, TransferFlags(keepAlive, false, false));
    case DoTransferApproved(owner, delegate, dest, amount) => TransferApprovedKeeps(e, s, owner, delegate, dest, amount);
    case DoTransferAndLock(source, dest, amount, duration, keepAlive) =>
      TransferLockedKeeps(c, e, s, source, dest, amount, duration, None, TransferFlags(keepAlive, false, false));
    case DoUnlock(who, id) => UnlockKeeps(e, s, who, id);
    case DoForceRemoveLock(target, id) => ForceRemoveLockKeeps(s, target, id);
  }

  predicate EditsHolder(call: Call) {
    call.DoTouch? || call.DoRefund? || call.DoRefundOther? || call.DoSetAccountStatus?
  }

  lemma HoldersKeep(c: Config, e: Env, s: State, call: Call)
    requires Inv(s) && s.details.Some? && EditsHolder(call) && Exec(c, e, s, call).r.Ok?
    ensures KeepsBut(s, Exec(c, e, s, call).s, Lost(c, e, s, call))
  {
    match call
    case DoTouch(who, depositor, checkDepositor) => TouchKeeps(c, e, s, who, depositor, checkDepositor);
    case DoRefund(who, allowBurn) => RefundKeeps(s, who, allowBurn);
    case DoRefundOther(target, who) => RefundOtherKeeps(s, target, who);
    case DoSetAccountStatus(who, target, status) => StatusKeeps(s, who, target, status);
  }

  /** A call on an asset that exists before and after: agreement, and the slack moves by what was lost. */
  lemma LiveKeeps(c: Config, e: Env, s: State, call: Call)
    requires Inv(s) && Sane(s, call) && s.details.Some? && !call.DoFinishDestroy? && Exec(c, e, s, call).r.Ok?
    ensures KeepsBut(s, Exec(c, e, s, call).s, Lost(c, e, s, call))
  {
    if MovesTokens(call) {
      TokensKeep(c, e, s, call);
    } else if EditsRecord(call) {
      RecordShape(c, e, s, call);
      RecordKeeps(s, Exec(c, e, s, call).s.details.value);
    } else if EditsHolder(call) {
      HoldersKeep(c, e, s, call);
    } else {
      match call
      case DoApprove(owner, delegate, amount) => ApproveKeeps(c, e, s, owner, delegate, amount);
      case DoCancelApproval(owner, delegate, _) => DropApprovalKeeps(s, (owner, delegate));
      case DoDestroyAccounts(holders) => DestroyAccountsKeeps(c, s, holders);
      case DoDestroyApprovals(keys) => DestroyApprovalsKeeps(c, s, keys);
      case _ =>
    }
  }

  lemma BurnOrWipe(e: Env, s: State, target: AccountId, amount: Balance, checkAdmin: Option<AccountId>)
    requires Inv(s) && s.details.Some? && Burn(e, s, target, amount, checkAdmin, DebitFlags(false, true)).r.Ok?
    ensures KeepsBut(s, Burn(e, s, target, amount, checkAdmin, DebitFlags(false, true)).s,
                     if amount > 0 && target in s.accounts && Wiped(e, s.details.value, s.accounts[target], target)
                     then s.accounts[target].balance else 0)
  {
    if amount > 0 {
      BurnShape(e, s, target, amount, checkAdmin, DebitFlags(false, true));
    }
    if amount > 0 && Wiped(e, s.details.value, s.accounts[target], target) {
      BurnWipes(e, s, target, amount, checkAdmin);
    } else {
      BurnKeeps(e, s, target, amount, checkAdmin);
    }
  }

  lemma BurnSupply(e: Env, s: State, target: AccountId, amount: Balance, checkAdmin: Option<AccountId>)
    requires Inv(s) && Burn(e, s, target, amount, checkAdmin, DebitFlags(false, true)).r.Ok?
    ensures var step := Burn(e, s, target, amount, checkAdmin, DebitFlags(false, true));
            s.details.Some? && step.s.details.Some? && step.s.details.value.supply == s.details.value.supply - step.r.value
  {
    if amount > 0 {
      var f := DebitFlags(false, true);
      BurnShape(e, s, target, amount, checkAdmin, f);
      BalanceBelowSupply(s, target);
      DebitBounds(e, s.details, s.accounts, target, amount, f);
    }
  }

  lemma MintSupply(e: Env, s: State, beneficiary: AccountId, amount: Balance, checkIssuer: Option<AccountId>)
    requires s.details.Some? && Mint(e, s, beneficiary, amount, checkIssuer).r.Ok?
    ensures var s' := Mint(e, s, beneficiary, amount, checkIssuer).s;
            s'.details.Some? && s'.details.value.supply == s.details.value.supply + amount
  {
  }

  /** Transfers as dispatched never burn dust. */
  lemma TransferSupply(e: Env, s: State, source: AccountId, dest: AccountId, amount: Balance, needAdmin: Option<AccountId>, keepAlive: bool)
    requires s.details.Some?
    ensures var s' := Transfer(e, s, source, dest, amount, needAdmin, TransferFlags(keepAlive, false, false)).s;
            s'.details.Some? && s'.details.value.supply == s.details.value.supply
  {
  }

  /** Without dust burning nothing is burnt, and a debit leaves the supply alone. */
  lemma ParkedSupply(e: Env, s: State, source: AccountId, dest: AccountId, amount: Balance, f: TransferFlags)
    requires !f.burnDust && PrepTransfer(e, s.details, s.accounts, source, dest, amount, f).Ok?
    ensures Parked(s.details.value, s.accounts, source, PrepTransfer(e, s.details, s.accounts, source, dest, amount, f).value).0.supply ==
            s.details.value.supply
  {
  }

  lemma ParkSupply(c: Config, e: Env, s: State, source: AccountId, dest: AccountId, amount: Balance, duration: BlockNumber, keepAlive: bool)
    requires s.details.Some?
    ensures var s' := TransferAndLock(c, e, s, source, dest, amount, duration, keepAlive).s;
            s'.details.Some? && s'.details.value.supply == s.details.value.supply
  {
    var f := TransferFlags(keepAlive, false, false);
    if PrepTransfer(e, s.details, s.accounts, source, dest, amount, f).Ok? {
      ParkedSupply(e, s, source, dest, amount, f);
    }
  }

  lemma UnlockSupply(e: Env, s: State, who: AccountId, id: u32)
    requires s.details.Some?
    ensures var s' := Unlock(e, s, who, id).s;
            s'.details.Some? && s'.details.value.supply == s.details.value.supply
  {
  }

  lemma TokensSupply(c: Config, e: Env, s: State, call: Call)
    requires Inv(s) && s.details.Some? && MovesTokens(call) && Exec(c, e, s, call).r.Ok?
    ensures var s' := Exec(c, e, s, call).s;
            s'.details.Some? && s'.details.value.supply == s.details.value.supply + Minted(call) - Burnt(c, e, s, call)
  {
    match call
    case DoMint(who, beneficiary, amount) => MintSupply(e, s, beneficiary, amount, Some(who));
    case DoBurn(who, target, amount) => BurnSupply(e, s, target, amount, Some(who));
    case DoTransfer(source, dest, amount, needAdmin, keepAlive) =>
      TransferSupply(e, s, source, dest, amount, needAdmin, keepAlive);
    case DoTransferApproved(owner, delegate, dest, amount) => TransferSupply(e, s, owner, dest, amount, None, false);
    case DoTransferAndLock(source, dest, amount, duration, keepAlive) => ParkSupply(c, e, s, source, dest, amount, duration, keepAlive);
    case DoUnlock(who, id) => UnlockSupply(e, s, who, id);
    case DoForceRemoveLock(_, _) =>
  }

  lemma OtherSupply(c: Config, e: Env, s: State, call: Call)
    requires s.details.Some? && Exec(c, e, s, call).r.Ok?
    requires call.DoTouch? || call.DoRefund? || call.DoRefundOther? || call.DoApprove? || call.DoCancelApproval? || call.DoSetAccountStatus?
    ensures var s' := Exec(c, e, s, call).s;
            s'.details.Some? && s'.details.value.supply == s.details.value.supply
  {
  }

  /** The supply moves by what is minted and burnt and by nothing else. */
  lemma SupplyMoves(c: Config, e: Env, s: State, call: Call)
    requires Inv(s) && Sane(s, call) && s.details.Some? && !call.DoFinishDestroy? && Exec(c, e, s, call).r.Ok?
    ensures var s' := Exec(c, e, s, call).s;
            s'.details.Some? && s'.details.value.supply == s.details.value.supply + Minted(call) - Burnt(c, e, s, call)
  {
    if MovesTokens(call) {
      TokensSupply(c, e, s, call);
    } else if EditsRecord(call) {
      RecordShape(c, e, s, call);
    } else if call.DoDestroyAccounts? {
      DestroyAccountsKeeps(c, s, call.holders);
    } else if call.DoDestroyApprovals? {
      DestroyApprovalsKeeps(c, s, call.keys);
    } else if !call.DoCreate? && !call.DoForceCreate? {
      OtherSupply(c, e, s, call);
    }
  }

  /** Any call, on any asset id, used or not. */
  lemma ExecKeeps(c: Config, e: Env, s: State, call: Call)
    requires Inv(s) && Sane(s, call)
    ensures Inv(Exec(c, e, s, call).s)
  {
    if Exec(c, e, s, call).r.Err? {
      ErrorsChangeNothing(c, e, s, call);
    } else if call.DoFinishDestroy? {
      FinishKeeps(e, s, call.survivors);
    } else if s.details.Some? {
      LiveKeeps(c, e, s, call);
    } else {
      VacantKeeps(c, e, s, call);
    }
  }

  /** On an unused id only creation, lock removal and no-ops succeed. */
  lemma VacantKeeps(c: Config, e: Env, s: State, call: Call)
    requires Inv(s) && Sane(s, call) && s.details.None? && Exec(c, e, s, call).r.Ok?
    ensures Inv(Exec(c, e, s, call).s)
  {
    match call
    case DoCreate(who, admin, minBalance) => FreshIff(s, FreshDetails(who, admin, c.assetDeposit, minBalance, false));
    case DoForceCreate(owner, isSufficient, minBalance) => FreshIff(s, FreshDetails(owner, owner, 0, minBalance, isSufficient));
    case DoForceRemoveLock(target, id) => ForceRemoveLockKeeps(s, target, id);
    case _ => VacantNoop(c, e, s, call);
  }

  lemma VacantNoop(c: Config, e: Env, s: State, call: Call)
    requires s.details.None? && Exec(c, e, s, call).r.Ok?
    requires !call.DoCreate? && !call.DoForceCreate? && !call.DoForceRemoveLock?
    ensures Exec(c, e, s, call).s == s
  {
  }

  // ---- The two side conditions are exact.

  /** A new approval at a full counter is the one thing that makes the counter wrong. */
  lemma ApprovalCountIff(c: Config, e: Env, s: State, owner: AccountId, delegate: AccountId, amount: Balance)
    requires Inv(s) && Approve(c, e, s, owner, delegate, amount).r.Ok?
    ensures Inv(Approve(c, e, s, owner, delegate, amount).s) <==> (owner, delegate) in s.approvals || s.details.value.approvals < U32_MAX
  {
    var s' := Approve(c, e, s, owner, delegate, amount).s;
    SizeUpdate(s.approvals, (owner, delegate), s'.approvals[(owner, delegate)]);
    if (owner, delegate) in s.approvals || s.details.value.approvals < U32_MAX {
      ApproveKeeps(c, e, s, owner, delegate, amount);
    }
  }

  // ---- Runs.

  datatype Event = Event(e: Env, call: Call)

  function After(c: Config, s: State, trace: seq<Event>): State {
    if trace == [] then s else Exec(c, trace[|trace| - 1].e, After(c, s, trace[..|trace| - 1]), trace[|trace| - 1].call).s
  }

  ghost predicate SaneRun(c: Config, s: State, trace: seq<Event>) {
    trace == [] ||
    var init := trace[..|trace| - 1];
    SaneRun(c, s, init) && Sane(After(c, s, init), trace[|trace| - 1].call)
  }

  /** Every reachable state is in agreement. */
  lemma {:induction false} RunKeeps(c: Config, s: State, trace: seq<Event>)
    requires Inv(s) && SaneRun(c, s, trace)
    ensures Inv(After(c, s, trace))
  {
    if trace != [] {
      var init, last := trace[..|trace| - 1], trace[|trace| - 1];
      RunKeeps(c, s, init);
      ExecKeeps(c, last.e, After(c, s, init), last.call);
    }
  }

  /** No minimum that root sets during the run is out of reach of a holder of that moment. */
  ghost predicate ReachableRun(c: Config, s: State, trace: seq<Event>) {
    trace == [] ||
    var init := trace[..|trace| - 1];
    ReachableRun(c, s, init) && Reachable(After(c, s, init), trace[|trace| - 1].call)
  }

  /** Every reachable state has all its unbacked holders at the minimum or above. */
  lemma {:induction false} RunMinimal(c: Config, s: State, trace: seq<Event>)
    requires Inv(s) && AllMinimal(s) && SaneRun(c, s, trace) && ReachableRun(c, s, trace)
    ensures AllMinimal(After(c, s, trace))
  {
    if trace != [] {
      var init, last := trace[..|trace| - 1], trace[|trace| - 1];
      RunMinimal(c, s, init);
      RunKeeps(c, s, init);
      ExecMinimal(c, last.e, After(c, s, init), last.call);
    }
  }

  /** The asset exists all along: the run stays within one lifetime of its id. */
  predicate OneLife(c: Config, s: State, trace: seq<Event>) {
    After(c, s, trace).details.Some? && (trace == [] || OneLife(c, s, trace[..|trace| - 1]))
  }

  lemma NoFinish(c: Config, e: Env, s: State, call: Call)
    requires Exec(c, e, s, call).r.Ok? && Exec(c, e, s, call).s.details.Some?
    ensures !call.DoFinishDestroy?
  {
  }

  /** Net effect on the supply of a run within one lifetime of the id. */
  ghost function NetMinted(c: Config, s: State, trace: seq<Event>): int {
    if trace == [] then 0
    else
      var (s1, last) := (After(c, s, trace[..|trace| - 1]), trace[|trace| - 1]);
      NetMinted(c, s, trace[..|trace| - 1]) +
      if Exec(c, last.e, s1, last.call).r.Ok? then Minted(last.call) - Burnt(c, last.e, s1, last.call) else 0
  }

  ghost function TotalLost(c: Config, s: State, trace: seq<Event>): nat {
    if trace == [] then 0
    else
      var (s1, last) := (After(c, s, trace[..|trace| - 1]), trace[|trace| - 1]);
      TotalLost(c, s, trace[..|trace| - 1]) + if Exec(c, last.e, s1, last.call).r.Ok? then Lost(c, last.e, s1, last.call) else 0
  }

  lemma OneMoreEvent(c: Config, e: Env, s: State, call: Call)
    requires Inv(s) && Sane(s, call) && s.details.Some? && Exec(c, e, s, call).s.details.Some?
    ensures var step := Exec(c, e, s, call);
            && step.s.details.value.supply == s.details.value.supply + (if step.r.Ok? then Minted(call) - Burnt(c, e, s, call) else 0)
            && SlackOf(step.s) == SlackOf(s) + if step.r.Ok? then Lost(c, e, s, call) else 0
  {
    if Exec(c, e, s, call).r.Ok? {
      NoFinish(c, e, s, call);
      SupplyMoves(c, e, s, call);
      LiveKeeps(c, e, s, call);
    } else {
      ErrorsChangeNothing(c, e, s, call);
    }
  }

  /**
    Conservation over a lifetime: what is in accounts and locks, plus what was
    lost from them, is what was there and what was minted less what was burnt;
    and the supply is never less than what is in accounts and locks.
  */
  lemma {:induction false} RunConserves(c: Config, s: State, trace: seq<Event>)
    requires Inv(s) && SaneRun(c, s, trace) && OneLife(c, s, trace)
    ensures s.details.Some?
    ensures var s' := After(c, s, trace);
            && s'.details.value.supply == s.details.value.supply + NetMinted(c, s, trace)
            && SlackOf(s') == SlackOf(s) + TotalLost(c, s, trace)
            && Held(s'.accounts) + LockedUp(s'.locks) + TotalLost(c, s, trace) ==
               Held(s.accounts) + LockedUp(s.locks) + NetMinted(c, s, trace)
            && Held(s'.accounts) + LockedUp(s'.locks) <= s'.details.value.supply
  {
    RunKeeps(c, s, trace);
    if trace != [] {
      var init, last := trace[..|trace| - 1], trace[|trace| - 1];
      RunConserves(c, s, init);
      RunKeeps(c, s, init);
      OneMoreEvent(c, last.e, After(c, s, init), last.call);
    }
  }

  // ---- Destruction is one way.

  ghost predicate Shrinks(s: State, s': State) {
    s'.accounts.Keys <= s.accounts.Keys && s'.approvals.Keys <= s.approvals.Keys && s'.locks.Keys <= s.locks.Keys
  }

  lemma DestroyCallsShrink(c: Config, s: State, call: Call)
    requires Inv(s) && Sane(s, call) && s.details.Some? && s.details.value.status == Destroying
    requires call.DoDestroyAccounts? || call.DoDestroyApprovals?
    ensures var s' := Exec(c, Env(0, {}, map[], true, true), s, call).s;
            s'.details.Some? && s'.details.value.status == Destroying && Shrinks(s, s')
  {
    match call
    case DoDestroyAccounts(holders) =>
      DestroyAccountsKeeps(c, s, holders);
      BatchFacts(c, holders, s.accounts.Keys);
      DrainAccountsShape(s, Batch(c, holders));
    case DoDestroyApprovals(keys) =>
      DestroyApprovalsKeeps(c, s, keys);
      BatchFacts(c, keys, s.approvals.Keys);
      DrainApprovalsKeeps(s, Batch(c, keys));
  }

  lemma OtherCallsShrink(c: Config, e: Env, s: State, call: Call)
    requires s.details.Some? && s.details.value.status == Destroying
    requires !call.DoDestroyAccounts? && !call.DoDestroyApprovals? && !call.DoFinishDestroy?
    ensures var s' := Exec(c, e, s, call).s;
            s'.details.Some? && s'.details.value.status == Destroying && Shrinks(s, s')
  {
  }

  /** A destroyed asset stays so until the last stage, and no call adds a holder, an approval or a locked receiver. */
  lemma DestroyingStays(c: Config, e: Env, s: State, call: Call)
    requires Inv(s) && Sane(s, call) && s.details.Some? && s.details.value.status == Destroying
    ensures var s' := Exec(c, e, s, call).s;
            s'.details.Some? ==> s'.details.value.status == Destroying && Shrinks(s, s')
  {
    if call.DoFinishDestroy? {
    } else if call.DoDestroyAccounts? || call.DoDestroyApprovals? {
      DestroyCallsShrink(c, s, call);
    } else {
      OtherCallsShrink(c, e, s, call);
    }
  }

  lemma {:induction false} RunDestroying(c: Config, s: State, trace: seq<Event>)
    requires Inv(s) && s.details.Some? && s.details.value.status == Destroying && SaneRun(c, s, trace) && OneLife(c, s, trace)
    ensures var s' := After(c, s, trace);
            s'.details.value.status == Destroying && Shrinks(s, s')
  {
    if trace != [] {
      var init, last := trace[..|trace| - 1], trace[|trace| - 1];
      RunDestroying(c, s, init);
      RunKeeps(c, s, init);
      DestroyingStays(c, last.e, After(c, s, init), last.call);
    }
  }

  /** How often each of the two draining calls is made. */
  function AccountSweeps(trace: seq<Event>): nat {
    if trace == [] then 0 else AccountSweeps(trace[..|trace| - 1]) + if trace[|trace| - 1].call.DoDestroyAccounts? then 1 else 0
  }

  function ApprovalSweeps(trace: seq<Event>): nat {
    if trace == [] then 0 else ApprovalSweeps(trace[..|trace| - 1]) + if trace[|trace| - 1].call.DoDestroyApprovals? then 1 else 0
  }

  lemma FewerKeys<K, V, W>(m: map<K, V>, n: map<K, W>)
    requires m.Keys <= n.Keys
    ensures |m| <= |n|
  {
    FewerMembers(m.Keys, n.Keys);
    assert |m| == |m.Keys| && |n| == |n.Keys|;
  }

  lemma {:induction false} FewerMembers<K>(a: set<K>, b: set<K>)
    requires a <= b
    ensures |a| <= |b|
  {
    if a != {} {
      var x :| x in a;
      FewerMembers(a - {x}, b - {x});
    }
  }

  /** One call while the asset is being destroyed: a draining call takes its portion, and no call adds to what is left. */
  lemma DrainStep(c: Config, e: Env, s: State, call: Call)
    requires Inv(s) && Sane(s, call) && s.details.Some? && s.details.value.status == Destroying
    requires Exec(c, e, s, call).s.details.Some?
    ensures var s' := Exec(c, e, s, call).s;
            && |s'.accounts| <= |s.accounts| - (if call.DoDestroyAccounts? then Portion(c, |s.accounts|) else 0)
            && |s'.approvals| <= |s.approvals| - (if call.DoDestroyApprovals? then Portion(c, |s.approvals|) else 0)
  {
    var s' := Exec(c, e, s, call).s;
    if call.DoDestroyAccounts? {
      DestroyAccountsKeeps(c, s, call.holders);
    } else if call.DoDestroyApprovals? {
      DestroyApprovalsKeeps(c, s, call.keys);
    } else {
      DestroyingStays(c, e, s, call);
      FewerKeys(s'.accounts, s.accounts);
      FewerKeys(s'.approvals, s.approvals);
    }
  }

  /** At most so much is left after so many draining calls of each kind. */
  predicate DrainedBy(c: Config, s: State, s': State, accountSweeps: nat, approvalSweeps: nat) {
    |s'.accounts| <= LeftAfter(c, |s.accounts|, accountSweeps) && |s'.approvals| <= LeftAfter(c, |s.approvals|, approvalSweeps)
  }

  lemma DrainFurther(c: Config, e: Env, s: State, s1: State, call: Call, accountSweeps: nat, approvalSweeps: nat)
    requires Inv(s1) && Sane(s1, call) && s1.details.Some? && s1.details.value.status == Destroying
    requires Exec(c, e, s1, call).s.details.Some? && DrainedBy(c, s, s1, accountSweeps, approvalSweeps)
    ensures DrainedBy(c, s, Exec(c, e, s1, call).s, accountSweeps + (if call.DoDestroyAccounts? then 1 else 0),
                      approvalSweeps + if call.DoDestroyApprovals? then 1 else 0)
  {
    var s2 := Exec(c, e, s1, call).s;
    DrainStep(c, e, s1, call);
    LeftAfterEvent(c, |s.accounts|, accountSweeps, |s1.accounts|, call.DoDestroyAccounts?, |s2.accounts|);
    LeftAfterEvent(c, |s.approvals|, approvalSweeps, |s1.approvals|, call.DoDestroyApprovals?, |s2.approvals|);
  }

  lemma NotDrained(c: Config, s: State)
    ensures DrainedBy(c, s, s, 0, 0)
  {
  }

  lemma RunStillDestroying(c: Config, s: State, trace: seq<Event>)
    requires Inv(s) && s.details.Some? && s.details.value.status == Destroying && SaneRun(c, s, trace) && OneLife(c, s, trace)
    ensures var s' := After(c, s, trace);
            Inv(s') && s'.details.Some? && s'.details.value.status == Destroying
  {
    RunKeeps(c, s, trace);
    RunDestroying(c, s, trace);
  }

  /** However the draining calls are interleaved with others, each counts. */
  lemma {:induction false} RunDrains(c: Config, s: State, trace: seq<Event>)
    requires Inv(s) && s.details.Some? && s.details.value.status == Destroying && SaneRun(c, s, trace) && OneLife(c, s, trace)
    ensures DrainedBy(c, s, After(c, s, trace), AccountSweeps(trace), ApprovalSweeps(trace))
  {
    if trace == [] {
      NotDrained(c, s);
    } else {
      var init, last := trace[..|trace| - 1], trace[|trace| - 1];
      RunDrains(c, s, init);
      RunStillDestroying(c, s, init);
      DrainFurther(c, last.e, s, After(c, s, init), last.call, AccountSweeps(init), ApprovalSweeps(init));
    }
  }

  /**
    Destruction always gets to its end: after any run that holds enough of
    both draining calls, whatever else it holds, the last stage succeeds and
    no holder and no approval is left.
  */
  lemma DestructionEnds(c: Config, e: Env, s: State, trace: seq<Event>, survivors: set<AccountId>)
    requires Inv(s) && s.details.Some? && s.details.value.status == Destroying && SaneRun(c, s, trace) && OneLife(c, s, trace)
    requires |s.accounts| <= Max(1, c.removeLimit) * AccountSweeps(trace)
    requires |s.approvals| <= Max(1, c.removeLimit) * ApprovalSweeps(trace)
    requires e.callbackOk
    ensures var step := FinishDestroy(e, After(c, s, trace), survivors);
            step.r.Ok? && step.s.details.None? && step.s.accounts == map[] && step.s.approvals == map[]
  {
    RunDrains(c, s, trace);
    RunKeeps(c, s, trace);
    RunDestroying(c, s, trace);
    FinishIff(e, After(c, s, trace), survivors);
  }
}
