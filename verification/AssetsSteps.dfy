/** Every dispatchable keeps the agreement of the storage maps and moves the slack by a known amount. */
module AssetsSteps {
  import opened Prelude
  import opened MapSum
  import opened AssetsSpec
  import opened AssetsDebits
  import opened AssetsInvariant

  ghost function SlackOf(s: State): int
    requires s.details.Some?
  {
    Slack(s.details.value, s.accounts, s.locks)
  }

  /** The step keeps the agreement and loses exactly `lost` tokens from accounts and locks. */
  ghost predicate KeepsBut(s: State, s': State, lost: nat) {
    Inv(s') && s.details.Some? && s'.details.Some? && SlackOf(s') == SlackOf(s) + lost
  }

  lemma Unmoved(s: State)
    requires Inv(s) && s.details.Some?
    ensures KeepsBut(s, s, 0)
  {
  }

  // ---- Minting and burning.

  lemma MintKeeps(e: Env, s: State, beneficiary: AccountId, amount: Balance, checkIssuer: Option<AccountId>)
    requires Inv(s) && s.details.Some? && Mint(e, s, beneficiary, amount, checkIssuer).r.Ok?
    ensures KeepsBut(s, Mint(e, s, beneficiary, amount, checkIssuer).s, 0)
  {
    if amount > 0 {
      var d := s.details.value;
      CreditFacts(e, d.(supply := SatAdd128(d.supply, amount)), s.accounts, beneficiary, amount);
    }
  }

  /** A balance is never more than the supply. */
  lemma BalanceBelowSupply(s: State, who: AccountId)
    requires Inv(s) && s.details.Some? && who in s.accounts
    ensures s.accounts[who].balance <= s.details.value.supply
  {
    HeldPart(s.accounts, who);
  }

  /** A frozen holder below the minimum that no deposit keeps: a best-effort burn removes it with everything it has. */
  predicate Wiped(e: Env, d: Details, account: Account, who: AccountId) {
    who in e.frozen && account.balance < d.minBalance && Mortal(account.reason)
  }

  lemma BurnShape(e: Env, s: State, target: AccountId, amount: Balance, checkAdmin: Option<AccountId>, f: DebitFlags)
    requires amount > 0 && Burn(e, s, target, amount, checkAdmin, f).r.Ok?
    ensures PrepDebit(e, s.details, s.accounts, target, amount, f).Ok?
    ensures var (d, actual) := (s.details.value, PrepDebit(e, s.details, s.accounts, target, amount, f).value);
            var after := Debit(d.(supply := SatSub(d.supply, actual)), s.accounts, target, actual);
            Burn(e, s, target, amount, checkAdmin, f) == Done(s.(details := Some(after.0), accounts := after.1), actual)
  {
  }

  lemma BurnKeeps(e: Env, s: State, target: AccountId, amount: Balance, checkAdmin: Option<AccountId>)
    requires Inv(s) && Burn(e, s, target, amount, checkAdmin, DebitFlags(false, true)).r.Ok?
    requires amount > 0 ==> s.details.Some? && target in s.accounts
    requires amount > 0 ==> !Wiped(e, s.details.value, s.accounts[target], target)
    ensures KeepsBut(s, Burn(e, s, target, amount, checkAdmin, DebitFlags(false, true)).s, 0)
  {
    if amount > 0 {
      var f := DebitFlags(false, true);
      BurnShape(e, s, target, amount, checkAdmin, f);
      var d, actual := s.details.value, PrepDebit(e, s.details, s.accounts, target, amount, f).value;
      BalanceBelowSupply(s, target);
      BurnedCleanly(e, s.details, s.accounts, target, amount);
      DebitFacts(d.(supply := SatSub(d.supply, actual)), s.accounts, target, actual);
    } else {
      Unmoved(s);
    }
  }

  lemma BurnedCleanly(e: Env, details: Option<Details>, accounts: Accounts, target: AccountId, amount: Balance)
    requires PrepDebit(e, details, accounts, target, amount, DebitFlags(false, true)).Ok? && amount > 0
    requires accounts[target].balance <= details.value.supply && !Wiped(e, details.value, accounts[target], target)
    ensures LeavesNoDust(details.value, accounts[target], PrepDebit(e, details, accounts, target, amount, DebitFlags(false, true)).value)
  {
    DebitBounds(e, details, accounts, target, amount, DebitFlags(false, true));
    if accounts[target].balance < details.value.minBalance {
      EmptyDebit(e, details, accounts, target, amount, DebitFlags(false, true));
    }
  }

  /** What the debug assertions of the debit paths say: a remainder below the minimum is nothing. */
  predicate AssertionHolds(d: Details, balance: Balance, debit: Balance) {
    debit <= balance && (balance - debit < d.minBalance ==> balance - debit == 0)
  }

  /** The assertion of a transfer always holds, without best effort. */
  lemma TransferAssertion(e: Env, details: Option<Details>, accounts: Accounts, source: AccountId, dest: AccountId, amount: Balance, f: TransferFlags)
    requires PrepTransfer(e, details, accounts, source, dest, amount, f).Ok? && amount > 0 && !f.bestEffort
    ensures AssertionHolds(details.value, accounts[source].balance, PrepTransfer(e, details, accounts, source, dest, amount, f).value.debit)
  {
    DebitBounds(e, details, accounts, source, amount, Debits(f));
  }

  /** The assertion of a burn that succeeds holds exactly unless another pallet has frozen a holder below the minimum. */
  lemma BurnAssertionIff(e: Env, s: State, target: AccountId, amount: Balance, checkAdmin: Option<AccountId>)
    requires Inv(s) && amount > 0 && Burn(e, s, target, amount, checkAdmin, DebitFlags(false, true)).r.Ok?
    ensures s.details.Some? && target in s.accounts && Burn(e, s, target, amount, checkAdmin, DebitFlags(false, true)).r.value <= U128_MAX
    ensures var balance := s.accounts[target].balance;
            AssertionHolds(s.details.value, balance, Burn(e, s, target, amount, checkAdmin, DebitFlags(false, true)).r.value) <==>
            !(target in e.frozen && 0 < balance < s.details.value.minBalance)
  {
    var f := DebitFlags(false, true);
    BurnShape(e, s, target, amount, checkAdmin, f);
    BalanceBelowSupply(s, target);
    DebitBounds(e, s.details, s.accounts, target, amount, f);
    if s.accounts[target].balance < s.details.value.minBalance {
      EmptyDebit(e, s.details, s.accounts, target, amount, f);
    }
  }

  /** When the assertion fails, a holder kept by a deposit stays with its balance, and any other is removed with it. */
  lemma BurnOfFrozen(e: Env, s: State, target: AccountId, amount: Balance, checkAdmin: Option<AccountId>)
    requires Inv(s) && amount > 0 && Burn(e, s, target, amount, checkAdmin, DebitFlags(false, true)).r.Ok?
    requires s.details.Some? && target in s.accounts && target in e.frozen && 0 < s.accounts[target].balance < s.details.value.minBalance
    ensures var step := Burn(e, s, target, amount, checkAdmin, DebitFlags(false, true));
            step.r.value == 0 && step.s.accounts == if Mortal(s.accounts[target].reason) then s.accounts - {target} else s.accounts
  {
    var f := DebitFlags(false, true);
    BalanceBelowSupply(s, target);
    EmptyDebit(e, s.details, s.accounts, target, amount, f);
    BurnShape(e, s, target, amount, checkAdmin, f);
    assert s.accounts[target := s.accounts[target]] == s.accounts;
  }

  /** What a mortal holder loses in that case: the whole balance leaves the accounts while the supply stays. */
  lemma BurnWipes(e: Env, s: State, target: AccountId, amount: Balance, checkAdmin: Option<AccountId>)
    requires Inv(s) && amount > 0 && Burn(e, s, target, amount, checkAdmin, DebitFlags(false, true)).r.Ok?
    requires s.details.Some? && target in s.accounts && Wiped(e, s.details.value, s.accounts[target], target)
    ensures KeepsBut(s, Burn(e, s, target, amount, checkAdmin, DebitFlags(false, true)).s, s.accounts[target].balance)
    ensures target !in Burn(e, s, target, amount, checkAdmin, DebitFlags(false, true)).s.accounts
  {
    BalanceBelowSupply(s, target);
    EmptyDebit(e, s.details, s.accounts, target, amount, DebitFlags(false, true));
    RemovalFacts(s.details.value, s.accounts, target, s.accounts[target].reason, false);
  }

  // ---- Transfers.

  /** Without best effort a prepared transfer moves its debit: credited, or credited and burnt. */
  lemma PreparedFacts(e: Env, details: Option<Details>, accounts: Accounts, source: AccountId, dest: AccountId, amount: Balance, f: TransferFlags)
    requires PrepTransfer(e, details, accounts, source, dest, amount, f).Ok? && amount > 0 && !f.bestEffort
    ensures var (d, p) := (details.value, PrepTransfer(e, details, accounts, source, dest, amount, f).value);
            && p.debit == p.credit + p.burn && amount <= p.credit && (f.burnDust ==> p.credit == amount)
            && p.debit < amount + Max(1, d.minBalance)
            && LeavesNoDust(d, accounts[source], p.debit)
            && (dest in accounts ==> accounts[dest].balance + p.credit <= U128_MAX)
            && (dest !in accounts ==> p.credit >= d.minBalance)
  {
    DebitBounds(e, details, accounts, source, amount, Debits(f));
  }

  lemma MovedFacts(e: Env, d: Details, accounts: Accounts, source: AccountId, dest: AccountId, p: Prepared)
    requires source in accounts && source != dest && HasRoom(d, accounts, dest) && Moved(e, d, accounts, source, dest, p).Ok?
    requires HoldersCounted(d, accounts) && NoneRefunded(accounts)
    requires p.debit == p.credit + p.burn && LeavesNoDust(d, accounts[source], p.debit) && p.burn <= d.supply
    requires dest in accounts ==> accounts[dest].balance + p.credit <= U128_MAX
    ensures var (d1, accounts1) := Moved(e, d, accounts, source, dest, p).value;
            && HoldersCounted(d1, accounts1) && NoneRefunded(accounts1)
            && d1 == d.(supply := d.supply - p.burn, accounts := d1.accounts, sufficients := d1.sufficients)
            && Held(accounts1) == Held(accounts) - p.burn
  {
    var d0 := d.(supply := d.supply - p.burn);
    CreditFacts(e, d0, accounts, dest, p.credit);
    var (d1, accounts1) := Credit(e, d0, accounts, dest, p.credit).value;
    DebitFacts(d1, accounts1, source, p.debit);
  }

  lemma TransferKeeps(e: Env, s: State, source: AccountId, dest: AccountId, amount: Balance, needAdmin: Option<AccountId>, f: TransferFlags)
    requires Inv(s) && s.details.Some? && !f.bestEffort && Transfer(e, s, source, dest, amount, needAdmin, f).r.Ok?
    ensures KeepsBut(s, Transfer(e, s, source, dest, amount, needAdmin, f).s, 0)
  {
    if amount > 0 && source != dest {
      var p := PrepTransfer(e, s.details, s.accounts, source, dest, amount, f).value;
      PreparedFacts(e, s.details, s.accounts, source, dest, amount, f);
      BalanceBelowSupply(s, source);
      MovedFacts(e, s.details.value, s.accounts, source, dest, p);
    } else {
      Unmoved(s);
    }
  }

  // ---- Locks.

  lemma ParkedFacts(d: Details, accounts: Accounts, source: AccountId, p: Prepared)
    requires source in accounts && HoldersCounted(d, accounts) && NoneRefunded(accounts)
    requires p.debit == p.credit + p.burn && LeavesNoDust(d, accounts[source], p.debit) && p.burn <= d.supply
    ensures var (d1, accounts1) := Parked(d, accounts, source, p);
            && HoldersCounted(d1, accounts1) && NoneRefunded(accounts1)
            && d1 == d.(supply := d.supply - p.burn, accounts := d1.accounts, sufficients := d1.sufficients)
            && Held(accounts1) == Held(accounts) - p.debit
  {
    DebitFacts(d.(supply := d.supply - p.burn), accounts, source, p.debit);
  }

  lemma TransferLockedKeeps(c: Config, e: Env, s: State, source: AccountId, dest: AccountId, amount: Balance, duration: BlockNumber,
                            needAdmin: Option<AccountId>, f: TransferFlags)
    requires Inv(s) && s.details.Some? && !f.bestEffort && TransferLocked(c, e, s, source, dest, amount, duration, needAdmin, f).r.Ok?
    ensures KeepsBut(s, TransferLocked(c, e, s, source, dest, amount, duration, needAdmin, f).s, 0)
  {
    if amount > 0 && source != dest {
      var p := PrepTransfer(e, s.details, s.accounts, source, dest, amount, f).value;
      PreparedFacts(e, s.details, s.accounts, source, dest, amount, f);
      BalanceBelowSupply(s, source);
      ParkedFacts(s.details.value, s.accounts, source, p);
      HeldPart(s.accounts, source);
      LockSumPart(s.locks, dest);
      AddLockFacts(s.locks, s.locked, dest, Lock(source, p.credit, SatAdd32(duration, e.now)));
    } else {
      Unmoved(s);
    }
  }

  lemma UnlockKeeps(e: Env, s: State, who: AccountId, id: u32)
    requires Inv(s) && Unlock(e, s, who, id).r.Ok?
    ensures KeepsBut(s, Unlock(e, s, who, id).s, 0)
  {
    CreditFacts(e, s.details.value, s.accounts, who, s.locks[who][id].balance);
    DropLockFacts(s.locks, s.locked, who, id);
  }

  lemma ForceRemoveLockKeeps(s: State, who: AccountId, id: u32)
    requires Inv(s) && ForceRemoveLock(s, who, id).r.Ok?
    ensures Inv(ForceRemoveLock(s, who, id).s)
    ensures s.details.Some? ==> KeepsBut(s, ForceRemoveLock(s, who, id).s, s.locks[who][id].balance)
  {
    DropLockFacts(s.locks, s.locked, who, id);
  }

  // ---- Touching and refunding.

  lemma DepositHolderFacts(d: Details, accounts: Accounts, who: AccountId, account: Account)
    requires who !in accounts && HoldersCounted(d, accounts) && NoneRefunded(accounts) && d.accounts < U32_MAX
    requires account.balance == 0 && (account.reason.DepositHeld? || account.reason.DepositFrom?)
    ensures HoldersCounted(d.(accounts := d.accounts + 1), accounts[who := account]) && NoneRefunded(accounts[who := account])
    ensures Held(accounts[who := account]) == Held(accounts)
  {
    SizeUpdate(accounts, who, account);
    SumUpdate(accounts, who, account, Balances());
    SumUpdate(accounts, who, account, SelfSufficient());
  }

  lemma TouchShape(c: Config, e: Env, s: State, who: AccountId, depositor: AccountId, checkDepositor: bool)
    requires Touch(c, e, s, who, depositor, checkDepositor).r.Ok?
    ensures who !in s.accounts && s.details.Some? && s.details.value.accounts < U32_MAX
    ensures var s' := Touch(c, e, s, who, depositor, checkDepositor).s;
            var d := s.details.value;
            && who in s'.accounts && s'.accounts[who].balance == 0
            && s'.accounts[who].reason == (if depositor == who then DepositHeld(c.accountDeposit) else DepositFrom(depositor, c.accountDeposit))
            && s' == s.(details := Some(d.(accounts := d.accounts + 1)), accounts := s.accounts[who := s'.accounts[who]])
  {
  }

  lemma TouchKeeps(c: Config, e: Env, s: State, who: AccountId, depositor: AccountId, checkDepositor: bool)
    requires Inv(s) && Touch(c, e, s, who, depositor, checkDepositor).r.Ok?
    ensures KeepsBut(s, Touch(c, e, s, who, depositor, checkDepositor).s, 0)
  {
    TouchShape(c, e, s, who, depositor, checkDepositor);
    DepositHolderFacts(s.details.value, s.accounts, who, Touch(c, e, s, who, depositor, checkDepositor).s.accounts[who]);
  }

  /** Closing an account always removes it: the branch that puts it back is dead. */
  lemma ClosedKeeps(s: State, who: AccountId)
    requires Inv(s) && s.details.Some? && who in s.accounts
    ensures KeepsBut(s, Closed(s, who).s, s.accounts[who].balance)
    ensures Closed(s, who).s.accounts == s.accounts - {who}
  {
    RemovalFacts(s.details.value, s.accounts, who, Taken(s.accounts[who].reason), false);
  }

  /** A refund loses the balance the caller agreed to burn. */
  lemma RefundKeeps(s: State, who: AccountId, allowBurn: bool)
    requires Inv(s) && Refund(s, who, allowBurn).r.Ok?
    ensures who in s.accounts && KeepsBut(s, Refund(s, who, allowBurn).s, s.accounts[who].balance)
    ensures allowBurn || s.accounts[who].balance == 0
  {
    assert Refund(s, who, allowBurn) == Closed(s, who);
    ClosedKeeps(s, who);
  }

  lemma RefundOtherKeeps(s: State, who: AccountId, caller: AccountId)
    requires Inv(s) && RefundOther(s, who, caller).r.Ok?
    ensures KeepsBut(s, RefundOther(s, who, caller).s, 0)
  {
    assert RefundOther(s, who, caller) == Closed(s, who);
    ClosedKeeps(s, who);
  }

  // ---- Approvals.

  lemma ApprovalsOnly(s: State, s': State)
    requires Inv(s) && s.details.Some? && s'.details.Some?
    requires s' == s.(details := s'.details, approvals := s'.approvals)
    requires s'.details.value == s.details.value.(approvals := s'.details.value.approvals)
    requires s'.details.value.approvals == |s'.approvals|
    ensures KeepsBut(s, s', 0)
  {
  }

  lemma ApproveKeeps(c: Config, e: Env, s: State, owner: AccountId, delegate: AccountId, amount: Balance)
    requires Inv(s) && Approve(c, e, s, owner, delegate, amount).r.Ok?
    requires (owner, delegate) in s.approvals || s.details.value.approvals < U32_MAX
    ensures KeepsBut(s, Approve(c, e, s, owner, delegate, amount).s, 0)
  {
    var s' := Approve(c, e, s, owner, delegate, amount).s;
    SizeUpdate(s.approvals, (owner, delegate), s'.approvals[(owner, delegate)]);
    ApprovalsOnly(s, s');
  }

  lemma DropApprovalKeeps(s: State, key: (AccountId, AccountId))
    requires Inv(s) && s.details.Some? && key in s.approvals
    ensures KeepsBut(s, DropApproval(s, key), 0)
  {
    SizeDrop(s.approvals, key);
    ApprovalsOnly(s, DropApproval(s, key));
  }

  /** Transfers do not touch approvals. */
  lemma TransferFrame(e: Env, s: State, source: AccountId, dest: AccountId, amount: Balance, needAdmin: Option<AccountId>, f: TransferFlags)
    ensures var s' := Transfer(e, s, source, dest, amount, needAdmin, f).s;
            s' == s.(details := s'.details, accounts := s'.accounts) && s'.details.Some? == s.details.Some?
  {
  }

  lemma TransferApprovedKeeps(e: Env, s: State, owner: AccountId, delegate: AccountId, dest: AccountId, amount: Balance)
    requires Inv(s) && TransferApproved(e, s, owner, delegate, dest, amount).r.Ok?
    ensures KeepsBut(s, TransferApproved(e, s, owner, delegate, dest, amount).s, 0)
  {
    var f := TransferFlags(false, false, false);
    var t := Transfer(e, s, owner, dest, amount, None, f).s;
    var key := (owner, delegate);
    TransferKeeps(e, s, owner, dest, amount, None, f);
    TransferFrame(e, s, owner, dest, amount, None, f);
    if s.approvals[key].amount == amount {
      DropApprovalKeeps(t, key);
    } else {
      var s' := TransferApproved(e, s, owner, delegate, dest, amount).s;
      SizeUpdate(s.approvals, key, s'.approvals[key]);
      ApprovalsOnly(t, s');
    }
  }

  // ---- The asset record.

  /** Editing the record without touching supply or counters. */
  lemma RecordKeeps(s: State, d: Details)
    requires Inv(s) && s.details.Some?
    requires var d0 := s.details.value;
             d.supply == d0.supply && d.accounts == d0.accounts && d.sufficients == d0.sufficients && d.approvals == d0.approvals
    ensures KeepsBut(s, s.(details := Some(d)), 0)
  {
  }

  lemma StatusKeeps(s: State, origin: AccountId, who: AccountId, status: AccountStatus)
    requires Inv(s) && SetAccountStatus(s, origin, who, status).r.Ok?
    ensures KeepsBut(s, SetAccountStatus(s, origin, who, status).s, 0)
  {
    StatusFacts(s.details.value, s.accounts, who, status);
  }

  /** A new asset is in agreement exactly when no earlier one left a lock. */
  lemma FreshIff(s: State, d: Details)
    requires Inv(s) && s.details.None? && d.supply == 0 && d.accounts == 0 && d.sufficients == 0 && d.approvals == 0
    ensures Inv(s.(details := Some(d))) <==> s.locks == map[]
    ensures Slack(d, s.accounts, s.locks) + LockedUp(s.locks) == 0
  {
    NothingLocked(s.locks, s.locked);
  }
}
