/**
  One asset of the assets pallet with its storage updated in place. Each
  method writes in the order of the source, puts storage back when a call
  fails late, and is proved to do exactly what its function in AssetsSpec says.
*/
module AssetsPallet {
  import opened Prelude
  import opened AssetsSpec
  import AssetsInvariant
  import AssetsRuns

  class Pallet {
    const config: Config

    var details: Option<Details>
    var accounts: Accounts
    var approvals: Approvals
    var locks: Locks
    var locked: Cache

    function Snapshot(): State
      reads this
    {
      State(details, accounts, approvals, locks, locked)
    }

    /** Counters, holders, approvals, locks and their cache agree, and the supply covers what is held and locked. */
    ghost predicate Valid()
      reads this
    {
      AssetsInvariant.Inv(Snapshot())
    }

    constructor (config: Config)
      ensures Valid() && Snapshot() == Empty && this.config == config
    {
      this.config := config;
      details, accounts, approvals, locks, locked := None, map[], map[], map[], map[];
    }

    // ---- Holders.

    method NewAccount(e: Env, who: AccountId, deposit: Option<(AccountId, Balance)>) returns (r: Result<Reason, Error>)
      requires details.Some? && (deposit.Some? || !details.value.isSufficient || details.value.sufficients < U32_MAX)
      modifies `details
      ensures match AssetsSpec.NewAccount(e, old(details).value, who, deposit)
              case Err(x) => r == Err(x) && details == old(details)
              case Ok((d, reason)) => r == Ok(reason) && details == Some(d)
    {
      var d := details.value;
      if d.accounts == U32_MAX { return Err(Overflow); }
      var count: u32 := d.accounts + 1;
      var reason: Reason;
      if deposit.Some? {
        reason := if deposit.value.0 == who then DepositHeld(deposit.value.1) else DepositFrom(deposit.value.0, deposit.value.1);
      } else if d.isSufficient {
        d := d.(sufficients := d.sufficients + 1);
        reason := Sufficient;
      } else {
        if who !in e.consumers { return Err(UnavailableConsumer); }
        reason := Consumer;
      }
      d := d.(accounts := count);
      details := Some(d);
      return Ok(reason);
    }

    method DeadAccount(reason: Reason, force: bool) returns (removed: bool)
      requires details.Some?
      modifies `details
      ensures (details, removed) == (Some(AssetsSpec.DeadAccount(old(details).value, reason, force).0), AssetsSpec.DeadAccount(old(details).value, reason, force).1)
    {
      var d := details.value;
      match reason {
        case Consumer =>
        case Sufficient => d := d.(sufficients := SatSub(d.sufficients, 1));
        case DepositRefunded =>
        case DepositHeld(_) => if !force { return false; }
        case DepositFrom(_, _) => if !force { return false; }
      }
      details := Some(d.(accounts := SatSub(d.accounts, 1)));
      return true;
    }

    /** Adds to a holder's balance, creating the holder if need be. */
    method Credit(e: Env, who: AccountId, amount: Balance) returns (r: Result<(), Error>)
      requires details.Some? && HasRoom(details.value, accounts, who)
      modifies `details, `accounts
      ensures match AssetsSpec.Credit(e, old(details).value, old(accounts), who, amount)
              case Err(x) => r == Err(x) && details == old(details) && accounts == old(accounts)
              case Ok((d, after)) => r == Ok(()) && details == Some(d) && accounts == after
    {
      if who in accounts {
        accounts := accounts[who := accounts[who].(balance := SatAdd128(accounts[who].balance, amount))];
      } else {
        var reason := NewAccount(e, who, None);
        if reason.Err? { return Err(reason.error); }
        accounts := accounts[who := Account(amount, Liquid, reason.value)];
      }
      return Ok(());
    }

    /** Takes from a holder's balance, removing the holder if it falls below the minimum. */
    method Debit(who: AccountId, amount: Balance)
      requires details.Some? && who in accounts
      modifies `details, `accounts
      ensures var after := AssetsSpec.Debit(old(details).value, old(accounts), who, amount);
              details == Some(after.0) && accounts == after.1
    {
      var account := accounts[who];
      account := account.(balance := SatSub(account.balance, amount));
      if account.balance < details.value.minBalance {
        var removed := DeadAccount(account.reason, false);
        if removed {
          accounts := accounts - {who};
          return;
        }
      }
      accounts := accounts[who := account];
    }

    // ---- Supply.

    method Mint(e: Env, beneficiary: AccountId, amount: Balance, checkIssuer: Option<AccountId>) returns (r: Result<nat, Error>)
      modifies this
      ensures Step(Snapshot(), r) == AssetsSpec.Mint(e, old(Snapshot()), beneficiary, amount, checkIssuer)
    {
      if amount == 0 { return Ok(0); }
      var check := CanIncrease(e, details, accounts, beneficiary, amount, true);
      if check.Err? { return Err(check.error); }
      var d := details.value;
      if d.status != Live { return Err(AssetNotLive); }
      if checkIssuer.Some? && checkIssuer.value != d.issuer { return Err(NoPermission); }
      details := Some(d.(supply := SatAdd128(d.supply, amount)));
      var credited := Credit(e, beneficiary, amount);
      if credited.Err? {
        details := Some(d);
        return Err(credited.error);
      }
      return Ok(amount);
    }

    method Burn(e: Env, target: AccountId, amount: Balance, checkAdmin: Option<AccountId>, f: DebitFlags) returns (r: Result<nat, Error>)
      modifies this
      ensures Step(Snapshot(), r) == AssetsSpec.Burn(e, old(Snapshot()), target, amount, checkAdmin, f)
    {
      if details.None? { return Err(Unknown); }
      var d := details.value;
      if d.status != Live && d.status != Frozen { return Err(AssetNotLive); }
      if amount == 0 { return Ok(0); }
      if d.status != Live { return Err(AssetNotLive); }
      var prepared := PrepDebit(e, details, accounts, target, amount, f);
      if prepared.Err? { return Err(prepared.error); }
      if checkAdmin.Some? && checkAdmin.value != d.admin { return Err(NoPermission); }
      details := Some(d.(supply := SatSub(d.supply, prepared.value)));
      Debit(target, prepared.value);
      return Ok(prepared.value);
    }

    // ---- Transfers and locks.

    method Transfer(e: Env, source: AccountId, dest: AccountId, amount: Balance, needAdmin: Option<AccountId>, f: TransferFlags)
      returns (r: Result<nat, Error>)
      modifies this
      ensures Step(Snapshot(), r) == AssetsSpec.Transfer(e, old(Snapshot()), source, dest, amount, needAdmin, f)
    {
      if amount == 0 { return Ok(0); }
      if details.None? { return Err(Unknown); }
      var d := details.value;
      if d.status != Live { return Err(AssetNotLive); }
      var prepared := PrepTransfer(e, details, accounts, source, dest, amount, f);
      if prepared.Err? { return Err(prepared.error); }
      var p := prepared.value;
      if needAdmin.Some? && needAdmin.value != d.admin { return Err(NoPermission); }
      if source == dest { return Ok(p.credit); }
      details := Some(d.(supply := SatSub(d.supply, p.burn)));
      var credited := Credit(e, dest, p.credit);
      if credited.Err? {
        details := Some(d);
        return Err(credited.error);
      }
      Debit(source, p.debit);
      return Ok(p.credit);
    }

    /** Looks for the smallest id that is not taken. */
    method GetNewLockId(who: AccountId) returns (id: Option<u32>)
      ensures id == NewLockId(locks, who)
    {
      if who !in locks { return Some(0); }
      var taken := locks[who].Keys;
      for i := 0 to LOCK_LIMIT
        invariant FirstFree(locks[who], 0) == FirstFree(locks[who], i)
      {
        if i !in taken { return Some(i); }
      }
      return None;
    }

    method AddLock(dest: AccountId, lock: Lock) returns (r: Result<(), Error>)
      modifies `locks, `locked
      ensures match AssetsSpec.AddLock(old(locks), old(locked), dest, lock)
              case Err(x) => r == Err(x) && locks == old(locks) && locked == old(locked)
              case Ok((l, c)) => r == Ok(()) && locks == l && locked == c
    {
      var id := GetNewLockId(dest);
      if id.None? { return Err(TooManyLocks); }
      var m: LockMap := if dest in locks then locks[dest] else map[];
      if |m| >= LOCK_LIMIT && id.value !in m { return Err(TooManyLocks); }
      locks := locks[dest := m[id.value := lock]];
      locked := locked[dest := SatAdd128(LockedOf(locked, dest), lock.balance)];
      return Ok(());
    }

    method DropLock(who: AccountId, id: u32)
      requires who in locks && id in locks[who]
      modifies `locks, `locked
      ensures (locks, locked) == AssetsSpec.DropLock(old(locks), old(locked), who, id)
    {
      var m: LockMap := locks[who];
      var lock := m[id];
      var rest: LockMap := m - {id};
      if rest == map[] {
        locks := locks - {who};
        locked := locked - {who};
      } else {
        locks := locks[who := rest];
        locked := locked[who := SatSub(LockedOf(locked, who), lock.balance)];
      }
    }

    method TransferLocked(e: Env, source: AccountId, dest: AccountId, amount: Balance, duration: BlockNumber,
                          needAdmin: Option<AccountId>, f: TransferFlags)
      returns (r: Result<nat, Error>)
      modifies this
      ensures Step(Snapshot(), r) == AssetsSpec.TransferLocked(config, e, old(Snapshot()), source, dest, amount, duration, needAdmin, f)
    {
      if amount == 0 { return Ok(0); }
      if details.None? { return Err(Unknown); }
      var d := details.value;
      if d.status != Live { return Err(AssetNotLive); }
      if amount < config.minLockAmount { return Err(LockAmountTooSmall); }
      var prepared := PrepTransfer(e, details, accounts, source, dest, amount, f);
      if prepared.Err? { return Err(prepared.error); }
      var p := prepared.value;
      if needAdmin.Some? && needAdmin.value != d.admin { return Err(NoPermission); }
      if source == dest { return Ok(p.credit); }
      details := Some(d.(supply := SatSub(d.supply, p.burn)));
      var added := AddLock(dest, Lock(source, p.credit, SatAdd32(duration, e.now)));
      if added.Err? {
        details := Some(d);
        return Err(added.error);
      }
      Debit(source, p.debit);
      return Ok(p.credit);
    }

    method TransferAndLock(e: Env, source: AccountId, dest: AccountId, amount: Balance, duration: BlockNumber, keepAlive: bool)
      returns (r: Result<nat, Error>)
      modifies this
      ensures Step(Snapshot(), r) == AssetsSpec.TransferAndLock(config, e, old(Snapshot()), source, dest, amount, duration, keepAlive)
    {
      if duration > config.maxLockDuration { return Err(LockDurationTooLong); }
      r := TransferLocked(e, source, dest, amount, duration, None, TransferFlags(keepAlive, false, false));
    }

    method Unlock(e: Env, who: AccountId, id: u32) returns (r: Result<nat, Error>)
      modifies this
      ensures Step(Snapshot(), r) == AssetsSpec.Unlock(e, old(Snapshot()), who, id)
    {
      if details.None? { return Err(Unknown); }
      if details.value.status != Live { return Err(AssetNotLive); }
      if who !in locks || id !in locks[who] { return Err(Unknown); }
      var lock := locks[who][id];
      if e.now < lock.unlockTime { return Err(TimeNowAllowed); }
      var check := CanIncrease(e, details, accounts, who, lock.balance, true);
      if check.Err? { return Err(check.error); }
      var credited := Credit(e, who, lock.balance);
      if credited.Err? { return Err(credited.error); }
      DropLock(who, id);
      return Ok(lock.balance);
    }

    method ForceRemoveLock(who: AccountId, id: u32) returns (r: Result<nat, Error>)
      modifies this
      ensures Step(Snapshot(), r) == AssetsSpec.ForceRemoveLock(old(Snapshot()), who, id)
    {
      if who !in locks || id !in locks[who] { return Err(Unknown); }
      var amount := locks[who][id].balance;
      DropLock(who, id);
      return Ok(amount);
    }

    // ---- Touching and refunding.

    method Touch(e: Env, who: AccountId, depositor: AccountId, checkDepositor: bool) returns (r: Result<nat, Error>)
      modifies this
      ensures Step(Snapshot(), r) == AssetsSpec.Touch(config, e, old(Snapshot()), who, depositor, checkDepositor)
    {
      if who in accounts { return Err(AlreadyExists); }
      if details.None? { return Err(Unknown); }
      var d := details.value;
      if d.status != Live { return Err(AssetNotLive); }
      if checkDepositor && depositor != d.admin && depositor != d.freezer { return Err(NoPermission); }
      var reason := NewAccount(e, who, Some((depositor, config.accountDeposit)));
      if reason.Err? { return Err(reason.error); }
      if !e.reserveOk {
        details := Some(d);
        return Err(ReserveFailed);
      }
      accounts := accounts[who := Account(0, Liquid, reason.value)];
      return Ok(0);
    }

    /** Takes the deposit back and closes the account. */
    method Close(who: AccountId) returns (r: Result<nat, Error>)
      requires details.Some? && who in accounts
      modifies `details, `accounts
      ensures Step(Snapshot(), r) == Closed(old(Snapshot()), who)
    {
      var account := accounts[who];
      account := account.(reason := Taken(account.reason));
      var removed := DeadAccount(account.reason, false);
      if removed {
        accounts := accounts - {who};
        return Ok(account.balance);
      }
      accounts := accounts[who := account];
      return Ok(0);
    }

    method Refund(who: AccountId, allowBurn: bool) returns (r: Result<nat, Error>)
      modifies this
      ensures Step(Snapshot(), r) == AssetsSpec.Refund(old(Snapshot()), who, allowBurn)
    {
      if who !in accounts { return Err(NoDeposit); }
      if !accounts[who].reason.Consumer? && !accounts[who].reason.DepositHeld? { return Err(NoDeposit); }
      if details.None? { return Err(Unknown); }
      if details.value.status != Live && details.value.status != Frozen { return Err(IncorrectStatus); }
      if accounts[who].balance != 0 && !allowBurn { return Err(WouldBurn); }
      r := Close(who);
    }

    method RefundOther(who: AccountId, caller: AccountId) returns (r: Result<nat, Error>)
      modifies this
      ensures Step(Snapshot(), r) == AssetsSpec.RefundOther(old(Snapshot()), who, caller)
    {
      if who !in accounts { return Err(NoDeposit); }
      var account := accounts[who];
      if !account.reason.DepositFrom? { return Err(NoDeposit); }
      if details.None? { return Err(Unknown); }
      if details.value.status != Live { return Err(AssetNotLive); }
      if IsHalted(account.status) { return Err(IsFrozen); }
      if caller != account.reason.depositor && caller != details.value.admin { return Err(NoPermission); }
      if account.balance != 0 { return Err(WouldBurn); }
      r := Close(who);
    }

    // ---- Approvals.

    method Approve(e: Env, owner: AccountId, delegate: AccountId, amount: Balance) returns (r: Result<nat, Error>)
      modifies this
      ensures Step(Snapshot(), r) == AssetsSpec.Approve(config, e, old(Snapshot()), owner, delegate, amount)
    {
      if details.None? { return Err(Unknown); }
      var d := details.value;
      if d.status != Live { return Err(AssetNotLive); }
      var approved := Approval(0, 0);
      if (owner, delegate) in approvals {
        approved := approvals[(owner, delegate)];
      } else {
        d := d.(approvals := SatAdd32(d.approvals, 1));
      }
      if approved.deposit < config.approvalDeposit {
        if !e.reserveOk { return Err(ReserveFailed); }
        approved := approved.(deposit := config.approvalDeposit);
      }
      approved := approved.(amount := SatAdd128(approved.amount, amount));
      approvals := approvals[(owner, delegate) := approved];
      details := Some(d);
      return Ok(0);
    }

    method CancelApproval(owner: AccountId, delegate: AccountId, checkAdmin: Option<AccountId>) returns (r: Result<nat, Error>)
      modifies this
      ensures Step(Snapshot(), r) == AssetsSpec.CancelApproval(old(Snapshot()), owner, delegate, checkAdmin)
    {
      if details.None? { return Err(Unknown); }
      var d := details.value;
      if d.status != Live { return Err(AssetNotLive); }
      if checkAdmin.Some? && checkAdmin.value != d.admin { return Err(NoPermission); }
      if (owner, delegate) !in approvals { return Err(Unknown); }
      approvals := approvals - {(owner, delegate)};
      details := Some(d.(approvals := SatSub(d.approvals, 1)));
      return Ok(0);
    }

    method TransferApproved(e: Env, owner: AccountId, delegate: AccountId, dest: AccountId, amount: Balance) returns (r: Result<nat, Error>)
      modifies this
      ensures Step(Snapshot(), r) == AssetsSpec.TransferApproved(e, old(Snapshot()), owner, delegate, dest, amount)
    {
      if details.None? { return Err(Unknown); }
      if details.value.status != Live { return Err(AssetNotLive); }
      if (owner, delegate) !in approvals { return Err(Unapproved); }
      var approved := approvals[(owner, delegate)];
      if approved.amount < amount { return Err(Unapproved); }
      ghost var s0 := Snapshot();
      r := Transfer(e, owner, dest, amount, None, TransferFlags(false, false, false));
      if r.Err? {
        assert Snapshot() == s0;
        return;
      }
      if approved.amount == amount {
        if details.Some? {
          approvals := approvals - {(owner, delegate)};
          details := Some(details.value.(approvals := SatSub(details.value.approvals, 1)));
        }
      } else {
        approvals := approvals[(owner, delegate) := approved.(amount := approved.amount - amount)];
      }
    }

    // ---- Creation and destruction.

    method Create(e: Env, owner: AccountId, admin: AccountId, minBalance: Balance) returns (r: Result<nat, Error>)
      modifies this
      ensures Step(Snapshot(), r) == AssetsSpec.Create(config, e, old(Snapshot()), owner, admin, minBalance)
    {
      if details.Some? { return Err(InUse); }
      if minBalance == 0 { return Err(MinBalanceZero); }
      if !e.reserveOk { return Err(ReserveFailed); }
      if !e.callbackOk { return Err(CallbackFailed); }
      details := Some(FreshDetails(owner, admin, config.assetDeposit, minBalance, false));
      return Ok(0);
    }

    method StartDestroy(checkOwner: Option<AccountId>) returns (r: Result<nat, Error>)
      modifies this
      ensures Step(Snapshot(), r) == AssetsSpec.StartDestroy(old(Snapshot()), checkOwner)
    {
      if details.None? { return Err(Unknown); }
      if checkOwner.Some? && checkOwner.value != details.value.owner { return Err(NoPermission); }
      details := Some(details.value.(status := Destroying));
      return Ok(0);
    }

    /** Removes one holder and everything locked for it. */
    method DestroyAccount(who: AccountId)
      requires details.Some? && who in accounts
      modifies `details, `accounts, `locks, `locked
      ensures details == Some(AssetsSpec.DeadAccount(old(details).value, old(accounts)[who].reason, true).0)
      ensures accounts == old(accounts) - {who} && locks == old(locks) - {who} && locked == old(locked) - {who}
    {
      var reason := accounts[who].reason;
      accounts := accounts - {who};
      var _ := DeadAccount(reason, true);
      locks := locks - {who};
      locked := locked - {who};
    }

    /** `order` is the storage iteration order of the holders; the loop stops after the configured number of them. */
    method DestroyAccounts(order: seq<AccountId>) returns (r: Result<nat, Error>)
      requires Distinct(order) && forall who :: who in order ==> who in accounts
      modifies this
      ensures Step(Snapshot(), r) == AssetsSpec.DestroyAccounts(config, old(Snapshot()), order)
    {
      if details.None? { return Err(Unknown); }
      if details.value.status != Destroying { return Err(IncorrectStatus); }
      ghost var s0 := Snapshot();
      var removed := 0;
      while removed < |order|
        invariant 0 <= removed <= |order| && details.Some?
        invariant Snapshot() == DrainAccounts(s0, order[..removed])
        invariant removed > 0 && removed >= config.removeLimit ==> removed == Max(1, config.removeLimit)
        invariant forall i :: removed <= i < |order| ==> order[i] in accounts
      {
        if removed > 0 && removed >= config.removeLimit { break; }
        assert order[..removed + 1][..removed] == order[..removed];
        DestroyAccount(order[removed]);
        removed := removed + 1;
      }
      assert order[..removed] == Batch(config, order);
      return Ok(removed);
    }

    /** `order` is the storage iteration order of the approvals. */
    method DestroyApprovals(order: seq<(AccountId, AccountId)>) returns (r: Result<nat, Error>)
      modifies this
      ensures Step(Snapshot(), r) == AssetsSpec.DestroyApprovals(config, old(Snapshot()), order)
    {
      if details.None? { return Err(Unknown); }
      if details.value.status != Destroying { return Err(IncorrectStatus); }
      ghost var s0 := Snapshot();
      var removed := 0;
      while removed < |order|
        invariant 0 <= removed <= |order| && details.Some?
        invariant Snapshot() == DrainApprovals(s0, order[..removed])
        invariant removed > 0 && removed >= config.removeLimit ==> removed == Max(1, config.removeLimit)
      {
        if removed > 0 && removed >= config.removeLimit { break; }
        assert order[..removed + 1][..removed] == order[..removed];
        approvals := approvals - {order[removed]};
        details := Some(details.value.(approvals := SatSub(details.value.approvals, 1)));
        removed := removed + 1;
      }
      assert order[..removed] == Batch(config, order);
      return Ok(removed);
    }

    method FinishDestroy(e: Env, survivors: set<AccountId>) returns (r: Result<nat, Error>)
      modifies this
      ensures Step(Snapshot(), r) == AssetsSpec.FinishDestroy(e, old(Snapshot()), survivors)
    {
      if details.None? { return Err(Unknown); }
      var d := details.value;
      if d.status != Destroying { return Err(IncorrectStatus); }
      if d.accounts != 0 { return Err(InUse); }
      if d.approvals != 0 { return Err(InUse); }
      if !e.callbackOk { return Err(CallbackFailed); }
      locks := locks - (locks.Keys - survivors);
      locked := locked - (locked.Keys - survivors);
      details := None;
      return Ok(0);
    }

    method ForceCreate(e: Env, owner: AccountId, isSufficient: bool, minBalance: Balance) returns (r: Result<nat, Error>)
      modifies this
      ensures Step(Snapshot(), r) == AssetsSpec.ForceCreate(e, old(Snapshot()), owner, isSufficient, minBalance)
    {
      if details.Some? { return Err(InUse); }
      if minBalance == 0 { return Err(MinBalanceZero); }
      if !e.callbackOk { return Err(CallbackFailed); }
      details := Some(FreshDetails(owner, owner, 0, minBalance, isSufficient));
      return Ok(0);
    }

    // ---- Administration.

    method SetAccountStatus(origin: AccountId, who: AccountId, status: AccountStatus) returns (r: Result<nat, Error>)
      modifies this
      ensures Step(Snapshot(), r) == AssetsSpec.SetAccountStatus(old(Snapshot()), origin, who, status)
    {
      if details.None? { return Err(Unknown); }
      var d := details.value;
      if d.status != Live && d.status != Frozen { return Err(AssetNotLive); }
      if origin != (if status == Liquid then d.admin else d.freezer) { return Err(NoPermission); }
      if who !in accounts { return Err(NoAccount); }
      accounts := accounts[who := accounts[who].(status := status)];
      return Ok(0);
    }

    method FreezeAsset(origin: AccountId) returns (r: Result<nat, Error>)
      modifies this
      ensures Step(Snapshot(), r) == AssetsSpec.FreezeAsset(old(Snapshot()), origin)
    {
      if details.None? { return Err(Unknown); }
      if details.value.status != Live { return Err(AssetNotLive); }
      if origin != details.value.freezer { return Err(NoPermission); }
      details := Some(details.value.(status := Frozen));
      return Ok(0);
    }

    method ThawAsset(origin: AccountId) returns (r: Result<nat, Error>)
      modifies this
      ensures Step(Snapshot(), r) == AssetsSpec.ThawAsset(old(Snapshot()), origin)
    {
      if details.None? { return Err(Unknown); }
      if origin != details.value.admin { return Err(NoPermission); }
      if details.value.status != Frozen { return Err(NotFrozen); }
      details := Some(details.value.(status := Live));
      return Ok(0);
    }

    method TransferOwnership(e: Env, origin: AccountId, owner: AccountId) returns (r: Result<nat, Error>)
      modifies this
      ensures Step(Snapshot(), r) == AssetsSpec.TransferOwnership(e, old(Snapshot()), origin, owner)
    {
      if details.None? { return Err(Unknown); }
      if details.value.status != Live { return Err(LiveAsset); }
      if origin != details.value.owner { return Err(NoPermission); }
      if details.value.owner == owner { return Ok(0); }
      if !e.reserveOk { return Err(ReserveFailed); }
      details := Some(details.value.(owner := owner));
      return Ok(0);
    }

    method SetTeam(origin: AccountId, issuer: AccountId, admin: AccountId, freezer: AccountId) returns (r: Result<nat, Error>)
      modifies this
      ensures Step(Snapshot(), r) == AssetsSpec.SetTeam(old(Snapshot()), origin, issuer, admin, freezer)
    {
      if details.None? { return Err(Unknown); }
      var d := details.value;
      if d.status != Live { return Err(AssetNotLive); }
      if origin != d.owner { return Err(NoPermission); }
      d := d.(issuer := issuer);
      d := d.(admin := admin);
      d := d.(freezer := freezer);
      details := Some(d);
      return Ok(0);
    }

    method SetMinBalance(origin: AccountId, minBalance: Balance) returns (r: Result<nat, Error>)
      modifies this
      ensures Step(Snapshot(), r) == AssetsSpec.SetMinBalance(old(Snapshot()), origin, minBalance)
    {
      if details.None? { return Err(Unknown); }
      var d := details.value;
      if origin != d.owner { return Err(NoPermission); }
      if d.isSufficient { return Err(NoPermission); }
      if !(minBalance < d.minBalance || d.accounts == 0) { return Err(NoPermission); }
      details := Some(d.(minBalance := minBalance));
      return Ok(0);
    }

    method ForceAssetStatus(owner: AccountId, issuer: AccountId, admin: AccountId, freezer: AccountId,
                            minBalance: Balance, isSufficient: bool, isFrozen: bool)
      returns (r: Result<nat, Error>)
      modifies this
      ensures Step(Snapshot(), r) ==
              AssetsSpec.ForceAssetStatus(old(Snapshot()), owner, issuer, admin, freezer, minBalance, isSufficient, isFrozen)
    {
      if details.None? { return Err(Unknown); }
      var d := details.value;
      if d.status == Destroying { return Err(AssetNotLive); }
      d := d.(owner := owner, issuer := issuer, admin := admin, freezer := freezer);
      d := d.(minBalance := minBalance);
      d := d.(isSufficient := isSufficient);
      if isFrozen {
        d := d.(status := Frozen);
      } else {
        d := d.(status := Live);
      }
      details := Some(d);
      return Ok(0);
    }

    // ---- Any call.

    /** One call from outside, which keeps storage in agreement under the side conditions of `Sane`. */
    method Dispatch(e: Env, call: Call) returns (r: Result<nat, Error>)
      requires call.DoDestroyAccounts? ==> Enumerates(call.holders, accounts.Keys)
      modifies this
      ensures Step(Snapshot(), r) == Exec(config, e, old(Snapshot()), call)
      ensures old(Valid() && AssetsRuns.Sane(Snapshot(), call)) ==> Valid()
    {
      if Valid() && AssetsRuns.Sane(Snapshot(), call) {
        AssetsRuns.ExecKeeps(config, e, Snapshot(), call);
      }
      match call
      case DoCreate(who, admin, minBalance) => r := Create(e, who, admin, minBalance);
      case DoForceCreate(owner, isSufficient, minBalance) => r := ForceCreate(e, owner, isSufficient, minBalance);
      case DoStartDestroy(checkOwner) => r := StartDestroy(checkOwner);
      case DoDestroyAccounts(holders) => r := DestroyAccounts(holders);
      case DoDestroyApprovals(keys) => r := DestroyApprovals(keys);
      case DoFinishDestroy(survivors) => r := FinishDestroy(e, survivors);
      case DoMint(who, beneficiary, amount) => r := Mint(e, beneficiary, amount, Some(who));
      case DoBurn(who, target, amount) => r := Burn(e, target, amount, Some(who), DebitFlags(false, true));
      case DoTransfer(source, dest, amount, needAdmin, keepAlive) =>
        r := Transfer(e, source, dest, amount, needAdmin, TransferFlags(keepAlive, false, false));
      case DoSetAccountStatus(who, target, status) => r := SetAccountStatus(who, target, status);
      case DoFreezeAsset(who) => r := FreezeAsset(who);
      case DoThawAsset(who) => r := ThawAsset(who);
      case DoTransferOwnership(who, owner) => r := TransferOwnership(e, who, owner);
      case DoSetTeam(who, issuer, admin, freezer) => r := SetTeam(who, issuer, admin, freezer);
      case DoSetMinBalance(who, minBalance) => r := SetMinBalance(who, minBalance);
      case DoForceAssetStatus(owner, issuer, admin, freezer, minBalance, isSufficient, isFrozen) =>
        r := ForceAssetStatus(owner, issuer, admin, freezer, minBalance, isSufficient, isFrozen);
      case DoApprove(owner, delegate, amount) => r := Approve(e, owner, delegate, amount);
      case DoCancelApproval(owner, delegate, checkAdmin) => r := CancelApproval(owner, delegate, checkAdmin);
      case DoTransferApproved(owner, delegate, dest, amount) => r := TransferApproved(e, owner, delegate, dest, amount);
      case DoTouch(who, depositor, checkDepositor) => r := Touch(e, who, depositor, checkDepositor);
      case DoRefund(who, allowBurn) => r := Refund(who, allowBurn);
      case DoRefundOther(target, who) => r := RefundOther(target, who);
      case DoTransferAndLock(source, dest, amount, duration, keepAlive) =>
        r := TransferAndLock(e, source, dest, amount, duration, keepAlive);
      case DoUnlock(who, id) => r := Unlock(e, who, id);
      case DoForceRemoveLock(target, id) => r := ForceRemoveLock(target, id);
    }
  }
}
