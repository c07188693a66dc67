/** Holders that exist without a deposit always hold the minimum balance. */
module AssetsMinimum {
  import opened Prelude
  import opened AssetsSpec
  import opened AssetsInvariant
  import opened AssetsSteps

  ghost predicate AllMinimal(s: State) {
    s.details.Some? ==> Minimal(s.details.value.minBalance, s.accounts)
  }

  lemma CreditMinimal(e: Env, d: Details, accounts: Accounts, who: AccountId, amount: Balance)
    requires HasRoom(d, accounts, who) && Credit(e, d, accounts, who, amount).Ok?
    requires Minimal(d.minBalance, accounts) && (who in accounts || amount >= d.minBalance)
    ensures var (d1, accounts1) := Credit(e, d, accounts, who, amount).value;
            d1.minBalance == d.minBalance && Minimal(d.minBalance, accounts1)
  {
  }

  /** A debit removes a holder it brings below the minimum, unless a deposit keeps it. */
  lemma DebitMinimal(d: Details, accounts: Accounts, who: AccountId, amount: Balance)
    requires who in accounts && Minimal(d.minBalance, accounts)
    ensures var (d1, accounts1) := Debit(d, accounts, who, amount);
            d1.minBalance == d.minBalance && Minimal(d.minBalance, accounts1)
  {
  }

  lemma MovedMinimal(e: Env, d: Details, accounts: Accounts, source: AccountId, dest: AccountId, p: Prepared)
    requires source in accounts && HasRoom(d, accounts, dest) && Moved(e, d, accounts, source, dest, p).Ok?
    requires Minimal(d.minBalance, accounts) && (dest in accounts || p.credit >= d.minBalance)
    ensures var (d1, accounts1) := Moved(e, d, accounts, source, dest, p).value;
            d1.minBalance == d.minBalance && Minimal(d.minBalance, accounts1)
  {
    var d0 := d.(supply := SatSub(d.supply, p.burn));
    CreditMinimal(e, d0, accounts, dest, p.credit);
    var (d1, accounts1) := Credit(e, d0, accounts, dest, p.credit).value;
    DebitMinimal(d1, accounts1, source, p.debit);
  }

  lemma TransferMinimal(e: Env, s: State, source: AccountId, dest: AccountId, amount: Balance, needAdmin: Option<AccountId>, f: TransferFlags)
    requires AllMinimal(s)
    ensures AllMinimal(Transfer(e, s, source, dest, amount, needAdmin, f).s)
  {
    var step := Transfer(e, s, source, dest, amount, needAdmin, f);
    if step.r.Ok? && amount > 0 && source != dest {
      MovedMinimal(e, s.details.value, s.accounts, source, dest, PrepTransfer(e, s.details, s.accounts, source, dest, amount, f).value);
    }
  }

  lemma ApprovedMinimal(e: Env, s: State, owner: AccountId, delegate: AccountId, dest: AccountId, amount: Balance)
    requires AllMinimal(s)
    ensures AllMinimal(TransferApproved(e, s, owner, delegate, dest, amount).s)
  {
    TransferMinimal(e, s, owner, dest, amount, None, TransferFlags(false, false, false));
  }

  lemma TransferLockedMinimal(c: Config, e: Env, s: State, source: AccountId, dest: AccountId, amount: Balance, duration: BlockNumber,
                              needAdmin: Option<AccountId>, f: TransferFlags)
    requires AllMinimal(s)
    ensures AllMinimal(TransferLocked(c, e, s, source, dest, amount, duration, needAdmin, f).s)
  {
    var step := TransferLocked(c, e, s, source, dest, amount, duration, needAdmin, f);
    if step.r.Ok? && amount > 0 && source != dest {
      var (d, p) := (s.details.value, PrepTransfer(e, s.details, s.accounts, source, dest, amount, f).value);
      DebitMinimal(d.(supply := SatSub(d.supply, p.burn)), s.accounts, source, p.debit);
    }
  }

  lemma MintMinimal(e: Env, s: State, beneficiary: AccountId, amount: Balance, checkIssuer: Option<AccountId>)
    requires AllMinimal(s)
    ensures AllMinimal(Mint(e, s, beneficiary, amount, checkIssuer).s)
  {
    var step := Mint(e, s, beneficiary, amount, checkIssuer);
    if step.r.Ok? && amount > 0 {
      var d := s.details.value;
      CreditMinimal(e, d.(supply := SatAdd128(d.supply, amount)), s.accounts, beneficiary, amount);
    }
  }

  lemma BurnMinimal(e: Env, s: State, target: AccountId, amount: Balance, checkAdmin: Option<AccountId>, f: DebitFlags)
    requires AllMinimal(s)
    ensures AllMinimal(Burn(e, s, target, amount, checkAdmin, f).s)
  {
    var step := Burn(e, s, target, amount, checkAdmin, f);
    if step.r.Ok? && amount > 0 {
      BurnShape(e, s, target, amount, checkAdmin, f);
      var (d, actual) := (s.details.value, PrepDebit(e, s.details, s.accounts, target, amount, f).value);
      DebitMinimal(d.(supply := SatSub(d.supply, actual)), s.accounts, target, actual);
    }
  }

  lemma UnlockMinimal(e: Env, s: State, who: AccountId, id: u32)
    requires AllMinimal(s)
    ensures AllMinimal(Unlock(e, s, who, id).s)
  {
    if Unlock(e, s, who, id).r.Ok? {
      CreditMinimal(e, s.details.value, s.accounts, who, LocksOf(s.locks, who)[id].balance);
    }
  }

  /** A higher minimum is accepted only when there are no holders. */
  lemma SetMinBalanceMinimal(s: State, origin: AccountId, minBalance: Balance)
    requires Inv(s) && AllMinimal(s)
    ensures AllMinimal(SetMinBalance(s, origin, minBalance).s)
  {
    if SetMinBalance(s, origin, minBalance).r.Ok? && s.details.value.accounts == 0 {
      assert |s.accounts| == 0;
    }
  }

  /** The other calls add no holder without a deposit, take nothing and leave the minimum alone. */
  lemma OthersMinimal(c: Config, e: Env, s: State, call: Call)
    requires Inv(s) && AllMinimal(s)
    requires call.DoCreate? || call.DoForceCreate? || call.DoStartDestroy? || call.DoFinishDestroy?
      || call.DoFreezeAsset? || call.DoThawAsset? || call.DoTransferOwnership? || call.DoSetTeam? || call.DoApprove? || call.DoCancelApproval?
      || call.DoForceRemoveLock?
    ensures AllMinimal(Exec(c, e, s, call).s)
  {
  }

  lemma HoldersMinimal(c: Config, e: Env, s: State, call: Call)
    requires AllMinimal(s)
    requires call.DoSetAccountStatus? || call.DoTouch? || call.DoRefund? || call.DoRefundOther?
    ensures AllMinimal(Exec(c, e, s, call).s)
  {
  }

  lemma DrainMinimal(c: Config, s: State, order: seq<AccountId>)
    requires AllMinimal(s)
    ensures AllMinimal(DestroyAccounts(c, s, order).s)
  {
    if DestroyAccounts(c, s, order).r.Ok? {
      DrainedMinimal(s, Batch(c, order));
    }
  }

  lemma {:induction false} DrainedMinimal(s: State, ws: seq<AccountId>)
    requires AllMinimal(s) && s.details.Some?
    ensures AllMinimal(DrainAccounts(s, ws))
  {
    if ws != [] {
      DrainedMinimal(s, ws[..|ws| - 1]);
    }
  }

  lemma {:induction false} DrainedApprovalsMinimal(s: State, ks: seq<(AccountId, AccountId)>)
    requires AllMinimal(s) && s.details.Some?
    ensures AllMinimal(DrainApprovals(s, ks))
  {
    if ks != [] {
      DrainedApprovalsMinimal(s, ks[..|ks| - 1]);
    }
  }

  lemma MoversMinimal(c: Config, e: Env, s: State, call: Call)
    requires AllMinimal(s)
    requires call.DoMint? || call.DoBurn? || call.DoTransfer? || call.DoTransferApproved? || call.DoTransferAndLock? || call.DoUnlock?
    ensures AllMinimal(Exec(c, e, s, call).s)
  {
    match call
    case DoMint(who, beneficiary, amount) => MintMinimal(e, s, beneficiary, amount, Some(who));
    case DoBurn(who, target, amount) => BurnMinimal(e, s, target, amount, Some(who), DebitFlags(false, true));
    case DoTransfer(source, dest, amount, needAdmin, keepAlive) =>
      TransferMinimal(e, s, source, dest, amount, needAdmin, TransferFlags(keepAlive, false, false));
    case DoTransferApproved(owner, delegate, dest, amount) => ApprovedMinimal(e, s, owner, delegate, dest, amount);
    case DoTransferAndLock(source, dest, amount, duration, keepAlive) =>
      TransferLockedMinimal(c, e, s, source, dest, amount, duration, None, TransferFlags(keepAlive, false, false));
    case DoUnlock(who, id) => UnlockMinimal(e, s, who, id);
  }

  lemma UnforcedMinimal(c: Config, e: Env, s: State, call: Call)
    requires Inv(s) && AllMinimal(s) && !call.DoForceAssetStatus?
    ensures AllMinimal(Exec(c, e, s, call).s)
  {
    if call.DoMint? || call.DoBurn? || call.DoTransfer? || call.DoTransferApproved? || call.DoTransferAndLock? || call.DoUnlock? {
      MoversMinimal(c, e, s, call);
    } else if call.DoSetAccountStatus? || call.DoTouch? || call.DoRefund? || call.DoRefundOther? {
      HoldersMinimal(c, e, s, call);
    } else if call.DoSetMinBalance? {
      SetMinBalanceMinimal(s, call.who, call.minBalance);
    } else if call.DoDestroyAccounts? {
      DrainMinimal(c, s, call.holders);
    } else if call.DoDestroyApprovals? {
      if DestroyApprovals(c, s, call.keys).r.Ok? {
        DrainedApprovalsMinimal(s, Batch(c, call.keys));
      }
    } else {
      OthersMinimal(c, e, s, call);
    }
  }

  /** The call does not set, by force, a minimum that some holder without a deposit does not reach. */
  ghost predicate Reachable(s: State, call: Call) {
    call.DoForceAssetStatus? && s.details.Some? && s.details.value.status != Destroying ==> Minimal(call.minBalance, s.accounts)
  }

  /** Every holder without a deposit stays at the minimum or above, exactly unless root sets one out of reach. */
  lemma ExecMinimal(c: Config, e: Env, s: State, call: Call)
    requires Inv(s) && AllMinimal(s)
    ensures AllMinimal(Exec(c, e, s, call).s) <==> Reachable(s, call)
  {
    if !call.DoForceAssetStatus? {
      UnforcedMinimal(c, e, s, call);
    }
  }
}
