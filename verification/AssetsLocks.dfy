/** The time lock: parking and releasing amounts to one transfer, and exactly when a release goes through. */
module AssetsLocks {
  import opened Prelude
  import opened MapSum
  import opened AssetsSpec
  import opened AssetsInvariant
  import opened AssetsSteps

  // ---- The two halves commute.

  /** Debiting one account and crediting another can be done in either order. */
  lemma DebitCreditCommute(e: Env, e': Env, d: Details, accounts: Accounts, source: AccountId, dest: AccountId, debit: Balance, credit: Balance)
    requires source in accounts && source != dest && HasRoom(d, accounts, dest)
    requires d.accounts > 0 && (accounts[source].reason.Sufficient? ==> d.sufficients > 0)
    requires Credit(e, d, accounts, dest, credit).Ok?
    requires var (d1, accounts1) := Debit(d, accounts, source, debit);
             HasRoom(d1, accounts1, dest) && Credit(e', d1, accounts1, dest, credit).Ok?
    ensures var (d1, accounts1) := Debit(d, accounts, source, debit);
            var (d2, accounts2) := Credit(e, d, accounts, dest, credit).value;
            Credit(e', d1, accounts1, dest, credit).value == Debit(d2, accounts2, source, debit)
  {
    var (d1, accounts1) := Debit(d, accounts, source, debit);
    var (d2, accounts2) := Credit(e, d, accounts, dest, credit).value;
    var left, right := Credit(e', d1, accounts1, dest, credit).value, Debit(d2, accounts2, source, debit);
    assert left.0 == right.0;
    assert left.1 == right.1;
  }

  /** A holder is counted. */
  lemma SourceCounted(d: Details, accounts: Accounts, source: AccountId)
    requires HoldersCounted(d, accounts) && source in accounts
    ensures d.accounts > 0 && (accounts[source].reason.Sufficient? ==> d.sufficients > 0)
  {
    SumAtLeast(accounts, source, SelfSufficient());
  }

  /** What the cache and the lock map of one receiver say about each other. */
  lemma CacheFacts(locks: Locks, locked: Cache, dest: AccountId)
    requires LocksOk(locks, locked)
    ensures LockedOf(locked, dest) == LockSum(LocksOf(locks, dest))
    ensures (dest in locks <==> dest in locked) && (dest in locks ==> locks[dest] != map[])
  {
    if dest in locks {
      assert LockMapOk(locks[dest], locked[dest]);
    }
  }

  lemma LockStored(locks: Locks, locked: Cache, dest: AccountId, lock: Lock)
    requires AddLock(locks, locked, dest, lock).Ok?
    ensures NewLockId(locks, dest).Some?
    ensures var (id, locks1) := (NewLockId(locks, dest).value, AddLock(locks, locked, dest, lock).value.0);
            id in LocksOf(locks1, dest) && LocksOf(locks1, dest)[id] == lock
  {
    AddLockShape(locks, locked, dest, lock);
  }

  /** Dropping the lock just added restores locks and cache. */
  lemma LockRoundTrip(locks: Locks, locked: Cache, dest: AccountId, lock: Lock)
    requires (dest in locks <==> dest in locked) && (dest in locks ==> locks[dest] != map[])
    requires AddLock(locks, locked, dest, lock).Ok? && LockedOf(locked, dest) + lock.balance <= U128_MAX
    requires NewLockId(locks, dest).Some?
    requires var (id, locks1) := (NewLockId(locks, dest).value, AddLock(locks, locked, dest, lock).value.0);
             id in LocksOf(locks1, dest) && LocksOf(locks1, dest)[id] == lock
    ensures var (locks1, locked1) := AddLock(locks, locked, dest, lock).value;
            DropLock(locks1, locked1, dest, NewLockId(locks, dest).value) == (locks, locked)
  {
    AddLockShape(locks, locked, dest, lock);
    NewLockIdFacts(locks, dest);
    var id := NewLockId(locks, dest).value;
    var m := LocksOf(locks, dest);
    assert m[id := lock] - {id} == m;
    DropRestores(locks, locked, dest, m[id := lock], id);
  }

  lemma DropRestores(locks: Locks, locked: Cache, dest: AccountId, m: LockMap, id: u32)
    requires id in m && m - {id} == LocksOf(locks, dest) && (dest in locks ==> locks[dest] != map[])
    requires dest in locks <==> dest in locked
    requires LockedOf(locked, dest) + m[id].balance <= U128_MAX
    ensures DropLock(locks[dest := m], locked[dest := LockedOf(locked, dest) + m[id].balance], dest, id) == (locks, locked)
  {
    if dest in locks {
      assert locks[dest := m][dest := locks[dest]] == locks;
      assert locked[dest := locked[dest] + m[id].balance][dest := locked[dest]] == locked;
    } else {
      assert locks[dest := m] - {dest} == locks;
      assert locked[dest := m[id].balance] - {dest} == locked;
    }
  }

  lemma TransferLockedShape(c: Config, e: Env, s: State, source: AccountId, dest: AccountId, amount: Balance, duration: BlockNumber,
                            needAdmin: Option<AccountId>, f: TransferFlags)
    requires amount > 0 && source != dest && TransferLocked(c, e, s, source, dest, amount, duration, needAdmin, f).r.Ok?
    ensures PrepTransfer(e, s.details, s.accounts, source, dest, amount, f).Ok?
    ensures var p := PrepTransfer(e, s.details, s.accounts, source, dest, amount, f).value;
            var added := AddLock(s.locks, s.locked, dest, Lock(source, p.credit, SatAdd32(duration, e.now)));
            && added.Ok?
            && var after := Parked(s.details.value, s.accounts, source, p);
               TransferLocked(c, e, s, source, dest, amount, duration, needAdmin, f) ==
               Done(State(Some(after.0), after.1, s.approvals, added.value.0, added.value.1), p.credit)
  {
  }

  lemma TransferShape(e: Env, s: State, source: AccountId, dest: AccountId, amount: Balance, needAdmin: Option<AccountId>, f: TransferFlags)
    requires amount > 0 && source != dest && Transfer(e, s, source, dest, amount, needAdmin, f).r.Ok?
    ensures PrepTransfer(e, s.details, s.accounts, source, dest, amount, f).Ok?
    ensures var p := PrepTransfer(e, s.details, s.accounts, source, dest, amount, f).value;
            && Moved(e, s.details.value, s.accounts, source, dest, p).Ok?
            && var after := Moved(e, s.details.value, s.accounts, source, dest, p).value;
               Transfer(e, s, source, dest, amount, needAdmin, f) ==
               Done(State(Some(after.0), after.1, s.approvals, s.locks, s.locked), p.credit)
  {
  }

  lemma UnlockShape(e: Env, s: State, who: AccountId, id: u32)
    requires Unlock(e, s, who, id).r.Ok?
    ensures s.details.Some? && id in LocksOf(s.locks, who) && HasRoom(s.details.value, s.accounts, who)
    ensures var credited := Credit(e, s.details.value, s.accounts, who, LocksOf(s.locks, who)[id].balance);
            && credited.Ok?
            && var dropped := DropLock(s.locks, s.locked, who, id);
               Unlock(e, s, who, id).s == State(Some(credited.value.0), credited.value.1, s.approvals, dropped.0, dropped.1)
  {
  }

  /**
    Parking an amount and, once it is due, releasing it has the same effect on
    the whole storage as one plain transfer with the same flags.
  */
  lemma LockThenUnlock(c: Config, e: Env, e': Env, s: State, source: AccountId, dest: AccountId, amount: Balance, duration: BlockNumber,
                       needAdmin: Option<AccountId>, f: TransferFlags)
    requires Inv(s) && s.details.Some? && source != dest && amount > 0 && !f.bestEffort
    requires Transfer(e, s, source, dest, amount, needAdmin, f).r.Ok?
    requires TransferLocked(c, e, s, source, dest, amount, duration, needAdmin, f).r.Ok?
    requires NewLockId(s.locks, dest).Some?
    requires Unlock(e', TransferLocked(c, e, s, source, dest, amount, duration, needAdmin, f).s, dest, NewLockId(s.locks, dest).value).r.Ok?
    ensures Unlock(e', TransferLocked(c, e, s, source, dest, amount, duration, needAdmin, f).s, dest, NewLockId(s.locks, dest).value).s ==
            Transfer(e, s, source, dest, amount, needAdmin, f).s
  {
    var s1, id := TransferLocked(c, e, s, source, dest, amount, duration, needAdmin, f).s, NewLockId(s.locks, dest).value;
    TransferLockedShape(c, e, s, source, dest, amount, duration, needAdmin, f);
    TransferShape(e, s, source, dest, amount, needAdmin, f);
    var p := PrepTransfer(e, s.details, s.accounts, source, dest, amount, f).value;
    LockFits(e, s, source, dest, amount, f);
    CacheFacts(s.locks, s.locked, dest);
    LockStored(s.locks, s.locked, dest, Lock(source, p.credit, SatAdd32(duration, e.now)));
    LockRoundTrip(s.locks, s.locked, dest, Lock(source, p.credit, SatAdd32(duration, e.now)));
    UnlockShape(e', s1, dest, id);
    SourceCounted(s.details.value, s.accounts, source);
    var d := s.details.value;
    DebitCreditCommute(e, e', d.(supply := SatSub(d.supply, p.burn)), s.accounts, source, dest, p.debit, p.credit);
  }

  /** A receiver's locks never overflow the cache. */
  lemma LockFits(e: Env, s: State, source: AccountId, dest: AccountId, amount: Balance, f: TransferFlags)
    requires Inv(s) && s.details.Some? && amount > 0 && !f.bestEffort
    requires PrepTransfer(e, s.details, s.accounts, source, dest, amount, f).Ok?
    ensures LockSum(LocksOf(s.locks, dest)) + PrepTransfer(e, s.details, s.accounts, source, dest, amount, f).value.credit <= U128_MAX
  {
    PreparedFacts(e, s.details, s.accounts, source, dest, amount, f);
    HeldPart(s.accounts, source);
    LockSumPart(s.locks, dest);
  }

  // ---- When a release goes through.

  /** The receiver can be credited without the supply growing. */
  predicate Receivable(e: Env, d: Details, accounts: Accounts, who: AccountId, amount: Balance) {
    if who in accounts then accounts[who].status != Blocked
    else amount >= d.minBalance && d.accounts < U32_MAX && (d.isSufficient || who in e.consumers)
  }

  lemma LockPart(locks: Locks, who: AccountId, id: u32)
    requires id in LocksOf(locks, who)
    ensures LocksOf(locks, who)[id].balance <= LockedUp(locks)
  {
    SumAtLeast<u32, Lock>(locks[who], id, LockBalances());
    LockSumPart(locks, who);
  }

  /**
    A due lock is released exactly when the receiver can be credited and the
    supply plus the lock still fits: the release is checked as if it were a
    mint, so a lock can be refused although nothing would be created.
  */
  lemma UnlockIff(e: Env, s: State, who: AccountId, id: u32)
    requires Inv(s) && s.details.Some? && s.details.value.status == Live
    requires id in LocksOf(s.locks, who) && e.now >= LocksOf(s.locks, who)[id].unlockTime
    ensures var (d, amount) := (s.details.value, LocksOf(s.locks, who)[id].balance);
            Unlock(e, s, who, id).r.Ok? <==> d.supply + amount <= U128_MAX && Receivable(e, d, s.accounts, who, amount)
  {
    LockPart(s.locks, who, id);
    if who in s.accounts {
      HeldPart(s.accounts, who);
    } else {
      SufficientsBelow(s.accounts);
    }
  }

  /** There are no more sufficient holders than holders. */
  lemma {:induction false} SufficientsBelow(accounts: Accounts)
    ensures Sum(accounts, SelfSufficient()) <= |accounts|
    decreases |accounts|
  {
    if accounts != map[] {
      var who :| who in accounts;
      SumDrop(accounts, who, SelfSufficient());
      SizeDrop(accounts, who);
      SufficientsBelow(accounts - {who});
    }
  }

  /** With the supply at its maximum no lock can be released, however long it has been due. */
  lemma FullSupplyBlocksUnlock(e: Env, s: State, who: AccountId, id: u32)
    requires s.details.Some? && s.details.value.status == Live && s.details.value.supply == U128_MAX
    requires id in LocksOf(s.locks, who) && LocksOf(s.locks, who)[id].balance > 0 && e.now >= LocksOf(s.locks, who)[id].unlockTime
    ensures Unlock(e, s, who, id) == Fail(s, Overflow)
  {
  }
}
