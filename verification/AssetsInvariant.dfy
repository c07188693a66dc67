/** What the storage maps of an asset always agree on, and how each kind of edit keeps them in agreement. */
module AssetsInvariant {
  import opened Prelude
  import opened MapSum
  import opened AssetsSpec
  import opened AssetsDebits

  // ---- Sums.

  ghost function Balances(): (AccountId, Account) -> nat {
    (who: AccountId, account: Account) => account.balance
  }

  ghost function SelfSufficient(): (AccountId, Account) -> nat {
    (who: AccountId, account: Account) => if account.reason.Sufficient? then 1 else 0
  }

  ghost function LockBalances(): (u32, Lock) -> nat {
    (id: u32, lock: Lock) => lock.balance
  }

  ghost function LockSums(): (AccountId, LockMap) -> nat {
    (who: AccountId, m: LockMap) => Sum(m, LockBalances())
  }

  /** Everything in accounts. */
  ghost function Held(accounts: Accounts): nat {
    Sum(accounts, Balances())
  }

  /** Everything in one receiver's locks. */
  ghost function LockSum(m: LockMap): nat {
    Sum(m, LockBalances())
  }

  /** Everything in locks. */
  ghost function LockedUp(locks: Locks): nat {
    Sum(locks, LockSums())
  }

  /** Supply that is neither in an account nor in a lock. */
  ghost function Slack(d: Details, accounts: Accounts, locks: Locks): int {
    d.supply - Held(accounts) - LockedUp(locks)
  }

  // ---- Agreement.

  ghost predicate HoldersCounted(d: Details, accounts: Accounts) {
    d.accounts == |accounts| && d.sufficients == Sum(accounts, SelfSufficient())
  }

  ghost predicate LockMapOk(m: LockMap, total: Balance) {
    && m != map[]
    && (forall id :: id in m ==> id < LOCK_LIMIT && m[id].balance > 0)
    && total == LockSum(m)
  }

  /** The cache is the sum of the locks, no lock map and no lock is empty, and ids stay below the limit. */
  ghost predicate LocksOk(locks: Locks, locked: Cache) {
    && locked.Keys == locks.Keys
    && (forall who :: who in locks ==> LockMapOk(locks[who], locked[who]))
  }

  /** Nobody holds on after the deposit went back, and holders without a deposit have the minimum. */
  ghost predicate Minimal(minBalance: Balance, accounts: Accounts) {
    forall who :: who in accounts && Mortal(accounts[who].reason) ==> accounts[who].balance >= minBalance
  }

  ghost predicate NoneRefunded(accounts: Accounts) {
    forall who :: who in accounts ==> !accounts[who].reason.DepositRefunded?
  }

  ghost predicate Inv(s: State) {
    && LocksOk(s.locks, s.locked)
    && NoneRefunded(s.accounts)
    && match s.details
       case None => s.accounts == map[] && s.approvals == map[]
       case Some(d) =>
         && HoldersCounted(d, s.accounts)
         && d.approvals == |s.approvals|
         && Slack(d, s.accounts, s.locks) >= 0
  }

  lemma EmptyInv()
    ensures Inv(Empty)
  {
  }

  // ---- Sizes.

  lemma SizeUpdate<K, V>(m: map<K, V>, k: K, v: V)
    ensures |m[k := v]| == |m| + if k in m then 0 else 1
  {
    assert m[k := v].Keys == m.Keys + {k};
  }

  lemma SizeDrop<K, V>(m: map<K, V>, k: K)
    ensures |m - {k}| == |m| - if k in m then 1 else 0
  {
    assert (m - {k}).Keys == m.Keys - {k};
  }

  // ---- Crediting and debiting one holder.

  /** A credit adds exactly its amount, and counts a holder it creates. */
  lemma CreditFacts(e: Env, d: Details, accounts: Accounts, who: AccountId, amount: Balance)
    requires HasRoom(d, accounts, who) && Credit(e, d, accounts, who, amount).Ok?
    requires HoldersCounted(d, accounts) && NoneRefunded(accounts)
    requires who in accounts ==> accounts[who].balance + amount <= U128_MAX
    ensures var (d1, accounts1) := Credit(e, d, accounts, who, amount).value;
            && HoldersCounted(d1, accounts1) && NoneRefunded(accounts1)
            && Held(accounts1) == Held(accounts) + amount
            && d1 == d.(accounts := d1.accounts, sufficients := d1.sufficients)
            && who in accounts1 && accounts1 == accounts[who := accounts1[who]]
  {
    var (d1, accounts1) := Credit(e, d, accounts, who, amount).value;
    var account := accounts1[who];
    SizeUpdate(accounts, who, account);
    SumUpdate(accounts, who, account, Balances());
    SumUpdate(accounts, who, account, SelfSufficient());
  }

  /** The remainder of a debit is nothing, the minimum or more, or kept by a deposit. */
  predicate LeavesNoDust(d: Details, account: Account, amount: Balance) {
    amount <= account.balance &&
    (account.balance == amount || account.balance - amount >= d.minBalance || !Mortal(account.reason))
  }

  /** A debit takes exactly its amount, and counts out a holder it removes. */
  lemma DebitFacts(d: Details, accounts: Accounts, who: AccountId, amount: Balance)
    requires who in accounts && LeavesNoDust(d, accounts[who], amount)
    requires HoldersCounted(d, accounts) && NoneRefunded(accounts)
    ensures var (d1, accounts1) := Debit(d, accounts, who, amount);
            && HoldersCounted(d1, accounts1) && NoneRefunded(accounts1)
            && Held(accounts1) == Held(accounts) - amount
            && d1 == d.(accounts := d1.accounts, sufficients := d1.sufficients)
            && accounts1 - {who} == accounts - {who}
  {
    var (d1, accounts1) := Debit(d, accounts, who, amount);
    SizeDrop(accounts, who);
    SumDrop(accounts, who, Balances());
    SumDrop(accounts, who, SelfSufficient());
    if who in accounts1 {
      var account := accounts1[who];
      SizeUpdate(accounts, who, account);
      SumUpdate(accounts, who, account, Balances());
      SumUpdate(accounts, who, account, SelfSufficient());
    }
  }

  /** Taking a holder out, whatever the reason for its existence. */
  lemma RemovalFacts(d: Details, accounts: Accounts, who: AccountId, reason: Reason, force: bool)
    requires who in accounts && HoldersCounted(d, accounts) && NoneRefunded(accounts)
    requires reason.Sufficient? == accounts[who].reason.Sufficient?
    requires DeadAccount(d, reason, force).1
    ensures var d1 := DeadAccount(d, reason, force).0;
            && HoldersCounted(d1, accounts - {who}) && NoneRefunded(accounts - {who})
            && Held(accounts - {who}) == Held(accounts) - accounts[who].balance
            && d1 == d.(accounts := d1.accounts, sufficients := d1.sufficients)
  {
    SizeDrop(accounts, who);
    SumDrop(accounts, who, Balances());
    SumDrop(accounts, who, SelfSufficient());
  }

  /** Overwriting a holder's status leaves every sum as it was. */
  lemma StatusFacts(d: Details, accounts: Accounts, who: AccountId, status: AccountStatus)
    requires who in accounts && HoldersCounted(d, accounts) && NoneRefunded(accounts)
    ensures var accounts1 := accounts[who := accounts[who].(status := status)];
            HoldersCounted(d, accounts1) && NoneRefunded(accounts1) && Held(accounts1) == Held(accounts)
  {
    var account := accounts[who].(status := status);
    SizeUpdate(accounts, who, account);
    SumUpdate(accounts, who, account, Balances());
    SumUpdate(accounts, who, account, SelfSufficient());
  }

  // ---- Locks.

  /** `FirstFree` finds the smallest id that is not taken, if there is one below the limit. */
  lemma {:induction false} FirstFreeFacts(m: LockMap, i: u32)
    requires i <= LOCK_LIMIT
    ensures var r := FirstFree(m, i);
            && (r.None? ==> forall j :: i <= j < LOCK_LIMIT ==> j in m)
            && (r.Some? ==> i <= r.value < LOCK_LIMIT && r.value !in m && forall j :: i <= j < r.value ==> j in m)
    decreases LOCK_LIMIT - i
  {
    if i < LOCK_LIMIT && i in m {
      FirstFreeFacts(m, i + 1);
    }
  }

  /** The numbers below `n`. */
  ghost function Below(n: u32): (r: set<u32>)
    ensures |r| == n && forall i: u32 :: i in r <==> i < n
  {
    if n == 0 then {} else Below(n - 1) + {n - 1}
  }

  lemma SubsetSize(a: set<u32>, b: set<u32>)
    requires a <= b
    ensures |a| <= |b| && (|a| == |b| ==> a == b)
    decreases |b|
  {
    if b != {} {
      var x :| x in b;
      SubsetSize(a - {x}, b - {x});
      assert x in a ==> a == (a - {x}) + {x};
      assert x !in a ==> a - {x} == a;
    }
  }

  /** By pigeonhole a free id exists exactly when fewer locks than the limit are stored. */
  lemma Pigeonhole(m: LockMap)
    requires forall id :: id in m ==> id < LOCK_LIMIT
    ensures |m| <= LOCK_LIMIT
    ensures FirstFree(m, 0).Some? <==> |m| < LOCK_LIMIT
  {
    FirstFreeFacts(m, 0);
    assert m.Keys <= Below(LOCK_LIMIT);
    SubsetSize(m.Keys, Below(LOCK_LIMIT));
    if FirstFree(m, 0).None? {
      assert Below(LOCK_LIMIT) <= m.Keys;
      SubsetSize(Below(LOCK_LIMIT), m.Keys);
    }
  }

  /** A lock is refused exactly when the receiver has the limit; the insertion after the search never fails. */
  lemma AddLockRefusal(locks: Locks, locked: Cache, dest: AccountId, lock: Lock)
    requires LocksOk(locks, locked)
    ensures AddLock(locks, locked, dest, lock).Err? <==> |LocksOf(locks, dest)| == LOCK_LIMIT
    ensures AddLock(locks, locked, dest, lock).Err? <==> NewLockId(locks, dest).None?
  {
    if dest in locks {
      assert LockMapOk(locks[dest], locked[dest]);
      Pigeonhole(locks[dest]);
    }
  }

  lemma LockMapReplaced(locks: Locks, locked: Cache, who: AccountId, m: LockMap, total: Balance)
    requires LocksOk(locks, locked) && LockMapOk(m, total)
    ensures LocksOk(locks[who := m], locked[who := total])
    ensures LockedUp(locks[who := m]) == LockedUp(locks) - LockSum(LocksOf(locks, who)) + LockSum(m)
  {
    SumUpdate<AccountId, LockMap>(locks, who, m, LockSums());
  }

  /** The id a new lock gets is below the limit and not taken. */
  lemma NewLockIdFacts(locks: Locks, dest: AccountId)
    requires NewLockId(locks, dest).Some?
    ensures var id := NewLockId(locks, dest).value;
            id !in LocksOf(locks, dest) && id < LOCK_LIMIT
  {
    if dest in locks {
      FirstFreeFacts(locks[dest], 0);
    }
  }

  lemma AddLockShape(locks: Locks, locked: Cache, dest: AccountId, lock: Lock)
    requires AddLock(locks, locked, dest, lock).Ok?
    ensures NewLockId(locks, dest).Some?
    ensures AddLock(locks, locked, dest, lock).value ==
            (locks[dest := LocksOf(locks, dest)[NewLockId(locks, dest).value := lock]],
             locked[dest := SatAdd128(LockedOf(locked, dest), lock.balance)])
  {
  }

  lemma LockMapGrows(m: LockMap, total: Balance, id: u32, lock: Lock)
    requires LockMapOk(m, total) || (m == map[] && total == 0)
    requires id !in m && id < LOCK_LIMIT && lock.balance > 0 && total + lock.balance <= U128_MAX
    ensures LockMapOk(m[id := lock], total + lock.balance) && LockSum(m) == total
  {
    SumUpdate<u32, Lock>(m, id, lock, LockBalances());
  }

  /** Adding a lock keeps the map within bounds, and the cache and the total follow. */
  lemma AddLockFacts(locks: Locks, locked: Cache, dest: AccountId, lock: Lock)
    requires LocksOk(locks, locked) && AddLock(locks, locked, dest, lock).Ok?
    requires lock.balance > 0 && LockSum(LocksOf(locks, dest)) + lock.balance <= U128_MAX
    ensures var (locks1, locked1) := AddLock(locks, locked, dest, lock).value;
            LocksOk(locks1, locked1) && LockedUp(locks1) == LockedUp(locks) + lock.balance
  {
    AddLockShape(locks, locked, dest, lock);
    NewLockIdFacts(locks, dest);
    var id := NewLockId(locks, dest).value;
    var m, total := LocksOf(locks, dest), LockedOf(locked, dest);
    assert dest in locks ==> LockMapOk(locks[dest], locked[dest]);
    LockMapGrows(m, total, id, lock);
    LockMapReplaced(locks, locked, dest, m[id := lock], total + lock.balance);
  }

  /** Dropping a lock takes exactly its balance out, and the last one takes the entry with it. */
  lemma DropLockFacts(locks: Locks, locked: Cache, who: AccountId, id: u32)
    requires LocksOk(locks, locked) && id in LocksOf(locks, who)
    ensures var (locks1, locked1) := DropLock(locks, locked, who, id);
            LocksOk(locks1, locked1) && LockedUp(locks1) == LockedUp(locks) - locks[who][id].balance
  {
    var m: LockMap := locks[who];
    var rest: LockMap := m - {id};
    assert LockMapOk(m, locked[who]);
    SumDrop<u32, Lock>(m, id, LockBalances());
    if rest == map[] {
      ForgetFacts(locks, locked, who);
    } else {
      LockMapReplaced(locks, locked, who, rest, locked[who] - m[id].balance);
    }
  }

  /** Forgetting a receiver. */
  lemma ForgetFacts(locks: Locks, locked: Cache, who: AccountId)
    requires LocksOk(locks, locked)
    ensures LocksOk(locks - {who}, locked - {who})
    ensures LockedUp(locks - {who}) == LockedUp(locks) - LockSum(LocksOf(locks, who))
  {
    SumDrop(locks, who, LockSums());
  }

  /** What one receiver has locked is part of everything locked. */
  lemma LockSumPart(locks: Locks, who: AccountId)
    ensures LockSum(LocksOf(locks, who)) <= LockedUp(locks)
  {
    SumAtLeast(locks, who, LockSums());
  }

  /** Nothing is locked exactly when there are no locks. */
  lemma NothingLocked(locks: Locks, locked: Cache)
    requires LocksOk(locks, locked)
    ensures LockedUp(locks) == 0 <==> locks == map[]
  {
    if locks != map[] {
      var who :| who in locks;
      assert LockMapOk(locks[who], locked[who]);
      var m: LockMap := locks[who];
      var id :| id in m;
      SumAtLeast(m, id, LockBalances());
      LockSumPart(locks, who);
    }
  }

  /** What one holder has is part of everything held. */
  lemma HeldPart(accounts: Accounts, who: AccountId)
    requires who in accounts
    ensures accounts[who].balance <= Held(accounts)
  {
    SumAtLeast(accounts, who, Balances());
  }
}
