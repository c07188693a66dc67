/** Who has how much after each call that moves tokens, account by account. */
module AssetsEffects {
  import opened Prelude
  import opened AssetsSpec
  import opened AssetsDebits
  import opened AssetsInvariant
  import opened AssetsSteps
  import opened AssetsLocks

  function BalanceOf(accounts: Accounts, who: AccountId): nat {
    if who in accounts then accounts[who].balance else 0
  }

  /** One account's balance moved by `delta` and nobody else's at all. */
  ghost predicate Shifted(accounts: Accounts, accounts': Accounts, who: AccountId, delta: int) {
    forall x :: BalanceOf(accounts', x) == BalanceOf(accounts, x) + if x == who then delta else 0
  }

  /** The source lost `debit`, the destination gained `credit`, and nobody else noticed. */
  ghost predicate Exchanged(accounts: Accounts, accounts': Accounts, source: AccountId, debit: nat, dest: AccountId, credit: nat) {
    forall x :: BalanceOf(accounts', x) ==
                BalanceOf(accounts, x) - (if x == source then debit else 0) + if x == dest then credit else 0
  }

  lemma CreditShifts(e: Env, d: Details, accounts: Accounts, who: AccountId, amount: Balance)
    requires HasRoom(d, accounts, who) && Credit(e, d, accounts, who, amount).Ok?
    requires BalanceOf(accounts, who) + amount <= U128_MAX
    ensures Shifted(accounts, Credit(e, d, accounts, who, amount).value.1, who, amount)
  {
  }

  lemma DebitShifts(d: Details, accounts: Accounts, who: AccountId, amount: Balance)
    requires who in accounts && LeavesNoDust(d, accounts[who], amount)
    ensures Shifted(accounts, Debit(d, accounts, who, amount).1, who, -(amount as int))
  {
  }

  /** A mint gives the beneficiary the amount, and the supply grows with it. */
  lemma MintMoves(e: Env, s: State, beneficiary: AccountId, amount: Balance, checkIssuer: Option<AccountId>)
    requires amount > 0 && Mint(e, s, beneficiary, amount, checkIssuer).r.Ok?
    ensures var s' := Mint(e, s, beneficiary, amount, checkIssuer).s;
            && Shifted(s.accounts, s'.accounts, beneficiary, amount)
            && s.details.Some? && s'.details.Some? && s'.details.value.supply == s.details.value.supply + amount
            && s' == s.(details := s'.details, accounts := s'.accounts)
  {
    var d := s.details.value;
    CreditShifts(e, d.(supply := SatAdd128(d.supply, amount)), s.accounts, beneficiary, amount);
  }

  /** A burn takes what it reports from the target and from the supply. */
  lemma BurnMoves(e: Env, s: State, target: AccountId, amount: Balance, checkAdmin: Option<AccountId>)
    requires Inv(s) && amount > 0 && Burn(e, s, target, amount, checkAdmin, DebitFlags(false, true)).r.Ok?
    requires s.details.Some? && target in s.accounts && !Wiped(e, s.details.value, s.accounts[target], target)
    ensures var step := Burn(e, s, target, amount, checkAdmin, DebitFlags(false, true));
            && Shifted(s.accounts, step.s.accounts, target, -(step.r.value as int))
            && step.s.details.Some? && step.s.details.value.supply == s.details.value.supply - step.r.value
            && (step.r.value <= amount || (step.r.value == s.accounts[target].balance && step.r.value < amount + s.details.value.minBalance))
  {
    var f := DebitFlags(false, true);
    BurnShape(e, s, target, amount, checkAdmin, f);
    BalanceBelowSupply(s, target);
    BurnedCleanly(e, s.details, s.accounts, target, amount);
    DebitBounds(e, s.details, s.accounts, target, amount, f);
    var (d, actual) := (s.details.value, PrepDebit(e, s.details, s.accounts, target, amount, f).value);
    DebitShifts(d.(supply := SatSub(d.supply, actual)), s.accounts, target, actual);
  }

  lemma MovedExchanges(e: Env, d: Details, accounts: Accounts, source: AccountId, dest: AccountId, p: Prepared)
    requires source in accounts && source != dest && HasRoom(d, accounts, dest) && Moved(e, d, accounts, source, dest, p).Ok?
    requires LeavesNoDust(d, accounts[source], p.debit) && BalanceOf(accounts, dest) + p.credit <= U128_MAX
    ensures Exchanged(accounts, Moved(e, d, accounts, source, dest, p).value.1, source, p.debit, dest, p.credit)
  {
    var d0 := d.(supply := SatSub(d.supply, p.burn));
    CreditShifts(e, d0, accounts, dest, p.credit);
    var (d1, accounts1) := Credit(e, d0, accounts, dest, p.credit).value;
    DebitShifts(d1, accounts1, source, p.debit);
  }

  lemma MovedSupply(e: Env, d: Details, accounts: Accounts, source: AccountId, dest: AccountId, p: Prepared)
    requires source in accounts && HasRoom(d, accounts, dest) && Moved(e, d, accounts, source, dest, p).Ok?
    ensures Moved(e, d, accounts, source, dest, p).value.0.supply == SatSub(d.supply, p.burn)
  {
  }

  /**
    A transfer takes its debit from the source and gives its credit to the
    destination; what the credit lacks is burnt from the supply, and nothing
    else of the storage changes.
  */
  lemma TransferMoves(e: Env, s: State, source: AccountId, dest: AccountId, amount: Balance, needAdmin: Option<AccountId>, f: TransferFlags)
    returns (debit: nat)
    requires s.details.Some? && amount > 0 && source != dest && !f.bestEffort && Transfer(e, s, source, dest, amount, needAdmin, f).r.Ok?
    ensures var step := Transfer(e, s, source, dest, amount, needAdmin, f);
            && Exchanged(s.accounts, step.s.accounts, source, debit, dest, step.r.value)
            && amount <= step.r.value <= debit < amount + Max(1, s.details.value.minBalance)
            && (f.burnDust ==> step.r.value == amount) && (!f.burnDust ==> step.r.value == debit)
            && step.s == s.(details := step.s.details, accounts := step.s.accounts)
            && step.s.details.Some? && (Inv(s) ==> step.s.details.value.supply == s.details.value.supply - (debit - step.r.value))
  {
    TransferShape(e, s, source, dest, amount, needAdmin, f);
    PreparedFacts(e, s.details, s.accounts, source, dest, amount, f);
    var p := PrepTransfer(e, s.details, s.accounts, source, dest, amount, f).value;
    CreditFits(e, s.details, s.accounts, source, dest, amount, f);
    MovedExchanges(e, s.details.value, s.accounts, source, dest, p);
    MovedSupply(e, s.details.value, s.accounts, source, dest, p);
    if Inv(s) {
      BalanceBelowSupply(s, source);
    }
    debit := p.debit;
  }

  lemma CreditFits(e: Env, details: Option<Details>, accounts: Accounts, source: AccountId, dest: AccountId, amount: Balance, f: TransferFlags)
    requires PrepTransfer(e, details, accounts, source, dest, amount, f).Ok?
    ensures BalanceOf(accounts, dest) + PrepTransfer(e, details, accounts, source, dest, amount, f).value.credit <= U128_MAX
  {
  }

  /** Parking takes the debit from the source and records one new lock for the receiver: from whom, how much, until when. */
  lemma ParkMoves(c: Config, e: Env, s: State, source: AccountId, dest: AccountId, amount: Balance, duration: BlockNumber,
                  needAdmin: Option<AccountId>, f: TransferFlags)
    returns (debit: nat)
    requires s.details.Some? && amount > 0 && source != dest && !f.bestEffort
    requires TransferLocked(c, e, s, source, dest, amount, duration, needAdmin, f).r.Ok?
    ensures NewLockId(s.locks, dest).Some?
    ensures var (step, id) := (TransferLocked(c, e, s, source, dest, amount, duration, needAdmin, f), NewLockId(s.locks, dest).value);
            && id !in LocksOf(s.locks, dest) && id < LOCK_LIMIT && amount <= step.r.value <= U128_MAX
            && step.s.locks == s.locks[dest := LocksOf(s.locks, dest)[id := Lock(source, step.r.value, SatAdd32(duration, e.now))]]
            && Shifted(s.accounts, step.s.accounts, source, -(debit as int))
            && step.r.value <= debit < amount + Max(1, s.details.value.minBalance)
            && (f.burnDust ==> step.r.value == amount) && (!f.burnDust ==> step.r.value == debit)
            && step.s.approvals == s.approvals
            && step.s.details.Some? && (Inv(s) ==> step.s.details.value.supply == s.details.value.supply - (debit - step.r.value))
  {
    TransferLockedShape(c, e, s, source, dest, amount, duration, needAdmin, f);
    PreparedFacts(e, s.details, s.accounts, source, dest, amount, f);
    var p := PrepTransfer(e, s.details, s.accounts, source, dest, amount, f).value;
    AddLockShape(s.locks, s.locked, dest, Lock(source, p.credit, SatAdd32(duration, e.now)));
    NewLockIdFacts(s.locks, dest);
    var d := s.details.value;
    DebitShifts(d.(supply := SatSub(d.supply, p.burn)), s.accounts, source, p.debit);
    if Inv(s) {
      BalanceBelowSupply(s, source);
    }
    debit := p.debit;
  }

  /** A release gives the receiver exactly the lock, takes exactly that lock away, and never before its time. */
  lemma UnlockMoves(e: Env, s: State, who: AccountId, id: u32)
    requires Unlock(e, s, who, id).r.Ok?
    ensures id in LocksOf(s.locks, who)
    ensures var (s', lock) := (Unlock(e, s, who, id).s, LocksOf(s.locks, who)[id]);
            && lock.unlockTime <= e.now
            && Shifted(s.accounts, s'.accounts, who, lock.balance)
            && LocksOf(s'.locks, who) == LocksOf(s.locks, who) - {id}
            && s'.locks - {who} == s.locks - {who} && s'.approvals == s.approvals
  {
    UnlockShape(e, s, who, id);
    CreditShifts(e, s.details.value, s.accounts, who, LocksOf(s.locks, who)[id].balance);
    DropLockEffect(s.locks, s.locked, who, id);
  }

  lemma DropLockEffect(locks: Locks, locked: Cache, who: AccountId, id: u32)
    requires id in LocksOf(locks, who)
    ensures var locks' := DropLock(locks, locked, who, id).0;
            LocksOf(locks', who) == LocksOf(locks, who) - {id} && locks' - {who} == locks - {who}
  {
  }
}
