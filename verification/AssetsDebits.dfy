/** What the debit preparation promises, for every account, flag and freezer. */
module AssetsDebits {
  import opened Prelude
  import opened AssetsSpec

  /** `reducible_balance` is exactly the largest amount `can_decrease` accepts. */
  lemma ReducibleIsLargest(e: Env, details: Option<Details>, accounts: Accounts, who: AccountId, keepAlive: bool, amount: Balance)
    requires ReducibleBalance(e, details, accounts, who, keepAlive).Ok?
    ensures WithdrawResult(CanDecrease(e, details, accounts, who, amount, keepAlive), keepAlive).Ok? <==>
            amount <= ReducibleBalance(e, details, accounts, who, keepAlive).value
  {
  }

  /** The debit is refused for the reasons of `reducible_balance`, or because it is short; never by the check after it. */
  lemma DebitNeverSurprises(e: Env, details: Option<Details>, accounts: Accounts, who: AccountId, amount: Balance, f: DebitFlags)
    ensures var reducible := ReducibleBalance(e, details, accounts, who, f.keepAlive);
            var r := PrepDebit(e, details, accounts, who, amount, f);
            && (reducible.Err? ==> r == Err(reducible.error))
            && (reducible.Ok? && !f.bestEffort && reducible.value < amount ==> r == Err(BalanceLow))
            && (reducible.Ok? && (f.bestEffort || amount <= reducible.value) ==> r.Ok?)
  {
    var reducible := ReducibleBalance(e, details, accounts, who, f.keepAlive);
    if reducible.Ok? {
      ReducibleIsLargest(e, details, accounts, who, f.keepAlive, Min(reducible.value, amount));
    }
  }

  /** Holders whose account goes away with its last token. */
  predicate Mortal(reason: Reason) {
    !reason.DepositHeld? && !reason.DepositFrom?
  }

  /**
    A debit never exceeds the balance. Unless nothing at all can be taken it
    leaves nothing or at least the minimum; without best effort it is the
    amount asked for, or that amount and the dust that would have been left.
  */
  lemma DebitBounds(e: Env, details: Option<Details>, accounts: Accounts, who: AccountId, amount: Balance, f: DebitFlags)
    requires PrepDebit(e, details, accounts, who, amount, f).Ok?
    ensures var (d, balance, debit) := (details.value, accounts[who].balance, PrepDebit(e, details, accounts, who, amount, f).value);
            && d.status == Live
            && debit <= balance
            && (debit == 0 || balance - debit == 0 || balance - debit >= d.minBalance)
            && (f.keepAlive && debit > 0 ==> balance - debit >= d.minBalance)
            && (!f.bestEffort ==> debit == amount || (amount < debit < amount + d.minBalance && debit == balance))
            && (f.bestEffort ==> debit <= amount || (debit < amount + d.minBalance && debit == balance))
  {
  }

  /** The one debit that takes nothing from a holder below the minimum: best effort against a freeze or to keep alive. */
  lemma EmptyDebit(e: Env, details: Option<Details>, accounts: Accounts, who: AccountId, amount: Balance, f: DebitFlags)
    requires PrepDebit(e, details, accounts, who, amount, f).Ok? && amount > 0
    requires accounts[who].balance <= details.value.supply
    requires accounts[who].balance < details.value.minBalance
    ensures PrepDebit(e, details, accounts, who, amount, f) ==
            Ok(if who in e.frozen || f.keepAlive then 0 else accounts[who].balance)
  {
  }
}
