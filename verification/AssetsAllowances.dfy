/** What a delegate can do with an allowance: how much of it is used up, and what changes hands for it. */
module AssetsAllowances {
  import opened Prelude
  import opened AssetsSpec
  import opened AssetsDebits
  import opened AssetsSteps
  import opened AssetsEffects

  /** The storage after a spend is that of a transfer from the owner, but for the allowance. */
  lemma SpendShape(e: Env, s: State, owner: AccountId, delegate: AccountId, dest: AccountId, amount: Balance)
    requires s.details.Some? && TransferApproved(e, s, owner, delegate, dest, amount).r.Ok?
    ensures var (t, step) := (Transfer(e, s, owner, dest, amount, None, TransferFlags(false, false, false)),
                              TransferApproved(e, s, owner, delegate, dest, amount));
            && t.r == step.r && step.s.accounts == t.s.accounts
            && step.s.locks == t.s.locks && step.s.locked == t.s.locked
            && t.s.details.Some? && step.s.details.Some? && step.s.details.value.supply == t.s.details.value.supply
  {
    TransferFrame(e, s, owner, dest, amount, None, TransferFlags(false, false, false));
  }

  /**
    A delegate uses up exactly the amount it names out of its allowance, which
    is gone when nothing is left. For that the owner loses and the destination
    gains one and the same sum: nothing when they are the same account or the
    amount is zero, and otherwise the amount and less than the minimum balance
    of dust. Nobody else's balance, no lock and no supply changes.
  */
  lemma AllowanceSpent(e: Env, s: State, owner: AccountId, delegate: AccountId, dest: AccountId, amount: Balance)
    returns (moved: nat)
    requires s.details.Some? && TransferApproved(e, s, owner, delegate, dest, amount).r.Ok?
    ensures var (key, s') := ((owner, delegate), TransferApproved(e, s, owner, delegate, dest, amount).s);
            && key in s.approvals && amount <= s.approvals[key].amount
            && ApprovalOf(s'.approvals, key).amount == s.approvals[key].amount - amount
            && (key in s'.approvals <==> s.approvals[key].amount > amount)
            && s'.approvals - {key} == s.approvals - {key}
            && Exchanged(s.accounts, s'.accounts, owner, moved, dest, moved)
            && s'.locks == s.locks && s'.locked == s.locked
            && s'.details.Some? && s'.details.value.supply == s.details.value.supply
    ensures if owner == dest || amount == 0 then moved == 0 else amount <= moved < amount + Max(1, s.details.value.minBalance)
  {
    var f := TransferFlags(false, false, false);
    TransferFrame(e, s, owner, dest, amount, None, f);
    SpendShape(e, s, owner, delegate, dest, amount);
    moved := 0;
    if amount > 0 && owner != dest {
      moved := TransferMoves(e, s, owner, dest, amount, None, f);
      SpendSupply(e, s, owner, dest, amount);
    }
  }

  lemma SpendSupply(e: Env, s: State, owner: AccountId, dest: AccountId, amount: Balance)
    requires s.details.Some?
    ensures var s' := Transfer(e, s, owner, dest, amount, None, TransferFlags(false, false, false)).s;
            s'.details.Some? && s'.details.value.supply == s.details.value.supply
  {
  }

  /**
    Exactly when the destination receives more than the delegate named: when
    the owner is somebody else who would be left with dust, which goes along.
  */
  lemma OverspendIff(e: Env, s: State, owner: AccountId, delegate: AccountId, dest: AccountId, amount: Balance)
    requires s.details.Some? && TransferApproved(e, s, owner, delegate, dest, amount).r.Ok?
    ensures var s' := TransferApproved(e, s, owner, delegate, dest, amount).s;
            BalanceOf(s'.accounts, dest) > BalanceOf(s.accounts, dest) + amount <==>
            && owner != dest && amount > 0 && owner in s.accounts
            && 0 < s.accounts[owner].balance - amount < s.details.value.minBalance
  {
    var moved := AllowanceSpent(e, s, owner, delegate, dest, amount);
    if amount > 0 && owner != dest {
      SpendDust(e, s, owner, dest, amount);
      SpendShape(e, s, owner, delegate, dest, amount);
    }
  }

  /** The credit of a transfer goes beyond the amount exactly when dust would be left. */
  lemma SpendDust(e: Env, s: State, owner: AccountId, dest: AccountId, amount: Balance)
    requires amount > 0 && Transfer(e, s, owner, dest, amount, None, TransferFlags(false, false, false)).r.Ok?
    ensures s.details.Some? && owner in s.accounts
    ensures Transfer(e, s, owner, dest, amount, None, TransferFlags(false, false, false)).r.value > amount <==>
            0 < s.accounts[owner].balance - amount < s.details.value.minBalance
  {
    var f := TransferFlags(false, false, false);
    PreparedFacts(e, s.details, s.accounts, owner, dest, amount, f);
    DebitBounds(e, s.details, s.accounts, owner, amount, Debits(f));
  }
}
