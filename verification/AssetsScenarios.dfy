/** Short runs from unused storage that reach the states in which an asset falls short. */
module AssetsScenarios {
  import opened Prelude
  import opened MapSum
  import opened AssetsSpec
  import opened AssetsInvariant
  import opened AssetsSteps
  import opened AssetsEffects
  import opened AssetsRuns

  const ADMIN: AccountId := 1
  const ALICE: AccountId := 2
  const BOB: AccountId := 3
  const CAROL: AccountId := 4

  const Settings := Config(1, 100, 1, 1, 1, 10)
  const Around := Env(0, {ALICE, BOB, CAROL}, map[], true, true)

  /** The run `trace` from unused storage meets the side conditions and leads to `s`. */
  ghost predicate Leads(trace: seq<Event>, s: State) {
    SaneRun(Settings, Empty, trace) && After(Settings, Empty, trace) == s
  }

  /** One more call. */
  lemma Onward(trace: seq<Event>, s: State, call: Call, s': State) returns (longer: seq<Event>)
    requires Leads(trace, s) && Sane(s, call) && Exec(Settings, Around, s, call).s == s'
    ensures longer == trace + [Event(Around, call)] && Leads(longer, s')
  {
    longer := trace + [Event(Around, call)];
    assert longer[..|longer| - 1] == trace;
  }

  function Record(minBalance: Balance, supply: Balance, accounts: u32, approvals: u32, status: AssetStatus): Details {
    Details(ADMIN, ADMIN, ADMIN, ADMIN, supply, 1, minBalance, false, accounts, 0, approvals, status)
  }

  function Created(minBalance: Balance): State {
    State(Some(Record(minBalance, 0, 0, 0, Live)), map[], map[], map[], map[])
  }

  lemma CreatedRun(minBalance: Balance) returns (trace: seq<Event>)
    requires 0 < minBalance
    ensures Leads(trace, Created(minBalance))
  {
    trace := Onward([], Empty, DoCreate(ADMIN, ADMIN, minBalance), Created(minBalance));
  }

  /** One holder with the whole supply. */
  function Issued(minBalance: Balance, amount: Balance): State {
    State(Some(Record(minBalance, amount, 1, 0, Live)), map[ALICE := Account(amount, Liquid, Consumer)], map[], map[], map[])
  }

  lemma IssuedRun(minBalance: Balance, amount: Balance) returns (trace: seq<Event>)
    requires 0 < minBalance <= amount
    ensures Leads(trace, Issued(minBalance, amount))
  {
    trace := CreatedRun(minBalance);
    assert Created(minBalance).accounts[ALICE := Account(amount, Liquid, Consumer)] == Issued(minBalance, amount).accounts;
    trace := Onward(trace, Created(minBalance), DoMint(ADMIN, ALICE, amount), Issued(minBalance, amount));
  }

  // ---- A delegate moves more than it was allowed.

  const Allowed :=
    Issued(3, 5).(details := Some(Record(3, 5, 1, 1, Live)), approvals := map[(ALICE, BOB) := Approval(4, 1)])

  lemma AllowedRun() returns (trace: seq<Event>)
    ensures Leads(trace, Allowed)
  {
    trace := IssuedRun(3, 5);
    assert Issued(3, 5).approvals[(ALICE, BOB) := Approval(4, 1)] == Allowed.approvals;
    trace := Onward(trace, Issued(3, 5), DoApprove(ALICE, BOB, 4), Allowed);
  }

  lemma OverspendStep()
    ensures var step := TransferApproved(Around, Allowed, ALICE, BOB, CAROL, 4);
            step.r.Ok? && BalanceOf(step.s.accounts, ALICE) == 0 && BalanceOf(step.s.accounts, CAROL) == 5
  {
    var f := TransferFlags(false, false, false);
    assert PrepTransfer(Around, Allowed.details, Allowed.accounts, ALICE, CAROL, 4, f) == Ok(Prepared(5, 5, 0));
  }

  /** With an allowance of 4 out of a balance of 5 and a minimum of 3, a delegate moves all 5 to a new holder. */
  lemma Overspend() returns (trace: seq<Event>)
    ensures SaneRun(Settings, Empty, trace)
    ensures var s := After(Settings, Empty, trace);
            && ApprovalOf(s.approvals, (ALICE, BOB)).amount == 4
            && BalanceOf(s.accounts, ALICE) == 5 && BalanceOf(s.accounts, CAROL) == 0
            && var step := TransferApproved(Around, s, ALICE, BOB, CAROL, 4);
               step.r.Ok? && BalanceOf(step.s.accounts, ALICE) == 0 && BalanceOf(step.s.accounts, CAROL) == 5
  {
    trace := AllowedRun();
    OverspendStep();
  }

  // ---- A due lock that cannot be released.

  /** Part of the supply locked for an account that holds nothing else. */
  function Locked(amount: Balance, part: Balance): State
    requires part < amount
  {
    State(Some(Record(1, amount, 1, 0, Live)), map[ALICE := Account(amount - part, Liquid, Consumer)], map[],
          map[BOB := map[0 := Lock(ALICE, part, 0)]], map[BOB := part])
  }

  lemma LockStep(amount: Balance, part: Balance)
    requires 0 < part < amount
    ensures Exec(Settings, Around, Issued(1, amount), DoTransferAndLock(ALICE, BOB, part, 0, false)).s == Locked(amount, part)
  {
    var s := Issued(1, amount);
    assert PrepTransfer(Around, s.details, s.accounts, ALICE, BOB, part, TransferFlags(false, false, false)) == Ok(Prepared(part, part, 0));
    assert s.locks[BOB := LocksOf(s.locks, BOB)[0 := Lock(ALICE, part, 0)]] == Locked(amount, part).locks;
    assert s.locked[BOB := part] == Locked(amount, part).locked;
    assert s.accounts[ALICE := Account(amount - part, Liquid, Consumer)] == Locked(amount, part).accounts;
  }

  lemma LockedRun(amount: Balance, part: Balance) returns (trace: seq<Event>)
    requires 0 < part < amount
    ensures Leads(trace, Locked(amount, part))
  {
    trace := IssuedRun(1, amount);
    LockStep(amount, part);
    trace := Onward(trace, Issued(1, amount), DoTransferAndLock(ALICE, BOB, part, 0, false), Locked(amount, part));
  }

  /** The storage after ALICE, who holds everything that is not locked, has one unit burnt. */
  lemma BurnStep()
    ensures var s := Exec(Settings, Around, Locked(U128_MAX, 1), DoBurn(ADMIN, ALICE, 1)).s;
            && s.details == Some(Record(1, U128_MAX - 1, 1, 0, Live)) && BOB !in s.accounts
            && s.locks == Locked(U128_MAX, 1).locks && s.locked == Locked(U128_MAX, 1).locked
  {
    var s := Locked(U128_MAX, 1);
    assert PrepDebit(Around, s.details, s.accounts, ALICE, 1, DebitFlags(false, true)) == Ok(1);
  }

  lemma ReleaseStep(s: State)
    requires s.details == Some(Record(1, U128_MAX - 1, 1, 0, Live)) && BOB !in s.accounts
    requires s.locks == Locked(U128_MAX, 1).locks && s.locked == Locked(U128_MAX, 1).locked
    ensures var step := Exec(Settings, Around, s, DoUnlock(BOB, 0));
            step.r.Ok? && BalanceOf(step.s.accounts, BOB) == 1
  {
  }

  /**
    With the supply at its maximum a lock that is due at once is not released
    at any block, while the supply stays as it is; once a unit is burnt from
    somebody else, it is.
  */
  lemma BlockedUnlock() returns (trace: seq<Event>)
    ensures SaneRun(Settings, Empty, trace)
    ensures var s := After(Settings, Empty, trace);
            && 0 in LocksOf(s.locks, BOB) && LocksOf(s.locks, BOB)[0].unlockTime == 0
            && (forall e :: Unlock(e, s, BOB, 0) == Fail(s, Overflow))
            && var step := Exec(Settings, Around, Exec(Settings, Around, s, DoBurn(ADMIN, ALICE, 1)).s, DoUnlock(BOB, 0));
               step.r.Ok? && BalanceOf(step.s.accounts, BOB) == 1
  {
    trace := LockedRun(U128_MAX, 1);
    BurnStep();
    ReleaseStep(Exec(Settings, Around, Locked(U128_MAX, 1), DoBurn(ADMIN, ALICE, 1)).s);
  }

  // ---- Locks that outlive their asset.

  const Doomed := Locked(10, 4).(details := Some(Record(1, 10, 1, 0, Destroying)))
  const Drained := State(Some(Record(1, 10, 0, 0, Destroying)), map[], map[], map[BOB := map[0 := Lock(ALICE, 4, 0)]], map[BOB := 4])
  const Gone := Drained.(details := None)

  lemma DrainStep()
    ensures Exec(Settings, Around, Doomed, DoDestroyAccounts([ALICE])).s == Drained
  {
    assert Batch(Settings, [ALICE]) == [ALICE];
    assert DrainAccounts(Doomed, []) == Doomed;
    assert [ALICE][..0] == [];
    assert Doomed.accounts - {ALICE} == Drained.accounts;
    assert Doomed.locks - {ALICE} == Drained.locks;
    assert Doomed.locked - {ALICE} == Drained.locked;
  }

  lemma FinishStep()
    ensures Exec(Settings, Around, Drained, DoFinishDestroy({BOB})).s == Gone
  {
    assert Drained.locks - (Drained.locks.Keys - {BOB}) == Gone.locks;
    assert Drained.locked - (Drained.locked.Keys - {BOB}) == Gone.locked;
  }

  lemma GoneRun() returns (trace: seq<Event>)
    ensures Leads(trace, Gone)
  {
    trace := LockedRun(10, 4);
    trace := Onward(trace, Locked(10, 4), DoStartDestroy(Some(ADMIN)), Doomed);
    DrainStep();
    assert Doomed.accounts.Keys == {ALICE};
    trace := Onward(trace, Doomed, DoDestroyAccounts([ALICE]), Drained);
    FinishStep();
    trace := Onward(trace, Drained, DoFinishDestroy({BOB}), Gone);
  }

  lemma GoneLocked()
    ensures LockedUp(Gone.locks) == 4
  {
    var m: LockMap, none: LockMap, empty: Locks := Gone.locks[BOB], map[], map[];
    SumUpdate(none, 0, Lock(ALICE, 4, 0), LockBalances());
    assert none[0 := Lock(ALICE, 4, 0)] == m;
    SumUpdate(empty, BOB, m, LockSums());
    assert empty[BOB := m] == Gone.locks;
  }

  /**
    A lock for an account that holds nothing else outlives the asset when the
    final clearing leaves it, and the next asset under the id then starts with
    locks that no supply covers.
  */
  lemma ForeignLock() returns (trace: seq<Event>)
    ensures SaneRun(Settings, Empty, trace) && After(Settings, Empty, trace).details.None?
    ensures var step := Create(Settings, Around, After(Settings, Empty, trace), CAROL, CAROL, 1);
            step.r.Ok? && !Inv(step.s) && SlackOf(step.s) == -4
  {
    trace := GoneRun();
    GoneLocked();
  }

  // ---- A burn of nothing.

  /** A holder below the minimum that only its deposit keeps. */
  const Poor := Created(3).(details := Some(Record(3, 2, 1, 0, Live)), accounts := map[ALICE := Account(2, Liquid, DepositHeld(1))])

  const Touched := Poor.(details := Some(Record(3, 0, 1, 0, Live)), accounts := map[ALICE := Account(0, Liquid, DepositHeld(1))])

  lemma TouchStep()
    ensures Exec(Settings, Around, Created(3), DoTouch(ALICE, ALICE, false)).s == Touched
  {
    assert Created(3).accounts[ALICE := Account(0, Liquid, DepositHeld(1))] == Touched.accounts;
  }

  lemma TopUpStep()
    ensures Exec(Settings, Around, Touched, DoMint(ADMIN, ALICE, 2)).s == Poor
  {
    assert Touched.accounts[ALICE := Account(2, Liquid, DepositHeld(1))] == Poor.accounts;
  }

  lemma PoorRun() returns (trace: seq<Event>)
    ensures Leads(trace, Poor)
  {
    trace := CreatedRun(3);
    TouchStep();
    trace := Onward(trace, Created(3), DoTouch(ALICE, ALICE, false), Touched);
    TopUpStep();
    trace := Onward(trace, Touched, DoMint(ADMIN, ALICE, 2), Poor);
  }

  /** With part of its balance frozen, a burn of 1 succeeds, burns nothing and leaves a holder below the minimum. */
  lemma EmptyBurn() returns (trace: seq<Event>)
    ensures SaneRun(Settings, Empty, trace)
    ensures var (s, e) := (After(Settings, Empty, trace), Around.(frozen := map[ALICE := 1]));
            && Burn(e, s, ALICE, 1, Some(ADMIN), DebitFlags(false, true)) == Done(s, 0)
            && s.details.Some? && ALICE in s.accounts && !AssertionHolds(s.details.value, s.accounts[ALICE].balance, 0)
  {
    trace := PoorRun();
    assert Poor.accounts[ALICE := Poor.accounts[ALICE]] == Poor.accounts;
  }

  // ---- A burn that removes a holder and leaves the supply.

  const Raise := DoForceAssetStatus(ADMIN, ADMIN, ADMIN, ADMIN, 3, false, false)

  lemma RaisedRun() returns (trace: seq<Event>)
    ensures Leads(trace, Issued(3, 2))
  {
    trace := IssuedRun(1, 2);
    trace := Onward(trace, Issued(1, 2), Raise, Issued(3, 2));
  }

  const Orphaned := Created(3).(details := Some(Record(3, 2, 0, 0, Live)))

  lemma WipeStep(e: Env)
    requires e == Around.(frozen := map[ALICE := 1])
    ensures Burn(e, Issued(3, 2), ALICE, 1, Some(ADMIN), DebitFlags(false, true)) == Done(Orphaned, 0)
  {
    assert PrepDebit(e, Issued(3, 2).details, Issued(3, 2).accounts, ALICE, 1, DebitFlags(false, true)) == Ok(0);
    assert Issued(3, 2).accounts - {ALICE} == map[];
  }

  /**
    The only holder has 2, root raises the minimum to 3, and another pallet
    freezes part of the balance: a burn of 1 reports nothing burnt, removes the
    holder and leaves a supply of 2 that nobody has.
  */
  lemma WipingBurn() returns (trace: seq<Event>)
    ensures SaneRun(Settings, Empty, trace)
    ensures var (s, e) := (After(Settings, Empty, trace), Around.(frozen := map[ALICE := 1]));
            && BalanceOf(s.accounts, ALICE) == 2
            && var step := Burn(e, s, ALICE, 1, Some(ADMIN), DebitFlags(false, true));
               && step.r == Ok(0) && step.s.accounts == map[] && step.s.locks == map[]
               && step.s.details.Some? && step.s.details.value.supply == 2
  {
    trace := RaisedRun();
    WipeStep(Around.(frozen := map[ALICE := 1]));
  }

  // ---- One approval too many.

  /** As many approvals as the counter says, each to another delegate. */
  function Approved(n: u32): State {
    Created(1).(details := Some(Record(1, 0, 0, n, Live)),
                approvals := map delegate: AccountId | 0 <= delegate < n :: (ALICE, delegate) := Approval(1, 1))
  }

  lemma ApproveStep(n: u32)
    requires n < U32_MAX
    ensures Exec(Settings, Around, Approved(n), DoApprove(ALICE, n, 1)).s == Approved(n + 1)
  {
    assert (ALICE, n) !in Approved(n).approvals;
    assert Approved(n).approvals[(ALICE, n) := Approval(1, 1)] == Approved(n + 1).approvals;
  }

  lemma {:induction false} ApprovedRun(n: u32) returns (trace: seq<Event>)
    ensures Leads(trace, Approved(n))
  {
    if n == 0 {
      trace := CreatedRun(1);
      assert Approved(0).approvals == map[];
    } else {
      trace := ApprovedRun(n - 1);
      ApproveStep(n - 1);
      trace := Onward(trace, Approved(n - 1), DoApprove(ALICE, n - 1, 1), Approved(n));
    }
  }

  /** After 4294967295 approvals one more is accepted and not counted. */
  lemma LostCount() returns (trace: seq<Event>)
    ensures SaneRun(Settings, Empty, trace) && Inv(After(Settings, Empty, trace))
    ensures var step := Approve(Settings, Around, After(Settings, Empty, trace), ALICE, U32_MAX, 1);
            step.r.Ok? && !Inv(step.s)
  {
    trace := ApprovedRun(U32_MAX);
    RunKeeps(Settings, Empty, trace);
    assert (ALICE, U32_MAX) !in Approved(U32_MAX).approvals;
    ApprovalCountIff(Settings, Around, Approved(U32_MAX), ALICE, U32_MAX, 1);
  }
}
