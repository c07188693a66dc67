/** Staged destruction: each call makes progress, the stages end, and nothing is left when the last one succeeds. */
module AssetsDestruction {
  import opened Prelude
  import opened AssetsSpec
  import opened AssetsInvariant
  import opened AssetsSteps

  // ---- One batch.

  ghost predicate Lists<T(!new)>(ks: seq<T>, keys: set<T>) {
    Distinct(ks) && forall k :: k in ks ==> k in keys
  }

  /** How many entries a call removes out of `n`. */
  function Portion(c: Config, n: nat): nat {
    Min(n, Max(1, c.removeLimit))
  }

  lemma {:induction false} EnumerationSize<T>(order: seq<T>, keys: set<T>)
    requires Distinct(order) && forall k :: k in order <==> k in keys
    ensures |order| == |keys|
  {
    if order == [] {
      assert keys == {};
    } else {
      var init, k := order[..|order| - 1], order[|order| - 1];
      assert forall j :: j in init <==> j in keys - {k};
      EnumerationSize(init, keys - {k});
    }
  }

  lemma BatchFacts<T(!new)>(c: Config, order: seq<T>, keys: set<T>)
    requires Enumerates(order, keys)
    ensures Lists(Batch(c, order), keys) && |Batch(c, order)| == Portion(c, |keys|)
  {
    EnumerationSize(order, keys);
  }

  // ---- Accounts.

  /** What a holder takes along: its balance and everything locked for it. */
  ghost function Estate(s: State, who: AccountId): nat {
    (if who in s.accounts then s.accounts[who].balance else 0) + LockSum(LocksOf(s.locks, who))
  }

  ghost function Estates(s: State, ws: seq<AccountId>): nat {
    if ws == [] then 0 else Estates(s, ws[..|ws| - 1]) + Estate(s, ws[|ws| - 1])
  }

  /** The listed holders are gone, with their locks; the others are as they were. */
  ghost predicate Drained(s: State, s': State, ws: seq<AccountId>) {
    && s'.details.Some? && s'.approvals == s.approvals
    && (forall who :: who in s'.accounts <==> who in s.accounts && who !in ws)
    && (forall who :: who in s'.accounts ==> s'.accounts[who] == s.accounts[who])
    && (forall who :: who in s'.locks <==> who in s.locks && who !in ws)
    && (forall who :: who in s'.locks ==> s'.locks[who] == s.locks[who])
  }

  lemma DrainOne(s: State, who: AccountId)
    requires Inv(s) && s.details.Some? && who in s.accounts
    ensures var d := DeadAccount(s.details.value, s.accounts[who].reason, true).0;
            var s' := s.(details := Some(d), accounts := s.accounts - {who}, locks := s.locks - {who}, locked := s.locked - {who});
            && KeepsBut(s, s', Estate(s, who)) && |s'.accounts| == |s.accounts| - 1
            && d.status == s.details.value.status && d.supply == s.details.value.supply
  {
    RemovalFacts(s.details.value, s.accounts, who, s.accounts[who].reason, true);
    ForgetFacts(s.locks, s.locked, who);
    SizeDrop(s.accounts, who);
  }

  lemma {:induction false} DrainAccountsShape(s: State, ws: seq<AccountId>)
    requires s.details.Some? && Lists(ws, s.accounts.Keys)
    ensures Drained(s, DrainAccounts(s, ws), ws)
  {
    if ws != [] {
      var init, who := ws[..|ws| - 1], ws[|ws| - 1];
      DrainAccountsShape(s, init);
      assert who in ws && who !in init;
      assert forall w :: w in ws <==> w in init || w == who;
    }
  }

  /** A batch of removals loses exactly the estates of the holders removed. */
  lemma {:induction false} DrainAccountsKeeps(s: State, ws: seq<AccountId>)
    requires Inv(s) && s.details.Some? && Lists(ws, s.accounts.Keys)
    ensures var s' := DrainAccounts(s, ws);
            && KeepsBut(s, s', Estates(s, ws)) && |s'.accounts| == |s.accounts| - |ws|
            && s'.details.value.status == s.details.value.status && s'.details.value.supply == s.details.value.supply
  {
    if ws != [] {
      var init, who := ws[..|ws| - 1], ws[|ws| - 1];
      DrainAccountsKeeps(s, init);
      DrainAccountsShape(s, init);
      var s1 := DrainAccounts(s, init);
      assert who in ws && who !in init && who in s.accounts.Keys;
      assert who in s1.accounts && LocksOf(s1.locks, who) == LocksOf(s.locks, who);
      DrainOne(s1, who);
    }
  }

  /** One call removes `max(1, limit)` holders, or all of them. */
  lemma DestroyAccountsKeeps(c: Config, s: State, order: seq<AccountId>)
    requires Inv(s) && Enumerates(order, s.accounts.Keys) && DestroyAccounts(c, s, order).r.Ok?
    ensures var step := DestroyAccounts(c, s, order);
            && KeepsBut(s, step.s, Estates(s, Batch(c, order)))
            && |step.s.accounts| == |s.accounts| - Portion(c, |s.accounts|) && step.s.approvals == s.approvals
            && step.s.details.value.status == Destroying && step.s.details.value.supply == s.details.value.supply
  {
    BatchFacts(c, order, s.accounts.Keys);
    DrainAccountsKeeps(s, Batch(c, order));
    DrainAccountsShape(s, Batch(c, order));
  }

  // ---- Approvals.

  lemma {:induction false} DrainApprovalsKeeps(s: State, ks: seq<(AccountId, AccountId)>)
    requires Inv(s) && s.details.Some? && Lists(ks, s.approvals.Keys)
    ensures var s' := DrainApprovals(s, ks);
            && KeepsBut(s, s', 0) && |s'.approvals| == |s.approvals| - |ks|
            && (forall k :: k in s'.approvals <==> k in s.approvals && k !in ks)
            && s'.accounts == s.accounts && s'.locks == s.locks
            && s'.details.value.status == s.details.value.status && s'.details.value.supply == s.details.value.supply
  {
    if ks != [] {
      var init, k := ks[..|ks| - 1], ks[|ks| - 1];
      DrainApprovalsKeeps(s, init);
      assert k in ks && k !in init;
      assert forall j :: j in ks <==> j in init || j == k;
      DropApprovalKeeps(DrainApprovals(s, init), k);
      SizeDrop(DrainApprovals(s, init).approvals, k);
    }
  }

  lemma DestroyApprovalsKeeps(c: Config, s: State, order: seq<(AccountId, AccountId)>)
    requires Inv(s) && Enumerates(order, s.approvals.Keys) && DestroyApprovals(c, s, order).r.Ok?
    ensures var step := DestroyApprovals(c, s, order);
            && KeepsBut(s, step.s, 0)
            && |step.s.approvals| == |s.approvals| - Portion(c, |s.approvals|) && step.s.accounts == s.accounts
            && step.s.details.value.status == Destroying && step.s.details.value.supply == s.details.value.supply
  {
    BatchFacts(c, order, s.approvals.Keys);
    DrainApprovalsKeeps(s, Batch(c, order));
  }

  // ---- Until the end.

  /** The storage after destroying holders once per given iteration order. */
  ghost function AfterDestroying(c: Config, s: State, orders: seq<seq<AccountId>>): State {
    if orders == [] then s else DestroyAccounts(c, AfterDestroying(c, s, orders[..|orders| - 1]), orders[|orders| - 1]).s
  }

  /** Each order enumerates the holders that the call finds. */
  ghost predicate Faithful(c: Config, s: State, orders: seq<seq<AccountId>>) {
    orders == [] ||
    (Faithful(c, s, orders[..|orders| - 1]) &&
     Enumerates(orders[|orders| - 1], AfterDestroying(c, s, orders[..|orders| - 1]).accounts.Keys))
  }

  /** Entries left of `n` after `k` calls. */
  function LeftAfter(c: Config, n: nat, k: nat): nat {
    SatSub(n, Max(1, c.removeLimit) * k)
  }

  lemma LeftAfterOneMore(c: Config, n: nat, k: nat)
    ensures LeftAfter(c, n, k + 1) == LeftAfter(c, n, k) - Portion(c, LeftAfter(c, n, k))
  {
    assert Max(1, c.removeLimit) * (k + 1) == Max(1, c.removeLimit) * k + Max(1, c.removeLimit);
  }

  /** What is left after one more event, which may be a draining call. */
  lemma LeftAfterEvent(c: Config, n: nat, k: nat, left: nat, sweep: bool, left': nat)
    requires left <= LeftAfter(c, n, k) && left' <= left - (if sweep then Portion(c, left) else 0)
    ensures left' <= LeftAfter(c, n, k + if sweep then 1 else 0)
  {
    LeftAfterOneMore(c, n, k);
  }

  /** After `k` calls exactly `max(1, limit) * k` holders are gone, as long as there were that many. */
  lemma {:induction false} DestructionProgress(c: Config, s: State, orders: seq<seq<AccountId>>)
    requires Inv(s) && s.details.Some? && s.details.value.status == Destroying && Faithful(c, s, orders)
    ensures var s' := AfterDestroying(c, s, orders);
            && Inv(s') && s'.details.Some? && s'.details.value.status == Destroying && s'.approvals == s.approvals
            && |s'.accounts| == LeftAfter(c, |s.accounts|, |orders|)
  {
    if orders != [] {
      var init := orders[..|orders| - 1];
      DestructionProgress(c, s, init);
      DestroyAccountsKeeps(c, AfterDestroying(c, s, init), orders[|orders| - 1]);
      LeftAfterOneMore(c, |s.accounts|, |init|);
    }
  }

  /** The last stage succeeds exactly when holders and approvals are gone, whatever the counters could have said. */
  lemma FinishIff(e: Env, s: State, survivors: set<AccountId>)
    requires Inv(s) && s.details.Some? && s.details.value.status == Destroying && e.callbackOk
    ensures FinishDestroy(e, s, survivors).r.Ok? <==> s.accounts == map[] && s.approvals == map[]
  {
    assert |s.accounts| == 0 <==> s.accounts == map[];
    assert |s.approvals| == 0 <==> s.approvals == map[];
  }

  lemma FinishKeeps(e: Env, s: State, survivors: set<AccountId>)
    requires Inv(s) && FinishDestroy(e, s, survivors).r.Ok?
    ensures var s' := FinishDestroy(e, s, survivors).s;
            Inv(s') && s'.details.None? && s'.accounts == map[] && s'.approvals == map[]
  {
    assert |s.accounts| == 0 && |s.approvals| == 0;
    SurvivorsOk(s.locks, s.locked, survivors);
  }

  lemma SurvivorsOk(locks: Locks, locked: Cache, survivors: set<AccountId>)
    requires LocksOk(locks, locked)
    ensures LocksOk(locks - (locks.Keys - survivors), locked - (locked.Keys - survivors))
  {
    var (locks1, locked1) := (locks - (locks.Keys - survivors), locked - (locked.Keys - survivors));
    forall who | who in locks1
      ensures LockMapOk(locks1[who], locked1[who])
    {
      assert LockMapOk(locks[who], locked[who]);
    }
  }
}
