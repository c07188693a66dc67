/** Which time locks a staged destruction takes along, and when an asset id can be used again. */
module AssetsLeftovers {
  import opened Prelude
  import opened AssetsSpec
  import opened AssetsInvariant
  import opened AssetsSteps
  import opened AssetsDestruction
  import opened AssetsRuns

  /** The locks of `who` went with its account, and only with it. */
  ghost predicate LocksFollow(s: State, s': State, who: AccountId) {
    && (who in s'.locks <==> who in s.locks && (who !in s.accounts || who in s'.accounts))
    && (who in s'.locks ==> s'.locks[who] == s.locks[who])
  }

  predicate IsDestroying(s: State) {
    s.details.Some? && s.details.value.status == Destroying
  }

  /** The call removes a lock of `who` by force. */
  predicate Seizes(call: Call, who: AccountId) {
    call.DoForceRemoveLock? && call.target == who
  }

  lemma DestroyAccountsLocks(c: Config, s: State, order: seq<AccountId>, who: AccountId)
    requires Enumerates(order, s.accounts.Keys) && DestroyAccounts(c, s, order).r.Ok?
    ensures LocksFollow(s, DestroyAccounts(c, s, order).s, who)
  {
    BatchFacts(c, order, s.accounts.Keys);
    DrainAccountsShape(s, Batch(c, order));
    assert who in Batch(c, order) ==> who in s.accounts.Keys;
  }

  lemma DestroyApprovalsLocks(c: Config, s: State, order: seq<(AccountId, AccountId)>, who: AccountId)
    requires Inv(s) && Enumerates(order, s.approvals.Keys) && DestroyApprovals(c, s, order).r.Ok?
    ensures LocksFollow(s, DestroyApprovals(c, s, order).s, who)
  {
    BatchFacts(c, order, s.approvals.Keys);
    DrainApprovalsKeeps(s, Batch(c, order));
  }

  lemma TokensLocks(c: Config, e: Env, s: State, call: Call, who: AccountId)
    requires IsDestroying(s) && !Seizes(call, who) && MovesTokens(call)
    ensures LocksFollow(s, Exec(c, e, s, call).s, who)
  {
  }

  lemma OtherCallsLocks(c: Config, e: Env, s: State, call: Call, who: AccountId)
    requires IsDestroying(s) && !MovesTokens(call)
    requires !call.DoDestroyAccounts? && !call.DoDestroyApprovals? && !call.DoFinishDestroy?
    ensures LocksFollow(s, Exec(c, e, s, call).s, who)
  {
  }

  lemma LocksStep(c: Config, e: Env, s: State, call: Call, who: AccountId)
    requires Inv(s) && Sane(s, call) && IsDestroying(s) && !Seizes(call, who) && Exec(c, e, s, call).s.details.Some?
    ensures LocksFollow(s, Exec(c, e, s, call).s, who)
  {
    if call.DoDestroyAccounts? {
      DestroyAccountsLocks(c, s, call.holders, who);
    } else if call.DoDestroyApprovals? {
      DestroyApprovalsLocks(c, s, call.keys, who);
    } else if MovesTokens(call) {
      TokensLocks(c, e, s, call, who);
    } else if !call.DoFinishDestroy? {
      OtherCallsLocks(c, e, s, call, who);
    }
  }

  lemma LocksFollowOn(s: State, s1: State, s2: State, who: AccountId)
    requires LocksFollow(s, s1, who) && LocksFollow(s1, s2, who)
    requires s2.accounts.Keys <= s1.accounts.Keys <= s.accounts.Keys
    ensures LocksFollow(s, s2, who)
  {
    assert who in s2.accounts.Keys ==> who in s1.accounts.Keys;
    assert who in s1.accounts.Keys ==> who in s.accounts.Keys;
  }

  /**
    While an asset is being destroyed, whatever is called in between, the locks
    of an account go exactly when its account goes: locks of a receiver that
    had no account when the destruction began stay as they are, unless root
    removes them.
  */
  lemma {:induction false} RunLocks(c: Config, s: State, trace: seq<Event>, who: AccountId)
    requires Inv(s) && IsDestroying(s) && SaneRun(c, s, trace) && OneLife(c, s, trace)
    requires forall i :: 0 <= i < |trace| ==> !Seizes(trace[i].call, who)
    ensures LocksFollow(s, After(c, s, trace), who)
  {
    if trace != [] {
      var init, last := trace[..|trace| - 1], trace[|trace| - 1];
      var s1 := After(c, s, init);
      assert forall i :: 0 <= i < |init| ==> init[i] == trace[i];
      RunLocks(c, s, init, who);
      RunKeeps(c, s, init);
      RunDestroying(c, s, init);
      assert trace[|trace| - 1] == last;
      LocksStep(c, last.e, s1, last.call, who);
      DestroyingStays(c, last.e, s1, last.call);
      LocksFollowOn(s, s1, After(c, s, trace), who);
    }
  }

  /** Receivers of locks that hold no account. */
  ghost function Strangers(s: State): set<AccountId> {
    s.locks.Keys - s.accounts.Keys
  }

  ghost predicate NoneSeized(trace: seq<Event>) {
    forall i :: 0 <= i < |trace| ==> !trace[i].call.DoForceRemoveLock?
  }

  /** When the holders are gone, exactly the locks of strangers are left. */
  lemma DestructionLeaves(c: Config, s: State, trace: seq<Event>)
    requires Inv(s) && IsDestroying(s) && SaneRun(c, s, trace) && OneLife(c, s, trace) && NoneSeized(trace)
    requires After(c, s, trace).accounts == map[]
    ensures After(c, s, trace).locks.Keys == Strangers(s)
  {
    forall who
      ensures who in After(c, s, trace).locks.Keys <==> who in Strangers(s)
    {
      RunLocks(c, s, trace, who);
    }
  }

  lemma ClearedLocks(e: Env, s: State, survivors: set<AccountId>)
    requires Inv(s) && FinishDestroy(e, s, survivors).r.Ok?
    ensures var s' := FinishDestroy(e, s, survivors).s;
            Inv(s') && s'.details.None? && s'.locks.Keys == s.locks.Keys * survivors
  {
    FinishKeeps(e, s, survivors);
  }

  /**
    Whether the id can be used again is decided when the destruction begins:
    for any way through it and any locks the final clearing leaves, the next
    asset has its supply covering its locks if and only if none of those locks
    is for a receiver that had no account then.
  */
  lemma ReuseIff(c: Config, s: State, trace: seq<Event>, e: Env, survivors: set<AccountId>, e': Env, call: Call)
    requires Inv(s) && IsDestroying(s) && SaneRun(c, s, trace) && OneLife(c, s, trace) && NoneSeized(trace)
    requires FinishDestroy(e, After(c, s, trace), survivors).r.Ok?
    requires call.DoCreate? || call.DoForceCreate?
    requires Exec(c, e', FinishDestroy(e, After(c, s, trace), survivors).s, call).r.Ok?
    ensures Inv(Exec(c, e', FinishDestroy(e, After(c, s, trace), survivors).s, call).s) <==> survivors !! Strangers(s)
  {
    var s1 := After(c, s, trace);
    var gone := FinishDestroy(e, s1, survivors).s;
    RunKeeps(c, s, trace);
    FinishKeeps(e, s1, survivors);
    DestructionLeaves(c, s, trace);
    ClearedLocks(e, s1, survivors);
    assert gone.locks == map[] <==> gone.locks.Keys == {};
    FreshIff(gone, Exec(c, e', gone, call).s.details.value);
  }

  /**
    Whatever the clearing leaves, nothing of the asset outlives a destruction
    if and only if every receiver of a lock held an account when it began.
  */
  lemma CleanIff(c: Config, s: State, trace: seq<Event>, e: Env)
    requires Inv(s) && IsDestroying(s) && SaneRun(c, s, trace) && OneLife(c, s, trace) && NoneSeized(trace)
    requires After(c, s, trace).accounts == map[] && After(c, s, trace).approvals == map[] && e.callbackOk
    ensures (forall survivors :: FinishDestroy(e, After(c, s, trace), survivors) == Done(Empty, 0)) <==>
            s.locks.Keys <= s.accounts.Keys
  {
    var s1 := After(c, s, trace);
    RunKeeps(c, s, trace);
    RunDestroying(c, s, trace);
    DestructionLeaves(c, s, trace);
    forall survivors
      ensures FinishDestroy(e, s1, survivors).r.Ok? && (FinishDestroy(e, s1, survivors) == Done(Empty, 0) <==> survivors !! Strangers(s))
    {
      FinishIff(e, s1, survivors);
      FinishedEmpty(e, s1, survivors);
    }
    CleanForAll(e, s1, Strangers(s));
  }

  lemma CleanForAll(e: Env, s: State, left: set<AccountId>)
    requires forall survivors :: FinishDestroy(e, s, survivors) == Done(Empty, 0) <==> survivors !! left
    ensures (forall survivors :: FinishDestroy(e, s, survivors) == Done(Empty, 0)) <==> left == {}
  {
    if forall survivors :: FinishDestroy(e, s, survivors) == Done(Empty, 0) {
      assert FinishDestroy(e, s, left) == Done(Empty, 0);
    }
  }

  lemma FinishedEmpty(e: Env, s: State, survivors: set<AccountId>)
    requires Inv(s) && FinishDestroy(e, s, survivors).r.Ok?
    ensures FinishDestroy(e, s, survivors) == Done(Empty, 0) <==> survivors !! s.locks.Keys
  {
    ClearedLocks(e, s, survivors);
    FinishKeeps(e, s, survivors);
    var s' := FinishDestroy(e, s, survivors).s;
    assert s'.locks == map[] <==> s'.locks.Keys == {};
    assert s'.locked == map[] <==> s'.locked.Keys == {};
  }
}
