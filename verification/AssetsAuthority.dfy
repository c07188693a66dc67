/** Who may do what to an asset, and what its status stops, over single calls and whole runs. */
module AssetsAuthority {
  import opened Prelude
  import opened AssetsSpec
  import opened AssetsRuns

  // ---- Roles.

  /** Whether the account named by the call holds the role the call is for; calls by root and by holders need none. */
  predicate HoldsRole(s: State, call: Call)
    requires s.details.Some?
  {
    var d := s.details.value;
    match call
    case DoMint(who, _, _) => who == d.issuer
    case DoBurn(who, _, _) => who == d.admin
    case DoTransfer(_, _, _, needAdmin, _) => needAdmin.None? || needAdmin.value == d.admin
    case DoSetAccountStatus(who, _, status) => who == if status == Liquid then d.admin else d.freezer
    case DoFreezeAsset(who) => who == d.freezer
    case DoThawAsset(who) => who == d.admin
    case DoStartDestroy(checkOwner) => checkOwner.None? || checkOwner.value == d.owner
    case DoTransferOwnership(who, _) => who == d.owner
    case DoSetTeam(who, _, _, _) => who == d.owner
    case DoSetMinBalance(who, _) => who == d.owner
    case DoCancelApproval(_, _, checkAdmin) => checkAdmin.None? || checkAdmin.value == d.admin
    case DoTouch(_, depositor, checkDepositor) => !checkDepositor || depositor == d.admin || depositor == d.freezer
    case DoRefundOther(target, who) =>
      who == d.admin || (target in s.accounts && s.accounts[target].reason.DepositFrom? && s.accounts[target].reason.depositor == who)
    case _ => true
  }

  /** A call that changes anything about an existing asset was made by the holder of its role. */
  lemma OnlyByRole(c: Config, e: Env, s: State, call: Call)
    requires s.details.Some? && Exec(c, e, s, call).s != s
    ensures HoldsRole(s, call)
  {
    if Exec(c, e, s, call).r.Err? {
      ErrorsChangeNothing(c, e, s, call);
    }
  }

  datatype Roles = Roles(owner: AccountId, issuer: AccountId, admin: AccountId, freezer: AccountId)

  function RolesOf(d: Details): Roles {
    Roles(d.owner, d.issuer, d.admin, d.freezer)
  }

  /** The call is the owner's, or root's. */
  predicate Reassigns(owner: AccountId, call: Call) {
    call.DoForceAssetStatus? || ((call.DoTransferOwnership? || call.DoSetTeam?) && call.who == owner)
  }

  lemma DrainRoles(s: State, ws: seq<AccountId>)
    requires s.details.Some?
    ensures RolesOf(DrainAccounts(s, ws).details.value) == RolesOf(s.details.value)
  {
  }

  lemma DrainApprovalsRoles(s: State, ks: seq<(AccountId, AccountId)>)
    requires s.details.Some?
    ensures RolesOf(DrainApprovals(s, ks).details.value) == RolesOf(s.details.value)
  {
  }

  predicate SameRoles(s: State, s': State) {
    s.details.Some? && s'.details.Some? ==> RolesOf(s'.details.value) == RolesOf(s.details.value)
  }

  lemma TransferRoles(e: Env, s: State, source: AccountId, dest: AccountId, amount: Balance, needAdmin: Option<AccountId>, f: TransferFlags)
    ensures SameRoles(s, Transfer(e, s, source, dest, amount, needAdmin, f).s)
  {
  }

  lemma ApprovedRoles(e: Env, s: State, owner: AccountId, delegate: AccountId, dest: AccountId, amount: Balance)
    ensures SameRoles(s, TransferApproved(e, s, owner, delegate, dest, amount).s)
  {
    TransferRoles(e, s, owner, dest, amount, None, TransferFlags(false, false, false));
  }

  lemma ParkRoles(c: Config, e: Env, s: State, source: AccountId, dest: AccountId, amount: Balance, duration: BlockNumber, keepAlive: bool)
    ensures SameRoles(s, TransferAndLock(c, e, s, source, dest, amount, duration, keepAlive).s)
  {
  }

  lemma MintRoles(e: Env, s: State, who: AccountId, amount: Balance, check: Option<AccountId>)
    ensures SameRoles(s, Mint(e, s, who, amount, check).s)
  {
  }

  lemma BurnRoles(e: Env, s: State, who: AccountId, amount: Balance, check: Option<AccountId>, f: DebitFlags)
    ensures SameRoles(s, Burn(e, s, who, amount, check, f).s)
  {
  }

  lemma UnlockRoles(e: Env, s: State, who: AccountId, id: u32)
    ensures SameRoles(s, Unlock(e, s, who, id).s)
  {
  }

  lemma TokensKeepRoles(c: Config, e: Env, s: State, call: Call)
    requires MovesTokens(call)
    ensures SameRoles(s, Exec(c, e, s, call).s)
  {
    match call
    case DoMint(who, beneficiary, amount) => MintRoles(e, s, beneficiary, amount, Some(who));
    case DoBurn(who, target, amount) => BurnRoles(e, s, target, amount, Some(who), DebitFlags(false, true));
    case DoUnlock(who, id) => UnlockRoles(e, s, who, id);
    case DoTransfer(source, dest, amount, needAdmin, keepAlive) =>
      TransferRoles(e, s, source, dest, amount, needAdmin, TransferFlags(keepAlive, false, false));
    case DoTransferApproved(owner, delegate, dest, amount) => ApprovedRoles(e, s, owner, delegate, dest, amount);
    case DoTransferAndLock(source, dest, amount, duration, keepAlive) => ParkRoles(c, e, s, source, dest, amount, duration, keepAlive);
    case DoForceRemoveLock(_, _) =>
  }

  lemma OthersKeepRoles(c: Config, e: Env, s: State, call: Call)
    requires s.details.Some? && !MovesTokens(call)
    requires !call.DoDestroyAccounts? && !call.DoDestroyApprovals? && !Reassigns(s.details.value.owner, call)
    ensures SameRoles(s, Exec(c, e, s, call).s)
  {
  }

  lemma RolesMove(c: Config, e: Env, s: State, call: Call)
    requires s.details.Some? && Exec(c, e, s, call).s.details.Some?
    ensures RolesOf(Exec(c, e, s, call).s.details.value) == RolesOf(s.details.value) || Reassigns(s.details.value.owner, call)
  {
    if Exec(c, e, s, call).r.Err? {
      ErrorsChangeNothing(c, e, s, call);
    } else if Reassigns(s.details.value.owner, call) {
    } else if call.DoDestroyAccounts? {
      DrainRoles(s, Batch(c, call.holders));
    } else if call.DoDestroyApprovals? {
      DrainApprovalsRoles(s, Batch(c, call.keys));
    } else if MovesTokens(call) {
      TokensKeepRoles(c, e, s, call);
    } else {
      OthersKeepRoles(c, e, s, call);
    }
  }

  /**
    Nobody else can start a change of roles: when any of the four has changed
    over a run, the first change was a call of the owner the run began with,
    or of root.
  */
  lemma {:induction false} RolesHistory(c: Config, s: State, trace: seq<Event>) returns (i: nat)
    requires OneLife(c, s, trace) && !SameRoles(s, After(c, s, trace))
    ensures i < |trace| && s.details.Some? && Reassigns(s.details.value.owner, trace[i].call)
    ensures SameRoles(s, After(c, s, trace[..i])) && !SameRoles(s, After(c, s, trace[..i + 1]))
    ensures Exec(c, trace[i].e, After(c, s, trace[..i]), trace[i].call).r.Ok?
  {
    var init, last := trace[..|trace| - 1], trace[|trace| - 1];
    LifeBegins(c, s, trace);
    if SameRoles(s, After(c, s, init)) {
      RolesMove(c, last.e, After(c, s, init), last.call);
      i := |trace| - 1;
      assert trace[..i + 1] == trace;
      if Exec(c, last.e, After(c, s, init), last.call).r.Err? {
        ErrorsChangeNothing(c, last.e, After(c, s, init), last.call);
      }
    } else {
      i := RolesHistory(c, s, init);
      assert init[..i] == trace[..i] && init[..i + 1] == trace[..i + 1] && init[i] == trace[i];
    }
  }

  lemma {:induction false} LifeBegins(c: Config, s: State, trace: seq<Event>)
    requires OneLife(c, s, trace)
    ensures s.details.Some?
  {
    if trace != [] {
      LifeBegins(c, s, trace[..|trace| - 1]);
    }
  }

  /** Handing the asset over locks the former owner out, and the new owner can hand it back as it was. */
  lemma OwnershipRoundTrip(c: Config, e: Env, e': Env, s: State, owner: AccountId)
    requires s.details.Some? && s.details.value.status == Live && e.reserveOk && e'.reserveOk && owner != s.details.value.owner
    ensures var (was, step) := (s.details.value.owner, TransferOwnership(e, s, s.details.value.owner, owner));
            && step.r.Ok? && TransferOwnership(e', step.s, owner, was) == Done(s, 0)
            && (forall call: Call :: (call.DoTransferOwnership? || call.DoSetTeam? || call.DoSetMinBalance?) && call.who == was ==>
                  Exec(c, e', step.s, call) == Fail(step.s, NoPermission))
            && StartDestroy(step.s, Some(was)) == Fail(step.s, NoPermission)
  {
    var d := s.details.value;
    assert d.(owner := owner).(owner := d.owner) == d;
  }

  /** After `set_team` each of the three roles is held by exactly the account named for it. */
  lemma TeamTakesOver(c: Config, e: Env, s: State, issuer: AccountId, admin: AccountId, freezer: AccountId, call: Call)
    requires s.details.Some? && SetTeam(s, s.details.value.owner, issuer, admin, freezer).r.Ok?
    requires Exec(c, e, SetTeam(s, s.details.value.owner, issuer, admin, freezer).s, call).s !=
             SetTeam(s, s.details.value.owner, issuer, admin, freezer).s
    ensures (call.DoMint? ==> call.who == issuer) && (call.DoBurn? || call.DoThawAsset? ==> call.who == admin)
    ensures call.DoFreezeAsset? ==> call.who == freezer
    ensures call.DoSetAccountStatus? ==> call.who == if call.status == Liquid then admin else freezer
    ensures call.DoTransferOwnership? || call.DoSetTeam? || call.DoSetMinBalance? ==> call.who == s.details.value.owner
  {
    OnlyByRole(c, e, SetTeam(s, s.details.value.owner, issuer, admin, freezer).s, call);
  }

  // ---- Outsiders.

  predicate NoRole(s: State, x: AccountId) {
    s.details.Some? ==> var r := RolesOf(s.details.value); x != r.owner && x != r.issuer && x != r.admin && x != r.freezer
  }

  /** A call that uses a role, in the name of `x`. */
  predicate Asks(call: Call, x: AccountId) {
    match call
    case DoMint(who, _, _) => who == x
    case DoBurn(who, _, _) => who == x
    case DoTransfer(_, _, _, needAdmin, _) => needAdmin == Some(x)
    case DoSetAccountStatus(who, _, _) => who == x
    case DoFreezeAsset(who) => who == x
    case DoThawAsset(who) => who == x
    case DoStartDestroy(checkOwner) => checkOwner == Some(x)
    case DoTransferOwnership(who, _) => who == x
    case DoSetTeam(who, _, _, _) => who == x
    case DoSetMinBalance(who, _) => who == x
    case DoCancelApproval(_, _, checkAdmin) => checkAdmin == Some(x)
    case DoTouch(_, depositor, checkDepositor) => checkDepositor && depositor == x
    case _ => false
  }

  /** A call that names `x` for a role. */
  predicate Appoints(call: Call, x: AccountId) {
    match call
    case DoCreate(who, admin, _) => x == who || x == admin
    case DoForceCreate(owner, _, _) => x == owner
    case DoTransferOwnership(_, owner) => x == owner
    case DoSetTeam(_, issuer, admin, freezer) => x == issuer || x == admin || x == freezer
    case DoForceAssetStatus(owner, issuer, admin, freezer, _, _, _) => x == owner || x == issuer || x == admin || x == freezer
    case _ => false
  }

  /** What an outsider asks for changes nothing. */
  lemma AskingFails(c: Config, e: Env, s: State, call: Call, x: AccountId)
    requires NoRole(s, x) && Asks(call, x)
    ensures Exec(c, e, s, call).s == s
  {
    if s.details.Some? {
      if Exec(c, e, s, call).s != s {
        OnlyByRole(c, e, s, call);
      }
    } else if Exec(c, e, s, call).r.Err? {
      ErrorsChangeNothing(c, e, s, call);
    } else {
      VacantNoop(c, e, s, call);
    }
  }

  lemma StaysOutside(c: Config, e: Env, s: State, call: Call, x: AccountId)
    requires NoRole(s, x) && !Appoints(call, x)
    ensures NoRole(Exec(c, e, s, call).s, x)
  {
    var s' := Exec(c, e, s, call).s;
    if s.details.Some? && s'.details.Some? {
      RolesMove(c, e, s, call);
    } else if s'.details.Some? && Exec(c, e, s, call).r.Err? {
      ErrorsChangeNothing(c, e, s, call);
    }
  }

  /** The run without what `x` asks for. */
  function Others(trace: seq<Event>, x: AccountId): seq<Event> {
    if trace == [] then []
    else
      var init, last := Others(trace[..|trace| - 1], x), trace[|trace| - 1];
      if Asks(last.call, x) then init else init + [last]
  }

  /**
    An account that holds no role and is named for none cannot influence the
    asset by any call that uses a role, over any run, from one life of the id
    to the next: leaving those calls out gives the same storage.
  */
  lemma {:induction false} Outsider(c: Config, s: State, trace: seq<Event>, x: AccountId)
    requires NoRole(s, x) && forall i :: 0 <= i < |trace| ==> !Appoints(trace[i].call, x)
    ensures NoRole(After(c, s, trace), x) && After(c, s, trace) == After(c, s, Others(trace, x))
  {
    if trace != [] {
      var init, last := trace[..|trace| - 1], trace[|trace| - 1];
      assert forall i :: 0 <= i < |init| ==> init[i] == trace[i];
      Outsider(c, s, init, x);
      assert trace[|trace| - 1] == last;
      StaysOutside(c, last.e, After(c, s, init), last.call, x);
      if Asks(last.call, x) {
        AskingFails(c, last.e, After(c, s, init), last.call, x);
      } else {
        assert (Others(init, x) + [last])[..|Others(init, x)|] == Others(init, x);
      }
    }
  }

  /** A successful change of roles leaves everybody it does not name, and who had no other role, outside. */
  lemma Dismissed(c: Config, e: Env, s: State, call: Call, x: AccountId)
    requires s.details.Some? && Exec(c, e, s, call).r.Ok? && !Appoints(call, x)
    requires || call.DoForceAssetStatus?
             || (call.DoSetTeam? && x != s.details.value.owner)
             || (call.DoTransferOwnership? && x !in {s.details.value.issuer, s.details.value.admin, s.details.value.freezer})
    ensures NoRole(Exec(c, e, s, call).s, x)
  {
  }

  // ---- Status.

  /** Calls that move tokens and ask for a live asset; only removing a lock by force does not ask. */
  predicate NeedsLive(call: Call) {
    (MovesTokens(call) && !call.DoForceRemoveLock?) || call.DoTouch? || call.DoRefundOther? ||
    call.DoApprove? || call.DoCancelApproval? || call.DoTransferOwnership? || call.DoSetTeam?
  }

  /** On an asset that is frozen or being destroyed, none of these calls changes anything. */
  lemma StoppedCalls(c: Config, e: Env, s: State, call: Call)
    requires s.details.Some? && s.details.value.status != Live && NeedsLive(call)
    ensures Exec(c, e, s, call).s == s
    ensures Exec(c, e, s, call).r.Ok? ==> Exec(c, e, s, call).r.value == 0
  {
  }

  /** Freezing is undone by the admin, and leaves storage as it was. */
  lemma FreezeThaw(s: State)
    requires s.details.Some? && s.details.value.status == Live
    ensures FreezeAsset(s, s.details.value.freezer).r.Ok?
    ensures ThawAsset(FreezeAsset(s, s.details.value.freezer).s, s.details.value.admin) == Done(s, 0)
  {
    assert s.details.value.(status := Frozen).(status := Live) == s.details.value;
  }

  /** Calls that end the freeze of an asset. */
  predicate Thaws(call: Call) {
    call.DoThawAsset? || call.DoForceAssetStatus? || call.DoStartDestroy?
  }

  /** What a frozen asset keeps of one account: its balance, its locks and its allowances. */
  predicate SameHolding(s: State, s': State, who: AccountId) {
    && (who in s'.accounts <==> who in s.accounts)
    && (who in s.accounts ==> s'.accounts[who].balance == s.accounts[who].balance)
    && LocksOf(s'.locks, who) == LocksOf(s.locks, who) && s'.approvals == s.approvals
  }

  /** Calls that can still move a holding of a frozen asset: closing one's own account and removing a lock by force. */
  predicate Withdraws(call: Call, who: AccountId) {
    (call.DoRefund? && call.who == who) || (call.DoForceRemoveLock? && call.target == who)
  }

  predicate IsFrozenAsset(s: State) {
    s.details.Some? && s.details.value.status == Frozen
  }

  lemma FrozenStep(c: Config, e: Env, s: State, call: Call, who: AccountId)
    requires IsFrozenAsset(s) && !Thaws(call) && !Withdraws(call, who)
    ensures var s' := Exec(c, e, s, call).s;
            IsFrozenAsset(s') && s'.details.value.supply == s.details.value.supply && SameHolding(s, s', who)
  {
    if NeedsLive(call) {
      StoppedCalls(c, e, s, call);
    } else if Exec(c, e, s, call).r.Err? {
      ErrorsChangeNothing(c, e, s, call);
    }
  }

  /**
    From the freeze to the thaw: whatever anybody calls, in any order, the
    supply and every holding stay, except an account its holder closes and a
    lock that root removes.
  */
  lemma {:induction false} FrozenRun(c: Config, s: State, trace: seq<Event>, who: AccountId)
    requires IsFrozenAsset(s)
    requires forall i :: 0 <= i < |trace| ==> !Thaws(trace[i].call) && !Withdraws(trace[i].call, who)
    ensures var s' := After(c, s, trace);
            IsFrozenAsset(s') && s'.details.value.supply == s.details.value.supply && SameHolding(s, s', who)
  {
    if trace != [] {
      var init, last := trace[..|trace| - 1], trace[|trace| - 1];
      FrozenRun(c, s, init, who);
      assert trace[|trace| - 1] == last;
      FrozenStep(c, last.e, After(c, s, init), last.call, who);
    }
  }

  // ---- Root.

  /** Root can rewrite the record of any asset that is not being destroyed, and what it writes holds at once. */
  lemma ForcedStatus(s: State, owner: AccountId, issuer: AccountId, admin: AccountId, freezer: AccountId,
                     minBalance: Balance, isSufficient: bool, isFrozen: bool)
    ensures var step := ForceAssetStatus(s, owner, issuer, admin, freezer, minBalance, isSufficient, isFrozen);
            && (step.r.Ok? <==> s.details.Some? && s.details.value.status != Destroying)
            && (step.r.Ok? ==>
                  && (isFrozen <==> IsFrozenAsset(step.s)) && RolesOf(step.s.details.value) == Roles(owner, issuer, admin, freezer)
                  && ForceAssetStatus(step.s, s.details.value.owner, s.details.value.issuer, s.details.value.admin,
                                      s.details.value.freezer, s.details.value.minBalance, s.details.value.isSufficient,
                                      s.details.value.status == Frozen) == Done(s, 0))
  {
  }
}
