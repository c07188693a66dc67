/** Members sit in exactly one sorted list, the list fits their stake, and the stake is in reserve. */
module CommitteeProofs {
  import opened Prelude
  import opened Currency
  import opened CommitteeSpec

  // ---- Sorted lists.

  ghost predicate Sorted(xs: seq<AccountId>) {
    forall i, j :: 0 <= i < j < |xs| ==> xs[i] < xs[j]
  }

  /** On a sorted list the search finds exactly the members, and otherwise the slot that separates smaller from larger. */
  lemma {:induction false} SearchExact(xs: seq<AccountId>, x: AccountId, lo: nat, hi: nat)
    requires lo <= hi <= |xs| && Sorted(xs)
    requires forall i :: 0 <= i < lo ==> xs[i] < x
    requires forall i :: hi <= i < |xs| ==> x < xs[i]
    ensures var p := Search(xs, x, lo, hi);
            && (p.Found? <==> x in xs)
            && (p.Missing? ==> (forall i :: 0 <= i < p.slot ==> xs[i] < x) && (forall i :: p.slot <= i < |xs| ==> x < xs[i]))
    decreases hi - lo
  {
    if lo < hi {
      var mid := (lo + hi) / 2;
      if xs[mid] < x {
        assert forall i :: 0 <= i < mid ==> xs[i] < xs[mid];
        SearchExact(xs, x, mid + 1, hi);
      } else if x < xs[mid] {
        assert forall i :: mid < i < |xs| ==> xs[mid] < xs[i];
        SearchExact(xs, x, lo, mid);
      }
    }
  }

  /** On a sorted list binary search is membership. */
  lemma HasExact(xs: seq<AccountId>, x: AccountId)
    requires Sorted(xs)
    ensures Has(xs, x) <==> x in xs
  {
    SearchExact(xs, x, 0, |xs|);
  }

  /** Inserting at a slot that separates smaller from larger keeps a list sorted. */
  lemma SpliceSorted(xs: seq<AccountId>, x: AccountId, i: nat)
    requires Sorted(xs) && i <= |xs|
    requires forall j :: 0 <= j < i ==> xs[j] < x
    requires forall j :: i <= j < |xs| ==> x < xs[j]
    ensures Sorted(xs[..i] + [x] + xs[i..])
  {
    var ys := xs[..i] + [x] + xs[i..];
    forall j, k | 0 <= j < k < |ys|
      ensures ys[j] < ys[k]
    {
      assert ys[j] == if j < i then xs[j] else if j == i then x else xs[j - 1];
      assert ys[k] == if k < i then xs[k] else if k == i then x else xs[k - 1];
    }
  }

  lemma SpliceMembers(xs: seq<AccountId>, x: AccountId, i: nat)
    requires i <= |xs|
    ensures forall y :: y in xs[..i] + [x] + xs[i..] <==> y in xs || y == x
  {
    assert xs == xs[..i] + xs[i..];
  }

  lemma CutSorted(xs: seq<AccountId>, i: nat)
    requires Sorted(xs) && i < |xs|
    ensures Sorted(xs[..i] + xs[i + 1..])
  {
  }

  lemma CutMembers(xs: seq<AccountId>, i: nat)
    requires Sorted(xs) && i < |xs|
    ensures forall y :: y in xs[..i] + xs[i + 1..] <==> y in xs && y != xs[i]
  {
    assert xs == xs[..i] + [xs[i]] + xs[i + 1..];
    assert forall j :: 0 <= j < i ==> xs[j] < xs[i];
    assert forall j :: i < j < |xs| ==> xs[i] < xs[j];
  }

  /** Adding by binary search keeps a list sorted and adds exactly the element, once. */
  lemma AddFacts(xs: seq<AccountId>, x: AccountId)
    requires Sorted(xs)
    ensures Sorted(AddItem(xs, x)) && forall y :: y in AddItem(xs, x) <==> y in xs || y == x
  {
    SearchExact(xs, x, 0, |xs|);
    var p := Search(xs, x, 0, |xs|);
    if p.Missing? {
      SpliceSorted(xs, x, p.slot);
      SpliceMembers(xs, x, p.slot);
    }
  }

  /** Removing by binary search keeps a list sorted and removes exactly the element. */
  lemma RmFacts(xs: seq<AccountId>, x: AccountId)
    requires Sorted(xs)
    ensures Sorted(RmItem(xs, x)) && forall y :: y in RmItem(xs, x) <==> y in xs && y != x
  {
    SearchExact(xs, x, 0, |xs|);
    var p := Search(xs, x, 0, |xs|);
    if p.Found? {
      CutSorted(xs, p.index);
      CutMembers(xs, p.index);
    }
  }

  // ---- One place per member.

  ghost predicate Apart(l: Lists) {
    && (forall x :: x in l.normal ==> x !in l.chill && x !in l.waiting && x !in l.fulfilling)
    && (forall x :: x in l.chill ==> x !in l.waiting && x !in l.fulfilling)
    && (forall x :: x in l.waiting ==> x !in l.fulfilling)
  }

  ghost predicate ListsOk(l: Lists) {
    Sorted(l.normal) && Sorted(l.chill) && Sorted(l.waiting) && Sorted(l.fulfilling) && Apart(l)
  }

  /** In agreement with the lists, the four tests are the four memberships. */
  lemma TestsExact(l: Lists, who: AccountId)
    requires ListsOk(l)
    ensures Has(l.normal, who) <==> who in l.normal
    ensures Has(l.chill, who) <==> who in l.chill
    ensures Has(l.waiting, who) <==> who in l.waiting
    ensures Has(l.fulfilling, who) <==> who in l.fulfilling
  {
    HasExact(l.normal, who);
    HasExact(l.chill, who);
    HasExact(l.waiting, who);
    HasExact(l.fulfilling, who);
  }

  /** `who` is in the lists flagged and in no other; everybody else is where they were. */
  ghost predicate Placed(l: Lists, l': Lists, who: AccountId, normal: bool, chill: bool, waiting: bool, fulfilling: bool) {
    && (forall x :: x in l'.normal <==> if x == who then normal else x in l.normal)
    && (forall x :: x in l'.chill <==> if x == who then chill else x in l.chill)
    && (forall x :: x in l'.waiting <==> if x == who then waiting else x in l.waiting)
    && (forall x :: x in l'.fulfilling <==> if x == who then fulfilling else x in l.fulfilling)
  }

  lemma ToNormal(l: Lists, who: AccountId)
    requires ListsOk(l)
    ensures who in l.waiting ==>
              var l' := l.(waiting := RmItem(l.waiting, who), normal := AddItem(l.normal, who));
              ListsOk(l') && Placed(l, l', who, true, false, false, false)
    ensures who in l.fulfilling ==>
              var l' := l.(fulfilling := RmItem(l.fulfilling, who), normal := AddItem(l.normal, who));
              ListsOk(l') && Placed(l, l', who, true, false, false, false)
    ensures who in l.chill ==>
              var l' := l.(chill := RmItem(l.chill, who), normal := AddItem(l.normal, who));
              ListsOk(l') && Placed(l, l', who, true, false, false, false)
  {
    AddFacts(l.normal, who);
    RmFacts(l.waiting, who);
    RmFacts(l.fulfilling, who);
    RmFacts(l.chill, who);
  }

  /** Reclassifying leaves a member in the working list that fits its stake, and touches nobody else. */
  lemma ReclassifiedFacts(l: Lists, params: Option<Params>, who: AccountId, stake: Stake)
    requires ListsOk(l)
    ensures var l' := Reclassified(l, params, who, stake);
            var healthy := Healthy(if params.Some? then params.value else Params(0, 0, 0), stake);
            var works := who in l.normal || who in l.fulfilling;
            && ListsOk(l')
            && Placed(l, l', who, works && healthy, who in l.chill, who in l.waiting, works && !healthy)
  {
    TestsExact(l, who);
    AddFacts(l.normal, who);
    RmFacts(l.normal, who);
    AddFacts(l.fulfilling, who);
    RmFacts(l.fulfilling, who);
  }

  lemma ChillPlaces(l: Lists, who: AccountId)
    requires ListsOk(l) && (who in l.normal || who in l.fulfilling)
    ensures var l' := l.(normal := RmItem(l.normal, who), fulfilling := RmItem(l.fulfilling, who), chill := AddItem(l.chill, who));
            ListsOk(l') && Placed(l, l', who, false, true, false, false)
  {
    RmFacts(l.normal, who);
    RmFacts(l.fulfilling, who);
    AddFacts(l.chill, who);
  }

  lemma ExitPlaces(l: Lists, who: AccountId)
    requires ListsOk(l) && who in l.chill
    ensures var l' := l.(chill := RmItem(l.chill, who));
            ListsOk(l') && Placed(l, l', who, false, false, false, false)
  {
    RmFacts(l.chill, who);
  }

  lemma AddPlaces(l: Lists, who: AccountId)
    requires ListsOk(l) && !IsCommittee(l, who)
    ensures var l' := l.(waiting := AddItem(l.waiting, who));
            ListsOk(l') && Placed(l, l', who, false, false, true, false)
  {
    TestsExact(l, who);
    AddFacts(l.waiting, who);
  }

  /** The lists are in order, and nobody but `who` changed place in the working lists. */
  ghost predicate Rearranged(l: Lists, l': Lists, who: AccountId) {
    && ListsOk(l')
    && (forall x :: x != who ==> (x in l'.normal <==> x in l.normal) && (x in l'.fulfilling <==> x in l.fulfilling))
  }

  lemma StakingLists(s: State, l: Ledger, call: Call)
    requires ListsOk(s.lists) && (call.DoSetBoxPubkey? || call.DoAddStake?)
    ensures Rearranged(s.lists, Exec(s, l, call).s.lists, call.who)
  {
    TestsExact(s.lists, call.who);
    ToNormal(s.lists, call.who);
  }

  lemma MovingLists(s: State, l: Ledger, call: Call)
    requires ListsOk(s.lists) && (call.DoAddCommittee? || call.DoChill? || call.DoExit?)
    ensures Rearranged(s.lists, Exec(s, l, call).s.lists, call.who)
  {
    var who := call.who;
    TestsExact(s.lists, who);
    if call.DoAddCommittee? && !IsCommittee(s.lists, who) {
      AddPlaces(s.lists, who);
    }
    if call.DoChill? && (who in s.lists.normal || who in s.lists.fulfilling) {
      ChillPlaces(s.lists, who);
    }
    if call.DoExit? && who in s.lists.chill {
      ExitPlaces(s.lists, who);
    }
  }

  lemma UndoChillLists(s: State, l: Ledger, who: AccountId)
    requires ListsOk(s.lists)
    ensures Rearranged(s.lists, UndoChill(s, l, who).s.lists, who)
  {
    TestsExact(s.lists, who);
    if who in s.lists.chill {
      ToNormal(s.lists, who);
      ReclassifiedFacts(s.lists.(chill := RmItem(s.lists.chill, who), normal := AddItem(s.lists.normal, who)),
                        s.params, who, StakeOf(s.stakes, who));
    }
  }

  lemma ChangeUsedLists(s: State, l: Ledger, who: AccountId, amount: Balance, isAdd: bool)
    requires ListsOk(s.lists)
    ensures Rearranged(s.lists, ChangeUsedStake(s, l, who, amount, isAdd).s.lists, who)
  {
    var used := Changed(StakeOf(s.stakes, who).used, amount, isAdd);
    if used.Some? {
      ReclassifiedFacts(s.lists, s.params, who, StakeOf(s.stakes, who).(used := used.value));
    }
  }

  /** Every call keeps the lists sorted and disjoint, and moves at most the account it is about. */
  lemma ExecLists(s: State, l: Ledger, call: Call)
    requires ListsOk(s.lists)
    ensures ListsOk(Exec(s, l, call).s.lists)
    ensures !call.DoSetParams? ==> Rearranged(s.lists, Exec(s, l, call).s.lists, call.who)
  {
    match call
    case DoSetBoxPubkey(_, _) => StakingLists(s, l, call);
    case DoAddStake(_, _) => StakingLists(s, l, call);
    case DoAddCommittee(_) => MovingLists(s, l, call);
    case DoChill(_) => MovingLists(s, l, call);
    case DoExit(_) => MovingLists(s, l, call);
    case DoUndoChill(who) => UndoChillLists(s, l, who);
    case DoChangeUsed(who, amount, isAdd) => ChangeUsedLists(s, l, who, amount, isAdd);
    case _ =>
  }

  // ---- The list fits the stake.

  ghost predicate FitsAt(lists: Lists, p: Params, stake: Stake, who: AccountId) {
    && (who in lists.normal ==> Healthy(p, stake))
    && (who in lists.fulfilling ==> !Healthy(p, stake))
  }

  /** Members in `normal` meet the stake parameters, and members in `fulfilling` do not. */
  ghost predicate Fits(s: State) {
    s.params.Some? && forall who :: FitsAt(s.lists, s.params.value, StakeOf(s.stakes, who), who)
  }

  /** Everything about other accounts is untouched, so only the account of the call has to be looked at. */
  lemma FitsOthers(s: State, s': State, who: AccountId)
    requires Fits(s) && s'.params == s.params
    requires Rearranged(s.lists, s'.lists, who)
    requires forall x :: x != who ==> StakeOf(s'.stakes, x) == StakeOf(s.stakes, x)
    requires FitsAt(s'.lists, s.params.value, StakeOf(s'.stakes, who), who)
    ensures Fits(s')
  {
    forall x
      ensures FitsAt(s'.lists, s.params.value, StakeOf(s'.stakes, x), x)
    {
      assert FitsAt(s.lists, s.params.value, StakeOf(s.stakes, x), x);
    }
  }

  /** Only the account of the call can have its stake or its parameters changed. */
  lemma StakesOfOthers(s: State, l: Ledger, call: Call)
    requires !call.DoSetParams?
    ensures var s' := Exec(s, l, call).s;
            s'.params == s.params && forall x :: x != call.who ==> StakeOf(s'.stakes, x) == StakeOf(s.stakes, x)
  {
  }

  lemma SetBoxPubkeyFits(s: State, l: Ledger, who: AccountId, pubkey: Hash)
    requires ListsOk(s.lists) && Fits(s)
    ensures var s' := SetBoxPubkey(s, l, who, pubkey).s;
            FitsAt(s'.lists, s.params.value, StakeOf(s'.stakes, who), who)
  {
    assert FitsAt(s.lists, s.params.value, StakeOf(s.stakes, who), who);
    TestsExact(s.lists, who);
    if who in s.lists.waiting {
      ToNormal(s.lists, who);
    }
  }

  lemma AddStakeFits(s: State, l: Ledger, who: AccountId, amount: Balance)
    requires ListsOk(s.lists) && Fits(s)
    ensures var s' := AddStake(s, l, who, amount).s;
            FitsAt(s'.lists, s.params.value, StakeOf(s'.stakes, who), who)
  {
    assert FitsAt(s.lists, s.params.value, StakeOf(s.stakes, who), who);
    TestsExact(s.lists, who);
    if who in s.lists.fulfilling {
      ToNormal(s.lists, who);
    }
  }

  lemma ReduceStakeFits(s: State, l: Ledger, who: AccountId, amount: Balance)
    requires ListsOk(s.lists) && Fits(s)
    ensures var s' := ReduceStake(s, l, who, amount).s;
            FitsAt(s'.lists, s.params.value, StakeOf(s'.stakes, who), who)
  {
    assert FitsAt(s.lists, s.params.value, StakeOf(s.stakes, who), who);
    TestsExact(s.lists, who);
  }

  lemma UndoChillFits(s: State, l: Ledger, who: AccountId)
    requires ListsOk(s.lists) && Fits(s)
    ensures var s' := UndoChill(s, l, who).s;
            FitsAt(s'.lists, s.params.value, StakeOf(s'.stakes, who), who)
  {
    assert FitsAt(s.lists, s.params.value, StakeOf(s.stakes, who), who);
    TestsExact(s.lists, who);
    if who in s.lists.chill {
      ToNormal(s.lists, who);
      ReclassifiedFacts(s.lists.(chill := RmItem(s.lists.chill, who), normal := AddItem(s.lists.normal, who)),
                        s.params, who, StakeOf(s.stakes, who));
    }
  }

  lemma ChangeUsedFits(s: State, l: Ledger, who: AccountId, amount: Balance, isAdd: bool)
    requires ListsOk(s.lists) && Fits(s)
    ensures var s' := ChangeUsedStake(s, l, who, amount, isAdd).s;
            FitsAt(s'.lists, s.params.value, StakeOf(s'.stakes, who), who)
  {
    assert FitsAt(s.lists, s.params.value, StakeOf(s.stakes, who), who);
    var used := Changed(StakeOf(s.stakes, who).used, amount, isAdd);
    if used.Some? {
      ReclassifiedFacts(s.lists, s.params, who, StakeOf(s.stakes, who).(used := used.value));
    }
  }

  lemma ListMovesFit(s: State, l: Ledger, call: Call)
    requires ListsOk(s.lists) && Fits(s) && (call.DoAddCommittee? || call.DoChill? || call.DoExit?)
    ensures var s' := Exec(s, l, call).s;
            FitsAt(s'.lists, s.params.value, StakeOf(s'.stakes, call.who), call.who)
  {
    assert FitsAt(s.lists, s.params.value, StakeOf(s.stakes, call.who), call.who);
    TestsExact(s.lists, call.who);
    match call
    case DoAddCommittee(who) =>
    case DoChill(who) =>
      if who in s.lists.normal || who in s.lists.fulfilling {
        ChillPlaces(s.lists, who);
      }
    case DoExit(who) =>
      if who in s.lists.chill {
        ExitPlaces(s.lists, who);
      }
  }

  /** With fixed parameters, and the total stake changed only through the committee's own calls, the list fits the stake. */
  lemma ExecFits(s: State, l: Ledger, call: Call)
    requires ListsOk(s.lists) && Fits(s) && !call.DoSetParams? && !call.DoChangeTotal?
    ensures Fits(Exec(s, l, call).s)
  {
    ExecLists(s, l, call);
    StakesOfOthers(s, l, call);
    match call {
      case DoSetBoxPubkey(who, pubkey) => SetBoxPubkeyFits(s, l, who, pubkey);
      case DoAddStake(who, amount) => AddStakeFits(s, l, who, amount);
      case DoReduceStake(who, amount) => ReduceStakeFits(s, l, who, amount);
      case DoUndoChill(who) => UndoChillFits(s, l, who);
      case DoChangeUsed(who, amount, isAdd) => ChangeUsedFits(s, l, who, amount, isAdd);
      case _ => ListMovesFit(s, l, call);
    }
    FitsOthers(s, Exec(s, l, call).s, call.who);
  }

  /** A change of the total stake from outside keeps the fit exactly when the new stake suits the list the member is in. */
  lemma ChangeTotalIff(s: State, l: Ledger, who: AccountId, amount: Balance, isAdd: bool, changeReserve: bool)
    requires ListsOk(s.lists) && Fits(s) && ChangeTotalStake(s, l, who, amount, isAdd, changeReserve).r.Ok?
    ensures var staked := Changed(StakeOf(s.stakes, who).staked, amount, isAdd);
            && staked.Some?
            && (Fits(ChangeTotalStake(s, l, who, amount, isAdd, changeReserve).s) <==>
                FitsAt(s.lists, s.params.value, StakeOf(s.stakes, who).(staked := staked.value), who))
  {
    var s' := ChangeTotalStake(s, l, who, amount, isAdd, changeReserve).s;
    StakesOfOthers(s, l, DoChangeTotal(who, amount, isAdd, changeReserve));
    if FitsAt(s.lists, s.params.value, StakeOf(s'.stakes, who), who) {
      FitsOthers(s, s', who);
    } else {
      assert !FitsAt(s'.lists, s'.params.value, StakeOf(s'.stakes, who), who);
    }
  }

  /**
    The way other pallets use it: a change of the total stake followed by one
    of the stake in use, which looks at the lists. When both succeed the fit
    is kept, however little the list suited the stake in between.
  */
  lemma PairFits(s: State, l: Ledger, total: Call, used: Call)
    requires ListsOk(s.lists) && Fits(s)
    requires total.DoChangeTotal? && used.DoChangeUsed? && used.who == total.who
    requires Exec(s, l, total).r.Ok? && Exec(Exec(s, l, total).s, Exec(s, l, total).l, used).r.Ok?
    ensures Fits(Exec(Exec(s, l, total).s, Exec(s, l, total).l, used).s)
  {
    var t := Exec(s, l, total);
    var s' := Exec(t.s, t.l, used).s;
    StakesOfOthers(s, l, total);
    StakesOfOthers(t.s, t.l, used);
    assert t.s.lists == s.lists;
    ChangeUsedLists(t.s, t.l, used.who, used.amount, used.isAdd);
    ReclassifiedFacts(t.s.lists, t.s.params, used.who, StakeOf(s'.stakes, used.who));
    FitsOthers(s, s', used.who);
  }

  // ---- The stake is in reserve.

  /** Reserve beyond the recorded stake. */
  function Surplus(s: State, l: Ledger, who: AccountId): int {
    Reserved(l, who) - StakeOf(s.stakes, who).staked
  }

  ghost predicate Backed(s: State, l: Ledger) {
    forall who :: Surplus(s, l, who) >= 0
  }

  /** The entry point that moves the recorded stake without the reserve, for a caller that has moved it already. */
  predicate RecordOnly(call: Call) {
    call.DoChangeTotal? && !call.changeReserve && call.amount > 0
  }

  lemma ChangeReservedSurplus(s: State, l: Ledger, who: AccountId, amount: Balance, isAdd: bool, changeReserve: bool, x: AccountId)
    requires ChangeReserved(s, l, who, amount, isAdd, changeReserve).Some? && Surplus(s, l, who) >= 0
    ensures var (s', l') := ChangeReserved(s, l, who, amount, isAdd, changeReserve).value;
            Surplus(s', l', x) == Surplus(s, l, x) +
            if x != who || changeReserve then 0 else if isAdd then -(amount as int) else amount
  {
  }

  /** How far a successful record-only change moves the surplus of the account. */
  function RecordShift(call: Call): int {
    if !RecordOnly(call) then 0 else if call.isAdd then -(call.amount as int) else call.amount
  }

  /** How far a call moves the surplus of one account: only a record-only change that goes through does. */
  function ShiftOf(s: State, l: Ledger, call: Call, x: AccountId): int {
    if RecordOnly(call) && Exec(s, l, call).r.Ok? && x == call.who then RecordShift(call) else 0
  }

  /** A record-only increase finds the reserve it records. */
  predicate FundedCall(s: State, l: Ledger, call: Call) {
    RecordOnly(call) && call.isAdd ==> call.amount <= Surplus(s, l, call.who)
  }

  predicate MovesReserve(call: Call) {
    call.DoSetBoxPubkey? || call.DoAddStake? || call.DoReduceStake? || call.DoChangeTotal?
  }

  lemma ReserveCallsBacked(s: State, l: Ledger, call: Call, x: AccountId)
    requires MovesReserve(call) && Surplus(s, l, call.who) >= 0 && Exec(s, l, call).r.Ok?
    ensures var step := Exec(s, l, call);
            Surplus(step.s, step.l, x) == Surplus(s, l, x) + if x == call.who then RecordShift(call) else 0
  {
    match call
    case DoSetBoxPubkey(who, _) =>
      if Has(s.lists.waiting, who) {
        ChangeReservedSurplus(s, l, who, s.params.value.baseline, true, true, x);
      }
    case DoAddStake(who, amount) => ChangeReservedSurplus(s, l, who, amount, true, true, x);
    case DoReduceStake(who, amount) => ChangeReservedSurplus(s, l, who, amount, false, true, x);
    case DoChangeTotal(who, amount, isAdd, changeReserve) => ChangeReservedSurplus(s, l, who, amount, isAdd, changeReserve, x);
  }

  lemma OtherCallsBacked(s: State, l: Ledger, call: Call, x: AccountId)
    requires !MovesReserve(call) && (call.DoExit? ==> Surplus(s, l, call.who) >= 0)
    ensures var step := Exec(s, l, call);
            Surplus(step.s, step.l, x) == Surplus(s, l, x)
  {
  }

  /** A call that returns an error leaves storage and currency as they were. */
  lemma ErrorsChangeNothing(s: State, l: Ledger, call: Call)
    requires Exec(s, l, call).r.Err?
    ensures Exec(s, l, call) == Fail(s, l, Exec(s, l, call).r.error)
  {
  }

  /** Stake and reserve of every account move together, unless only the record is asked to move. */
  lemma ExecBacked(s: State, l: Ledger, call: Call, x: AccountId)
    requires Backed(s, l)
    ensures var step := Exec(s, l, call);
            Surplus(step.s, step.l, x) == Surplus(s, l, x) + ShiftOf(s, l, call, x)
  {
    if Exec(s, l, call).r.Err? {
      ErrorsChangeNothing(s, l, call);
    } else if MovesReserve(call) {
      assert Surplus(s, l, call.who) >= 0;
      ReserveCallsBacked(s, l, call, x);
    } else {
      assert call.DoExit? ==> Surplus(s, l, call.who) >= 0;
      OtherCallsBacked(s, l, call, x);
    }
  }

  // ---- Runs.

  function After(s: State, l: Ledger, trace: seq<Call>): (State, Ledger) {
    if trace == [] then (s, l)
    else
      var (s1, l1) := After(s, l, trace[..|trace| - 1]);
      var step := Exec(s1, l1, trace[|trace| - 1]);
      (step.s, step.l)
  }

  /** In every reachable state the lists are strictly sorted and pairwise disjoint, so every membership test is right. */
  lemma {:induction false} RunLists(s: State, l: Ledger, trace: seq<Call>)
    requires ListsOk(s.lists)
    ensures ListsOk(After(s, l, trace).0.lists)
    ensures forall who :: IsCommittee(After(s, l, trace).0.lists, who) <==>
              var lists := After(s, l, trace).0.lists;
              who in lists.normal || who in lists.chill || who in lists.waiting || who in lists.fulfilling
  {
    if trace != [] {
      var (s1, l1) := After(s, l, trace[..|trace| - 1]);
      RunLists(s, l, trace[..|trace| - 1]);
      ExecLists(s1, l1, trace[|trace| - 1]);
    }
    forall who {
      TestsExact(After(s, l, trace).0.lists, who);
    }
  }

  lemma {:induction false} AfterFirst(s: State, l: Ledger, trace: seq<Call>)
    requires trace != []
    ensures After(s, l, trace) == After(Exec(s, l, trace[0]).s, Exec(s, l, trace[0]).l, trace[1..])
  {
    if |trace| > 1 {
      var init := trace[..|trace| - 1];
      AfterFirst(s, l, init);
      assert init[1..] == trace[1..][..|trace| - 2];
    }
  }

  /**
    The parameters stay, and each change of the total stake that goes through
    is followed at once by a change of the same member's stake in use that
    goes through, as every caller does.
  */
  ghost predicate Paired(s: State, l: Ledger, trace: seq<Call>)
    decreases |trace|
  {
    trace == [] ||
    var first := Exec(s, l, trace[0]);
    && !trace[0].DoSetParams?
    && if trace[0].DoChangeTotal? && first.r.Ok? then
         && |trace| >= 2 && trace[1].DoChangeUsed? && trace[1].who == trace[0].who
         && Exec(first.s, first.l, trace[1]).r.Ok?
         && Paired(Exec(first.s, first.l, trace[1]).s, Exec(first.s, first.l, trace[1]).l, trace[2..])
       else Paired(first.s, first.l, trace[1..])
  }

  /** One call, or one pair, of such a run. */
  lemma PairedStep(s: State, l: Ledger, call: Call)
    requires ListsOk(s.lists) && Fits(s) && !call.DoSetParams? && !(call.DoChangeTotal? && Exec(s, l, call).r.Ok?)
    ensures ListsOk(Exec(s, l, call).s.lists) && Fits(Exec(s, l, call).s)
  {
    ExecLists(s, l, call);
    if call.DoChangeTotal? {
      ErrorsChangeNothing(s, l, call);
    } else {
      ExecFits(s, l, call);
    }
  }

  /** At the end of every such run, members in `normal` meet the parameters and members in `fulfilling` do not. */
  lemma {:induction false} RunFits(s: State, l: Ledger, trace: seq<Call>)
    requires ListsOk(s.lists) && Fits(s) && Paired(s, l, trace)
    ensures Fits(After(s, l, trace).0)
    decreases |trace|
  {
    if trace != [] {
      var first := Exec(s, l, trace[0]);
      AfterFirst(s, l, trace);
      if trace[0].DoChangeTotal? && first.r.Ok? {
        AfterFirst(first.s, first.l, trace[1..]);
        assert trace[1..][1..] == trace[2..];
        ExecLists(s, l, trace[0]);
        ExecLists(first.s, first.l, trace[1]);
        PairFits(s, l, trace[0], trace[1]);
        var second := Exec(first.s, first.l, trace[1]);
        RunFits(second.s, second.l, trace[2..]);
      } else {
        PairedStep(s, l, trace[0]);
        RunFits(first.s, first.l, trace[1..]);
      }
    }
  }

  /** How far the record-only changes of a run moved the surplus of one account. */
  function TotalShift(s: State, l: Ledger, trace: seq<Call>, x: AccountId): int {
    if trace == [] then 0
    else
      var (s1, l1) := After(s, l, trace[..|trace| - 1]);
      TotalShift(s, l, trace[..|trace| - 1], x) + ShiftOf(s1, l1, trace[|trace| - 1], x)
  }

  /** Record-only increases are made for reserve that is already there. */
  ghost predicate Funded(s: State, l: Ledger, trace: seq<Call>) {
    trace == [] ||
    var (s1, l1) := After(s, l, trace[..|trace| - 1]);
    Funded(s, l, trace[..|trace| - 1]) && FundedCall(s1, l1, trace[|trace| - 1])
  }

  /** Over any run the stake of every account stays backed, and its surplus moves by the record-only changes alone. */
  lemma {:induction false} RunBacked(s: State, l: Ledger, trace: seq<Call>)
    requires Backed(s, l) && Funded(s, l, trace)
    ensures var (s', l') := After(s, l, trace);
            Backed(s', l') && forall x :: Surplus(s', l', x) == Surplus(s, l, x) + TotalShift(s, l, trace, x)
  {
    if trace != [] {
      var init, last := trace[..|trace| - 1], trace[|trace| - 1];
      var (s1, l1) := After(s, l, init);
      var (s2, l2) := After(s, l, trace);
      RunBacked(s, l, init);
      forall x
        ensures Surplus(s2, l2, x) == Surplus(s1, l1, x) + ShiftOf(s1, l1, last, x) >= 0
      {
        assert Surplus(s1, l1, x) >= 0;
        ExecBacked(s1, l1, last, x);
      }
    }
  }
}
