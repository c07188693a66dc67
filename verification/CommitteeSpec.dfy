/**
  Storage of the committee pallet and what each entry point does to it and to
  the native currency, as functions on values.
*/
module CommitteeSpec {
  import opened Prelude
  import opened Perbill
  import opened Currency

  datatype Lists = Lists(normal: seq<AccountId>, chill: seq<AccountId>, waiting: seq<AccountId>, fulfilling: seq<AccountId>)
  datatype Params = Params(baseline: Balance, perOrder: Balance, minFreePercent: Perbill)
  datatype Stake = Stake(boxPubkey: Hash, staked: Balance, used: Balance)

  datatype State = State(lists: Lists, params: Option<Params>, stakes: map<AccountId, Stake>)

  const Empty := State(Lists([], [], [], []), None, map[])

  datatype Error =
    | PubkeyNotSet | NotCommittee | AccountAlreadyExist | NotInChillList | JobNotDone | GetStakeParamsFailed
    | BalanceNotEnough | StatusNotAllowed | NotInNormalList | StatusNotFeat | ChangeReservedFailed | StakeChangeFailed

  datatype Step = Step(s: State, l: Ledger, r: Result<(), Error>)

  function Fail(s: State, l: Ledger, e: Error): Step {
    Step(s, l, Err(e))
  }

  function Done(s: State, l: Ledger): Step {
    Step(s, l, Ok(()))
  }

  // ---- Sorted lists.

  /** What a binary search answers: where the element is, or where it would go. */
  datatype Position = Found(index: nat) | Missing(slot: nat)

  /** Binary search in `xs[lo..hi]`. */
  function Search(xs: seq<AccountId>, x: AccountId, lo: nat, hi: nat): (p: Position)
    requires lo <= hi <= |xs|
    ensures if p.Found? then lo <= p.index < hi && xs[p.index] == x else lo <= p.slot <= hi
    decreases hi - lo
  {
    if lo == hi then Missing(lo)
    else
      var mid := (lo + hi) / 2;
      if xs[mid] == x then Found(mid)
      else if xs[mid] < x then Search(xs, x, mid + 1, hi)
      else Search(xs, x, lo, mid)
  }

  predicate Has(xs: seq<AccountId>, x: AccountId) {
    Search(xs, x, 0, |xs|).Found?
  }

  /** `ItemList::add_item`: an element that is missing goes where the search ended. */
  function AddItem(xs: seq<AccountId>, x: AccountId): seq<AccountId> {
    match Search(xs, x, 0, |xs|)
    case Found(_) => xs
    case Missing(i) => xs[..i] + [x] + xs[i..]
  }

  /** `ItemList::rm_item`: an element that is found is taken out. */
  function RmItem(xs: seq<AccountId>, x: AccountId): seq<AccountId> {
    match Search(xs, x, 0, |xs|)
    case Found(i) => xs[..i] + xs[i + 1..]
    case Missing(_) => xs
  }

  predicate IsCommittee(lists: Lists, who: AccountId) {
    Has(lists.normal, who) || Has(lists.chill, who) || Has(lists.waiting, who) || Has(lists.fulfilling, who)
  }

  // ---- Stakes.

  function StakeOf(stakes: map<AccountId, Stake>, who: AccountId): Stake {
    if who in stakes then stakes[who] else Stake(0, 0, 0)
  }

  /** Enough staked, and enough of it not in use. */
  predicate Healthy(p: Params, stake: Stake) {
    stake.staked >= p.baseline && SatSub(stake.staked, stake.used) >= Part(p.minFreePercent, stake.staked)
  }

  function Changed(x: Balance, amount: Balance, isAdd: bool): Option<Balance> {
    if isAdd then (if x + amount <= U128_MAX then Some(x + amount) else None)
    else if amount <= x then Some(x - amount) else None
  }

  /** Whether the stake of `who` would be healthy after the change. */
  predicate CheckStakeHealth(s: State, who: AccountId, amount: Balance, isAdd: bool) {
    s.params.Some? &&
    var staked := Changed(StakeOf(s.stakes, who).staked, amount, isAdd);
    staked.Some? && Healthy(s.params.value, StakeOf(s.stakes, who).(staked := staked.value))
  }

  /** The recorded stake, and on request the reserve, moved by `amount`. */
  function ChangeReserved(s: State, l: Ledger, who: AccountId, amount: Balance, isAdd: bool, changeReserve: bool): Option<(State, Ledger)> {
    var staked := Changed(StakeOf(s.stakes, who).staked, amount, isAdd);
    if staked.None? then None
    else
      var s' := s.(stakes := s.stakes[who := StakeOf(s.stakes, who).(staked := staked.value)]);
      if !changeReserve then Some((s', l))
      else if isAdd then
        match Reserve(l, who, amount)
        case Err(_) => None
        case Ok(l') => Some((s', l'))
      else Some((s', Unreserve(l, who, amount).0))
  }

  /** Moves a member between the two working lists when its stake no longer fits the list. */
  function Reclassified(lists: Lists, params: Option<Params>, who: AccountId, stake: Stake): Lists {
    var p := if params.Some? then params.value else Params(0, 0, 0);
    if Healthy(p, stake) && Has(lists.fulfilling, who) then
      lists.(fulfilling := RmItem(lists.fulfilling, who), normal := AddItem(lists.normal, who))
    else if !Healthy(p, stake) && Has(lists.normal, who) then
      lists.(normal := RmItem(lists.normal, who), fulfilling := AddItem(lists.fulfilling, who))
    else lists
  }

  // ---- Entry points.

  function SetParams(s: State, l: Ledger, params: Params): Step {
    Done(s.(params := Some(params)), l)
  }

  function AddCommittee(s: State, l: Ledger, who: AccountId): Step {
    if IsCommittee(s.lists, who) then Fail(s, l, AccountAlreadyExist)
    else Done(s.(lists := s.lists.(waiting := AddItem(s.lists.waiting, who))), l)
  }

  function WithPubkey(s: State, who: AccountId, pubkey: Hash): State {
    s.(stakes := s.stakes[who := StakeOf(s.stakes, who).(boxPubkey := pubkey)])
  }

  function SetBoxPubkey(s: State, l: Ledger, who: AccountId, pubkey: Hash): Step {
    if s.params.None? then Fail(s, l, GetStakeParamsFailed)
    else if Has(s.lists.waiting, who) then
      if !CheckStakeHealth(s, who, s.params.value.baseline, true) then Fail(s, l, BalanceNotEnough)
      else match ChangeReserved(s, l, who, s.params.value.baseline, true, true)
        case None => Fail(s, l, BalanceNotEnough)
        case Some((s1, l1)) =>
          var lists := s1.lists.(waiting := RmItem(s1.lists.waiting, who), normal := AddItem(s1.lists.normal, who));
          Done(WithPubkey(s1.(lists := lists), who, pubkey), l1)
    else if !Has(s.lists.normal, who) then Fail(s, l, StatusNotAllowed)
    else Done(WithPubkey(s, who, pubkey), l)
  }

  function AddStake(s: State, l: Ledger, who: AccountId, amount: Balance): Step {
    if !IsCommittee(s.lists, who) then Fail(s, l, NotCommittee)
    else if !CheckStakeHealth(s, who, amount, true) then Fail(s, l, BalanceNotEnough)
    else match ChangeReserved(s, l, who, amount, true, true)
      case None => Fail(s, l, BalanceNotEnough)
      case Some((s1, l1)) =>
        if Has(s1.lists.fulfilling, who) then
          Done(s1.(lists := s1.lists.(fulfilling := RmItem(s1.lists.fulfilling, who), normal := AddItem(s1.lists.normal, who))), l1)
        else Done(s1, l1)
  }

  function ReduceStake(s: State, l: Ledger, who: AccountId, amount: Balance): Step {
    if !Has(s.lists.normal, who) then Fail(s, l, NotInNormalList)
    else if !CheckStakeHealth(s, who, amount, false) then Fail(s, l, BalanceNotEnough)
    else match ChangeReserved(s, l, who, amount, false, true)
      case None => Fail(s, l, ChangeReservedFailed)
      case Some((s1, l1)) => Done(s1, l1)
  }

  function Chill(s: State, l: Ledger, who: AccountId): Step {
    if !IsCommittee(s.lists, who) then Fail(s, l, NotCommittee)
    else if Has(s.lists.chill, who) then Done(s, l)
    else if Has(s.lists.waiting, who) then Fail(s, l, PubkeyNotSet)
    else Done(s.(lists := s.lists.(normal := RmItem(s.lists.normal, who), fulfilling := RmItem(s.lists.fulfilling, who),
                                   chill := AddItem(s.lists.chill, who))), l)
  }

  function UndoChill(s: State, l: Ledger, who: AccountId): Step {
    if !Has(s.lists.chill, who) then Fail(s, l, NotInChillList)
    else
      var lists := s.lists.(chill := RmItem(s.lists.chill, who), normal := AddItem(s.lists.normal, who));
      Done(s.(lists := Reclassified(lists, s.params, who, StakeOf(s.stakes, who))), l)
  }

  function ExitCommittee(s: State, l: Ledger, who: AccountId): Step {
    var stake := StakeOf(s.stakes, who);
    if stake.used != 0 then Fail(s, l, JobNotDone)
    else if !Has(s.lists.chill, who) then Fail(s, l, StatusNotFeat)
    else Done(s.(lists := s.lists.(chill := RmItem(s.lists.chill, who)), stakes := s.stakes[who := stake.(staked := 0)]),
              Unreserve(l, who, stake.staked).0)
  }

  /** Called by other pallets when an order binds or frees part of a member's stake. */
  function ChangeUsedStake(s: State, l: Ledger, who: AccountId, amount: Balance, isAdd: bool): Step {
    var used := Changed(StakeOf(s.stakes, who).used, amount, isAdd);
    if used.None? then Fail(s, l, StakeChangeFailed)
    else
      var stake := StakeOf(s.stakes, who).(used := used.value);
      Done(s.(lists := Reclassified(s.lists, s.params, who, stake), stakes := s.stakes[who := stake]), l)
  }

  /** Called by other pallets when a member's stake is slashed or topped up; the lists are not looked at. */
  function ChangeTotalStake(s: State, l: Ledger, who: AccountId, amount: Balance, isAdd: bool, changeReserve: bool): Step {
    match ChangeReserved(s, l, who, amount, isAdd, changeReserve)
    case None => Fail(s, l, StakeChangeFailed)
    case Some((s1, l1)) => Done(s1, l1)
  }

  datatype Call =
    | DoSetParams(params: Params)
    | DoAddCommittee(who: AccountId)
    | DoSetBoxPubkey(who: AccountId, pubkey: Hash)
    | DoAddStake(who: AccountId, amount: Balance)
    | DoReduceStake(who: AccountId, amount: Balance)
    | DoChill(who: AccountId)
    | DoUndoChill(who: AccountId)
    | DoExit(who: AccountId)
    | DoChangeUsed(who: AccountId, amount: Balance, isAdd: bool)
    | DoChangeTotal(who: AccountId, amount: Balance, isAdd: bool, changeReserve: bool)

  function Exec(s: State, l: Ledger, call: Call): Step {
    match call
    case DoSetParams(params) => SetParams(s, l, params)
    case DoAddCommittee(who) => AddCommittee(s, l, who)
    case DoSetBoxPubkey(who, pubkey) => SetBoxPubkey(s, l, who, pubkey)
    case DoAddStake(who, amount) => AddStake(s, l, who, amount)
    case DoReduceStake(who, amount) => ReduceStake(s, l, who, amount)
    case DoChill(who) => Chill(s, l, who)
    case DoUndoChill(who) => UndoChill(s, l, who)
    case DoExit(who) => ExitCommittee(s, l, who)
    case DoChangeUsed(who, amount, isAdd) => ChangeUsedStake(s, l, who, amount, isAdd)
    case DoChangeTotal(who, amount, isAdd, changeReserve) => ChangeTotalStake(s, l, who, amount, isAdd, changeReserve)
  }
}
