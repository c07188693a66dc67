/**
  The committee pallet with its storage updated in place. Each method is
  proved to do exactly what its function in CommitteeSpec says to the lists,
  the stakes and the currency.
*/
module CommitteePallet {
  import opened Prelude
  import opened Currency
  import opened CommitteeSpec
  import CommitteeProofs

  /** Where an element is in a sorted list, or where it would go. */
  method BinarySearch(xs: seq<AccountId>, x: AccountId) returns (p: Position)
    ensures p == Search(xs, x, 0, |xs|)
    ensures CommitteeProofs.Sorted(xs) ==> (p.Found? <==> x in xs)
  {
    if CommitteeProofs.Sorted(xs) {
      CommitteeProofs.HasExact(xs, x);
    }
    var lo, hi := 0, |xs|;
    while lo < hi
      invariant 0 <= lo <= hi <= |xs|
      invariant Search(xs, x, 0, |xs|) == Search(xs, x, lo, hi)
    {
      var mid := (lo + hi) / 2;
      if xs[mid] == x { return Found(mid); }
      if xs[mid] < x {
        lo := mid + 1;
      } else {
        hi := mid;
      }
    }
    return Missing(lo);
  }

  method Contains(xs: seq<AccountId>, x: AccountId) returns (found: bool)
    ensures found == Has(xs, x)
  {
    var p := BinarySearch(xs, x);
    return p.Found?;
  }

  /** The list with the element in its place, if it was not there. */
  method Insert(xs: seq<AccountId>, x: AccountId) returns (ys: seq<AccountId>)
    ensures ys == AddItem(xs, x)
    ensures CommitteeProofs.Sorted(xs) ==> CommitteeProofs.Sorted(ys) && forall y :: y in ys <==> y in xs || y == x
  {
    if CommitteeProofs.Sorted(xs) {
      CommitteeProofs.AddFacts(xs, x);
    }
    var p := BinarySearch(xs, x);
    ys := xs;
    if p.Missing? {
      ys := ys[..p.slot] + [x] + ys[p.slot..];
    }
  }

  /** The list without the element. */
  method Remove(xs: seq<AccountId>, x: AccountId) returns (ys: seq<AccountId>)
    ensures ys == RmItem(xs, x)
    ensures CommitteeProofs.Sorted(xs) ==> CommitteeProofs.Sorted(ys) && forall y :: y in ys <==> y in xs && y != x
  {
    if CommitteeProofs.Sorted(xs) {
      CommitteeProofs.RmFacts(xs, x);
    }
    var p := BinarySearch(xs, x);
    ys := xs;
    if p.Found? {
      ys := ys[..p.index] + ys[p.index + 1..];
    }
  }

  class Pallet {
    const currency: Balances

    var lists: Lists
    var params: Option<Params>
    var stakes: map<AccountId, Stake>

    function Snapshot(): State
      reads this
    {
      State(lists, params, stakes)
    }

    /** The four lists are strictly sorted and share no member. */
    ghost predicate Valid()
      reads this
    {
      CommitteeProofs.ListsOk(lists)
    }

    constructor (currency: Balances)
      ensures Valid() && Snapshot() == Empty && this.currency == currency
    {
      this.currency := currency;
      lists, params, stakes := Lists([], [], [], []), None, map[];
    }

    method SetParams(p: Params) returns (r: Result<(), Error>)
      modifies this
      ensures Step(Snapshot(), currency.Snapshot(), r) == CommitteeSpec.SetParams(old(Snapshot()), old(currency.Snapshot()), p)
    {
      params := Some(p);
      return Ok(());
    }

    method TestCommittee(who: AccountId) returns (member: bool)
      ensures member == IsCommittee(lists, who)
    {
      member := Contains(lists.normal, who);
      if member { return; }
      member := Contains(lists.chill, who);
      if member { return; }
      member := Contains(lists.waiting, who);
      if member { return; }
      member := Contains(lists.fulfilling, who);
    }

    method AddCommittee(who: AccountId) returns (r: Result<(), Error>)
      modifies this
      ensures Step(Snapshot(), currency.Snapshot(), r) == CommitteeSpec.AddCommittee(old(Snapshot()), old(currency.Snapshot()), who)
    {
      var member := TestCommittee(who);
      if member { return Err(AccountAlreadyExist); }
      var waiting := Insert(lists.waiting, who);
      lists := lists.(waiting := waiting);
      return Ok(());
    }

    /** Moves the recorded stake and, on request, the reserve; false when it cannot, and then nothing has changed. */
    method ChangeReserved(who: AccountId, amount: Balance, isAdd: bool, changeReserve: bool) returns (ok: bool)
      modifies `stakes, currency
      ensures match CommitteeSpec.ChangeReserved(old(Snapshot()), old(currency.Snapshot()), who, amount, isAdd, changeReserve)
              case None => !ok && Snapshot() == old(Snapshot()) && currency.Snapshot() == old(currency.Snapshot())
              case Some((s, l)) => ok && Snapshot() == s && currency.Snapshot() == l
    {
      var stake := StakeOf(stakes, who);
      if isAdd {
        if stake.staked + amount > U128_MAX { return false; }
        stake := stake.(staked := stake.staked + amount);
      } else {
        if stake.staked < amount { return false; }
        stake := stake.(staked := stake.staked - amount);
      }
      if changeReserve {
        if isAdd {
          var reserved := currency.TryReserve(who, amount);
          if !reserved { return false; }
        } else {
          currency.DoUnreserve(who, amount);
        }
      }
      stakes := stakes[who := stake];
      return true;
    }

    method SetBoxPubkey(who: AccountId, pubkey: Hash) returns (r: Result<(), Error>)
      modifies this, currency
      ensures Step(Snapshot(), currency.Snapshot(), r) == CommitteeSpec.SetBoxPubkey(old(Snapshot()), old(currency.Snapshot()), who, pubkey)
    {
      if params.None? { return Err(GetStakeParamsFailed); }
      var baseline := params.value.baseline;
      var waiting := Contains(lists.waiting, who);
      if waiting {
        if !CheckStakeHealth(Snapshot(), who, baseline, true) { return Err(BalanceNotEnough); }
        var ok := ChangeReserved(who, baseline, true, true);
        if !ok { return Err(BalanceNotEnough); }
        var from := Remove(lists.waiting, who);
        var to := Insert(lists.normal, who);
        lists := lists.(waiting := from, normal := to);
      } else {
        var normal := Contains(lists.normal, who);
        if !normal { return Err(StatusNotAllowed); }
      }
      stakes := stakes[who := StakeOf(stakes, who).(boxPubkey := pubkey)];
      return Ok(());
    }

    method AddStake(who: AccountId, amount: Balance) returns (r: Result<(), Error>)
      modifies this, currency
      ensures Step(Snapshot(), currency.Snapshot(), r) == CommitteeSpec.AddStake(old(Snapshot()), old(currency.Snapshot()), who, amount)
    {
      var member := TestCommittee(who);
      if !member { return Err(NotCommittee); }
      if !CheckStakeHealth(Snapshot(), who, amount, true) { return Err(BalanceNotEnough); }
      var ok := ChangeReserved(who, amount, true, true);
      if !ok { return Err(BalanceNotEnough); }
      var fulfilling := Contains(lists.fulfilling, who);
      if fulfilling {
        var from := Remove(lists.fulfilling, who);
        var to := Insert(lists.normal, who);
        lists := lists.(fulfilling := from, normal := to);
      }
      return Ok(());
    }

    method ReduceStake(who: AccountId, amount: Balance) returns (r: Result<(), Error>)
      modifies this, currency
      ensures Step(Snapshot(), currency.Snapshot(), r) == CommitteeSpec.ReduceStake(old(Snapshot()), old(currency.Snapshot()), who, amount)
    {
      var normal := Contains(lists.normal, who);
      if !normal { return Err(NotInNormalList); }
      if !CheckStakeHealth(Snapshot(), who, amount, false) { return Err(BalanceNotEnough); }
      var ok := ChangeReserved(who, amount, false, true);
      if !ok { return Err(ChangeReservedFailed); }
      return Ok(());
    }

    method Chill(who: AccountId) returns (r: Result<(), Error>)
      modifies this
      ensures Step(Snapshot(), currency.Snapshot(), r) == CommitteeSpec.Chill(old(Snapshot()), old(currency.Snapshot()), who)
    {
      var member := TestCommittee(who);
      if !member { return Err(NotCommittee); }
      var chilled := Contains(lists.chill, who);
      if chilled { return Ok(()); }
      var waiting := Contains(lists.waiting, who);
      if waiting { return Err(PubkeyNotSet); }
      var normal := Remove(lists.normal, who);
      lists := lists.(normal := normal);
      var fulfilling := Remove(lists.fulfilling, who);
      lists := lists.(fulfilling := fulfilling);
      var chill := Insert(lists.chill, who);
      lists := lists.(chill := chill);
      return Ok(());
    }

    /** Moves a member to the working list that fits the given stake; true when it was moved. */
    method Reclassify(who: AccountId, stake: Stake) returns (moved: bool)
      modifies `lists
      ensures lists == Reclassified(old(lists), params, who, stake)
    {
      var p := if params.Some? then params.value else Params(0, 0, 0);
      var enough := Healthy(p, stake);
      var fulfilling := Contains(lists.fulfilling, who);
      if enough && fulfilling {
        var from := Remove(lists.fulfilling, who);
        var to := Insert(lists.normal, who);
        lists := lists.(fulfilling := from, normal := to);
        return true;
      }
      var normal := Contains(lists.normal, who);
      if !enough && normal {
        var from := Remove(lists.normal, who);
        var to := Insert(lists.fulfilling, who);
        lists := lists.(normal := from, fulfilling := to);
        return true;
      }
      return false;
    }

    method UndoChill(who: AccountId) returns (r: Result<(), Error>)
      modifies this
      ensures Step(Snapshot(), currency.Snapshot(), r) == CommitteeSpec.UndoChill(old(Snapshot()), old(currency.Snapshot()), who)
    {
      var chilled := Contains(lists.chill, who);
      if !chilled { return Err(NotInChillList); }
      var from := Remove(lists.chill, who);
      var to := Insert(lists.normal, who);
      lists := lists.(chill := from, normal := to);
      var _ := Reclassify(who, StakeOf(stakes, who));
      return Ok(());
    }

    method ExitCommittee(who: AccountId) returns (r: Result<(), Error>)
      modifies this, currency
      ensures Step(Snapshot(), currency.Snapshot(), r) == CommitteeSpec.ExitCommittee(old(Snapshot()), old(currency.Snapshot()), who)
    {
      var stake := StakeOf(stakes, who);
      if stake.used != 0 { return Err(JobNotDone); }
      var chilled := Contains(lists.chill, who);
      if !chilled { return Err(StatusNotFeat); }
      var chill := Remove(lists.chill, who);
      lists := lists.(chill := chill);
      currency.DoUnreserve(who, stake.staked);
      stakes := stakes[who := stake.(staked := 0)];
      return Ok(());
    }

    method ChangeUsedStake(who: AccountId, amount: Balance, isAdd: bool) returns (r: Result<(), Error>)
      modifies this
      ensures Step(Snapshot(), currency.Snapshot(), r) ==
              CommitteeSpec.ChangeUsedStake(old(Snapshot()), old(currency.Snapshot()), who, amount, isAdd)
    {
      var stake := StakeOf(stakes, who);
      if isAdd {
        if stake.used + amount > U128_MAX { return Err(StakeChangeFailed); }
        stake := stake.(used := stake.used + amount);
      } else {
        if stake.used < amount { return Err(StakeChangeFailed); }
        stake := stake.(used := stake.used - amount);
      }
      var _ := Reclassify(who, stake);
      stakes := stakes[who := stake];
      return Ok(());
    }

    method ChangeTotalStake(who: AccountId, amount: Balance, isAdd: bool, changeReserve: bool) returns (r: Result<(), Error>)
      modifies this, currency
      ensures Step(Snapshot(), currency.Snapshot(), r) ==
              CommitteeSpec.ChangeTotalStake(old(Snapshot()), old(currency.Snapshot()), who, amount, isAdd, changeReserve)
    {
      var ok := ChangeReserved(who, amount, isAdd, changeReserve);
      if !ok { return Err(StakeChangeFailed); }
      return Ok(());
    }

    // ---- Any call.

    method Route(call: Call) returns (r: Result<(), Error>)
      modifies this, currency
      ensures Step(Snapshot(), currency.Snapshot(), r) == Exec(old(Snapshot()), old(currency.Snapshot()), call)
    {
      match call
      case DoSetParams(p) => r := SetParams(p);
      case DoAddCommittee(who) => r := AddCommittee(who);
      case DoSetBoxPubkey(who, pubkey) => r := SetBoxPubkey(who, pubkey);
      case DoAddStake(who, amount) => r := AddStake(who, amount);
      case DoReduceStake(who, amount) => r := ReduceStake(who, amount);
      case DoChill(who) => r := Chill(who);
      case DoUndoChill(who) => r := UndoChill(who);
      case DoExit(who) => r := ExitCommittee(who);
      case DoChangeUsed(who, amount, isAdd) => r := ChangeUsedStake(who, amount, isAdd);
      case DoChangeTotal(who, amount, isAdd, changeReserve) => r := ChangeTotalStake(who, amount, isAdd, changeReserve);
    }

    /** One call keeps the lists sorted and apart, and moves no member but the one it names. */
    method Dispatch(call: Call) returns (r: Result<(), Error>)
      requires Valid()
      modifies this, currency
      ensures Valid()
      ensures Step(Snapshot(), currency.Snapshot(), r) == Exec(old(Snapshot()), old(currency.Snapshot()), call)
      ensures !call.DoSetParams? ==> CommitteeProofs.Rearranged(old(lists), lists, call.who)
    {
      CommitteeProofs.ExecLists(Snapshot(), currency.Snapshot(), call);
      r := Route(call);
    }
  }
}
