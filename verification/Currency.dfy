/**
  The native currency as the pallets see it through `ReservableCurrency`:
  a free and a reserved balance per account, and a part of the free balance
  that may not be reserved.
*/
module Currency {
  import opened Prelude

  datatype Ledger = Ledger(
    free: map<AccountId, Balance>,
    reserved: map<AccountId, Balance>,
    frozen: map<AccountId, Balance>)

  datatype CurrencyError = NotEnoughFree | Overflow | DeadAccount

  function Free(l: Ledger, who: AccountId): Balance {
    if who in l.free then l.free[who] else 0
  }

  function Reserved(l: Ledger, who: AccountId): Balance {
    if who in l.reserved then l.reserved[who] else 0
  }

  function Frozen(l: Ledger, who: AccountId): Balance {
    if who in l.frozen then l.frozen[who] else 0
  }

  function Reserve(l: Ledger, who: AccountId, value: Balance): (r: Result<Ledger, CurrencyError>)
    ensures r.Ok? ==>
              && Reserved(r.value, who) == Reserved(l, who) + value
              && Free(r.value, who) + value == Free(l, who)
              && (forall a :: a != who ==> Reserved(r.value, a) == Reserved(l, a) && Free(r.value, a) == Free(l, a))
    ensures r.Ok? <==> value == 0 || (value + Frozen(l, who) <= Free(l, who) && Reserved(l, who) + value <= U128_MAX)
  {
    if value == 0 then Ok(l)
    else if Free(l, who) < value + Frozen(l, who) then Err(NotEnoughFree)
    else if Reserved(l, who) + value > U128_MAX then Err(Overflow)
    else Ok(l.(free := l.free[who := Free(l, who) - value],
               reserved := l.reserved[who := Reserved(l, who) + value]))
  }

  /** Moves back up to `value`; the second component is what could not be moved. */
  function Unreserve(l: Ledger, who: AccountId, value: Balance): (r: (Ledger, Balance))
    ensures Reserved(r.0, who) == SatSub(Reserved(l, who), value)
    ensures Free(r.0, who) == SatAdd128(Free(l, who), Min(value, Reserved(l, who)))
    ensures r.1 == SatSub(value, Reserved(l, who))
    ensures forall a :: a != who ==> Reserved(r.0, a) == Reserved(l, a) && Free(r.0, a) == Free(l, a)
  {
    var actual := Min(Reserved(l, who), value);
    if actual == 0 then (l, value)
    else (l.(reserved := l.reserved[who := Reserved(l, who) - actual],
             free := l.free[who := SatAdd128(Free(l, who), actual)]),
          value - actual)
  }

  /** Burns up to `value` of the reserve; the second component is what was missing. */
  function SlashReserved(l: Ledger, who: AccountId, value: Balance): (r: (Ledger, Balance))
    ensures Reserved(r.0, who) == SatSub(Reserved(l, who), value)
    ensures r.1 == SatSub(value, Reserved(l, who))
    ensures forall a :: a != who ==> Reserved(r.0, a) == Reserved(l, a)
    ensures r.0.free == l.free
  {
    var actual := Min(Reserved(l, who), value);
    if actual == 0 then (l, value)
    else (l.(reserved := l.reserved[who := Reserved(l, who) - actual]), value - actual)
  }

  /** Moves up to `value` of the reserve of `source` to the free balance of `dest`. */
  function RepatriateReserved(l: Ledger, source: AccountId, dest: AccountId, value: Balance)
    : (r: Result<(Ledger, Balance), CurrencyError>)
    ensures r.Ok? ==>
              && Reserved(r.value.0, source) == SatSub(Reserved(l, source), value)
              && r.value.1 == SatSub(value, Reserved(l, source))
              && (forall a :: a != source ==> Reserved(r.value.0, a) == Reserved(l, a))
              && (forall a :: a != source && a != dest ==> Free(r.value.0, a) == Free(l, a))
              && (source != dest ==>
                    && Free(r.value.0, source) == Free(l, source)
                    && Free(r.value.0, dest) == Free(l, dest) + Min(value, Reserved(l, source)))
  {
    var actual := Min(Reserved(l, source), value);
    if actual == 0 then Ok((l, value))
    else if source == dest then Ok((Unreserve(l, source, actual).0, value - actual))
    else if dest !in l.free then Err(DeadAccount)
    else if Free(l, dest) + actual > U128_MAX then Err(Overflow)
    else Ok((l.(reserved := l.reserved[source := Reserved(l, source) - actual],
                free := l.free[dest := Free(l, dest) + actual]),
             value - actual))
  }

  /** Paying `value` out of a reserve and freeing `rest` takes exactly their saturated sum from it. */
  lemma PayThenFree(l: Ledger, source: AccountId, dest: AccountId, value: Balance, rest: Balance, paid: (Ledger, Balance))
    requires SatAdd128(value, rest) <= Reserved(l, source)
    requires RepatriateReserved(l, source, dest, value) == Ok(paid) && paid.1 == 0
    ensures var l' := Unreserve(paid.0, source, rest).0;
            && Reserved(l', source) == Reserved(l, source) - SatAdd128(value, rest)
            && (forall a :: a != source ==> Reserved(l', a) == Reserved(l, a))
            && (source != dest ==> Free(l', dest) == Free(l, dest) + value)
            && (source != dest ==> Free(l', source) == SatAdd128(Free(l, source), SatAdd128(value, rest) - value))
  {
  }

  /** The currency's storage, updated in place by the pallets that share it. */
  class Balances {
    var free: map<AccountId, Balance>
    var reserved: map<AccountId, Balance>
    var frozen: map<AccountId, Balance>

    function Snapshot(): Ledger
      reads this
    {
      Ledger(free, reserved, frozen)
    }

    constructor (l: Ledger)
      ensures Snapshot() == l
    {
      free, reserved, frozen := l.free, l.reserved, l.frozen;
    }

    /** Puts back the storage a failed dispatchable started from. */
    method Rollback(l: Ledger)
      modifies this
      ensures Snapshot() == l
    {
      free, reserved, frozen := l.free, l.reserved, l.frozen;
    }

    method TryReserve(who: AccountId, value: Balance) returns (ok: bool)
      modifies this
      ensures ok == Reserve(old(Snapshot()), who, value).Ok?
      ensures Snapshot() == if ok then Reserve(old(Snapshot()), who, value).value else old(Snapshot())
    {
      if value == 0 { return true; }
      var f := if who in free then free[who] else 0;
      var r := if who in reserved then reserved[who] else 0;
      var z := if who in frozen then frozen[who] else 0;
      if f < value + z || r + value > U128_MAX { return false; }
      free := free[who := f - value];
      reserved := reserved[who := r + value];
      return true;
    }

    method DoUnreserve(who: AccountId, value: Balance)
      modifies this
      ensures Snapshot() == Unreserve(old(Snapshot()), who, value).0
    {
      var r := if who in reserved then reserved[who] else 0;
      var actual := Min(r, value);
      if actual > 0 {
        var f := if who in free then free[who] else 0;
        reserved := reserved[who := r - actual];
        free := free[who := SatAdd128(f, actual)];
      }
    }

    method DoSlashReserved(who: AccountId, value: Balance) returns (unslashed: Balance)
      modifies this
      ensures (Snapshot(), unslashed) == SlashReserved(old(Snapshot()), who, value)
    {
      var r := if who in reserved then reserved[who] else 0;
      var actual := Min(r, value);
      if actual > 0 {
        reserved := reserved[who := r - actual];
      }
      unslashed := value - actual;
    }

    method TryRepatriate(source: AccountId, dest: AccountId, value: Balance) returns (r: Result<Balance, CurrencyError>)
      modifies this
      ensures match RepatriateReserved(old(Snapshot()), source, dest, value)
              case Ok(p) => Snapshot() == p.0 && r == Ok(p.1)
              case Err(e) => Snapshot() == old(Snapshot()) && r == Err(e)
    {
      var s := if source in reserved then reserved[source] else 0;
      var actual := Min(s, value);
      if actual == 0 { return Ok(value); }
      if source == dest {
        DoUnreserve(source, actual);
        return Ok(value - actual);
      }
      if dest !in free { return Err(DeadAccount); }
      if free[dest] + actual > U128_MAX { return Err(Overflow); }
      reserved := reserved[source := s - actual];
      free := free[dest := free[dest] + actual];
      return Ok(value - actual);
    }
  }
}
