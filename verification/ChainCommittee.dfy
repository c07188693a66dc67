/**
  The committee on the same chain: three pallets draw on one currency, in any
  order, and what all of them owe together is always in reserve.
*/
module ChainCommittee {
  import opened Prelude
  import opened Currency
  import opened SchedulerSpec
  import opened SchedulerLedger
  import opened SchedulerBooks
  import opened Chain
  import Events = Chain
  import M = CommitteeSpec
  import MP = CommitteeProofs

  datatype Full = Full(k: Chain, m: M.State)

  datatype FullEvent = Base(ev: Event) | Committee(call: M.Call)

  function Next(c: Config, f: Full, ev: FullEvent): Full {
    match ev
    case Base(ev) => f.(k := Events.Next(c, f.k, ev))
    case Committee(call) =>
      var step := M.Exec(f.m, f.k.w.ledger, call);
      Full(f.k.(w := f.k.w.(ledger := step.l)), step.s)
  }

  /** Reserve beyond what scheduler, attestation pallet and committee owe together. */
  ghost function JointSurplus(f: Full, who: AccountId): int {
    Surplus(f.k.s, f.k.w, who) - M.StakeOf(f.m.stakes, who).staked
  }

  ghost predicate JointlySound(c: Config, f: Full) {
    && Sound(c, f.k) && BooksOk(c, f.k.s, f.k.w) && MP.ListsOk(f.m.lists)
    && forall who :: JointSurplus(f, who) >= 0
  }

  /**
    No dispute over a claimed escrow; other pallets leave all that is owed in
    reserve; and a stake recorded without moving the reserve is already there.
    A slash is a record-only decrease, before which or after which another
    pallet takes the money: both are allowed.
  */
  ghost predicate JointlyHonours(f: Full, ev: FullEvent) {
    match ev
    case Base(ev) =>
      && Legal(f.k, ev) && Honours(f.k, ev)
      && (ev.Elsewhere? ==> forall who :: Reserved(ev.ledger, who) >= TotalOwed(f.k.s, f.k.w, who) + M.StakeOf(f.m.stakes, who).staked)
    case Committee(call) => MP.RecordOnly(call) && call.isAdd ==> call.amount <= JointSurplus(f, call.who)
  }

  /** How far an event of the three pallets moves what one account has beyond what is owed. */
  function ShiftOf(f: Full, ev: FullEvent, who: AccountId): int {
    match ev
    case Base(_) => 0
    case Committee(call) => MP.ShiftOf(f.m, f.k.w.ledger, call, who)
  }

  lemma BaseStep(c: Config, f: Full, ev: Event)
    requires JointlySound(c, f) && JointlyHonours(f, Base(ev))
    ensures JointlySound(c, Next(c, f, Base(ev)))
    ensures !ev.Elsewhere? ==> forall who :: JointSurplus(Next(c, f, Base(ev)), who) == JointSurplus(f, who)
  {
    var k' := Events.Next(c, f.k, ev);
    NextSound(c, f.k, ev);
    NextBooks(c, f.k, ev);
    forall who
      ensures JointSurplus(f.(k := k'), who) >= 0
      ensures !ev.Elsewhere? ==> JointSurplus(f.(k := k'), who) == JointSurplus(f, who)
    {
      assert JointSurplus(f, who) >= 0;
      if ev.Elsewhere? {
        assert TotalOwed(k'.s, k'.w, who) == TotalOwed(f.k.s, f.k.w, who);
      } else {
        assert Surplus(k'.s, k'.w, who) == Surplus(f.k.s, f.k.w, who);
      }
    }
  }

  /** A committee call never touches the reserve the other two pallets count on. */
  lemma CommitteeStep(c: Config, f: Full, call: M.Call)
    requires JointlySound(c, f) && JointlyHonours(f, Committee(call))
    ensures JointlySound(c, Next(c, f, Committee(call)))
    ensures forall who :: JointSurplus(Next(c, f, Committee(call)), who) == JointSurplus(f, who) + ShiftOf(f, Committee(call), who)
  {
    var f' := Next(c, f, Committee(call));
    var l := f.k.w.ledger;
    forall who
      ensures MP.Surplus(f.m, l, who) >= 0
    {
      assert JointSurplus(f, who) >= 0;
    }
    MP.ExecLists(f.m, l, call);
    forall who
      ensures JointSurplus(f', who) == JointSurplus(f, who) + ShiftOf(f, Committee(call), who) >= 0
    {
      assert JointSurplus(f, who) >= 0;
      MP.ExecBacked(f.m, l, call, who);
      assert TotalOwed(f'.k.s, f'.k.w, who) == TotalOwed(f.k.s, f.k.w, who);
    }
    StillBacked(c, f, f');
  }

  /** Covering all three pallets covers the first two. */
  lemma StillBacked(c: Config, f: Full, f': Full)
    requires BooksOk(c, f.k.s, f.k.w) && f'.k.s == f.k.s && f'.k.w == f.k.w.(ledger := f'.k.w.ledger)
    requires forall who :: JointSurplus(f', who) >= 0
    ensures BooksOk(c, f'.k.s, f'.k.w)
  {
    forall who
      ensures Surplus(f'.k.s, f'.k.w, who) >= 0
    {
      assert JointSurplus(f', who) >= 0;
    }
  }

  /** One event of any kind. */
  lemma FullStep(c: Config, f: Full, ev: FullEvent)
    requires JointlySound(c, f) && JointlyHonours(f, ev)
    ensures JointlySound(c, Next(c, f, ev))
    ensures !(ev.Base? && ev.ev.Elsewhere?) ==>
              forall who :: JointSurplus(Next(c, f, ev), who) == JointSurplus(f, who) + ShiftOf(f, ev, who)
  {
    match ev
    case Base(e) => BaseStep(c, f, e);
    case Committee(call) => CommitteeStep(c, f, call);
  }

  function After(c: Config, f: Full, trace: seq<FullEvent>): Full {
    if trace == [] then f else Next(c, After(c, f, trace[..|trace| - 1]), trace[|trace| - 1])
  }

  ghost predicate HonestRun(c: Config, f: Full, trace: seq<FullEvent>) {
    trace == [] ||
    var init := trace[..|trace| - 1];
    HonestRun(c, f, init) && JointlyHonours(After(c, f, init), trace[|trace| - 1])
  }

  ghost predicate NobodyElse(trace: seq<FullEvent>) {
    forall i :: 0 <= i < |trace| ==> !(trace[i].Base? && trace[i].ev.Elsewhere?)
  }

  ghost function TotalShift(c: Config, f: Full, trace: seq<FullEvent>, who: AccountId): int {
    if trace == [] then 0
    else TotalShift(c, f, trace[..|trace| - 1], who) + ShiftOf(After(c, f, trace[..|trace| - 1]), trace[|trace| - 1], who)
  }

  lemma {:induction false} JointRun(c: Config, f: Full, trace: seq<FullEvent>)
    requires JointlySound(c, f) && HonestRun(c, f, trace)
    ensures JointlySound(c, After(c, f, trace))
  {
    if trace != [] {
      JointRun(c, f, trace[..|trace| - 1]);
      FullStep(c, After(c, f, trace[..|trace| - 1]), trace[|trace| - 1]);
    }
  }

  lemma {:induction false} JointShift(c: Config, f: Full, trace: seq<FullEvent>, who: AccountId)
    requires JointlySound(c, f) && HonestRun(c, f, trace) && NobodyElse(trace)
    ensures JointSurplus(After(c, f, trace), who) == JointSurplus(f, who) + TotalShift(c, f, trace, who)
  {
    if trace != [] {
      var init, last := trace[..|trace| - 1], trace[|trace| - 1];
      assert forall i :: 0 <= i < |init| ==> init[i] == trace[i];
      assert trace[|trace| - 1] == last;
      JointShift(c, f, init, who);
      JointRun(c, f, init);
      FullStep(c, After(c, f, init), last);
    }
  }

  /**
    Over any interleaving of the three pallets without a dispute over a claimed
    escrow, every state is sound, the sum of what they owe each account is in
    its reserve, and, if nobody else touches the currency, what exceeds that
    sum moves by the committee's record-only changes alone.
  */
  lemma JointReserve(c: Config, f: Full, trace: seq<FullEvent>)
    requires JointlySound(c, f) && HonestRun(c, f, trace)
    ensures JointlySound(c, After(c, f, trace))
    ensures NobodyElse(trace) ==>
              forall who :: JointSurplus(After(c, f, trace), who) == JointSurplus(f, who) + TotalShift(c, f, trace, who)
  {
    JointRun(c, f, trace);
    if NobodyElse(trace) {
      forall who {
        JointShift(c, f, trace, who);
      }
    }
  }
}
