/** A short run in which a slash goes through and the change of the stake in use that follows it does not. */
module CommitteeScenarios {
  import opened Prelude
  import opened Perbill
  import opened Currency
  import opened CommitteeSpec
  import opened CommitteeProofs

  const MEMBER: AccountId := 1

  const Terms := Params(10, 1, 0)
  const Funds := Ledger(map[MEMBER := 100], map[], map[])

  const Agreed := Empty.(params := Some(Terms))
  const Waiting := Agreed.(lists := Lists([], [], [MEMBER], []))
  const Staked := Agreed.(lists := Lists([MEMBER], [], [], []), stakes := map[MEMBER := Stake(7, 10, 0)])
  const Slashed := Staked.(stakes := map[MEMBER := Stake(7, 5, 0)])

  const Slash := DoChangeTotal(MEMBER, 5, false, false)
  const Release := DoChangeUsed(MEMBER, 5, false)

  ghost predicate Leads(trace: seq<Call>, s: State, l: Ledger) {
    After(Empty, Funds, trace) == (s, l)
  }

  lemma Onward(trace: seq<Call>, s: State, l: Ledger, call: Call) returns (longer: seq<Call>)
    requires Leads(trace, s, l)
    ensures longer == trace + [call] && Leads(longer, Exec(s, l, call).s, Exec(s, l, call).l)
  {
    longer := trace + [call];
    assert longer[..|longer| - 1] == trace;
  }

  lemma AddStep()
    ensures Exec(Agreed, Funds, DoAddCommittee(MEMBER)) == Done(Waiting, Funds)
  {
    assert AddItem([], MEMBER) == [MEMBER];
  }

  lemma PubkeyStep()
    ensures Exec(Waiting, Funds, DoSetBoxPubkey(MEMBER, 7)).s == Staked
  {
    assert Has([MEMBER], MEMBER) && RmItem([MEMBER], MEMBER) == [] && AddItem([], MEMBER) == [MEMBER];
    assert Exec(Waiting, Funds, DoSetBoxPubkey(MEMBER, 7)).s.stakes == Staked.stakes;
  }

  lemma SlashStep(l: Ledger)
    ensures Exec(Staked, l, Slash) == Done(Slashed, l) && Exec(Slashed, l, Release).r.Err?
  {
    assert Exec(Staked, l, Slash).s.stakes == Slashed.stakes;
  }

  lemma StakedFits()
    ensures Fits(Staked) && !Fits(Slashed)
  {
    PartOfNothing(10);
    assert MEMBER in Slashed.lists.normal;
    assert !FitsAt(Slashed.lists, Terms, StakeOf(Slashed.stakes, MEMBER), MEMBER);
    forall who
      ensures FitsAt(Staked.lists, Terms, StakeOf(Staked.stakes, who), who)
    {
    }
  }

  lemma PartOfNothing(x: Balance)
    ensures Part(0, x) == 0
  {
  }

  /** A reachable member of `normal` whose stake no longer meets the parameters, once the second call of a pair has failed. */
  lemma HalfPair() returns (trace: seq<Call>, l: Ledger)
    ensures Leads(trace, Staked, l) && Fits(Staked)
    ensures Exec(Staked, l, Slash).r.Ok? && !Fits(Exec(Staked, l, Slash).s)
    ensures Exec(Exec(Staked, l, Slash).s, Exec(Staked, l, Slash).l, Release).r.Err?
  {
    trace := Onward([], Empty, Funds, DoSetParams(Terms));
    trace := Onward(trace, Agreed, Funds, DoAddCommittee(MEMBER));
    AddStep();
    trace := Onward(trace, Waiting, Funds, DoSetBoxPubkey(MEMBER, 7));
    PubkeyStep();
    l := Exec(Waiting, Funds, DoSetBoxPubkey(MEMBER, 7)).l;
    SlashStep(l);
    StakedFits();
  }
}
