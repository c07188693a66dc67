/** The total recorded for a pool is the sum of the stakes in it. */
module SchedulerStakes {
  import opened Prelude
  import opened MapSum
  import opened SchedulerSpec
  import opened SchedulerLedger

  ghost function InPool(p: PoolId): ((PoolId, AccountId), Balance) -> nat {
    (k: (PoolId, AccountId), stake: Balance) => if k.0 == p then stake else 0
  }

  ghost predicate TotalsExact(s: State) {
    forall p :: TotalStake(s, p) == Sum(s.poolStakes, InPool(p))
  }

  /** A backed stake and the amount added to it fit: they are part of one reserve. */
  lemma StakeFits(s: State, w: World, who: AccountId, p: PoolId, amount: Balance)
    requires Covered(s, w) && StakeToPool(s, w, who, p, amount).r.Ok?
    ensures StakeOf(s, p, who) + amount <= U128_MAX
  {
    SumAtLeast(s.poolStakes, (p, who), StakeFor(who));
    assert Surplus(s, w, who) >= 0;
  }

  /** Staking keeps the totals exact, precisely when the total of the pool does not hit its width. */
  lemma StakeTotalsIff(s: State, w: World, who: AccountId, p: PoolId, amount: Balance)
    requires TotalsExact(s) && Covered(s, w) && StakeToPool(s, w, who, p, amount).r.Ok?
    ensures TotalsExact(StakeToPool(s, w, who, p, amount).s) <==> TotalStake(s, p) + amount <= U128_MAX
  {
    var s' := StakeToPool(s, w, who, p, amount).s;
    StakeFits(s, w, who, p, amount);
    var stake: Balance := StakeOf(s, p, who) + amount;
    assert TotalStake(s, p) == Sum(s.poolStakes, InPool(p));
    SumUpdate(s.poolStakes, (p, who), stake, InPool(p));
    assert Sum(s'.poolStakes, InPool(p)) == TotalStake(s, p) + amount;
    if TotalStake(s, p) + amount <= U128_MAX {
      forall q
        ensures TotalStake(s', q) == Sum(s'.poolStakes, InPool(q))
      {
        SumUpdate(s.poolStakes, (p, who), stake, InPool(q));
        assert TotalStake(s, q) == Sum(s.poolStakes, InPool(q));
      }
    }
  }

  /** Taking stake out always does. */
  lemma UnstakeTotals(s: State, w: World, who: AccountId, p: PoolId, amount: Balance)
    requires TotalsExact(s) && UnstakeFromPool(s, w, who, p, amount).r.Ok?
    ensures TotalsExact(UnstakeFromPool(s, w, who, p, amount).s)
  {
    var s' := UnstakeFromPool(s, w, who, p, amount).s;
    var stake: Balance := StakeOf(s, p, who) - amount;
    assert TotalStake(s, p) == Sum(s.poolStakes, InPool(p));
    SumAtLeast(s.poolStakes, (p, who), InPool(p));
    forall q
      ensures TotalStake(s', q) == Sum(s'.poolStakes, InPool(q))
    {
      SumUpdate(s.poolStakes, (p, who), stake, InPool(q));
      assert TotalStake(s, q) == Sum(s.poolStakes, InPool(q));
    }
  }
}
