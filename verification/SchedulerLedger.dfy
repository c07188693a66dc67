/**
  The scheduler's books: what it owes each account out of the reserve, that
  every step moves reserve and obligations together, and the closed form of
  a pool's remaining deposit.
*/
module SchedulerLedger {
  import opened Prelude
  import opened MapSum
  import opened Currency
  import opened SchedulerSpec
  import opened SchedulerInvariant
  import opened SchedulerSteps
  import AP = AttestationProofs

  // ---- What is owed.

  ghost function HeldFor(who: AccountId): (PoolId, Pool) -> nat {
    (p: PoolId, pool: Pool) => if pool.owner == who then pool.depositHeld else 0
  }

  ghost function EscrowFor(who: AccountId): (TaskId, Escrow) -> nat {
    (t: TaskId, e: Escrow) => if e.user == who && !e.claimed then EscrowTotal(e) else 0
  }

  ghost function StakeFor(who: AccountId): ((PoolId, AccountId), Balance) -> nat {
    (k: (PoolId, AccountId), stake: Balance) => if k.1 == who then stake else 0
  }

  /** Pool deposits still held, unclaimed escrows and pool stakes of `who`. */
  ghost function Owed(s: State, who: AccountId): nat {
    Sum(s.pools, HeldFor(who)) + Sum(s.escrows, EscrowFor(who)) + Sum(s.poolStakes, StakeFor(who))
  }

  /** What scheduler and attestation pallet together owe `who`. */
  ghost function TotalOwed(s: State, w: World, who: AccountId): nat {
    Owed(s, who) + AP.Owed(w.att, who)
  }

  /** Reserve beyond what the two pallets owe: it belongs to other pallets. */
  ghost function Surplus(s: State, w: World, who: AccountId): int {
    Reserved(w.ledger, who) - TotalOwed(s, w, who)
  }

  /** Every obligation is backed by reserve. */
  ghost predicate Covered(s: State, w: World) {
    forall who :: Surplus(s, w, who) >= 0
  }

  /** Reserve and obligations of every account moved by the same amount. */
  ghost predicate Balanced(s: State, w: World, s': State, w': World) {
    forall who :: Surplus(s', w', who) == Surplus(s, w, who)
  }

  lemma BalancedTrans(s: State, w: World, s1: State, w1: World, s2: State, w2: World)
    requires Balanced(s, w, s1, w1) && Balanced(s1, w1, s2, w2)
    ensures Balanced(s, w, s2, w2)
    ensures Covered(s, w) ==> Covered(s1, w1) && Covered(s2, w2)
  {
    forall who
      ensures Surplus(s2, w2, who) == Surplus(s, w, who)
    {
      assert Surplus(s1, w1, who) == Surplus(s, w, who);
    }
    if Covered(s, w) {
      assert forall who :: Surplus(s1, w1, who) == Surplus(s, w, who) && Surplus(s2, w2, who) == Surplus(s, w, who);
    }
  }

  // ---- The pieces.

  /** Paying back an escrow that was not claimed. */
  lemma ReleaseBalanced(s: State, w: World, s': State, t: TaskId)
    requires Covered(s, w) && (t in s.escrows ==> !s.escrows[t].claimed)
    requires s'.pools == s.pools && s'.poolStakes == s.poolStakes && s'.escrows == s.escrows - {t}
    ensures Balanced(s, w, s', Refunded(s, w, t))
  {
    forall who
      ensures Surplus(s', Refunded(s, w, t), who) == Surplus(s, w, who)
    {
      assert Surplus(s, w, who) >= 0;
      SumDrop(s.escrows, t, EscrowFor(who));
      SumAtLeast(s.escrows, t, EscrowFor(who));
    }
  }

  /** Reputation records hold no money. */
  lemma ReputationBalanced(s: State, w: World, p: PoolId, success: bool)
    ensures Balanced(s, w, UpdateReputation(s, p, success), w)
  {
    if p in s.pools {
      forall who
        ensures Surplus(UpdateReputation(s, p, success), w, who) == Surplus(s, w, who)
      {
        SumUpdate(s.pools, p, ReputedPool(s.pools[p], success), HeldFor(who));
      }
    }
  }

  /** With the deposit backed, a slash takes its full amount from reserve and record. */
  lemma SlashBalanced(c: Config, s: State, w: World, p: PoolId)
    requires Covered(s, w) && p in s.pools
    ensures var step := SlashPool(c, s, w, p);
            && step.r.Ok? && Balanced(s, w, step.s, step.w)
            && step.s.pools == s.pools[p := s.pools[p].(depositHeld := s.pools[p].depositHeld - SlashAmount(c, s.pools[p].depositHeld))]
  {
    var step := SlashPool(c, s, w, p);
    var pool := s.pools[p];
    SumAtLeast(s.pools, p, HeldFor(pool.owner));
    assert Surplus(s, w, pool.owner) >= 0;
    if pool.depositHeld == 0 {
      assert s.pools == s.pools[p := pool.(depositHeld := 0)];
    } else {
      var pool' := pool.(depositHeld := pool.depositHeld - SlashAmount(c, pool.depositHeld));
      forall who
        ensures Surplus(step.s, step.w, who) == Surplus(s, w, who)
      {
        SumUpdate(s.pools, p, pool', HeldFor(who));
        assert Surplus(s, w, who) >= 0;
      }
    }
  }

  lemma NotifyBalanced(c: Config, s: State, w: World, owner: AccountId, t: TaskId, hash: Hash)
    requires Covered(s, w) && AP.Inv(w.att)
    ensures Balanced(s, w, s, NotifyCompletion(c, w, owner, t, hash))
    ensures AP.Inv(NotifyCompletion(c, w, owner, t, hash).att) && AP.Extends(w.att, NotifyCompletion(c, w, owner, t, hash).att)
  {
    AP.OnTaskCompletedKeeps(c.attestation, w.att, w.ledger, w.now, owner, t, hash, [], 0, 0);
    var w' := NotifyCompletion(c, w, owner, t, hash);
    forall who
      ensures Surplus(s, w', who) == Surplus(s, w, who)
    {
      assert Surplus(s, w, who) >= 0;
      assert Reserved(w'.ledger, who) - AP.Owed(w'.att, who) == Reserved(w.ledger, who) - AP.Owed(w.att, who);
    }
  }

  // ---- The deposit of a pool is a function of its failures.

  function DepositAfter(c: Config, failures: nat): nat {
    SatSub(c.poolDeposit, c.failureSlash * failures)
  }

  /** Exact below the width of the failure counter, an upper bound once it saturates. */
  ghost predicate DepositOk(c: Config, pool: Pool) {
    && pool.depositHeld <= DepositAfter(c, pool.failedTasks)
    && (pool.failedTasks < U32_MAX ==> pool.depositHeld == DepositAfter(c, pool.failedTasks))
  }

  ghost predicate DepositsOk(c: Config, pools: map<PoolId, Pool>) {
    forall p :: p in pools ==> DepositOk(c, pools[p])
  }

  lemma DepositsEdit(c: Config, pools: map<PoolId, Pool>, p: PoolId, pool: Pool)
    requires DepositsOk(c, pools) && DepositOk(c, pool)
    ensures DepositsOk(c, pools[p := pool])
  {
  }

  lemma FreshDeposit(c: Config, pool: Pool)
    requires pool.depositHeld == c.poolDeposit && pool.failedTasks == 0
    ensures DepositOk(c, pool)
  {
  }

  lemma OneMoreFailure(c: Config, held: Balance, failures: u32)
    requires failures < U32_MAX && held == DepositAfter(c, failures)
    ensures held - SlashAmount(c, held) == DepositAfter(c, failures + 1)
  {
    assert c.failureSlash * (failures + 1) == c.failureSlash * failures + c.failureSlash;
  }

  /** One reputation loss goes with one slash, and the closed form survives the pair. */
  lemma FailureKeepsDeposits(c: Config, s: State, w: World, p: PoolId)
    requires Covered(s, w) && p in s.pools && DepositsOk(c, s.pools)
    ensures var step := SlashPool(c, UpdateReputation(s, p, false), w, p);
            DepositsOk(c, step.s.pools) && Balanced(s, w, step.s, step.w)
  {
    var s1 := UpdateReputation(s, p, false);
    ReputationBalanced(s, w, p, false);
    BalancedTrans(s, w, s1, w, s1, w);
    SlashBalanced(c, s1, w, p);
    var step := SlashPool(c, s1, w, p);
    BalancedTrans(s, w, s1, w, step.s, step.w);
    assert DepositOk(c, s.pools[p]);
    if s.pools[p].failedTasks < U32_MAX {
      OneMoreFailure(c, s.pools[p].depositHeld, s.pools[p].failedTasks);
    }
  }

  lemma SuccessKeepsDeposits(c: Config, s: State, p: PoolId)
    requires DepositsOk(c, s.pools)
    ensures DepositsOk(c, UpdateReputation(s, p, true).pools)
  {
  }
}
