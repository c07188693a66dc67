/** What the reward formula and the pool scores promise, and that selection returns a best pool. */
module SchedulerArithmetic {
  import opened Prelude
  import opened SchedulerSpec

  // ---- Products.

  lemma MulBound(x: nat, y: nat, a: nat, b: nat)
    requires x <= a && y <= b
    ensures x * y <= a * b
  {
    MulMonotone(x, a, y);
    MulMonotone(y, b, a);
  }

  lemma MulAtLeast(x: nat, factor: nat)
    requires factor >= 1
    ensures x <= x * factor
  {
    MulMonotone(1, factor, x);
  }

  lemma QuotientMonotone(x: nat, x': nat, y: nat)
    requires x <= x' && y > 0
    ensures Quotient(x, y) <= Quotient(x', y)
  {
    DivisionBounds(x, y);
    DivisionBounds(x', y);
    if Quotient(x, y) > Quotient(x', y) {
      MulMonotone(Quotient(x', y) + 1, Quotient(x, y), y);
    }
  }

  lemma ProductMonotone(d: Dimensions, d': Dimensions)
    requires d.m <= d'.m && d.n <= d'.n && d.k <= d'.k
    ensures d.m * d.n * d.k <= d'.m * d'.n * d'.k
  {
    MulBound(d.m, d.n, d'.m, d'.n);
    MulBound(d.m * d.n, d.k, d'.m * d'.n, d'.k);
  }

  /** The complexity product of three 32-bit numbers always fits in 128 bits. */
  lemma ComplexityFits(d: Dimensions)
    ensures d.m * d.n <= U128_MAX && d.m * d.n * d.k <= U128_MAX
  {
    MulBound(d.m, d.n, U32_MAX, U32_MAX);
    MulBound(d.m * d.n, d.k, U32_MAX * U32_MAX, U32_MAX);
  }

  lemma FactorMonotone(d: Dimensions, d': Dimensions)
    requires d.m <= d'.m && d.n <= d'.n && d.k <= d'.k
    ensures 1 <= ComplexityFactor(d) <= ComplexityFactor(d')
  {
    ProductMonotone(d, d');
    QuotientMonotone(d.m * d.n * d.k, d'.m * d'.n * d'.k, 1_000_000);
  }

  // ---- Rewards.

  /** An error means that the product really leaves 128 bits, and nothing else. */
  lemma RewardErrsIff(d: Dimensions, price: Balance, hasNvlink: bool, efficiency: u32)
    ensures CalculateReward(d, price, hasNvlink, efficiency).Err? <==>
            || price * ComplexityFactor(d) > U128_MAX
            || (hasNvlink && price * ComplexityFactor(d) * efficiency > U128_MAX)
  {
    ComplexityFits(d);
  }

  /** For admissible terms the reward is at least the price and at most one and a half times the base. */
  lemma RewardBounds(d: Dimensions, price: Balance, hasNvlink: bool, efficiency: u32)
    requires NvlinkOk(hasNvlink, efficiency) && CalculateReward(d, price, hasNvlink, efficiency).Ok?
    ensures var reward := CalculateReward(d, price, hasNvlink, efficiency).value;
            && price <= price * ComplexityFactor(d) <= reward
            && 2 * reward <= 3 * (price * ComplexityFactor(d))
  {
    ComplexityFits(d);
    MulAtLeast(price, ComplexityFactor(d));
    var base := price * ComplexityFactor(d);
    if hasNvlink {
      MulBound(base, 100, base, efficiency);
      MulBound(base, efficiency, base, 150);
      DivisionBounds(base * efficiency, 100);
    }
  }

  /** The reward once the complexity is known, as a number that may be too large. */
  function Priced(base: nat, hasNvlink: bool, efficiency: nat): nat {
    if hasNvlink then Quotient(base * efficiency, 100) else base
  }

  lemma RewardPriced(d: Dimensions, price: Balance, hasNvlink: bool, efficiency: u32)
    ensures CalculateReward(d, price, hasNvlink, efficiency).Ok? ==>
              CalculateReward(d, price, hasNvlink, efficiency).value == Priced(price * ComplexityFactor(d), hasNvlink, efficiency)
  {
  }

  lemma PricedMonotone(base: nat, base': nat, hasNvlink: bool, efficiency: nat)
    requires base <= base'
    ensures Priced(base, hasNvlink, efficiency) <= Priced(base', hasNvlink, efficiency) && base * efficiency <= base' * efficiency
  {
    MulBound(base, efficiency, base', efficiency);
    QuotientMonotone(base * efficiency, base' * efficiency, 100);
  }

  /** More work, or a higher price, never lowers the reward. */
  lemma RewardMonotone(d: Dimensions, d': Dimensions, price: Balance, price': Balance, hasNvlink: bool, efficiency: u32)
    requires d.m <= d'.m && d.n <= d'.n && d.k <= d'.k && price <= price'
    requires CalculateReward(d', price', hasNvlink, efficiency).Ok?
    ensures CalculateReward(d, price, hasNvlink, efficiency).Ok?
    ensures CalculateReward(d, price, hasNvlink, efficiency).value <= CalculateReward(d', price', hasNvlink, efficiency).value
  {
    FactorMonotone(d, d');
    MulBound(price, ComplexityFactor(d), price', ComplexityFactor(d'));
    PricedMonotone(price * ComplexityFactor(d), price' * ComplexityFactor(d'), hasNvlink, efficiency);
    RewardErrsIff(d, price, hasNvlink, efficiency);
    RewardErrsIff(d', price', hasNvlink, efficiency);
    RewardPriced(d, price, hasNvlink, efficiency);
    RewardPriced(d', price', hasNvlink, efficiency);
  }

  // ---- Scores.

  /** A price score is a percentage that never rises with the price. */
  lemma PriceScoreMonotone(price: Balance, price': Balance, lo: Balance, hi: Balance)
    requires price <= price'
    ensures PriceScore(price', lo, hi) <= PriceScore(price, lo, hi) <= 100
  {
    if lo < hi {
      QuotientMonotone(SatMul128(SatSub(price, lo), 100), SatMul128(SatSub(price', lo), 100), hi - lo);
    }
  }

  lemma NvlinkScoreBounds(hasNvlink: bool, efficiency: u32)
    ensures NvlinkScore(hasNvlink, efficiency) <= 100
  {
    QuotientMonotone(SatMul32(Min(efficiency, 150), 100), 15_000, 150);
  }

  /** No score saturates: the four components add up, to ten thousand at most. */
  lemma ScoreBounds(pool: Pool, lo: Balance, hi: Balance)
    ensures var score := CalculatePoolScore(pool, lo, hi);
            && score.final == score.reputation + score.successRate + score.price + score.nvlink
            && score.reputation == 40 * Min(pool.reputation, 100) && score.successRate == 30 * Min(pool.successRate, 100)
            && score.price == 20 * PriceScore(pool.price, lo, hi)
            && score.nvlink == 10 * NvlinkScore(pool.hasNvlink, pool.nvlinkEfficiency)
            && score.final <= 10_000
  {
    PriceScoreMonotone(pool.price, pool.price, lo, hi);
    NvlinkScoreBounds(pool.hasNvlink, pool.nvlinkEfficiency);
  }

  /** `b` is at least as good as `a` in all four criteria. */
  predicate AtLeastAsGood(a: Pool, b: Pool) {
    && a.reputation <= b.reputation && a.successRate <= b.successRate && b.price <= a.price
    && (a.hasNvlink ==> b.hasNvlink && a.nvlinkEfficiency <= b.nvlinkEfficiency)
  }

  lemma ScoreMonotone(a: Pool, b: Pool, lo: Balance, hi: Balance)
    requires AtLeastAsGood(a, b)
    ensures CalculatePoolScore(a, lo, hi).final <= CalculatePoolScore(b, lo, hi).final
  {
    ScoreBounds(a, lo, hi);
    ScoreBounds(b, lo, hi);
    PriceScoreMonotone(b.price, a.price, lo, hi);
    if a.hasNvlink {
      QuotientMonotone(SatMul32(Min(a.nvlinkEfficiency, 150), 100), SatMul32(Min(b.nvlinkEfficiency, 150), 100), 150);
    }
  }

  // ---- Selection.

  ghost predicate InTable(pools: map<PoolId, Pool>, ps: seq<PoolId>) {
    forall p :: p in ps ==> p in pools
  }

  /** The scanned prices lie between the two bounds, and both bounds are attained. */
  lemma {:induction false} PricesBracket(pools: map<PoolId, Pool>, ps: seq<PoolId>) returns (cheapest: PoolId, dearest: PoolId)
    requires InTable(pools, ps) && ps != []
    ensures forall p :: p in ps ==> LowestPrice(pools, ps) <= pools[p].price <= HighestPrice(pools, ps)
    ensures cheapest in ps && pools[cheapest].price == LowestPrice(pools, ps)
    ensures dearest in ps && pools[dearest].price == HighestPrice(pools, ps)
  {
    var init, p := ps[..|ps| - 1], ps[|ps| - 1];
    assert forall q :: q in ps <==> q in init || q == p;
    if init == [] {
      cheapest, dearest := p, p;
    } else {
      cheapest, dearest := PricesBracket(pools, init);
      if pools[p].price < pools[cheapest].price {
        cheapest := p;
      }
      if pools[p].price > pools[dearest].price {
        dearest := p;
      }
    }
  }

  ghost function FinalScore(pools: map<PoolId, Pool>, p: PoolId, lo: Balance, hi: Balance): nat
    requires p in pools
  {
    CalculatePoolScore(pools[p], lo, hi).final
  }

  /** Position `i` holds a highest score, and every earlier position a lower one. */
  ghost predicate FirstBest(pools: map<PoolId, Pool>, ps: seq<PoolId>, lo: Balance, hi: Balance, i: nat)
    requires InTable(pools, ps)
  {
    && i < |ps|
    && (forall j :: 0 <= j < |ps| ==> FinalScore(pools, ps[j], lo, hi) <= FinalScore(pools, ps[i], lo, hi))
    && (forall j :: 0 <= j < i ==> FinalScore(pools, ps[j], lo, hi) < FinalScore(pools, ps[i], lo, hi))
  }

  lemma FirstBestExtend(pools: map<PoolId, Pool>, ps: seq<PoolId>, p: PoolId, lo: Balance, hi: Balance, i: nat)
    requires InTable(pools, ps + [p]) && InTable(pools, ps) && FirstBest(pools, ps, lo, hi, i)
    ensures FinalScore(pools, p, lo, hi) <= FinalScore(pools, ps[i], lo, hi) ==> FirstBest(pools, ps + [p], lo, hi, i)
    ensures FinalScore(pools, p, lo, hi) > FinalScore(pools, ps[i], lo, hi) ==> FirstBest(pools, ps + [p], lo, hi, |ps|)
  {
    assert forall j :: 0 <= j < |ps| ==> (ps + [p])[j] == ps[j];
  }

  /** The scan returns the first pool of highest score, with that score. */
  lemma {:induction false} BestIsFirst(pools: map<PoolId, Pool>, ps: seq<PoolId>, lo: Balance, hi: Balance) returns (i: nat)
    requires InTable(pools, ps) && ps != []
    ensures FirstBest(pools, ps, lo, hi, i)
    ensures BestOf(pools, ps, lo, hi) == Some((ps[i], CalculatePoolScore(pools[ps[i]], lo, hi)))
  {
    var init, p := ps[..|ps| - 1], ps[|ps| - 1];
    assert ps == init + [p] && p in ps;
    if init == [] {
      i := 0;
    } else {
      assert InTable(pools, init);
      i := BestIsFirst(pools, init, lo, hi);
      FirstBestExtend(pools, init, p, lo, hi, i);
      if FinalScore(pools, p, lo, hi) > FinalScore(pools, init[i], lo, hi) {
        i := |init|;
      }
    }
  }

  /**
    Selection answers `None` exactly when no scanned pool is eligible, and
    otherwise an eligible pool that no eligible scanned pool outscores.
  */
  lemma SelectionIsArgmax(c: Config, pools: map<PoolId, Pool>, active: map<PoolId, u32>, order: seq<PoolId>, k: u32)
    ensures var best := SelectBestPool(c, pools, active, order, k);
            && (best.None? <==> forall p :: p in Scanned(order) ==> !Eligible(c, pools, active, p, k))
            && (best.Some? ==>
                  var ps := Candidates(c, pools, active, Scanned(order), k);
                  var (p, lo, hi) := (best.value.0, LowestPrice(pools, ps), HighestPrice(pools, ps));
                  && p in Scanned(order) && Eligible(c, pools, active, p, k)
                  && best.value.1 == CalculatePoolScore(pools[p], lo, hi)
                  && (forall q :: q in Scanned(order) && Eligible(c, pools, active, q, k) ==> FinalScore(pools, q, lo, hi) <= FinalScore(pools, p, lo, hi)))
  {
    var ps := Candidates(c, pools, active, Scanned(order), k);
    if ps != [] {
      assert ps[0] in ps;
      var lo, hi := LowestPrice(pools, ps), HighestPrice(pools, ps);
      var i := BestIsFirst(pools, ps, lo, hi);
      forall q | q in Scanned(order) && Eligible(c, pools, active, q, k)
        ensures FinalScore(pools, q, lo, hi) <= FinalScore(pools, ps[i], lo, hi)
      {
        assert q in ps;
      }
    }
  }
}
