/** Parts per billion, multiplied into balances with rounding to the nearest unit, ties down. */
module Perbill {
  import opened Prelude

  const BILLION: nat := 1_000_000_000

  type Perbill = x: nat | x <= BILLION

  /** Percentages above one hundred count as one hundred. */
  function FromPercent(percent: u32): Perbill {
    Min(percent, 100) * 10_000_000
  }

  function Part(part: Perbill, amount: nat): nat {
    var scaled := part * amount;
    scaled / BILLION + (if 2 * (scaled % BILLION) > BILLION then 1 else 0)
  }

  /** Rounding up never takes a part beyond the whole. */
  lemma PartAtMostWhole(part: Perbill, amount: nat)
    ensures Part(part, amount) <= amount
  {
    var scaled := part * amount;
    assert scaled <= BILLION * amount;
    assert scaled == BILLION * (scaled / BILLION) + scaled % BILLION;
  }
}
