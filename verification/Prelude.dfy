/**
  Machine widths, saturating arithmetic and the two result types that every
  pallet of the model uses.
*/
module Prelude {

  const U32_MAX: nat := 0xFFFF_FFFF
  const U64_MAX: nat := 0xFFFF_FFFF_FFFF_FFFF
  const U128_MAX: nat := 0xFFFF_FFFF_FFFF_FFFF_FFFF_FFFF_FFFF_FFFF

  type u32 = x: nat | x <= U32_MAX
  type u64 = x: nat | x <= U64_MAX
  type u128 = x: nat | x <= U128_MAX

  type AccountId = nat
  type Balance = u128
  type BlockNumber = u32

  /** A 32-byte hash; zero stands for the all-zero hash. */
  type Hash = nat

  datatype Option<+T> = None | Some(value: T)

  datatype Result<+T, +E> = Ok(value: T) | Err(error: E)

  function Min(x: nat, y: nat): nat {
    if x <= y then x else y
  }

  function Max(x: nat, y: nat): nat {
    if x <= y then y else x
  }

  /** Subtraction that stops at zero, as `saturating_sub` does. */
  function SatSub(x: nat, y: nat): nat {
    if y <= x then x - y else 0
  }

  function SatAdd32(x: u32, y: u32): u32 {
    if x + y <= U32_MAX then x + y else U32_MAX
  }

  function SatMul32(x: u32, y: u32): u32 {
    if x * y <= U32_MAX then x * y else U32_MAX
  }

  function SatAdd128(x: u128, y: u128): u128 {
    if x + y <= U128_MAX then x + y else U128_MAX
  }

  function SatMul128(x: u128, y: u128): u128 {
    if x * y <= U128_MAX then x * y else U128_MAX
  }

  lemma MulMonotone(a: nat, b: nat, y: nat)
    requires a <= b
    ensures a * y <= b * y
  {
  }

  lemma DivisionBounds(x: nat, y: nat)
    requires y > 0
    ensures (x / y) * y <= x < (x / y) * y + y
    ensures x / y <= x
  {
    var q, r := x / y, x % y;
    assert x == y * q + r && 0 <= r < y;
    assert y * q == q * y;
    MulMonotone(1, y, q);
  }

  /** Integer division; a quotient never exceeds its dividend. */
  function Quotient(x: nat, y: nat): (q: nat)
    requires y > 0
    ensures q <= x
  {
    DivisionBounds(x, y);
    x / y
  }

  /** A sequence in which no value occurs twice. */
  ghost predicate Distinct<T>(xs: seq<T>) {
    forall i, j :: 0 <= i < j < |xs| ==> xs[i] != xs[j]
  }

  /** `order` lists the elements of `keys`, each once: one possible storage iteration order. */
  ghost predicate Enumerates<T(!new)>(order: seq<T>, keys: set<T>) {
    && Distinct(order)
    && (forall x :: x in order <==> x in keys)
  }
}
