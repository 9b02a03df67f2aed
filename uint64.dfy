/** Rust's `u64` and the overflow-checked arithmetic the ledger relies on. */
module Uint64 {

  /** The largest value a `u64` holds, 2^64 - 1. */
  const MAX: int := 0xFFFF_FFFF_FFFF_FFFF

  newtype u64 = x: int | 0 <= x < 0x1_0000_0000_0000_0000

  datatype Option<+T> = None | Some(value: T)

  /** `u64::checked_add`: the exact sum when it fits in 64 bits, `None` otherwise. */
  function CheckedAdd(a: u64, b: u64): (r: Option<u64>)
    ensures r.Some? <==> a as int + b as int <= MAX
    ensures r.Some? ==> r.value as int == a as int + b as int
  {
    if a as int + b as int <= MAX then Some(a + b) else None
  }

  /** `u64::checked_sub`: the exact difference when it is not negative, `None` otherwise. */
  function CheckedSub(a: u64, b: u64): (r: Option<u64>)
    ensures r.Some? <==> b <= a
    ensures r.Some? ==> r.value as int == a as int - b as int
  {
    if b <= a then Some(a - b) else None
  }
}
