/** The fixed-width integer types the program uses, written out over unbounded `int`. */
module Ints {

  const I32_MIN: int := -0x8000_0000
  const I32_MAX: int := 0x7FFF_FFFF
  const U32_LIMIT: int := 0x1_0000_0000
  const U64_LIMIT: int := 0x1_0000_0000_0000_0000

  predicate InI32(x: int) {
    I32_MIN <= x <= I32_MAX
  }

  type U32 = x: int | 0 <= x < 0x1_0000_0000

  /** Rust's `x as u64` for an `i32` x: sign extension, i.e. the value modulo 2^64. */
  function I32AsU64(x: int): (r: int)
    requires InI32(x)
    ensures 0 <= r < U64_LIMIT
    ensures (r - x) % U64_LIMIT == 0
    ensures 0 <= x ==> r == x
  {
    if x >= 0 then x else x + U64_LIMIT
  }
}
