/** Rust's fixed-width integers as used by the simulation.

    Arithmetic overflow on these types panics in a debug build, so every
    operation that could overflow carries a precondition that it does not.
    An `as u32` conversion never panics: it keeps the low 32 bits, which is
    what `AsU32` writes out. */
module Ints {

  const I32_MIN: int := -0x8000_0000
  const I32_MAX: int := 0x7fff_ffff
  const U32_MAX: int := 0xffff_ffff
  const TWO_TO_32: int := 0x1_0000_0000

  type i32 = x: int | -0x8000_0000 <= x <= 0x7fff_ffff
  type u32 = x: int | 0 <= x <= 0xffff_ffff

  /** `x as u32` for an `i32` x: the two's-complement bits read as unsigned. */
  function AsU32(x: i32): (r: u32)
    ensures 0 <= x ==> r == x
    ensures x < 0 ==> r == x + TWO_TO_32 && r > I32_MAX
  {
    x % TWO_TO_32
  }

  /** The sum of two `i32` values is itself an `i32`: `a + b` does not panic. */
  predicate AddFits(a: i32, b: i32) {
    I32_MIN <= a + b <= I32_MAX
  }
}
