/**
 * Machine integer ranges and the Rust `as` casts between them.
 * Dafny integers are unbounded, so every truncating cast of the binding
 * is written out here: `as i32` and `as u32` keep the low 32 bits,
 * `as usize` on a signed value adds 2^64 to negatives (64-bit target).
 */
module Ints {

  const TWO_32: int := 0x1_0000_0000
  const TWO_64: int := 0x1_0000_0000_0000_0000

  const I32_MIN: int := -0x8000_0000
  const I32_MAX: int := 0x7fff_ffff
  const U32_MAX: int := 0xffff_ffff
  const I64_MIN: int := -0x8000_0000_0000_0000
  const I64_MAX: int := 0x7fff_ffff_ffff_ffff
  const U64_MAX: int := 0xffff_ffff_ffff_ffff

  predicate IsI32(x: int) { I32_MIN <= x <= I32_MAX }
  predicate IsU32(x: int) { 0 <= x <= U32_MAX }
  predicate IsI64(x: int) { I64_MIN <= x <= I64_MAX }
  predicate IsU64(x: int) { 0 <= x <= U64_MAX }

  type i32 = x: int | I32_MIN <= x <= I32_MAX
  type u32 = x: int | 0 <= x <= U32_MAX
  type i64 = x: int | I64_MIN <= x <= I64_MAX
  type u64 = x: int | 0 <= x <= U64_MAX
  type byte = b: int | 0 <= b < 256

  /** The binding targets 64-bit platforms: `usize` is `u64`. */
  type usize = u64

  /** `x as i32`: the low 32 bits read as two's complement. */
  function WrapI32(x: int): (r: i32)
    ensures IsI32(x) ==> r == x
    ensures (x - r) % TWO_32 == 0
  {
    var m := x % TWO_32;
    if m <= I32_MAX then m else m - TWO_32
  }

  /** `x as u32`: the low 32 bits read as unsigned. */
  function WrapU32(x: int): (r: u32)
    ensures IsU32(x) ==> r == x
    ensures (x - r) % TWO_32 == 0
  {
    x % TWO_32
  }

  /** `x as usize` (and `as u64`): the low 64 bits read as unsigned. */
  function WrapUsize(x: int): (r: usize)
    ensures IsU64(x) ==> r == x
    ensures (x - r) % TWO_64 == 0
  {
    x % TWO_64
  }

  /** A C `int` flag word seen as its 32 bits; the binding only masks and ORs it. */
  type Flags = bv32

  /** `(flags & mask) != 0`. */
  predicate HasFlag(flags: Flags, mask: Flags)
  {
    flags & mask != 0
  }
}
