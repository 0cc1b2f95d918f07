/**
 * Fixed-width integers of the Rust client. Dafny's `int` is unbounded, so
 * every `as i32` / `as i16` cast and every wrapping `+= 1` of the source is
 * written out here as a two's-complement wrap.
 */
module Ints {

  const I16_MIN: int := -0x8000
  const I16_MAX: int := 0x7fff
  const I32_MIN: int := -0x8000_0000
  const I32_MAX: int := 0x7fff_ffff
  const I64_MIN: int := -0x8000_0000_0000_0000
  const I64_MAX: int := 0x7fff_ffff_ffff_ffff
  /** The largest length a Rust `Vec` can reach (`isize::MAX`). */
  const VEC_MAX_LEN: int := 0x7fff_ffff_ffff_ffff
  const USIZE_MODULUS: int := 0x1_0000_0000_0000_0000

  predicate IsI16(x: int) { I16_MIN <= x <= I16_MAX }
  predicate IsI32(x: int) { I32_MIN <= x <= I32_MAX }
  predicate IsI64(x: int) { I64_MIN <= x <= I64_MAX }

  /** `x as i32`: keep the low 32 bits, read them as a signed number. */
  function AsI32(x: int): (r: int)
    ensures IsI32(r)
    ensures (r - x) % 0x1_0000_0000 == 0
    ensures IsI32(x) ==> r == x
  {
    (x + 0x8000_0000) % 0x1_0000_0000 - 0x8000_0000
  }

  /** `x as i16`: keep the low 16 bits, read them as a signed number. */
  function AsI16(x: int): (r: int)
    ensures IsI16(r)
    ensures (r - x) % 0x1_0000 == 0
    ensures IsI16(x) ==> r == x
  {
    (x + 0x8000) % 0x1_0000 - 0x8000
  }

  /** `x as usize` for an `i16`: a negative value becomes a huge index. */
  function I16AsUsize(x: int): (r: nat)
    requires IsI16(x)
    ensures x >= 0 ==> r == x
    ensures x < 0 ==> r > VEC_MAX_LEN
  {
    if x >= 0 then x else x + USIZE_MODULUS
  }

  /** Rust's `value as i32` for a float: truncate toward zero, saturate at the bounds. */
  function TruncToI32(v: real): (r: int)
    ensures IsI32(r)
    ensures 0.0 <= v < I32_MAX as real ==> r as real <= v < r as real + 1.0
    ensures I32_MIN as real < v <= 0.0 ==> r as real - 1.0 < v <= r as real
  {
    var t := if v >= 0.0 then v.Floor else -((-v).Floor);
    if t > I32_MAX then I32_MAX else if t < I32_MIN then I32_MIN else t
  }
}
