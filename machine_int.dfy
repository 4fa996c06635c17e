/** The fixed-width integers of the original program, written out over unbounded `int`. */
module MachineInt {
  const I32_MIN: int := -0x8000_0000
  const I32_MAX: int := 0x7fff_ffff
  /** The model takes `usize` to be 64 bits wide (a 32-bit target such as wasm32 is not modelled). */
  const USIZE_MODULUS: int := 0x1_0000_0000_0000_0000

  predicate IsI32(v: int) {
    I32_MIN <= v <= I32_MAX
  }

  /** Rust's `v as usize` for an `i32`: sign extension, then reinterpretation modulo 2^64. */
  function AsUsize(v: int): (u: nat)
    requires IsI32(v)
    ensures u < USIZE_MODULUS
    ensures (u - v) % USIZE_MODULUS == 0
    ensures 0 <= v ==> u == v
    ensures v < 0 ==> u > I32_MAX
  {
    if 0 <= v then v else v + USIZE_MODULUS
  }
}
