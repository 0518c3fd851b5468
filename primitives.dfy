/** An optional value; `None` also stands for a panic the wrapper reaches. */
module Wrappers {

  datatype Option<+T> = None | Some(value: T)
}

/**
 * Fixed-width machine values used by the wrapper, and the two's-complement
 * reinterpretations that Rust's `as` performs between `i32` and `u32`.
 */
module Primitives {

  const TWO_31: int := 0x8000_0000
  const TWO_32: int := 0x1_0000_0000

  newtype U16 = x: int | 0 <= x < 0x1_0000
  newtype U32 = x: int | 0 <= x < 0x1_0000_0000
  newtype I32 = x: int | -0x8000_0000 <= x < 0x8000_0000

  /** An `f32` carried as its IEEE 754 binary32 bit pattern. The wrapper only
      copies such values, and `0.0` is the all-zero pattern. */
  newtype F32Bits = x: int | 0 <= x < 0x1_0000_0000

  const F32_ZERO: F32Bits := 0

  /** `u as i32`: keeps the 32-bit pattern, reading it as two's complement. */
  function AsI32(u: U32): (r: I32)
    ensures (r as int - u as int) % TWO_32 == 0
    ensures u as int < TWO_31 ==> r as int == u as int
  {
    if u as int < TWO_31 then u as int as I32 else (u as int - TWO_32) as I32
  }

  /** `i as u32`: keeps the 32-bit pattern, reading it as unsigned. */
  function AsU32(i: I32): (r: U32)
    ensures (r as int - i as int) % TWO_32 == 0
    ensures 0 <= i ==> r as int == i as int
  {
    if 0 <= i then i as int as U32 else (i as int + TWO_32) as U32
  }

  /** Both reinterpretations are bijections and each undoes the other. */
  lemma CastRoundTrip(u: U32, i: I32)
    ensures AsU32(AsI32(u)) == u
    ensures AsI32(AsU32(i)) == i
  {
  }
}
