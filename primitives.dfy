/** Rust-level building blocks shared by the model: Option/Result, the
    32-bit signed integer and the binary64 float, kept as its bit pattern. */
module Primitives {

  datatype Option<+T> = None | Some(value: T)

  datatype Result<+T, +E> = Ok(value: T) | Err(error: E)

  /** Rust's `i32`. */
  newtype I32 = x: int | -0x8000_0000 <= x < 0x8000_0000

  /** Rust's `f64`, kept opaque as its IEEE 754 binary64 bit pattern: the model
      never does float arithmetic, it only asks whether a value is finite. */
  type F64 = bv64

  /** The exponent field (bits 52..62) of a binary64 value. */
  function Exponent(f: F64): bv64 {
    (f >> 52) & 0x7FF
  }

  /** NaN and the two infinities are exactly the values whose exponent field
      is all ones (section 3.4 of IEEE 754-2008). */
  predicate IsFinite(f: F64) {
    Exponent(f) != 0x7FF
  }
}
