/**
 * The size types the web builder writes into `WindowAttributes::inner_size`
 * (`crate::dpi::{LogicalSize, Size}`), and the integer type of a canvas's
 * pixel dimensions.
 */
module Dpi {

  const TWO_TO_32: int := 0x1_0000_0000

  /** Rust's `u32`: `HtmlCanvasElement::width()` and `height()` return one. */
  newtype u32 = x: int | 0 <= x < TWO_TO_32

  /** A size in logical (device-independent) pixels, `LogicalSize<f64>`. */
  datatype LogicalSize = LogicalSize(width: real, height: real)

  /** A size in physical (device) pixels, `PhysicalSize<u32>`. */
  datatype PhysicalSize = PhysicalSize(width: u32, height: u32)

  /** `Size`: either unit of measure. */
  datatype Size = Logical(logical: LogicalSize) | Physical(physical: PhysicalSize)

  /** An `f64` that holds a `u32` value exactly: a whole number in `[0, 2^32)`. */
  predicate IsExactU32(r: real)
  {
    0.0 <= r < TWO_TO_32 as real && r.Floor as real == r
  }

  /**
   * `x as f64`. Every `u32` is below 2^53, so the conversion is exact and
   * the model uses the mathematical value; no floating point is involved.
   */
  function U32AsF64(x: u32): (r: real)
    ensures IsExactU32(r)
    ensures r.Floor == x as int
  {
    x as real
  }

  /** Converting back recovers the original `u32`: the cast loses nothing. */
  lemma U32AsF64Injective(x: u32, y: u32)
    ensures U32AsF64(x) == U32AsF64(y) <==> x == y
  {
  }
}
