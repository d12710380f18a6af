/** Machine-level types shared by the raytracer and the compute-shader model. */
module Basics {

  /** C `unsigned int` / `GLuint`. */
  newtype uint32 = x: int | 0 <= x < 0x1_0000_0000

  /** One byte of a HashLink `vbyte` buffer. */
  newtype byte = x: int | 0 <= x < 0x100

  /** Largest C `int`. */
  const INT32_MAX: int := 0x7FFF_FFFF

  /** A 32-bit IEEE 754 float kept as its bit pattern. The model never does
      arithmetic on it: coordinates and distances are opaque values. */
  datatype Float32 = Float32(bits: bv32)

  /** `0.0f` and `INFINITY` as IEEE 754 single-precision bit patterns. */
  const FLOAT_ZERO: Float32 := Float32(0x0000_0000)
  const FLOAT_INFINITY: Float32 := Float32(0x7F80_0000)

  datatype Option<T> = None | Some(value: T)

  /** The object behind a C out-pointer such as `bool*` or `unsigned int*`.
      A null pointer is a `null` reference of type `Cell?<T>`. */
  class Cell<T> {
    var value: T

    constructor (v: T)
      ensures value == v
    {
      value := v;
    }
  }
}
