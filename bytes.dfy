/**
 * Fixed-width integers of the flight software, and an Option type.
 * Dafny integers are unbounded, so the C widths are written out here.
 */
module Bytes {

  /** C `unsigned char` (the `byte` typedef) and cFE `uint8`. */
  newtype byte = b: int | 0 <= b < 0x100

  /** cFE `uint16`. */
  newtype uint16 = x: int | 0 <= x < 0x1_0000

  datatype Option<+T> = None | Some(value: T)

  /** `x++` on a `uint8`: 255 wraps to 0. */
  function Inc8(x: byte): (r: byte)
    ensures r as int == (x as int + 1) % 0x100
    ensures r == 0 <==> x == 255
  {
    if x == 255 then 0 else x + 1
  }

  /** Conversion of a C integer to `unsigned char`: reduction modulo 256. */
  function ToByte(v: int): (b: byte)
    ensures 0 <= v < 0x100 ==> b as int == v
    ensures -0x100 < v < 0 ==> b as int == v + 0x100
  {
    (v % 0x100) as byte
  }
}
