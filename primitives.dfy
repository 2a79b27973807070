/** The fixed-width machine types of the shuffle test doubles and the Paimon test utilities. */
module Primitives {

  /** One byte of a pushed payload or of a stream (a C++ `char`). */
  newtype byte = x: int | 0 <= x < 0x100

  newtype int8 = x: int | -0x80 <= x < 0x80

  newtype int32 = x: int | -0x8000_0000 <= x < 0x8000_0000

  newtype int64 = x: int | -0x8000_0000_0000_0000 <= x < 0x8000_0000_0000_0000

  function Min(a: int, b: int): int
  {
    if a <= b then a else b
  }

  /** The value an `int64` takes when it is converted to `int32`: its low
      32 bits read as a two's complement number. */
  function TruncateToInt32(v: int64): (r: int32)
    ensures -0x8000_0000 <= v < 0x8000_0000 ==> r as int == v as int
    ensures (v as int - r as int) % 0x1_0000_0000 == 0
  {
    var low := (v as int) % 0x1_0000_0000;
    (if low < 0x8000_0000 then low else low - 0x1_0000_0000) as int32
  }
}
