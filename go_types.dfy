/** Go's fixed-width and opaque scalar types, as the services use them. */
module GoTypes {

  /** Go's `int32`. */
  newtype int32 = x: int | -0x8000_0000 <= x < 0x8000_0000

  /** Go's `int32(n)` conversion of a non-negative `int`: keeps the low 32 bits
      and reads them as two's complement. */
  function Int32Of(n: nat): (r: int32)
    ensures (r as int - n) % 0x1_0000_0000 == 0
    ensures n < 0x8000_0000 ==> r as int == n
  {
    var low := n % 0x1_0000_0000;
    if low < 0x8000_0000 then low as int32 else (low - 0x1_0000_0000) as int32
  }

  /** A Go `float64`, kept as its IEEE 754 bit pattern: the stores never compute
      with temperatures, they only store and return them. */
  datatype Float64 = Float64(bits: bv64)

  /** Go's `time.Time`, as an instant on an integer clock; the clock itself is a
      parameter of every operation that reads it. */
  type Time = int
}
