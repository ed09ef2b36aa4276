/**
 * Value types shared by the whole model: optional values (Kotlin's nullable
 * types), the platform's signed bytes, 32-bit integer bit patterns and UUIDs.
 */
module Common {

  /** A Kotlin nullable value: `None` stands for `null`. */
  datatype Option<T> = None | Some(value: T)
  {
    function GetOr(default: T): T
    {
      match this
      case None => default
      case Some(v) => v
    }
  }

  /** The exceptions the library throws at its callers. */
  datatype Exception = IllegalArgumentException | IllegalStateException

  /** A value, or the exception thrown instead of returning it. */
  datatype Result<T> = Ok(value: T) | Err(error: Exception)

  /** A JVM byte, kept as its 8-bit pattern. */
  type Byte = bv8

  /** A JVM `Int` used as a bit set (event types, callback types). */
  type Int32 = bv32

  /** The numeric value of a JVM byte: two's complement, -128 .. 127. */
  function Signed(b: Byte): (r: int)
    ensures -128 <= r < 128
    ensures b < 0x80 ==> r == b as int
    ensures b >= 0x80 ==> r == b as int - 256
  {
    if b < 0x80 then b as int else b as int - 256
  }

  /** Kotlin's `shr`: an arithmetic right shift, copying the sign bit. */
  function Shr(x: Int32, n: Int32): (r: Int32)
    requires n < 32
    ensures x < 0x8000_0000 ==> r == x >> n
  {
    if x < 0x8000_0000 then x >> n else !((!x) >> n)
  }

  /** `Integer.MIN_VALUE`. */
  const MIN_INT: int := -0x8000_0000

  /** The range of a JVM `Long`. */
  const MIN_LONG: int := -0x8000_0000_0000_0000
  const MAX_LONG: int := 0x7FFF_FFFF_FFFF_FFFF

  /** A value a JVM `Long` can hold. */
  type Long = x: int | MIN_LONG <= x <= MAX_LONG

  /** Two's complement wrap-around of `Long` arithmetic: the `Long` congruent to `x` modulo 2^64. */
  function WrapLong(x: int): (r: Long)
    ensures MIN_LONG <= x <= MAX_LONG ==> r == x
    ensures (x - r) % 0x1_0000_0000_0000_0000 == 0
  {
    (x - MIN_LONG) % 0x1_0000_0000_0000_0000 + MIN_LONG
  }

  /** `java.util.UUID`: the most and least significant 64 bits. */
  datatype Uuid = Uuid(msb: bv64, lsb: bv64)

  /** A Bluetooth device, identified (as by `BluetoothDevice.equals`) by its address. */
  type Address = string
}
