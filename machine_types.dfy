/**
 * The C integer types the overclock module works with on 32-bit ARM, and the
 * conversions between them that its arithmetic goes through.
 */
module MachineTypes {

  /** 2^32, the modulus of `unsigned int` arithmetic. */
  const WORD_MODULUS: int := 0x1_0000_0000

  /** `unsigned int` and `unsigned long` on 32-bit ARM. */
  type uint32 = x: int | 0 <= x < 0x1_0000_0000

  /** `int` on 32-bit ARM. */
  type int32 = x: int | -0x8000_0000 <= x < 0x8000_0000

  /** `char` as copied by `memcpy`. */
  type byte = x: int | 0 <= x < 0x100

  /**
   * Unsigned 32-bit multiplication: the mathematical product less a whole
   * number of 2^32 wraps, which is the product itself when it fits.
   */
  function MulU32(a: uint32, b: uint32): (r: uint32)
    ensures a * b < WORD_MODULUS ==> r == a * b
    ensures a * b >= WORD_MODULUS ==> r != a * b
    ensures a * b == WORD_MODULUS * (a * b / WORD_MODULUS) + r
  {
    (a * b) % WORD_MODULUS
  }

  /**
   * Converting an `unsigned int` to `int` (assignment to an `int` variable).
   * Values above INT_MAX are implementation-defined in C; GCC for ARM keeps
   * the bit pattern, i.e. reduces modulo 2^32 into the signed range.
   */
  function ToInt32(u: uint32): (r: int32)
    ensures u < 0x8000_0000 ==> r == u
    ensures u >= 0x8000_0000 ==> r < 0
    ensures (u - r) % WORD_MODULUS == 0
  {
    if u < 0x8000_0000 then u else u - WORD_MODULUS
  }

  /**
   * Converting an `int` to `unsigned int` (assignment to an unsigned field):
   * reduction modulo 2^32, as the C standard requires.
   */
  function ToUint32(i: int32): (r: uint32)
    ensures 0 <= i ==> r == i
    ensures i < 0 ==> r >= 0x8000_0000
    ensures (r - i) % WORD_MODULUS == 0
  {
    if 0 <= i then i else i + WORD_MODULUS
  }

  /**
   * Storing an `unsigned int` into an `int` and then into an `unsigned int`
   * gives back the value it started from.
   */
  lemma UnsignedThroughIntRoundTrip(u: uint32)
    ensures ToUint32(ToInt32(u)) == u
  {
  }
}
