/**
 * SafeTruncateU64: narrowing a 64-bit unsigned value to 32 bits.
 *
 * The source guards the cast with an Assert that the value is at most
 * 0xFFFFFFFF. Without the SLOW build flag the Assert expands to nothing and
 * the cast silently keeps the low 32 bits (conversion to an unsigned type is reduction modulo 2^32 in C);
 * with SLOW the program traps when the condition fails, which is modelled as a
 * precondition of a separate variant.
 */
module Truncation {
  import opened CTypes

  const TWO_POW_32: int := 0x1_0000_0000

  /** The release build: Assert is compiled out, the cast reduces modulo 2^32. */
  function SafeTruncateU64(value: u64): (r: u32)
    ensures value as int <= 0xFFFF_FFFF ==> r as int == value as int
    ensures (value as int - r as int) % TWO_POW_32 == 0
  {
    (value as int % TWO_POW_32) as u32
  }

  /** The SLOW build: the Assert must hold, so the value never changes. */
  function SafeTruncateU64Slow(value: u64): (r: u32)
    requires value as int <= 0xFFFF_FFFF
    ensures r as int == value as int
  {
    SafeTruncateU64(value)
  }

  /** The cast leaves a value unchanged exactly when it already fits in 32 bits. */
  lemma TruncateIsIdentityIff(value: u64)
    ensures SafeTruncateU64(value) as int == value as int <==> value as int <= 0xFFFF_FFFF
  {
  }

  /**
   * The release result is the only 32-bit value congruent to the input
   * modulo 2^32, so the contract of SafeTruncateU64 determines it.
   */
  lemma TruncateIsUnique(value: u64, r: u32)
    requires (value as int - r as int) % TWO_POW_32 == 0
    ensures r == SafeTruncateU64(value)
  {
  }

  /** Widening a u32 to u64 and truncating back returns the original value. */
  lemma TruncateAfterWidening(x: u32)
    ensures SafeTruncateU64(x as u64) == x
  {
  }

  /** Adding 2^32 to the input does not change the truncated result. */
  lemma TruncateIgnoresHighBits(value: u64)
    requires value as int + TWO_POW_32 < 0x1_0000_0000_0000_0000
    ensures SafeTruncateU64((value as int + TWO_POW_32) as u64) == SafeTruncateU64(value)
  {
  }

  /** Where the SLOW variant is defined, the two builds agree. */
  lemma SlowAgreesWithRelease(value: u64)
    requires value as int <= 0xFFFF_FFFF
    ensures SafeTruncateU64Slow(value) == SafeTruncateU64(value)
  {
  }
}
