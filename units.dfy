/**
 * The byte-size macros of utils.h. Each multiplies by 1024LL, so the
 * arithmetic is done in signed 64-bit `long long`; signed overflow is
 * undefined in C, so each function requires that its final product fits.
 * Megabytes is written as Kilobytes(value) * 1024 and so on up the chain,
 * exactly as the macros expand; checking each body shows that when the final
 * product fits, no intermediate product of the expansion overflows either.
 */
module ByteUnits {
  import opened CTypes

  const KIB: int := 0x400
  const MIB: int := 0x10_0000
  const GIB: int := 0x4000_0000
  const TIB: int := 0x100_0000_0000

  function Kilobytes(value: s64): (r: s64)
    requires FitsS64(value as int * KIB)
    ensures r as int % KIB == 0 && r as int / KIB == value as int
  {
    value * 1024
  }

  function Megabytes(value: s64): (r: s64)
    requires FitsS64(value as int * MIB)
    ensures r as int == value as int * MIB
  {
    Kilobytes(value) * 1024
  }

  function Gigabytes(value: s64): (r: s64)
    requires FitsS64(value as int * GIB)
    ensures r as int == value as int * GIB
  {
    Megabytes(value) * 1024
  }

  function Terabytes(value: s64): (r: s64)
    requires FitsS64(value as int * TIB)
    ensures r as int == value as int * TIB
  {
    Gigabytes(value) * 1024
  }

  /** Each unit is 1024 of the next smaller one. */
  lemma UnitsChain(value: s64)
    requires FitsS64(value as int * TIB)
    ensures Terabytes(value) as int == Gigabytes(value) as int * 1024
    ensures Gigabytes(value) as int == Megabytes(value) as int * 1024
    ensures Megabytes(value) as int == Kilobytes(value) as int * 1024
    ensures Kilobytes(value) as int == value as int * 1024
  {
  }

  /**
   * The range of operands for which each macro stays within `long long`:
   * -2^53 <= value < 2^53, -2^43 <= value < 2^43, -2^33 <= value < 2^33
   * and -2^23 <= value < 2^23 respectively.
   */
  lemma NoOverflowRange(value: s64)
    ensures FitsS64(value as int * KIB) <==> -0x20_0000_0000_0000 <= value < 0x20_0000_0000_0000
    ensures FitsS64(value as int * MIB) <==> -0x800_0000_0000 <= value < 0x800_0000_0000
    ensures FitsS64(value as int * GIB) <==> -0x2_0000_0000 <= value < 0x2_0000_0000
    ensures FitsS64(value as int * TIB) <==> -0x80_0000 <= value < 0x80_0000
  {
  }
}
