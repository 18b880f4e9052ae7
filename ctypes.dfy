/**
 * The fixed-width integer aliases of utils.h (s32, u8, u32, s64, u64),
 * each as a newtype over the mathematical integers whose range is exactly
 * that of the C type. A C `char` is modelled as a `u8`: every comparison the
 * string helpers make on characters is an equality test or a test against a
 * small positive constant, so the signedness of `char` does not matter.
 */
module CTypes {
  newtype u8 = x: int | 0 <= x < 0x100
  newtype u32 = x: int | 0 <= x < 0x1_0000_0000
  newtype u64 = x: int | 0 <= x < 0x1_0000_0000_0000_0000
  newtype s32 = x: int | -0x8000_0000 <= x < 0x8000_0000
  newtype s64 = x: int | -0x8000_0000_0000_0000 <= x < 0x8000_0000_0000_0000

  /** True when x is representable as a signed 64-bit `long long`. */
  predicate FitsS64(x: int) {
    -0x8000_0000_0000_0000 <= x < 0x8000_0000_0000_0000
  }
}
