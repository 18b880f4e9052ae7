# c_utils `utils.h` in Dafny

A model of the behavioural part of `utils.h`, a single-header utility
collection for small native programs: the byte-size unit macros, the
64-to-32-bit truncation helper, and the four string helpers that work on
caller-supplied byte buffers.

- `ctypes.dfy` (module `CTypes`): the fixed-width integer aliases as newtypes
  with the exact C ranges. A `char` is a `u8`: the string helpers only test
  characters for equality or against small positive constants, so the
  signedness of `char` changes nothing.
- `units.dfy` (module `ByteUnits`): `Kilobytes` … `Terabytes`. The macros
  compute in signed 64-bit `long long`, where overflow is undefined, so each
  function requires that its product fits (`FitsS64`). Each body is the
  macro's own expansion (`Kilobytes(value) * 1024`, …), so verifying the
  bodies also shows that no intermediate product overflows when the final one
  fits.
- `truncation.dfy` (module `Truncation`): `SafeTruncateU64` as built without
  `SLOW` (the `Assert` expands to nothing and the cast reduces modulo 2^32),
  and `SafeTruncateU64Slow`, the `SLOW` build, where the `Assert` becomes the
  precondition `value <= 0xFFFFFFFF`.
- `cstrings.dfy` (module `CStrings`): `IsWhitespace` as a function; the
  meaning of a null-terminated string (`IsCString`, `CLength`,
  `MatchesCString`, `Concatenation`) as pure functions; and
  `ConcatenateStrings`, `StringLength` and `StringsAreEqual` as methods over
  byte arrays, with the loops of the source and their invariants. A `char *`
  argument is an array whose element 0 is the byte the pointer addresses.
  `ConcatenateStrings` writes its destination in place; the other two only
  read. Two scenario methods show what a caller can conclude from the
  contracts alone ("foo" + "bar" has length 6, and "test" against "test", "test2", "tes").

Behaviour the C leaves undefined is excluded by preconditions: a destination
that is too small, a string without a terminator, reads past the end of `a`,
signed overflow of the `int` length counter or of a `long long` product.
`ConcatenateStrings` also requires its destination to be a different buffer
from both sources, because its callers are required not to pass overlapping
buffers (see "Left out" for what the C does when they do). Where the C code handles an input, the model does too:
a negative count in `ConcatenateStrings` makes its loop run zero times, so
the model accepts negative counts and copies nothing for them
(`Iterations(count)` is the number of iterations); and `StringsAreEqual`
requires only that `a` holds `min(aLength, length of b)` bytes, because the
loop stops at `b`'s terminator before reading `a` further.

## Model

| member | source | states |
|---|---|---|
| `Truncation.SafeTruncateU64` | utils.h:46-50 | release build: a value up to 0xFFFFFFFF is returned unchanged, and in all cases the result is congruent to the input modulo 2^32 (a `u32`) |
| `Truncation.SafeTruncateU64Slow` | utils.h:46-50 | SLOW build: the Assert is a precondition `value <= 0xFFFFFFFF`, and the result equals the input |
| `Truncation.TruncateIsIdentityIff` | utils.h:46-50 | the cast leaves the value unchanged if and only if it is at most 0xFFFFFFFF |
| `Truncation.TruncateIsUnique` | utils.h:49 | any `u32` congruent to the input modulo 2^32 is the result: the release result is exactly `value mod 2^32` |
| `Truncation.TruncateAfterWidening` | utils.h:49 | widening a `u32` to `u64` and truncating gives it back |
| `Truncation.TruncateIgnoresHighBits` | utils.h:49 | adding 2^32 to the input leaves the result unchanged |
| `Truncation.SlowAgreesWithRelease` | utils.h:25-34 | where the SLOW variant's Assert holds, both builds return the same value |
| `ByteUnits.Kilobytes` | utils.h:36 | the result is a whole number of 1024-byte units, and dividing it by 1024 gives the operand back |
| `ByteUnits.Megabytes` | utils.h:37 | the macro chain `Kilobytes(v) * 1024` equals `v * 1024^2` |
| `ByteUnits.Gigabytes` | utils.h:38 | the macro chain equals `v * 1024^3` |
| `ByteUnits.Terabytes` | utils.h:39 | the macro chain equals `v * 1024^4` |
| `ByteUnits.UnitsChain` | utils.h:36-39 | each unit is 1024 times the next smaller one, down to `Kilobytes(v) == v * 1024` |
| `ByteUnits.NoOverflowRange` | utils.h:36-39 | each macro stays within `long long` exactly for -2^53 <= value < 2^53, -2^43 <= value < 2^43, -2^33 <= value < 2^33 and -2^23 <= value < 2^23 respectively |
| `CStrings.IsWhitespace` | utils.h:76-79 | true exactly for the space and the bytes '\t' through '\r' (9 to 13), false for every other byte |
| `CStrings.WhitespaceSet` | utils.h:76-79 | the set of whitespace bytes is exactly {' ', '\t', '\v', '\f', '\n', '\r'}, six bytes |
| `CStrings.CLength` | utils.h:66-74 | the length of a null-terminated string is the index of its first 0: that byte is 0 and every earlier byte is non-zero |
| `CStrings.CLengthAt` | utils.h:66-74 | a 0 at index n with no 0 before it makes n the length, so the length is unique |
| `CStrings.StringLength` | utils.h:66-74 | the loop returns the index of the first 0 byte; every byte before it is non-zero; the result equals `CLength` |
| `CStrings.StringsAreEqual` | utils.h:81-92 | true iff the first aLength bytes of `a` equal those of `b`, none of them is 0, and `b[aLength]` is 0; false at `b`'s terminator or a mismatch before aLength |
| `CStrings.MatchesCStringIff` | utils.h:81-92 | equality holds iff `b` is null-terminated at exactly offset aLength and `a[0..aLength)` equals `b[0..aLength)` |
| `CStrings.MatchImpliesLength` | utils.h:86-91 | when StringsAreEqual(a, n, b) holds, StringLength(b) is n |
| `CStrings.ConcatenateStrings` | utils.h:52-64 | destination holds countA bytes of sourceA, then countB bytes of sourceB, then 0; every later byte and both sources are unchanged; a negative count copies nothing |
| `CStrings.BytesFormConcatenation` | utils.h:52-64 | a buffer holding the bytes ConcatenateStrings promises (first part, second part, 0, untouched rest) is `Concatenation(a, b)` followed by the rest |
| `CStrings.ConcatenationLength` | utils.h:52-64 | the concatenated string ends at the first 0 of sourceA's part, else of sourceB's part, else at the written terminator |
| `CStrings.ConcatenationMatches` | utils.h:52-64 | two parts without 0 bytes concatenate to a C string that StringsAreEqual reports equal to their juxtaposition |
| `CStrings.FooBarScenario` | utils.h:52-74 | concatenating "foo" and "bar" into a 7-byte buffer writes exactly "foobar" and a 0, which `BytesFormConcatenation` identifies as `Concatenation("foo", "bar")`, and StringLength measures it as 6 |
| `CStrings.TestScenario` | utils.h:81-92 | "test" with length 4 equals "test" and differs from "test2" and "tes" |

## Left out

- `ExitScope`, `ExitScopeHelp` and `defer` (utils.h:94-120): they rely on C++ destructors running at scope exit and on lambda capture, which Dafny cannot express.
- `pi32`, `DEGREES_TO_RADIANS`, `RADIANS_TO_DEGREES` (utils.h:9-11): single-precision floating point.
- The trap body of `Assert` under `SLOW` (utils.h:26-31): a deliberate write through a null pointer, which is undefined behaviour; the SLOW build is modelled only as the precondition of `SafeTruncateU64Slow`.
- `ArrayCount` (utils.h:41): a compile-time `sizeof` computation; an array's `Length` plays its part.
- `CONCAT`, `CONCAT_INTERNAL` and the storage-class macros `global_variable`, `local_persist`, `internal` (utils.h:6-8, 43-44): token pasting and keyword aliases with no behaviour.
- The typedefs `s8`, `u16`, `s16`, `float32`, `float64` (utils.h:13-23): no modelled operation uses them; the used ones are newtypes in `CTypes`.
- Pointers into the middle of a buffer: every `char *` is the start of its own array, so partial overlap between destination and a source is not expressible; the model requires the destination to be a different array.
- Behaviour on inputs C leaves undefined (too-small destination, missing terminator, signed overflow) is excluded by preconditions rather than modelled.
- `ByteUnits.Kilobytes`: the operand is a signed 64-bit value. The macros are type-generic, and two other operand kinds are not modelled: an unsigned 64-bit operand, which C multiplies in wrapping unsigned arithmetic, and a floating-point operand, which C multiplies in `double` (`Kilobytes(1.5)` is 1536.0).
- `CStrings.ConcatenateStrings`: a call whose destination is the same array as a source is excluded by precondition, although C defines it, since each byte is copied with a single read and write. With `destination == sourceA` the first loop rewrites each byte with itself, and the call appends sourceB in place. With `destination == sourceB` and a positive countA, the first loop overwrites sourceB's first countA bytes before the second loop reads them, so the second part repeats bytes the call itself has already written instead of sourceB's original bytes.
