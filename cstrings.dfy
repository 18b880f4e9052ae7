/**
 * The string helpers of utils.h over caller-supplied byte buffers.
 *
 * A `char *` argument is modelled as an array of bytes whose first element
 * is the byte the pointer addresses. The functions that only read are
 * methods that change nothing; ConcatenateStrings writes into its
 * destination array in place. The meaning of a null-terminated string is
 * given by the pure functions IsCString and CLength, and the method
 * contracts are stated in their terms.
 */
module CStrings {
  import opened CTypes

  // The six bytes IsWhitespace accepts, with their C escapes.
  const SPACE: u8 := 0x20      // ' '
  const TAB: u8 := 0x09        // '\t'
  const VERTICAL_TAB: u8 := 0x0B // '\v'
  const FORM_FEED: u8 := 0x0C  // '\f'
  const NEWLINE: u8 := 0x0A    // '\n'
  const RETURN: u8 := 0x0D     // '\r'

  /**
   * IsWhitespace: membership in the fixed set of six bytes. In ASCII these
   * are the space and the contiguous control range from '\t' to '\r'.
   */
  function IsWhitespace(a: u8): (r: bool)
    ensures r <==> a == 0x20 || 0x09 <= a <= 0x0D
  {
    a == SPACE || a == TAB || a == VERTICAL_TAB || a == FORM_FEED || a == NEWLINE || a == RETURN
  }

  /**
   * A corollary of IsWhitespace's contract: the whitespace bytes are exactly
   * the six named above, so there are six of them.
   */
  lemma WhitespaceSet()
    ensures (set c: u8 | IsWhitespace(c)) == {SPACE, TAB, VERTICAL_TAB, FORM_FEED, NEWLINE, RETURN}
    ensures |set c: u8 | IsWhitespace(c)| == 6
  {
  }

  // ----- null-terminated strings as values -----

  /** A buffer holds a C string when it contains a terminating 0 somewhere. */
  predicate IsCString(s: seq<u8>) {
    0 in s
  }

  /** The length of the C string in s: the index of its first 0 byte. */
  function CLength(s: seq<u8>): (n: nat)
    requires IsCString(s)
    ensures n < |s| && s[n] == 0
    ensures forall i :: 0 <= i < n ==> s[i] != 0
  {
    if s[0] == 0 then 0
    else
      assert IsCString(s[1..]) by { assert s == [s[0]] + s[1..]; }
      1 + CLength(s[1..])
  }

  /**
   * The truth StringsAreEqual(a, n, b) computes: the first n bytes of a
   * match the null-terminated b byte for byte, none of them is b's
   * terminator, and b ends exactly at offset n.
   */
  predicate MatchesCString(a: seq<u8>, n: nat, b: seq<u8>) {
    && n <= |a|
    && n < |b|
    && b[n] == 0
    && forall i :: 0 <= i < n ==> b[i] != 0 && a[i] == b[i]
  }

  /**
   * MatchesCString is equality with b's C string: b is terminated at n,
   * and the first n bytes of a and b agree. In particular a match implies
   * that the length of b is n.
   */
  lemma MatchesCStringIff(a: seq<u8>, n: nat, b: seq<u8>)
    ensures MatchesCString(a, n, b) <==>
      IsCString(b) && CLength(b) == n && n <= |a| && a[..n] == b[..n]
  {
  }

  /** The forward half of MatchesCStringIff, named: a match of a against b fixes the length of b. */
  lemma MatchImpliesLength(a: seq<u8>, n: nat, b: seq<u8>)
    requires MatchesCString(a, n, b)
    ensures IsCString(b) && CLength(b) == n
  {
  }

  /** A 0 at n with no 0 before it makes n the C length. */
  lemma CLengthAt(s: seq<u8>, n: nat)
    requires n < |s| && s[n] == 0
    requires forall i :: 0 <= i < n ==> s[i] != 0
    ensures IsCString(s) && CLength(s) == n
  {
  }

  /** The bytes ConcatenateStrings leaves at the front of its destination. */
  function Concatenation(a: seq<u8>, b: seq<u8>): seq<u8> {
    a + b + [0]
  }

  /**
   * The C string that results from a concatenation: it stops at the first
   * 0 of a if a has one, else at the first 0 of b, else at the terminator
   * that ConcatenateStrings writes.
   */
  lemma {:induction false} ConcatenationLength(a: seq<u8>, b: seq<u8>)
    ensures IsCString(Concatenation(a, b))
    ensures CLength(Concatenation(a, b)) ==
      if IsCString(a) then CLength(a)
      else if IsCString(b) then |a| + CLength(b)
      else |a| + |b|
  {
    var c := Concatenation(a, b);
    assert c[|a| + |b|] == 0;
    if IsCString(a) {
      CLengthAt(c, CLength(a));
    } else if IsCString(b) {
      var n := |a| + CLength(b);
      forall i | 0 <= i < n ensures c[i] != 0 {
        if i < |a| {
          assert c[i] == a[i];
          assert a[i] in a;
        } else {
          assert c[i] == b[i - |a|];
        }
      }
      CLengthAt(c, n);
    } else {
      forall i | 0 <= i < |a| + |b| ensures c[i] != 0 {
        if i < |a| {
          assert c[i] == a[i];
          assert a[i] in a;
        } else {
          assert c[i] == b[i - |a|];
          assert b[i - |a|] in b;
        }
      }
      CLengthAt(c, |a| + |b|);
    }
  }

  /**
   * Concatenating two byte strings without 0s gives a C string that
   * StringsAreEqual reports equal to their juxtaposition.
   */
  lemma ConcatenationMatches(a: seq<u8>, b: seq<u8>)
    requires !IsCString(a) && !IsCString(b)
    ensures MatchesCString(a + b, |a| + |b|, Concatenation(a, b))
  {
  }

  /** A buffer that holds a's bytes, b's bytes, a 0 and then rest is Concatenation(a, b) + rest. */
  lemma BytesFormConcatenation(d: seq<u8>, a: seq<u8>, b: seq<u8>, rest: seq<u8>)
    requires |d| == |a| + |b| + 1 + |rest|
    requires forall k :: 0 <= k < |a| ==> d[k] == a[k]
    requires forall k :: |a| <= k < |a| + |b| ==> d[k] == b[k - |a|]
    requires d[|a| + |b|] == 0
    requires forall k :: |a| + |b| < k < |d| ==> d[k] == rest[k - |a| - |b| - 1]
    ensures d == Concatenation(a, b) + rest
  {
  }

  // ----- the operations -----

  /** The number of iterations of a counted loop from 0 while below count: none for a negative count. */
  function Iterations(count: s32): nat {
    if count < 0 then 0 else count as int
  }

  /**
   * ConcatenateStrings: countA bytes of sourceA, then countB bytes of
   * sourceB, then a 0, written to the front of destination. A negative
   * count copies nothing. The destination must be a separate buffer large
   * enough for both parts and the terminator.
   */
  method ConcatenateStrings(sourceA: array<u8>, countA: s32, sourceB: array<u8>, countB: s32,
                            destination: array<u8>)
    requires destination != sourceA && destination != sourceB
    requires Iterations(countA) <= sourceA.Length && Iterations(countB) <= sourceB.Length
    requires Iterations(countA) + Iterations(countB) < destination.Length
    modifies destination
    ensures var na, nb := Iterations(countA), Iterations(countB);
      && (forall k :: 0 <= k < na ==> destination[k] == sourceA[k])
      && (forall k :: na <= k < na + nb ==> destination[k] == sourceB[k - na])
      && destination[na + nb] == 0
      && (forall k :: na + nb < k < destination.Length ==> destination[k] == old(destination[k]))
    ensures sourceA[..] == old(sourceA[..]) && sourceB[..] == old(sourceB[..])
  {
    ghost var na, nb := Iterations(countA), Iterations(countB);
    var d := 0;  // how far the destination pointer has advanced
    var index: s32 := 0;
    while index < countA
      invariant 0 <= index as int <= na && d == index as int
      invariant forall k :: 0 <= k < d ==> destination[k] == sourceA[k]
      invariant forall k :: d <= k < destination.Length ==> destination[k] == old(destination[k])
    {
      destination[d] := sourceA[index];
      d := d + 1;
      index := index + 1;
    }
    index := 0;
    while index < countB
      invariant 0 <= index as int <= nb && d == na + index as int
      invariant forall k :: 0 <= k < na ==> destination[k] == sourceA[k]
      invariant forall k :: na <= k < d ==> destination[k] == sourceB[k - na]
      invariant forall k :: d <= k < destination.Length ==> destination[k] == old(destination[k])
    {
      destination[d] := sourceB[index];
      d := d + 1;
      index := index + 1;
    }
    destination[d] := 0;
  }

  /**
   * StringLength: counts the bytes before the first 0. The count is a C
   * `int`, so the string must be shorter than 2^31 bytes.
   */
  method StringLength(s: array<u8>) returns (length: s32)
    requires IsCString(s[..])
    requires CLength(s[..]) < 0x8000_0000
    ensures 0 <= length as int < s.Length && s[length] == 0
    ensures forall i :: 0 <= i < length as int ==> s[i] != 0
    ensures length as int == CLength(s[..])
  {
    length := 0;
    while s[length] != 0
      invariant 0 <= length as int <= CLength(s[..])
      invariant forall i :: 0 <= i < length as int ==> s[i] != 0
      decreases CLength(s[..]) - length as int
    {
      length := length + 1;
    }
  }

  /**
   * StringsAreEqual: compares the first aLength bytes of a with the
   * null-terminated b, returning false at b's terminator or at the first
   * mismatch, and otherwise whether b ends right after them. The loop never
   * reads a past b's terminator, so a needs only the bytes it is compared on.
   */
  method StringsAreEqual(a: array<u8>, aLength: u64, b: array<u8>) returns (equal: bool)
    requires IsCString(b[..])
    requires aLength as int <= a.Length || CLength(b[..]) <= a.Length
    ensures equal <==> MatchesCString(a[..], aLength as int, b[..])
  {
    var index: u64 := 0;  // `at` is b + index throughout
    while index < aLength
      invariant index <= aLength
      invariant index as int <= CLength(b[..]) && index as int <= a.Length
      invariant forall i :: 0 <= i < index as int ==> b[i] != 0 && a[i] == b[i]
    {
      if b[index] == 0 || a[index] != b[index] {
        return false;
      }
      index := index + 1;
    }
    return b[index] == 0;
  }

  // ----- what a caller can prove from the contracts -----

  /**
   * Concatenating "foo" and "bar" writes "foobar" and its terminator, and
   * the resulting C string has length 6.
   */
  method FooBarScenario() returns (length: s32)
    ensures length == 6
  {
    var foo := new u8[] [0x66, 0x6F, 0x6F];
    var bar := new u8[] [0x62, 0x61, 0x72];
    var out := new u8[7];
    ghost var before := out[..];
    ConcatenateStrings(foo, 3, bar, 3, out);
    BytesFormConcatenation(out[..], foo[..3], bar[..3], before[7..]);
    assert out[..] == [0x66, 0x6F, 0x6F, 0x62, 0x61, 0x72, 0];
    CLengthAt(out[..], 6);
    length := StringLength(out);
  }

  /** "test" with length 4 equals "test", and differs from "test2" and "tes". */
  method TestScenario() returns (same: bool, longer: bool, shorter: bool)
    ensures same && !longer && !shorter
  {
    var a := new u8[] [0x74, 0x65, 0x73, 0x74];
    var test := new u8[] [0x74, 0x65, 0x73, 0x74, 0];
    var test2 := new u8[] [0x74, 0x65, 0x73, 0x74, 0x32, 0];
    var tes := new u8[] [0x74, 0x65, 0x73, 0];
    assert test[..][4] == 0;
    assert test2[..][5] == 0;
    assert tes[..][3] == 0;
    same := StringsAreEqual(a, 4, test);
    longer := StringsAreEqual(a, 4, test2);
    shorter := StringsAreEqual(a, 4, tes);
  }
}
