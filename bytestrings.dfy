/**
 * Byte strings as they cross the C boundary (a pointer and a length), the
 * fixed-width C integer types the interface uses, and lexicographic order.
 */
module ByteStrings {

  /** An `unsigned char`; C's memcmp compares bytes as unsigned. */
  newtype byte = x: int | 0 <= x < 0x100

  type Bytes = seq<byte>

  newtype int32 = x: int | -0x8000_0000 <= x < 0x8000_0000

  newtype size_t = x: int | 0 <= x < 0x1_0000_0000_0000_0000

  const INT_MAX: int := 0x7fff_ffff

  /** s holds no NUL byte, so as a C string its strlen is |s|. */
  predicate NoNul(s: Bytes)
  {
    forall i :: 0 <= i < |s| ==> s[i] != 0
  }

  /**
   * Plain lexicographic order on byte strings: the first differing byte
   * decides, and a proper prefix comes first.
   */
  predicate LexLess(a: Bytes, b: Bytes)
    decreases |a|
  {
    if |a| == 0 then |b| > 0
    else |b| > 0 && (a[0] < b[0] || (a[0] == b[0] && LexLess(a[1..], b[1..])))
  }

  lemma {:induction false} LexLessIrreflexive(a: Bytes)
    ensures !LexLess(a, a)
    decreases |a|
  {
    if |a| > 0 {
      LexLessIrreflexive(a[1..]);
    }
  }

  lemma {:induction false} LexLessAsymmetric(a: Bytes, b: Bytes)
    ensures LexLess(a, b) ==> !LexLess(b, a)
    decreases |a|
  {
    if |a| > 0 && |b| > 0 && a[0] == b[0] {
      LexLessAsymmetric(a[1..], b[1..]);
    }
  }

  lemma {:induction false} LexLessTransitive(a: Bytes, b: Bytes, c: Bytes)
    requires LexLess(a, b) && LexLess(b, c)
    ensures LexLess(a, c)
    decreases |a|
  {
    if |a| > 0 && a[0] == b[0] && b[0] == c[0] {
      LexLessTransitive(a[1..], b[1..], c[1..]);
    }
  }

  /** Any two distinct byte strings are ordered one way or the other. */
  lemma {:induction false} LexLessTotal(a: Bytes, b: Bytes)
    ensures a == b || LexLess(a, b) || LexLess(b, a)
    decreases |a|
  {
    if |a| > 0 && |b| > 0 && a[0] == b[0] {
      LexLessTotal(a[1..], b[1..]);
      if a[1..] == b[1..] {
        assert a == [a[0]] + a[1..] && b == [b[0]] + b[1..];
      }
    }
  }

  /** A proper prefix comes before every extension of it. */
  lemma {:induction false} ProperPrefixLess(a: Bytes, b: Bytes)
    requires |a| < |b| && a == b[..|a|]
    ensures LexLess(a, b)
    decreases |a|
  {
    if |a| > 0 {
      assert a[0] == b[0];
      assert a[1..] == b[1..][..|a| - 1];
      ProperPrefixLess(a[1..], b[1..]);
    }
  }
}
