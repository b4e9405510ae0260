/**
 * The bytewise three-way comparator the C test installs through
 * `comparator_create`: memcmp over the shorter length, then length decides.
 */
module Comparator {
  import opened ByteStrings

  /**
   * C's memcmp over the first n bytes. The standard fixes only the sign of
   * the result; this model returns the difference of the first differing
   * bytes (as unsigned chars), and nothing below relies on more than its sign.
   */
  function Memcmp(a: Bytes, b: Bytes, n: nat): (r: int)
    requires n <= |a| && n <= |b|
    ensures r == 0 <==> a[..n] == b[..n]
    ensures r < 0 ==> LexLess(a, b)
    ensures r > 0 ==> LexLess(b, a)
    decreases n
  {
    if n == 0 then 0
    else if a[0] != b[0] then a[0] as int - b[0] as int
    else
      var r := Memcmp(a[1..], b[1..], n - 1);
      assert a[..n] == [a[0]] + a[1..][..n - 1];
      assert b[..n] == [b[0]] + b[1..][..n - 1];
      r
  }

  /** min(alen, blen): the number of bytes memcmp compares. */
  function ShorterLength(a: Bytes, b: Bytes): nat
  {
    if |a| < |b| then |a| else |b|
  }

  /**
   * CmpCompare(arg, a, alen, b, blen). The source narrows min(alen, blen)
   * to an int, so that length, and only that one, is required to fit in one.
   */
  function CmpCompare(a: Bytes, b: Bytes): (r: int)
    requires ShorterLength(a, b) <= INT_MAX
    ensures r == 0 <==> a == b
    ensures r < 0 <==> LexLess(a, b)
    ensures r > 0 <==> LexLess(b, a)
  {
    var n := ShorterLength(a, b);
    var r := Memcmp(a, b, n);
    LexLessIrreflexive(a);
    LexLessAsymmetric(a, b);
    if r == 0 then
      if |a| < |b| then
        ProperPrefixLess(a, b);
        -1
      else if |a| > |b| then
        ProperPrefixLess(b, a);
        1
      else
        assert a == a[..n] && b == b[..n];
        0
    else
      r
  }

  /** sign(CmpCompare(a, b)) == -sign(CmpCompare(b, a)). */
  lemma CmpCompareAntisymmetric(a: Bytes, b: Bytes)
    requires ShorterLength(a, b) <= INT_MAX
    ensures CmpCompare(a, b) < 0 <==> CmpCompare(b, a) > 0
    ensures CmpCompare(a, b) == 0 <==> CmpCompare(b, a) == 0
  {
  }

  lemma CmpCompareTransitive(a: Bytes, b: Bytes, c: Bytes)
    requires ShorterLength(a, b) <= INT_MAX && ShorterLength(b, c) <= INT_MAX
    requires ShorterLength(a, c) <= INT_MAX
    requires CmpCompare(a, b) < 0 && CmpCompare(b, c) < 0
    ensures CmpCompare(a, c) < 0
  {
    LexLessTransitive(a, b, c);
  }

  /** A proper prefix compares less than its extension, the extension greater. */
  lemma CmpComparePrefix(a: Bytes, b: Bytes)
    requires |a| <= INT_MAX
    requires |a| < |b| && a == b[..|a|]
    ensures CmpCompare(a, b) < 0 && CmpCompare(b, a) > 0
  {
    ProperPrefixLess(a, b);
  }
}
