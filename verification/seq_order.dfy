/** Relative order and positions of tokens in an argument list. */
module SeqOrder {

  /** Every occurrence of `a` in `s` comes before every occurrence of `b`. */
  predicate Before<T(==)>(s: seq<T>, a: T, b: T) {
    forall i, j :: 0 <= i < |s| && 0 <= j < |s| && s[i] == a && s[j] == b ==> i < j
  }

  /** When `a` occurs only in the first part and `b` only in the second,
      every `a` precedes every `b`. */
  lemma BeforeAcross<T>(x: seq<T>, y: seq<T>, a: T, b: T)
    requires a !in y
    requires b !in x
    ensures Before(x + y, a, b)
  {
  }

  /** Appending keeps a prefix. */
  lemma PrefixThrough<T>(s: seq<T>, t: seq<T>, n: nat)
    requires n <= |s|
    ensures (s + t)[..n] == s[..n]
  {
  }

  /** A slice inside the appended part. */
  lemma SliceAfter<T>(h: seq<T>, t: seq<T>, i: nat, j: nat)
    requires i <= j <= |t|
    ensures (h + t)[|h| + i..|h| + j] == t[i..j]
  {
  }

  /** A slice inside the first part. */
  lemma SliceBefore<T>(s: seq<T>, t: seq<T>, i: nat, j: nat)
    requires i <= j <= |s|
    ensures (s + t)[i..j] == s[i..j]
  {
  }

  /** What follows a prefix. */
  lemma DropPrefix<T>(h: seq<T>, t: seq<T>)
    ensures (h + t)[|h|..] == t
  {
  }

  /** Concatenation re-nests to the right. */
  lemma AppendAssoc<T>(a: seq<T>, b: seq<T>, c: seq<T>)
    ensures (a + b) + c == a + (b + c)
  {
  }

  /** An index inside a prefix of a prefix reads the same element. */
  lemma IndexThroughPrefixes<T>(s: seq<T>, head: seq<T>, x: seq<T>, i: nat)
    requires |head| <= |s| && s[..|head|] == head
    requires |x| <= |head| && head[..|x|] == x
    requires i < |x|
    ensures s[i] == x[i]
  {
    assert s[i] == s[..|head|][i];
    assert head[i] == head[..|x|][i];
  }

  /** A slice inside a prefix reads the same elements. */
  lemma SliceOfPrefix<T>(s: seq<T>, p: seq<T>, i: nat, j: nat)
    requires |p| <= |s| && s[..|p|] == p
    requires i <= j <= |p|
    ensures s[i..j] == p[i..j]
  {
    forall t | 0 <= t < j - i
      ensures s[i..j][t] == p[i..j][t]
    {
      assert s[i + t] == s[..|p|][i + t];
    }
  }

  /** An index into the second of four appended parts. */
  lemma IndexInSecond<T>(a: seq<T>, b: seq<T>, c: seq<T>, d: seq<T>, i: nat)
    requires i < |b|
    ensures (a + b + c + d)[|a| + i] == b[i]
  {
  }

  /** What follows the first part of a five-part concatenation, and what precedes its third. */
  lemma DropFront<T>(x: seq<T>, a: seq<T>, b: seq<T>, e: seq<T>, p: seq<T>)
    ensures ((((x + a) + b) + e) + p)[|x|..] == a + b + e + p
    ensures ((((x + a) + b) + e) + p)[..|x + a|] == x + a
  {
  }

  /** A slice of the middle part of a three-part concatenation. */
  lemma SliceInside<T>(head: seq<T>, mid: seq<T>, rest: seq<T>, i: nat, j: nat)
    requires i <= j <= |mid|
    ensures (head + (mid + rest))[|head| + i..|head| + j] == mid[i..j]
  {
    SliceAfter(head, mid + rest, i, j);
    SliceBefore(mid, rest, i, j);
  }
}
