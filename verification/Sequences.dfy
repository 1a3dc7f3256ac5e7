/** Facts about slicing and concatenating sequences that the proofs call by name. */
module Sequences {

  /** b is what is left of a after cutting off a prefix. */
  predicate IsSuffix<T(==)>(b: seq<T>, a: seq<T>) {
    |b| <= |a| && a[|a| - |b|..] == b
  }

  function Init<T>(s: seq<T>): seq<T>
    requires s != []
  {
    s[..|s| - 1]
  }

  function Last<T>(s: seq<T>): T
    requires s != []
  {
    s[|s| - 1]
  }

  lemma InitLast<T>(s: seq<T>)
    requires s != []
    ensures Init(s) + [Last(s)] == s
  {
  }

  lemma ConcatAssoc<T>(a: seq<T>, b: seq<T>, c: seq<T>)
    ensures a + b + c == a + (b + c)
  {
  }

  lemma SplitThree<T>(s: seq<T>, n: nat)
    requires n < |s|
    ensures s == [s[0]] + s[1..1 + n] + s[1 + n..]
  {
  }

  lemma SliceConcat<T>(a: seq<T>, b: seq<T>, n: nat)
    requires n < |a|
    ensures (a + b)[1..1 + n] == a[1..1 + n] && (a + b)[1 + n..] == a[1 + n..] + b
  {
  }

  lemma PrefixTransitive<T>(a: seq<T>, b: seq<T>, c: seq<T>)
    requires a <= b && b <= c
    ensures a <= c
  {
  }

  lemma SuffixConcat<T>(b: seq<T>, a: seq<T>, more: seq<T>)
    requires IsSuffix(b, a)
    ensures IsSuffix(b + more, a + more)
  {
  }

  lemma SuffixTransitive<T>(a: seq<T>, b: seq<T>, c: seq<T>)
    requires IsSuffix(a, b) && IsSuffix(b, c)
    ensures IsSuffix(a, c)
  {
  }

  lemma SnocUnique<T>(s: seq<T>, x: T, t: seq<T>, y: T)
    requires s + [x] == t + [y]
    ensures s == t && x == y
  {
    assert (s + [x])[|s|] == x && (t + [y])[|t|] == y;
    assert s == (s + [x])[..|s|] == (t + [y])[..|t|] == t;
  }
}
