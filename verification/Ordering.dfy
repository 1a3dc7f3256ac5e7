/** Lexicographic order on strings and the sorted listing of a set of strings
    (Go's sort.Strings, and ORDER BY on names). */
module Ordering {

  predicate Before(a: string, b: string) {
    if b == "" then false
    else if a == "" then true
    else a[0] < b[0] || (a[0] == b[0] && Before(a[1..], b[1..]))
  }

  lemma {:induction false} BeforeTotal(a: string, b: string)
    ensures Before(a, b) || Before(b, a) || a == b
  {
    if a != "" && b != "" && a[0] == b[0] {
      BeforeTotal(a[1..], b[1..]);
      assert a == [a[0]] + a[1..] && b == [b[0]] + b[1..];
    }
  }

  lemma {:induction false} BeforeTransitive(a: string, b: string, c: string)
    requires Before(a, b) && Before(b, c)
    ensures Before(a, c) && a != c
  {
    if a != "" && a[0] == b[0] == c[0] {
      BeforeTransitive(a[1..], b[1..], c[1..]);
    }
  }

  /** Strictly increasing, hence without repetition. */
  predicate Increasing(s: seq<string>) {
    forall i, j :: 0 <= i < j < |s| ==> Before(s[i], s[j])
  }

  function Elements<T>(s: seq<T>): set<T> {
    set x | x in s
  }

  function Insert(x: string, s: seq<string>): (r: seq<string>)
    ensures multiset(r) == multiset(s) + multiset{x}
  {
    if s == [] || Before(x, s[0]) then
      [x] + s
    else
      assert s == [s[0]] + s[1..];
      [s[0]] + Insert(x, s[1..])
  }

  function Sort(s: seq<string>): (r: seq<string>)
    ensures multiset(r) == multiset(s)
  {
    if s == [] then []
    else
      assert s == [s[0]] + s[1..];
      Insert(s[0], Sort(s[1..]))
  }

  lemma InsertElements(x: string, s: seq<string>)
    ensures forall y :: y in Insert(x, s) <==> y == x || y in s
  {
    forall y ensures y in Insert(x, s) <==> y == x || y in s {
      assert y in Insert(x, s) <==> y in multiset(Insert(x, s));
      assert y in s <==> y in multiset(s);
    }
  }

  lemma {:induction false} InsertIncreasing(x: string, s: seq<string>)
    requires Increasing(s) && x !in s
    ensures Increasing(Insert(x, s))
  {
    if s == [] {
    } else if Before(x, s[0]) {
      forall j | 0 <= j < |s| ensures Before(x, s[j]) {
        if j > 0 { BeforeTransitive(x, s[0], s[j]); }
      }
    } else {
      BeforeTotal(x, s[0]);
      InsertIncreasing(x, s[1..]);
      InsertElements(x, s[1..]);
      var r := Insert(x, s[1..]);
      forall j | 0 <= j < |r| ensures Before(s[0], r[j]) {
        if r[j] != x { assert r[j] in r && r[j] in s[1..]; }
      }
    }
  }

  predicate Distinct<T(==)>(s: seq<T>) {
    forall i, j :: 0 <= i < j < |s| ==> s[i] != s[j]
  }

  lemma {:induction false} SortIncreasing(s: seq<string>)
    requires Distinct(s)
    ensures Increasing(Sort(s))
  {
    if s != [] {
      SortIncreasing(s[1..]);
      SortElements(s[1..]);
      assert s[0] in Sort(s[1..]) <==> s[0] in Elements(Sort(s[1..]));
      InsertIncreasing(s[0], Sort(s[1..]));
    }
  }

  lemma SortElements(s: seq<string>)
    ensures Elements(Sort(s)) == Elements(s)
  {
    forall x ensures x in Sort(s) <==> x in s {
      assert x in Sort(s) <==> x in multiset(Sort(s));
      assert x in s <==> x in multiset(s);
    }
  }

  /** There is only one increasing listing of a set. */
  lemma {:induction false} IncreasingUnique(s: seq<string>, t: seq<string>)
    requires Increasing(s) && Increasing(t) && Elements(s) == Elements(t)
    ensures s == t
  {
    if s != [] { assert s[0] in Elements(s); }
    if t != [] { assert t[0] in Elements(t); }
    if s != [] && t != [] {
      assert s[0] in Elements(t) && t[0] in Elements(s);
      if s[0] != t[0] {
        BeforeTransitive(s[0], t[0], s[0]);
      }
      forall x ensures x in s[1..] <==> x in t[1..] {
        assert x in s[1..] ==> x in Elements(s) && x != s[0] by { NotLaterHead(s, x); }
        assert x in t[1..] ==> x in Elements(t) && x != t[0] by { NotLaterHead(t, x); }
        assert x in s <==> x in Elements(s);
        assert x in t <==> x in Elements(t);
        assert x in s ==> x == s[0] || x in s[1..];
        assert x in t ==> x == t[0] || x in t[1..];
      }
      IncreasingUnique(s[1..], t[1..]);
      assert s == [s[0]] + s[1..] && t == [t[0]] + t[1..];
    }
  }

  lemma NotLaterHead(s: seq<string>, x: string)
    requires Increasing(s) && s != []
    ensures x in s[1..] ==> x != s[0]
  {
    if x in s[1..] && x == s[0] {
      var k :| 0 <= k < |s[1..]| && s[1..][k] == x;
      assert Before(s[0], s[1 + k]);
      BeforeTransitive(s[0], s[0], s[0]);
    }
  }

  /** The keys of a set in increasing order. */
  ghost function SortedKeys(keys: set<string>): (r: seq<string>)
    ensures Increasing(r) && Elements(r) == keys
  {
    if keys == {} then []
    else
      var k :| k in keys;
      var rest := SortedKeys(keys - {k});
      assert k !in rest by { assert k in rest ==> k in Elements(rest); }
      InsertIncreasing(k, rest);
      InsertElements(k, rest);
      assert forall y :: y in rest <==> y in Elements(rest);
      Insert(k, rest)
  }

  /** Sorting the keys gives the same list whatever order they were collected in. */
  lemma SortCollected(collected: seq<string>, keys: set<string>)
    requires Distinct(collected) && Elements(collected) == keys
    ensures Sort(collected) == SortedKeys(keys)
  {
    SortIncreasing(collected);
    SortElements(collected);
    IncreasingUnique(Sort(collected), SortedKeys(keys));
  }

  lemma ElementsCons(x: string, s: seq<string>)
    ensures Elements([x] + s) == {x} + Elements(s)
    ensures Distinct([x] + s) <==> x !in Elements(s) && Distinct(s)
  {
    var t := [x] + s;
    forall y ensures y in t <==> y == x || y in s {
      if y in s {
        var k :| 0 <= k < |s| && s[k] == y;
        assert t[k + 1] == y;
      }
    }
    if x in s {
      var k :| 0 <= k < |s| && s[k] == x;
      assert t[k + 1] == t[0];
    }
    if Distinct(t) {
      forall i, j | 0 <= i < j < |s| ensures s[i] != s[j] {
        assert t[i + 1] != t[j + 1];
      }
    }
  }

  lemma {:induction false} DistinctCount(s: seq<string>)
    ensures |Elements(s)| <= |s|
    ensures Distinct(s) <==> |Elements(s)| == |s|
  {
    if s != [] {
      assert s == [s[0]] + s[1..];
      ElementsCons(s[0], s[1..]);
      DistinctCount(s[1..]);
      assert s[0] in Elements(s[1..]) ==> Elements(s) == Elements(s[1..]);
    }
  }
}
