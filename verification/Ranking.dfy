/** Stable ranking by descending score, and selecting its best entries. */
module Ranking {
  import opened Sequences

  predicate Descending<T>(score: T -> real, s: seq<T>) {
    forall i, j :: 0 <= i < j < |s| ==> score(s[i]) >= score(s[j])
  }

  /** The entries with score v, in order. */
  function Level<T>(score: T -> real, s: seq<T>, v: real): seq<T> {
    if s == [] then [] else Level(score, Init(s), v) + (if score(Last(s)) == v then [Last(s)] else [])
  }

  /** r is s in descending order, entries of equal score in the order they have in s. */
  ghost predicate IsRanking<T>(score: T -> real, s: seq<T>, r: seq<T>) {
    Descending(score, r) && forall v :: Level(score, r, v) == Level(score, s, v)
  }

  /** One more entry goes behind all that do not score less. */
  function Insert<T>(score: T -> real, s: seq<T>, x: T): (r: seq<T>)
    ensures |r| == |s| + 1
  {
    if s != [] && score(Last(s)) < score(x) then Insert(score, Init(s), x) + [Last(s)] else s + [x]
  }

  function Rank<T>(score: T -> real, s: seq<T>): (r: seq<T>)
    ensures |r| == |s|
  {
    if s == [] then [] else Insert(score, Rank(score, Init(s)), Last(s))
  }

  lemma {:induction false} InsertAt<T>(score: T -> real, s: seq<T>, x: T, k: nat)
    requires k <= |s| && (k > 0 ==> score(s[k - 1]) >= score(x)) && forall i :: k <= i < |s| ==> score(s[i]) < score(x)
    ensures Insert(score, s, x) == s[..k] + [x] + s[k..]
  {
    if s != [] && score(Last(s)) < score(x) {
      InsertAt(score, Init(s), x, k);
      assert s[..k] == Init(s)[..k] && s[k..] == Init(s)[k..] + [Last(s)];
    } else {
      assert k == |s| && s[..k] == s && s[k..] == [];
    }
  }

  lemma InsertDescending<T>(score: T -> real, s: seq<T>, x: T)
    requires Descending(score, s)
    ensures Descending(score, Insert(score, s, x))
  {
    var p := InsertPosition(score, s, x);
    InsertAt(score, s, x, p);
    PutDescending(score, s, x, p);
  }

  lemma PutDescending<T>(score: T -> real, s: seq<T>, x: T, p: nat)
    requires Descending(score, s) && p <= |s|
    requires (forall i :: 0 <= i < p ==> score(s[i]) >= score(x)) && (forall i :: p <= i < |s| ==> score(s[i]) < score(x))
    ensures Descending(score, s[..p] + [x] + s[p..])
  {
    var r := s[..p] + [x] + s[p..];
    forall i, j | 0 <= i < j < |r| ensures score(r[i]) >= score(r[j]) {
      assert r[i] == (if i < p then s[i] else if i == p then x else s[i - 1]);
      assert r[j] == (if j < p then s[j] else if j == p then x else s[j - 1]);
    }
  }

  lemma LevelSnoc<T>(score: T -> real, s: seq<T>, x: T, v: real)
    ensures Level(score, s + [x], v) == Level(score, s, v) + (if score(x) == v then [x] else [])
  {
    assert Init(s + [x]) == s && Last(s + [x]) == x;
  }

  lemma {:induction false} InsertLevel<T>(score: T -> real, s: seq<T>, x: T, v: real)
    ensures Level(score, Insert(score, s, x), v) == Level(score, s, v) + (if score(x) == v then [x] else [])
  {
    if s != [] && score(Last(s)) < score(x) {
      InsertLevel(score, Init(s), x, v);
      LevelSnoc(score, Insert(score, Init(s), x), Last(s), v);
    } else {
      LevelSnoc(score, s, x, v);
    }
  }

  lemma {:induction false} RankIsRanking<T>(score: T -> real, s: seq<T>)
    ensures IsRanking(score, s, Rank(score, s))
  {
    if s != [] {
      RankIsRanking(score, Init(s));
      InsertDescending(score, Rank(score, Init(s)), Last(s));
      forall v ensures Level(score, Rank(score, s), v) == Level(score, s, v) {
        InsertLevel(score, Rank(score, Init(s)), Last(s), v);
      }
    }
  }

  lemma {:induction false} LevelMember<T>(score: T -> real, s: seq<T>, v: real)
    ensures Level(score, s, v) != [] <==> exists x :: x in s && score(x) == v
  {
    if s != [] {
      LevelMember(score, Init(s), v);
      assert s == Init(s) + [Last(s)];
    }
  }

  /** There is only one ranking. */
  lemma {:induction false} RankingUnique<T>(score: T -> real, a: seq<T>, b: seq<T>)
    requires Descending(score, a) && Descending(score, b) && forall v :: Level(score, a, v) == Level(score, b, v)
    ensures a == b
    decreases |a|
  {
    if a == [] || b == [] {
      OneEmpty(score, a, b);
    } else {
      SameLast(score, a, b);
      var v := score(Last(a));
      assert Last(Level(score, a, v)) == Last(a) && Last(Level(score, b, v)) == Last(b);
      forall u ensures Level(score, Init(a), u) == Level(score, Init(b), u) {
        LevelInit(score, a, b, u);
      }
      RankingUnique(score, Init(a), Init(b));
      assert a == Init(a) + [Last(a)] && b == Init(b) + [Last(b)];
    }
  }

  lemma OneEmpty<T>(score: T -> real, a: seq<T>, b: seq<T>)
    requires (a == [] || b == []) && forall v :: Level(score, a, v) == Level(score, b, v)
    ensures a == b
  {
    assert a != [] ==> Level(score, a, score(Last(a))) != [];
    assert b != [] ==> Level(score, b, score(Last(b))) != [];
  }

  lemma SameLast<T>(score: T -> real, a: seq<T>, b: seq<T>)
    requires a != [] && b != [] && Descending(score, a) && Descending(score, b)
    requires forall v :: Level(score, a, v) == Level(score, b, v)
    ensures score(Last(a)) == score(Last(b))
  {
    LastReached(score, a, b);
    LastReached(score, b, a);
  }

  lemma LastReached<T>(score: T -> real, a: seq<T>, b: seq<T>)
    requires a != [] && b != [] && Descending(score, b) && Level(score, a, score(Last(a))) == Level(score, b, score(Last(a)))
    ensures score(Last(b)) <= score(Last(a))
  {
    var v := score(Last(a));
    assert Last(a) in a;
    LevelMember(score, a, v);
    LevelMember(score, b, v);
    var x :| x in b && score(x) == v;
    var i :| 0 <= i < |b| && b[i] == x;
  }

  lemma LevelInit<T>(score: T -> real, a: seq<T>, b: seq<T>, u: real)
    requires a != [] && b != [] && score(Last(a)) == score(Last(b)) && Level(score, a, u) == Level(score, b, u)
    ensures Level(score, Init(a), u) == Level(score, Init(b), u)
  {
    var x, y := Level(score, Init(a), u), Level(score, Init(b), u);
    if score(Last(a)) == u {
      SnocUnique(x, Last(a), y, Last(b));
    } else {
      assert x + [] == x && y + [] == y;
    }
  }

  // ---- the best entries ----

  function Top<T>(k: nat, s: seq<T>): seq<T> {
    if |s| > k then s[..k] else s
  }

  function Best<T>(score: T -> real, k: nat, s: seq<T>): seq<T> {
    Top(k, Rank(score, s))
  }

  /** What is selected scores at least as much as what is not. */
  lemma BestIsBest<T>(score: T -> real, k: nat, s: seq<T>)
    ensures var r := Rank(score, s);
            && Descending(score, Best(score, k, s)) && |Best(score, k, s)| == (if |s| > k then k else |s|)
            && r == Best(score, k, s) + r[|Best(score, k, s)|..]
            && forall i, j :: 0 <= i < |Best(score, k, s)| <= j < |r| ==> score(Best(score, k, s)[i]) >= score(r[j])
  {
    RankIsRanking(score, s);
  }

  /** Entries beyond the best k do not matter when one more comes in. */
  lemma TopInsert<T>(score: T -> real, k: nat, s: seq<T>, x: T)
    requires Descending(score, s)
    ensures Top(k, Insert(score, s, x)) == Top(k, Insert(score, Top(k, s), x))
  {
    if |s| > k {
      var p := InsertPosition(score, s, x);
      var q := if p <= k then p else k;
      InsertAt(score, s, x, p);
      InsertAt(score, s[..k], x, q);
      PutPrefix(s, x, p, q, k);
    }
  }

  lemma PutPrefix<T>(s: seq<T>, x: T, p: nat, q: nat, k: nat)
    requires p <= |s| && k < |s| && q == if p <= k then p else k
    ensures (s[..p] + [x] + s[p..])[..k] == (s[..k][..q] + [x] + s[..k][q..])[..k]
  {
    assert s[..k][..q] == s[..q];
  }

  lemma {:induction false} InsertPosition<T>(score: T -> real, s: seq<T>, x: T) returns (p: nat)
    requires Descending(score, s)
    ensures p <= |s| && (forall i :: 0 <= i < p ==> score(s[i]) >= score(x)) && (forall i :: p <= i < |s| ==> score(s[i]) < score(x))
  {
    if s == [] || score(Last(s)) >= score(x) {
      p := |s|;
    } else {
      p := InsertPosition(score, Init(s), x);
    }
  }

  lemma BestSnoc<T>(score: T -> real, k: nat, s: seq<T>, x: T)
    ensures Best(score, k, s + [x]) == Top(k, Insert(score, Best(score, k, s), x))
  {
    assert Init(s + [x]) == s && Last(s + [x]) == x;
    RankIsRanking(score, s);
    TopInsert(score, k, Rank(score, s), x);
  }

  /** The best k of a and more depend on a only through its best k. */
  lemma {:induction false} BestConcat<T>(score: T -> real, k: nat, a: seq<T>, b: seq<T>, more: seq<T>)
    requires Best(score, k, a) == Best(score, k, b)
    ensures Best(score, k, a + more) == Best(score, k, b + more)
    decreases |more|
  {
    if more == [] {
      assert a + more == a && b + more == b;
    } else {
      BestConcat(score, k, a, b, Init(more));
      BestSnoc(score, k, a + Init(more), Last(more));
      BestSnoc(score, k, b + Init(more), Last(more));
      assert a + more == a + Init(more) + [Last(more)] && b + more == b + Init(more) + [Last(more)];
    }
  }

  /** How many score at least v. */
  function AtLeast<T>(score: T -> real, s: seq<T>, v: real): nat {
    if s == [] then 0 else AtLeast(score, Init(s), v) + (if score(Last(s)) >= v then 1 else 0)
  }

  lemma {:induction false} AtLeastInsert<T>(score: T -> real, s: seq<T>, x: T, v: real)
    ensures AtLeast(score, Insert(score, s, x), v) == AtLeast(score, s, v) + (if score(x) >= v then 1 else 0)
  {
    if s != [] && score(Last(s)) < score(x) {
      AtLeastInsert(score, Init(s), x, v);
      var r := Insert(score, Init(s), x);
      assert Init(r + [Last(s)]) == r;
    } else {
      assert Init(s + [x]) == s;
    }
  }

  lemma {:induction false} AtLeastRank<T>(score: T -> real, s: seq<T>, v: real)
    ensures AtLeast(score, Rank(score, s), v) == AtLeast(score, s, v)
  {
    if s != [] {
      AtLeastRank(score, Init(s), v);
      AtLeastInsert(score, Rank(score, Init(s)), Last(s), v);
    }
  }

  lemma {:induction false} AtLeastConcat<T>(score: T -> real, a: seq<T>, b: seq<T>, v: real)
    ensures AtLeast(score, a + b, v) == AtLeast(score, a, v) + AtLeast(score, b, v)
    decreases |b|
  {
    if b == [] {
      assert a + b == a;
    } else {
      assert Init(a + b) == a + Init(b);
      AtLeastConcat(score, a, Init(b), v);
    }
  }

  lemma {:induction false} AtLeastAll<T>(score: T -> real, s: seq<T>, v: real)
    requires forall i :: 0 <= i < |s| ==> score(s[i]) >= v
    ensures AtLeast(score, s, v) == |s|
  {
    if s != [] { AtLeastAll(score, Init(s), v); }
  }

  lemma {:induction false} AtLeastBound<T>(score: T -> real, s: seq<T>, v: real, k: nat)
    requires Descending(score, s) && k < |s| && score(s[k]) < v
    ensures AtLeast(score, s, v) <= k
    decreases |s|
  {
    assert score(Last(s)) <= score(s[k]);
    if |s| == k + 1 {
      AtLeastSize(score, Init(s), v);
    } else {
      AtLeastBound(score, Init(s), v, k);
    }
  }

  lemma {:induction false} AtLeastSize<T>(score: T -> real, s: seq<T>, v: real)
    ensures AtLeast(score, s, v) <= |s|
  {
    if s != [] { AtLeastSize(score, Init(s), v); }
  }

  lemma InsertBehind<T>(score: T -> real, k: nat, r: seq<T>, x: T)
    requires Descending(score, r) && AtLeast(score, r, score(x)) >= k
    ensures Top(k, Insert(score, r, x)) == Top(k, r)
  {
    AtLeastSize(score, r, score(x));
    var p := InsertPosition(score, r, x);
    if p < |r| { AtLeastBound(score, r, score(x), p); }
    InsertAt(score, r, x, p);
    TopBehind(k, r, x, p);
  }

  lemma TopBehind<T>(k: nat, r: seq<T>, x: T, p: nat)
    requires k <= p <= |r|
    ensures Top(k, r[..p] + [x] + r[p..]) == Top(k, r)
  {
    assert (r[..p] + [x] + r[p..])[..k] == r[..k];
  }

  /** An entry with k others that do not score less is not among the best k. */
  lemma BestFull<T>(score: T -> real, k: nat, s: seq<T>, x: T)
    requires AtLeast(score, s, score(x)) >= k
    ensures Best(score, k, s + [x]) == Best(score, k, s)
  {
    RankIsRanking(score, s);
    AtLeastRank(score, s, score(x));
    assert Init(s + [x]) == s && Last(s + [x]) == x;
    InsertBehind(score, k, Rank(score, s), x);
  }

  /** Of a list in descending order only the first k can be among the best k. */
  lemma {:induction false} BestOfFirst<T>(score: T -> real, k: nat, a: seq<T>, list: seq<T>)
    requires Descending(score, list)
    ensures Best(score, k, a + list) == Best(score, k, a + Top(k, list))
    decreases |list|
  {
    if |list| > k {
      var init, x := Init(list), Last(list);
      BestOfFirst(score, k, a, init);
      TopInit(k, list);
      AtLeastAll(score, init, score(x));
      AtLeastConcat(score, a, init, score(x));
      BestFull(score, k, a + init, x);
      ConcatAssoc(a, init, [x]);
      InitLast(list);
    }
  }

  lemma TopInit<T>(k: nat, list: seq<T>)
    requires |list| > k
    ensures Top(k, Init(list)) == Top(k, list)
  {
  }
}
