/** What a search in the skill index answers, told by the positions of the skills in the corpus. */
module SearchResults {
  import opened Ranking
  import opened Sequences
  import opened SkillIndex

  // ---- ranking by position ----

  function Map<A, B>(f: A -> B, s: seq<A>): (r: seq<B>)
    ensures |r| == |s|
  {
    seq(|s|, i requires 0 <= i < |s| => f(s[i]))
  }

  lemma MapSnoc<A, B>(f: A -> B, s: seq<A>, x: A)
    ensures Map(f, s + [x]) == Map(f, s) + [f(x)]
  {
  }

  lemma MapInit<A, B>(f: A -> B, s: seq<A>)
    requires s != []
    ensures Map(f, s) == Map(f, Init(s)) + [f(Last(s))] && Init(Map(f, s)) == Map(f, Init(s)) && Last(Map(f, s)) == f(Last(s))
  {
  }

  /** Ranking the images is ranking and then taking the images. */
  lemma {:induction false} InsertMap<A, B>(f: A -> B, score: A -> real, of: B -> real, s: seq<A>, x: A)
    requires forall a :: score(a) == of(f(a))
    ensures Insert(of, Map(f, s), f(x)) == Map(f, Insert(score, s, x))
  {
    if s != [] {
      MapInit(f, s);
      if score(Last(s)) < score(x) {
        InsertMap(f, score, of, Init(s), x);
        MapSnoc(f, Insert(score, Init(s), x), Last(s));
      } else {
        MapSnoc(f, s, x);
      }
    } else {
      assert Map(f, []) == [] && Map(f, [x]) == [f(x)] && [] + [x] == [x];
    }
  }

  lemma {:induction false} RankMap<A, B>(f: A -> B, score: A -> real, of: B -> real, s: seq<A>)
    requires forall a :: score(a) == of(f(a))
    ensures Rank(of, Map(f, s)) == Map(f, Rank(score, s))
  {
    if s != [] {
      MapInit(f, s);
      RankMap(f, score, of, Init(s));
      InsertMap(f, score, of, Rank(score, Init(s)), Last(s));
    }
  }

  predicate Ascending(s: seq<nat>) {
    forall i, j :: 0 <= i < j < |s| ==> s[i] < s[j]
  }

  /** The higher score first, and of equal ones the earlier position. */
  predicate InOrder(score: nat -> real, s: seq<nat>) {
    forall i, j :: 0 <= i < j < |s| ==> score(s[i]) > score(s[j]) || (score(s[i]) == score(s[j]) && s[i] < s[j])
  }

  lemma InsertInOrder(score: nat -> real, s: seq<nat>, x: nat)
    requires InOrder(score, s) && forall y :: y in s ==> y < x
    ensures InOrder(score, Insert(score, s, x)) && forall y :: y in Insert(score, s, x) <==> y in s || y == x
  {
    var p := InsertPosition(score, s, x);
    InsertAt(score, s, x, p);
    PutInOrder(score, s, x, p);
    PutMembers(s, x, p);
  }

  lemma PutInOrder(score: nat -> real, s: seq<nat>, x: nat, p: nat)
    requires InOrder(score, s) && p <= |s| && forall y :: y in s ==> y < x
    requires (forall i :: 0 <= i < p ==> score(s[i]) >= score(x)) && (forall i :: p <= i < |s| ==> score(s[i]) < score(x))
    ensures InOrder(score, s[..p] + [x] + s[p..])
  {
    var r := s[..p] + [x] + s[p..];
    forall i, j | 0 <= i < j < |r| ensures score(r[i]) > score(r[j]) || (score(r[i]) == score(r[j]) && r[i] < r[j]) {
      assert r[i] == (if i < p then s[i] else if i == p then x else s[i - 1]);
      assert r[j] == (if j < p then s[j] else if j == p then x else s[j - 1]);
      if i < p { assert s[i] in s; }
    }
  }

  lemma PutMembers(s: seq<nat>, x: nat, p: nat)
    requires p <= |s|
    ensures forall y :: y in s[..p] + [x] + s[p..] <==> y in s || y == x
  {
    assert s == s[..p] + s[p..];
  }

  lemma {:induction false} RankInOrder(score: nat -> real, s: seq<nat>)
    requires Ascending(s)
    ensures InOrder(score, Rank(score, s)) && forall y :: y in Rank(score, s) <==> y in s
  {
    if s != [] {
      RankInOrder(score, Init(s));
      InitLast(s);
      assert forall y :: y in Init(s) ==> y < Last(s);
      InsertInOrder(score, Rank(score, Init(s)), Last(s));
    }
  }

  // ---- the matches ----

  ghost function Scoring(log: real -> real, docs: seq<Doc>, avg: real, query: seq<string>): nat -> Scored
    requires forall i :: 0 <= i < |docs| && docs[i].tokens != [] ==> avg > 0.0
  {
    (i: nat) => if i < |docs| then Scored(docs[i], Score(log, docs, avg, docs[i], query)) else Scored(Doc(Skill("", ""), []), 0.0)
  }

  /** The positions of the documents among the first n that share a token with the query. */
  ghost predicate Sharing(docs: seq<Doc>, query: seq<string>, n: nat, at: seq<nat>) {
    Ascending(at) && forall i: nat :: i in at <==> i < n && i < |docs| && Shares(docs[i], query)
  }

  lemma MatchesNext(log: real -> real, docs: seq<Doc>, avg: real, query: seq<string>, n: nat)
    requires n < |docs| && (forall i :: 0 <= i < |docs| && docs[i].tokens != [] ==> avg > 0.0) && PositiveAboveOne(log)
    ensures var before, next := Matches(log, docs, avg, query, n), Matches(log, docs, avg, query, n + 1);
      next == if Shares(docs[n], query) then before + [Scoring(log, docs, avg, query)(n)] else before
  {
    ScorePositive(log, docs, avg, docs[n], query);
    assert Matches(log, docs, avg, query, n) + [] == Matches(log, docs, avg, query, n);
  }

  /** made(n) are the images of those below n that are chosen, in order. */
  ghost predicate Chooses<B>(made: nat -> seq<B>, chosen: nat -> bool, f: nat -> B, size: nat) {
    made(0) == [] && forall n: nat :: n < size ==> made(n + 1) == if chosen(n) then made(n) + [f(n)] else made(n)
  }

  ghost predicate Chosen(chosen: nat -> bool, n: nat, at: seq<nat>) {
    Ascending(at) && forall i: nat :: i in at <==> i < n && chosen(i)
  }

  lemma ChosenNext(chosen: nat -> bool, n: nat, at: seq<nat>)
    requires Chosen(chosen, n, at)
    ensures Chosen(chosen, n + 1, if chosen(n) then at + [n] else at)
  {
    assert forall i :: 0 <= i < |at| ==> at[i] in at;
  }

  lemma {:induction false} ChoosesAt<B>(made: nat -> seq<B>, chosen: nat -> bool, f: nat -> B, size: nat, n: nat) returns (at: seq<nat>)
    requires Chooses(made, chosen, f, size) && n <= size
    ensures Chosen(chosen, n, at) && made(n) == Map<nat, B>(f, at)
  {
    at := [];
    if n > 0 {
      at := ChoosesAt(made, chosen, f, size, n - 1);
      ChosenNext(chosen, n - 1, at);
      if chosen(n - 1) {
        MapSnoc<nat, B>(f, at, n - 1);
        at := at + [n - 1];
      }
    }
  }

  ghost function Matching(log: real -> real, docs: seq<Doc>, avg: real, query: seq<string>): nat -> seq<Scored>
    requires forall i :: 0 <= i < |docs| && docs[i].tokens != [] ==> avg > 0.0
  {
    (n: nat) => if n <= |docs| then Matches(log, docs, avg, query, n) else []
  }

  lemma MatchesAt(log: real -> real, docs: seq<Doc>, avg: real, query: seq<string>) returns (at: seq<nat>)
    requires (forall i :: 0 <= i < |docs| && docs[i].tokens != [] ==> avg > 0.0) && PositiveAboveOne(log)
    ensures Sharing(docs, query, |docs|, at)
    ensures Matches(log, docs, avg, query, |docs|) == Map<nat, Scored>(Scoring(log, docs, avg, query), at)
  {
    var made: nat -> seq<Scored>, f: nat -> Scored := Matching(log, docs, avg, query), Scoring(log, docs, avg, query);
    var chosen: nat -> bool := (i: nat) => i < |docs| && Shares(docs[i], query);
    forall n: nat | n < |docs| ensures made(n + 1) == if chosen(n) then made(n) + [f(n)] else made(n) {
      MatchesNext(log, docs, avg, query, n);
    }
    at := ChoosesAt(made, chosen, f, |docs|, |docs|);
  }

  // ---- the results ----

  /** The results are the skills at these positions, with their scores; best first, equal scores
      in corpus order; all share a token with the query; there are at most so many, and none that
      is left out belongs before one of them. */
  ghost predicate Answers(log: real -> real, docs: seq<Doc>, avg: real, query: seq<string>, limit: nat, at: seq<nat>, results: seq<SearchResult>)
    requires forall i :: 0 <= i < |docs| && docs[i].tokens != [] ==> avg > 0.0
  {
    && |at| == |results| <= limit
    && (forall j :: 0 <= j < |at| ==>
          && at[j] < |docs| && Shares(docs[at[j]], query)
          && results[j] == SearchResult(docs[at[j]].skill.name, docs[at[j]].skill.description, Score(log, docs, avg, docs[at[j]], query)))
    && (forall i, j :: 0 <= i < j < |at| ==>
          results[i].score > results[j].score || (results[i].score == results[j].score && at[i] < at[j]))
    && (forall k: nat :: k < |docs| && Shares(docs[k], query) && k !in at ==>
          && |at| == limit
          && forall j :: 0 <= j < |at| ==>
               var score := Score(log, docs, avg, docs[k], query);
               results[j].score > score || (results[j].score == score && at[j] < k))
  }

  lemma TopMap<A, B>(f: A -> B, k: nat, s: seq<A>)
    ensures Top(k, Map(f, s)) == Map(f, Top(k, s))
  {
  }

  /** What Search answers. */
  lemma SearchTold(log: real -> real, docs: seq<Doc>, avg: real, query: seq<string>, maxResults: int) returns (at: seq<nat>)
    requires (forall i :: 0 <= i < |docs| && docs[i].tokens != [] ==> avg > 0.0) && PositiveAboveOne(log)
    ensures Answers(log, docs, avg, query, if maxResults <= 0 then 5 else maxResults, at,
                    Results(Best(ScoreOf, MaxOr(maxResults), Matches(log, docs, avg, query, |docs|))))
  {
    var f: nat -> Scored := Scoring(log, docs, avg, query);
    var score: nat -> real := (i: nat) => f(i).score;
    var all := MatchesAt(log, docs, avg, query);
    var limit := if maxResults <= 0 then 5 else maxResults;
    RankMap(f, score, ScoreOf, all);
    RankInOrder(score, all);
    at := Top(limit, Rank(score, all));
    TopMap(f, limit, Rank(score, all));
    TopAnswers(log, docs, avg, query, limit, f, score, all, Rank(score, all), at, Results(Map(f, at)));
  }

  lemma NotAmong(s: seq<nat>, n: nat, m: nat)
    requires n <= |s| && m < |s| && s[m] !in s[..n]
    ensures m >= n
  {
    assert forall i :: 0 <= i < n ==> s[i] == s[..n][i];
  }

  lemma TopAnswers(log: real -> real, docs: seq<Doc>, avg: real, query: seq<string>, limit: nat, f: nat -> Scored, score: nat -> real,
      all: seq<nat>, ranked: seq<nat>, at: seq<nat>, results: seq<SearchResult>)
    requires forall i :: 0 <= i < |docs| && docs[i].tokens != [] ==> avg > 0.0
    requires f == Scoring(log, docs, avg, query) && (forall i: nat :: score(i) == f(i).score)
    requires Sharing(docs, query, |docs|, all) && InOrder(score, ranked) && (forall y :: y in ranked <==> y in all)
    requires at == Top(limit, ranked) && results == Results(Map(f, at))
    ensures Answers(log, docs, avg, query, limit, at, results)
  {
    assert at == ranked[..|at|];
    forall j | 0 <= j < |at| ensures at[j] in all {
      assert at[j] == ranked[j];
    }
    forall k: nat | k < |docs| && Shares(docs[k], query) && k !in at
      ensures |at| == limit && forall j :: 0 <= j < |at| ==> score(at[j]) > score(k) || (score(at[j]) == score(k) && at[j] < k)
    {
      assert k in all && k in ranked;
      var m :| 0 <= m < |ranked| && ranked[m] == k;
      NotAmong(ranked, |at|, m);
    }
  }
}
