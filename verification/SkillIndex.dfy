/** The BM25 index over skill descriptions. Scores are real numbers; the tokenizer and the
    logarithm are parameters, of the latter only its sign above one is used. */
module SkillIndex {
  import opened Ranking
  import opened Sequences

  datatype Skill = Skill(name: string, description: string)

  datatype Doc = Doc(skill: Skill, tokens: seq<string>)

  datatype Scored = Scored(doc: Doc, score: real)

  datatype SearchResult = SearchResult(name: string, description: string, score: real)

  type Tokenizer = string -> seq<string>

  const K1: real := 1.2
  const B: real := 0.75

  // ---- the index ----

  function DocOf(tokenize: Tokenizer, s: Skill): Doc {
    Doc(s, tokenize(s.name + " " + s.description))
  }

  function DocsOf(tokenize: Tokenizer, skills: seq<Skill>): seq<Doc> {
    if skills == [] then [] else DocsOf(tokenize, Init(skills)) + [DocOf(tokenize, Last(skills))]
  }

  /** Number of documents that contain t. */
  function Containing(docs: seq<Doc>, t: string): (n: nat)
    ensures n <= |docs|
  {
    if docs == [] then 0 else Containing(Init(docs), t) + (if t in Last(docs).tokens then 1 else 0)
  }

  function TotalTokens(docs: seq<Doc>): nat {
    if docs == [] then 0 else TotalTokens(Init(docs)) + |Last(docs).tokens|
  }

  function Average(docs: seq<Doc>): real
    requires docs != []
  {
    TotalTokens(docs) as real / |docs| as real
  }

  /** Number of times t occurs. */
  function Frequency(tokens: seq<string>, t: string): nat {
    if tokens == [] then 0 else Frequency(Init(tokens), t) + (if Last(tokens) == t then 1 else 0)
  }

  /** A missing key counts as zero. */
  function Get(m: map<string, nat>, t: string): nat {
    if t in m then m[t] else 0
  }

  lemma {:induction false} FrequencyPositive(tokens: seq<string>, t: string)
    ensures Frequency(tokens, t) > 0 <==> t in tokens
  {
    if tokens != [] {
      FrequencyPositive(Init(tokens), t);
      assert tokens == Init(tokens) + [Last(tokens)];
    }
  }

  // ---- scores ----

  function Idf(log: real -> real, docs: seq<Doc>, t: string): real {
    var n, df := |docs| as real, Containing(docs, t) as real;
    log((n - df + 0.5) / (df + 0.5) + 1.0)
  }

  /** What one query token adds. */
  function Term(log: real -> real, docs: seq<Doc>, avg: real, doc: Doc, t: string): real
    requires doc.tokens != [] ==> avg > 0.0
  {
    var tf := Frequency(doc.tokens, t);
    if tf == 0 || doc.tokens == [] then 0.0
    else Weigh(Idf(log, docs, t), tf as real, |doc.tokens| as real, avg)
  }

  function Weigh(idf: real, tf: real, dl: real, avg: real): real
    requires tf > 0.0 && dl >= 0.0 && avg > 0.0
  {
    DenominatorPositive(tf, dl, avg);
    idf * (tf * (K1 + 1.0)) / (tf + K1 * (1.0 - B + B * dl / avg))
  }

  lemma QuotientNotNegative(a: real, b: real)
    requires a >= 0.0 && b > 0.0
    ensures a / b >= 0.0 && (a > 0.0 ==> a / b > 0.0)
  {
  }

  lemma ProductPositive(a: real, b: real)
    requires a > 0.0 && b > 0.0
    ensures a * b > 0.0
  {
  }

  lemma DenominatorPositive(tf: real, dl: real, avg: real)
    requires tf > 0.0 && dl >= 0.0 && avg > 0.0
    ensures tf + K1 * (1.0 - B + B * dl / avg) > 0.0
  {
    QuotientNotNegative(B * dl, avg);
  }

  ghost predicate PositiveAboveOne(log: real -> real) {
    forall x :: x > 1.0 ==> log(x) > 0.0
  }

  lemma WeighPositive(idf: real, tf: real, dl: real, avg: real)
    requires idf > 0.0 && tf > 0.0 && dl >= 0.0 && avg > 0.0
    ensures Weigh(idf, tf, dl, avg) > 0.0
  {
    DenominatorPositive(tf, dl, avg);
    ProductPositive(tf, K1 + 1.0);
    ProductPositive(idf, tf * (K1 + 1.0));
    QuotientNotNegative(idf * (tf * (K1 + 1.0)), tf + K1 * (1.0 - B + B * dl / avg));
  }

  lemma IdfPositive(log: real -> real, docs: seq<Doc>, t: string)
    requires PositiveAboveOne(log)
    ensures Idf(log, docs, t) > 0.0
  {
    var n, df := |docs| as real, Containing(docs, t) as real;
    QuotientNotNegative(n - df + 0.5, df + 0.5);
  }

  function Score(log: real -> real, docs: seq<Doc>, avg: real, doc: Doc, query: seq<string>): real
    requires doc.tokens != [] ==> avg > 0.0
  {
    if query == [] then 0.0 else Score(log, docs, avg, doc, Init(query)) + Term(log, docs, avg, doc, Last(query))
  }

  predicate Shares(doc: Doc, query: seq<string>) {
    exists t :: t in query && t in doc.tokens
  }

  lemma TermSign(log: real -> real, docs: seq<Doc>, avg: real, doc: Doc, t: string)
    requires (doc.tokens != [] ==> avg > 0.0) && PositiveAboveOne(log)
    ensures Term(log, docs, avg, doc, t) >= 0.0 && (Term(log, docs, avg, doc, t) > 0.0 <==> t in doc.tokens)
  {
    FrequencyPositive(doc.tokens, t);
    if t in doc.tokens {
      IdfPositive(log, docs, t);
      WeighPositive(Idf(log, docs, t), Frequency(doc.tokens, t) as real, |doc.tokens| as real, avg);
    }
  }

  /** A document scores above zero exactly when it shares a token with the query. */
  lemma {:induction false} ScorePositive(log: real -> real, docs: seq<Doc>, avg: real, doc: Doc, query: seq<string>)
    requires (doc.tokens != [] ==> avg > 0.0) && PositiveAboveOne(log)
    ensures Score(log, docs, avg, doc, query) >= 0.0
    ensures Score(log, docs, avg, doc, query) > 0.0 <==> Shares(doc, query)
  {
    if query != [] {
      ScorePositive(log, docs, avg, doc, Init(query));
      TermSign(log, docs, avg, doc, Last(query));
      assert query == Init(query) + [Last(query)];
    }
  }

  lemma {:induction false} TokensCounted(docs: seq<Doc>, doc: Doc)
    requires doc in docs
    ensures |doc.tokens| <= TotalTokens(docs)
  {
    assert docs == Init(docs) + [Last(docs)];
    if doc != Last(docs) { TokensCounted(Init(docs), doc); }
  }

  lemma AveragePositive(docs: seq<Doc>, doc: Doc)
    requires doc in docs && doc.tokens != []
    ensures Average(docs) > 0.0
  {
    TokensCounted(docs, doc);
    QuotientNotNegative(TotalTokens(docs) as real, |docs| as real);
  }

  // ---- searching ----

  function ScoreOf(s: Scored): real {
    s.score
  }

  ghost predicate Averaged(docs: seq<Doc>, avg: real) {
    forall doc :: doc in docs && doc.tokens != [] ==> avg > 0.0
  }

  /** The documents among the first n that score above zero, in corpus order. */
  function Matches(log: real -> real, docs: seq<Doc>, avg: real, query: seq<string>, n: nat): seq<Scored>
    requires n <= |docs| && forall i :: 0 <= i < |docs| && docs[i].tokens != [] ==> avg > 0.0
  {
    if n == 0 then []
    else
      var score := Score(log, docs, avg, docs[n - 1], query);
      Matches(log, docs, avg, query, n - 1) + (if score > 0.0 then [Scored(docs[n - 1], score)] else [])
  }

  function Results(s: seq<Scored>): seq<SearchResult> {
    seq(|s|, i requires 0 <= i < |s| => SearchResult(s[i].doc.skill.name, s[i].doc.skill.description, s[i].score))
  }

  function MaxOr(maxResults: int): nat {
    if maxResults <= 0 then 5 else maxResults
  }

  /** One round of the insertion sort: entry i moves down to its place p. */
  method MoveDown(a: array<Scored>, i: nat, ghost sorted: seq<Scored>, ghost key: Scored) returns (ghost p: nat)
    requires i < a.Length && sorted == a[..i] && key == a[i]
    requires forall m, k :: 0 <= m < k < i ==> sorted[m].score >= sorted[k].score
    modifies a
    ensures p <= i && a[p] == key
    ensures (forall k :: 0 <= k < p ==> a[k] == sorted[k]) && (forall k :: p < k <= i ==> a[k] == sorted[k - 1])
    ensures forall k :: i < k < a.Length ==> a[k] == old(a[k])
    ensures (p > 0 ==> sorted[p - 1].score >= key.score) && (forall k :: p <= k < i ==> sorted[k].score < key.score)
  {
    var moved := a[i];
    var j := i - 1;
    while j >= 0 && a[j].score < moved.score
      invariant -1 <= j < i
      invariant forall k :: 0 <= k <= j ==> a[k] == sorted[k]
      invariant forall k :: j + 1 < k <= i ==> a[k] == sorted[k - 1]
      invariant forall k :: i < k < a.Length ==> a[k] == old(a[k])
      invariant forall k :: j < k < i ==> sorted[k].score < moved.score
    {
      a[j + 1] := a[j];
      j := j - 1;
    }
    a[j + 1] := moved;
    p := j + 1;
  }

  lemma Assembled(r: seq<Scored>, sorted: seq<Scored>, key: Scored, p: nat)
    requires p <= |sorted| && |r| == |sorted| + 1 && r[p] == key
    requires forall k :: 0 <= k < p ==> r[k] == sorted[k]
    requires forall k :: p < k < |r| ==> r[k] == sorted[k - 1]
    ensures r == sorted[..p] + [key] + sorted[p..]
  {
  }

  /** The insertion sort over the results, in place. */
  method InsertionSort(a: array<Scored>)
    modifies a
    ensures a[..] == Rank(ScoreOf, old(a[..]))
  {
    ghost var s := a[..];
    if a.Length == 0 { return; }
    RankOne(s);
    for i := 1 to a.Length
      invariant a[..i] == Rank(ScoreOf, s[..i])
      invariant forall k :: i <= k < a.Length ==> a[k] == s[k]
    {
      ghost var sorted := a[..i];
      RankDescends(s[..i]);
      ghost var p := MoveDown(a, i, sorted, a[i]);
      InsertAt(ScoreOf, sorted, s[i], p);
      Assembled(a[..i + 1], sorted, s[i], p);
      assert Init(s[..i + 1]) == s[..i] && Last(s[..i + 1]) == s[i];
    }
    assert a[..] == a[..a.Length] && s[..a.Length] == s;
  }

  lemma RankDescends(s: seq<Scored>)
    ensures var r := Rank(ScoreOf, s); forall m, k :: 0 <= m < k < |r| ==> r[m].score >= r[k].score
  {
    RankIsRanking(ScoreOf, s);
    assert forall m, k :: 0 <= m < k < |s| ==> ScoreOf(Rank(ScoreOf, s)[m]) >= ScoreOf(Rank(ScoreOf, s)[k]);
  }

  lemma RankOne(s: seq<Scored>)
    requires s != []
    ensures Rank(ScoreOf, s[..1]) == s[..1]
  {
    assert s[..1] == [s[0]] && Init([s[0]]) == [];
  }

  class Index {
    const tokenize: Tokenizer
    const log: real -> real
    var docs: seq<Doc>
    var df: map<string, nat>
    var avgDL: real

    constructor (tokenize: Tokenizer, log: real -> real)
      ensures Valid() && docs == [] && this.tokenize == tokenize && this.log == log
    {
      this.tokenize, this.log := tokenize, log;
      docs, df, avgDL := [], map[], 0.0;
    }

    /** The table counts the documents of each token, and the average is that of the lengths. */
    ghost predicate Valid()
      reads this
    {
      (forall t :: Get(df, t) == Containing(docs, t)) && (docs != [] ==> avgDL == Average(docs))
    }

    method Build(skills: seq<Skill>)
      modifies this
      ensures Valid() && docs == DocsOf(tokenize, skills)
    {
      docs := [];
      df := map[];
      var totalTokens := 0;
      for i := 0 to |skills|
        invariant docs == DocsOf(tokenize, skills[..i]) && totalTokens == TotalTokens(docs)
        invariant forall t :: Get(df, t) == Containing(docs, t)
      {
        var doc := DocOf(tokenize, skills[i]);
        assert Init(skills[..i + 1]) == skills[..i];
        assert Init(docs + [doc]) == docs && Last(docs + [doc]) == doc;
        docs := docs + [doc];
        df := CountDocument(df, doc.tokens);
        totalTokens := totalTokens + |doc.tokens|;
      }
      assert skills[..|skills|] == skills;
      if |docs| > 0 {
        avgDL := totalTokens as real / |docs| as real;
      }
    }

    /** The best matches, best first, equal scores in corpus order. */
    method Search(query: string, maxResults: int) returns (results: seq<SearchResult>)
      requires Valid()
      ensures Averaged(docs, avgDL)
      ensures results == Results(Best(ScoreOf, MaxOr(maxResults), Matches(log, docs, avgDL, tokenize(query), |docs|)))
    {
      forall doc | doc in docs && doc.tokens != [] ensures avgDL > 0.0 {
        AveragePositive(docs, doc);
      }
      var queryTokens := tokenize(query);
      if |queryTokens| == 0 {
        NoQuery(log, docs, avgDL, |docs|);
        return [];
      }
      if |docs| == 0 {
        return [];
      }
      var found := [];
      for i := 0 to |docs|
        invariant found == Matches(log, docs, avgDL, queryTokens, i)
      {
        var score := ScoreDocument(docs[i], queryTokens);
        if score > 0.0 {
          found := found + [Scored(docs[i], score)];
        }
      }
      var a := new Scored[|found|](i requires 0 <= i < |found| => found[i]);
      assert a[..] == found;
      InsertionSort(a);
      var ranked := a[..];
      if |ranked| > MaxOr(maxResults) {
        ranked := ranked[..MaxOr(maxResults)];
      }
      results := Results(ranked);
    }

    method ScoreDocument(doc: Doc, queryTokens: seq<string>) returns (score: real)
      requires Valid() && doc in docs && (doc.tokens != [] ==> avgDL > 0.0)
      ensures score == Score(log, docs, avgDL, doc, queryTokens)
    {
      score := 0.0;
      var dl := |doc.tokens| as real;
      var tf := CountTerms(doc.tokens);
      for i := 0 to |queryTokens|
        invariant score == Score(log, docs, avgDL, doc, queryTokens[..i])
      {
        var qt := queryTokens[i];
        assert Init(queryTokens[..i + 1]) == queryTokens[..i];
        var termFreq := Get(tf, qt);
        if termFreq == 0 {
          continue;
        }
        var n, dfTerm := |docs| as real, Get(df, qt) as real;
        var idf := log((n - dfTerm + 0.5) / (dfTerm + 0.5) + 1.0);
        score := score + Weigh(idf, termFreq as real, dl, avgDL);
      }
      assert queryTokens[..|queryTokens|] == queryTokens;
    }
  }

  lemma {:induction false} NoQuery(log: real -> real, docs: seq<Doc>, avg: real, n: nat)
    requires n <= |docs| && forall i :: 0 <= i < |docs| && docs[i].tokens != [] ==> avg > 0.0
    ensures Matches(log, docs, avg, [], n) == []
  {
    if n > 0 { NoQuery(log, docs, avg, n - 1); }
  }

  method CountTerms(tokens: seq<string>) returns (tf: map<string, nat>)
    ensures forall t :: Get(tf, t) == Frequency(tokens, t)
  {
    tf := map[];
    for i := 0 to |tokens|
      invariant forall t :: Get(tf, t) == Frequency(tokens[..i], t)
    {
      assert Init(tokens[..i + 1]) == tokens[..i];
      tf := tf[tokens[i] := Get(tf, tokens[i]) + 1];
    }
    assert tokens[..|tokens|] == tokens;
  }

  /** Every token of a document is counted once. */
  method CountDocument(before: map<string, nat>, tokens: seq<string>) returns (df: map<string, nat>)
    ensures forall t :: Get(df, t) == Get(before, t) + (if t in tokens then 1 else 0)
  {
    df := before;
    var seen: set<string> := {};
    for i := 0 to |tokens|
      invariant forall t :: t in seen <==> t in tokens[..i]
      invariant forall t :: Get(df, t) == Get(before, t) + (if t in seen then 1 else 0)
    {
      assert tokens[..i + 1] == tokens[..i] + [tokens[i]];
      if tokens[i] !in seen {
        df := df[tokens[i] := Get(df, tokens[i]) + 1];
        seen := seen + {tokens[i]};
      }
    }
    assert tokens[..|tokens|] == tokens;
  }

  // ---- what a search finds ----

  /** Every match shares a token with the query, and every document that does is a match. */
  lemma {:induction false} MatchesShare(log: real -> real, docs: seq<Doc>, avg: real, query: seq<string>, n: nat, doc: Doc)
    requires n <= |docs| && (forall i :: 0 <= i < |docs| && docs[i].tokens != [] ==> avg > 0.0) && PositiveAboveOne(log)
    ensures (exists m :: m in Matches(log, docs, avg, query, n) && m.doc == doc) <==> doc in docs[..n] && Shares(doc, query)
  {
    if n > 0 {
      MatchesShare(log, docs, avg, query, n - 1, doc);
      ScorePositive(log, docs, avg, docs[n - 1], query);
      var before, score := Matches(log, docs, avg, query, n - 1), Score(log, docs, avg, docs[n - 1], query);
      assert docs[..n] == docs[..n - 1] + [docs[n - 1]];
      if score > 0.0 {
        var all := before + [Scored(docs[n - 1], score)];
        assert forall m :: m in all <==> m in before || m == Scored(docs[n - 1], score);
      }
    }
  }

  /** Nothing that is left out scores more than a result. */
  lemma SearchIsBest(matches: seq<Scored>, k: nat)
    ensures var best, r := Best(ScoreOf, k, matches), Rank(ScoreOf, matches);
            && IsRanking(ScoreOf, matches, r) && r == best + r[|best|..]
            && |best| == (if |matches| > k then k else |matches|)
            && forall i, j :: 0 <= i < |best| <= j < |r| ==> best[i].score >= r[j].score
  {
    BestIsBest(ScoreOf, k, matches);
    RankIsRanking(ScoreOf, matches);
  }
}
