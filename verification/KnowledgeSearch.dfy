/** Searching several knowledge collections and merging what they answer. */
module KnowledgeSearch {
  import opened Ranking
  import opened Sequences
  import opened Wrappers

  datatype Hit = Hit(id: string, content: string, score: real)

  function ScoreOf(h: Hit): real {
    h.score
  }

  /** The collections of the knowledge bases, each once, in the order of first mention. */
  function Collections(kbs: seq<string>): (r: seq<string>)
    ensures forall c :: c in r <==> c in kbs && c != ""
    ensures forall i, j :: 0 <= i < j < |r| ==> r[i] != r[j]
  {
    if kbs == [] then []
    else
      var before := Collections(Init(kbs));
      assert forall c :: c in kbs <==> c in Init(kbs) || c == Last(kbs) by { assert kbs == Init(kbs) + [Last(kbs)]; }
      if Last(kbs) == "" || Last(kbs) in before then before else before + [Last(kbs)]
  }

  /** c is mentioned before d is. */
  ghost predicate MentionedBefore(kbs: seq<string>, c: string, d: string) {
    exists i :: 0 <= i < |kbs| && kbs[i] == c && d !in kbs[..i + 1]
  }

  /** Collections stand in the order of their first mention. */
  lemma {:induction false} CollectionsOrder(kbs: seq<string>, i: nat, j: nat)
    requires i < j < |Collections(kbs)|
    ensures MentionedBefore(kbs, Collections(kbs)[i], Collections(kbs)[j])
  {
    var before, c := Collections(Init(kbs)), Collections(kbs)[i];
    assert i < |before| && c == before[i] && c in before && c in Init(kbs);
    if j < |before| {
      CollectionsOrder(Init(kbs), i, j);
      var k :| 0 <= k < |Init(kbs)| && Init(kbs)[k] == c && Collections(kbs)[j] !in Init(kbs)[..k + 1];
      assert Init(kbs)[..k + 1] == kbs[..k + 1];
    } else {
      var k :| 0 <= k < |Init(kbs)| && Init(kbs)[k] == c;
      assert Collections(kbs)[j] == Last(kbs) && Last(kbs) !in Init(kbs);
      assert forall x :: x in kbs[..k + 1] ==> x in Init(kbs);
    }
  }

  /** What the collections answer, in their order; one that fails is left out. */
  function Answers(ask: string -> Option<seq<Hit>>, collections: seq<string>): seq<Hit> {
    if collections == [] then []
    else Answers(ask, Init(collections)) + (if ask(Last(collections)).Some? then ask(Last(collections)).value else [])
  }

  lemma AnswersSnoc(ask: string -> Option<seq<Hit>>, collections: seq<string>, c: string)
    ensures Answers(ask, collections + [c]) == Answers(ask, collections) + (if ask(c).Some? then ask(c).value else [])
  {
    assert Init(collections + [c]) == collections && Last(collections + [c]) == c;
  }

  /** search, given the collections of the workspace's knowledge bases. */
  method Search(ask: string -> Option<seq<Hit>>, kbs: seq<string>, maxResults: nat) returns (merged: seq<Hit>)
    ensures merged == Best(ScoreOf, maxResults, Answers(ask, Collections(kbs)))
  {
    var seen: set<string> := {};
    merged := [];
    for i := 0 to |kbs|
      invariant forall c :: c in seen <==> c in Collections(kbs[..i])
      invariant merged == Answers(ask, Collections(kbs[..i]))
    {
      var collection := kbs[i];
      assert Init(kbs[..i + 1]) == kbs[..i];
      if collection == "" || collection in seen {
        continue;
      }
      seen := seen + {collection};
      AnswersSnoc(ask, Collections(kbs[..i]), collection);
      var res := ask(collection);
      if res.None? {
        assert merged + [] == merged;
        continue;
      }
      merged := merged + res.value;
    }
    assert kbs[..|kbs|] == kbs;
    merged := SortStable(merged);
    if |merged| > maxResults {
      merged := merged[..maxResults];
    }
  }

  /** sort.SliceStable by descending score: there is only one result it can have. */
  method SortStable(hits: seq<Hit>) returns (sorted: seq<Hit>)
    ensures IsRanking(ScoreOf, hits, sorted) && sorted == Rank(ScoreOf, hits)
  {
    sorted := Rank(ScoreOf, hits);
    RankIsRanking(ScoreOf, hits);
  }

  /** What a collection would answer without a limit, best first. */
  ghost predicate FirstOf(ask: string -> Option<seq<Hit>>, all: string -> seq<Hit>, k: nat) {
    forall c :: ask(c).Some? ==> Descending(ScoreOf, all(c)) && ask(c).value == Top(k, all(c))
  }

  function Everything(ask: string -> Option<seq<Hit>>, all: string -> seq<Hit>, collections: seq<string>): seq<Hit> {
    if collections == [] then []
    else Everything(ask, all, Init(collections)) + (if ask(Last(collections)).Some? then all(Last(collections)) else [])
  }

  /** If each collection answers with its own best k in order, merging the answers gives the
      best k of everything in all collections that answered. */
  lemma {:induction false} MergeIsBest(ask: string -> Option<seq<Hit>>, all: string -> seq<Hit>, k: nat, collections: seq<string>)
    requires FirstOf(ask, all, k)
    ensures Best(ScoreOf, k, Answers(ask, collections)) == Best(ScoreOf, k, Everything(ask, all, collections))
  {
    if collections != [] {
      var init, c := Init(collections), Last(collections);
      var some, full := Answers(ask, init), Everything(ask, all, init);
      MergeIsBest(ask, all, k, init);
      if ask(c).Some? {
        BestConcat(ScoreOf, k, some, full, ask(c).value);
        BestOfFirst(ScoreOf, k, full, all(c));
      } else {
        assert some + [] == some && full + [] == full;
      }
    }
  }
}
