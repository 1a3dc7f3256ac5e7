/** What a BM25 score depends on: how rare the query's tokens are, how often they occur, and
    how long the document is. */
module Bm25 {
  import opened Sequences
  import opened SkillIndex

  // ---- the counts ----

  lemma {:induction false} FrequencyCounts(tokens: seq<string>, t: string)
    ensures Frequency(tokens, t) == multiset(tokens)[t]
  {
    if tokens != [] {
      FrequencyCounts(Init(tokens), t);
      InitLast(tokens);
    }
  }

  function Holders(docs: seq<Doc>, t: string): set<nat> {
    set i: nat | i < |docs| && t in docs[i].tokens
  }

  lemma {:induction false} ContainingCounts(docs: seq<Doc>, t: string)
    ensures Containing(docs, t) == |Holders(docs, t)|
  {
    if docs == [] {
      assert Holders(docs, t) == {};
    } else {
      var init, n := Init(docs), |docs| - 1;
      ContainingCounts(init, t);
      assert Holders(docs, t) == if t in docs[n].tokens then Holders(init, t) + {n} else Holders(init, t);
    }
  }

  /** Every skill is indexed by the tokens of its name and description. */
  lemma {:induction false} DocsAre(tokenize: Tokenizer, skills: seq<Skill>)
    ensures |DocsOf(tokenize, skills)| == |skills|
    ensures forall i :: 0 <= i < |skills| ==>
              DocsOf(tokenize, skills)[i] == Doc(skills[i], tokenize(skills[i].name + " " + skills[i].description))
  {
    if skills != [] { DocsAre(tokenize, Init(skills)); }
  }

  // ---- arithmetic ----

  lemma Quotient(a: real, b: real, q: real)
    requires b != 0.0 && q * b == a
    ensures a / b == q
  {
  }

  lemma LessTimes(x: real, y: real, c: real)
    requires x < y && c > 0.0
    ensures x * c < y * c
  {
  }

  /** Fractions compare as their cross products. */
  lemma LessQuotient(a: real, b: real, c: real, d: real)
    requires b > 0.0 && d > 0.0 && a * d < c * b
    ensures a / b < c / d
  {
    var x, y := a / b, c / d;
    assert x * b == a && y * d == c;
    if x >= y {
      Cross(x, y, b, d);
    }
  }

  lemma Cross(x: real, y: real, b: real, d: real)
    requires x >= y && b > 0.0 && d > 0.0
    ensures (x * b) * d >= (y * d) * b
  {
    assert (x * b) * d - (y * d) * b == (x - y) * (b * d);
    ProductPositive(b, d);
    NotNegative(x - y, b * d);
  }

  lemma NotNegative(a: real, b: real)
    requires a >= 0.0 && b > 0.0
    ensures a * b >= 0.0
  {
  }

  // ---- one term ----

  /** The factor by which the length of the document counts. */
  function Norm(dl: real, avg: real): real
    requires avg > 0.0
  {
    1.2 * (0.25 + 0.75 * dl / avg)
  }

  lemma NormPositive(dl: real, avg: real)
    requires dl >= 0.0 && avg > 0.0
    ensures Norm(dl, avg) > 0.0
  {
    QuotientNotNegative(0.75 * dl, avg);
  }

  lemma NormGrows(dl: real, more: real, avg: real)
    requires 0.0 <= dl < more && avg > 0.0
    ensures Norm(dl, avg) < Norm(more, avg)
  {
    LessTimes(0.75 * dl, 0.75 * more, avg);
    LessQuotient(0.75 * dl, avg, 0.75 * more, avg);
  }

  /** The share of a token's weight that so many occurrences bring. */
  function Share(tf: real, norm: real): real
    requires tf + norm > 0.0
  {
    tf / (tf + norm)
  }

  /** A token weighs at most 2.2 times its rarity; how much of that depends on how often it
      occurs and on the length of the document. */
  lemma WeighIs(idf: real, tf: real, dl: real, avg: real)
    requires tf > 0.0 && dl >= 0.0 && avg > 0.0
    ensures tf + Norm(dl, avg) > 0.0 && Weigh(idf, tf, dl, avg) == (2.2 * idf) * Share(tf, Norm(dl, avg))
  {
    NormPositive(dl, avg);
    var n := Norm(dl, avg);
    Scaled(idf, tf, tf + n);
  }

  lemma Scaled(idf: real, tf: real, d: real)
    requires d > 0.0
    ensures idf * (tf * 2.2) / d == (2.2 * idf) * (tf / d)
  {
    var q := tf / d;
    assert q * d == tf;
    Regrouped(idf, q, d, tf);
    Quotient(idf * (tf * 2.2), d, (2.2 * idf) * q);
  }

  lemma Regrouped(idf: real, q: real, d: real, tf: real)
    requires q * d == tf
    ensures ((2.2 * idf) * q) * d == idf * (tf * 2.2)
  {
    Associates(2.2 * idf, q, d);
    Same(2.2 * idf, q * d, tf);
    Commutes(idf, tf);
  }

  lemma Associates(a: real, b: real, c: real)
    ensures (a * b) * c == a * (b * c)
  {
  }

  lemma Same(a: real, b: real, c: real)
    requires b == c
    ensures a * b == a * c
  {
  }

  lemma Commutes(a: real, b: real)
    ensures (2.2 * a) * b == a * (b * 2.2)
  {
  }

  lemma ShareGrows(tf: real, more: real, n: real)
    requires 0.0 < tf < more && n > 0.0
    ensures 0.0 < Share(tf, n) < Share(more, n) < 1.0
  {
    LessTimes(tf, more, n);
    LessQuotient(tf, tf + n, more, more + n);
    LessQuotient(more, more + n, 1.0, 1.0);
    QuotientPositive(tf, tf + n);
  }

  lemma ShareShrinks(tf: real, n: real, more: real)
    requires tf > 0.0 && 0.0 < n < more
    ensures Share(tf, more) < Share(tf, n)
  {
    LessTimes(tf + n, tf + more, tf);
    LessQuotient(tf, tf + more, tf, tf + n);
  }

  /** A weightier token weighs more. */
  lemma WeighMoreIdf(idf: real, more: real, tf: real, dl: real, avg: real)
    requires idf < more && tf > 0.0 && dl >= 0.0 && avg > 0.0
    ensures Weigh(idf, tf, dl, avg) < Weigh(more, tf, dl, avg)
  {
    WeighIs(idf, tf, dl, avg);
    WeighIs(more, tf, dl, avg);
    NormPositive(dl, avg);
    QuotientPositive(tf, tf + Norm(dl, avg));
    LessTimes(2.2 * idf, 2.2 * more, Share(tf, Norm(dl, avg)));
  }

  /** One that occurs more often weighs more, but always less than 2.2 times its rarity. */
  lemma WeighMoreOften(idf: real, tf: real, more: real, dl: real, avg: real)
    requires idf > 0.0 && 0.0 < tf < more && dl >= 0.0 && avg > 0.0
    ensures Weigh(idf, tf, dl, avg) < Weigh(idf, more, dl, avg) < 2.2 * idf
  {
    WeighIs(idf, tf, dl, avg);
    WeighIs(idf, more, dl, avg);
    NormPositive(dl, avg);
    ShareGrows(tf, more, Norm(dl, avg));
    Times(2.2 * idf, Share(tf, Norm(dl, avg)), Share(more, Norm(dl, avg)));
    Times(2.2 * idf, Share(more, Norm(dl, avg)), 1.0);
  }

  lemma Times(c: real, x: real, y: real)
    requires x < y && c > 0.0
    ensures c * x < c * y
  {
  }

  /** A longer document counts for less. */
  lemma WeighLessLong(idf: real, tf: real, dl: real, more: real, avg: real)
    requires idf > 0.0 && tf > 0.0 && 0.0 <= dl < more && avg > 0.0
    ensures Weigh(idf, tf, more, avg) < Weigh(idf, tf, dl, avg)
  {
    WeighIs(idf, tf, dl, avg);
    WeighIs(idf, tf, more, avg);
    NormPositive(dl, avg);
    NormGrows(dl, more, avg);
    ShareShrinks(tf, Norm(dl, avg), Norm(more, avg));
    Times(2.2 * idf, Share(tf, Norm(more, avg)), Share(tf, Norm(dl, avg)));
  }

  lemma QuotientPositive(a: real, b: real)
    requires a > 0.0 && b > 0.0
    ensures a / b > 0.0
  {
    QuotientNotNegative(a, b);
  }

  // ---- rarity ----

  ghost predicate Increasing(log: real -> real) {
    forall x, y :: 0.0 < x < y ==> log(x) < log(y)
  }

  /** The rarity of a token is the logarithm of one more than the number of documents over one
      half more than the number of those that contain it. */
  lemma IdfIs(log: real -> real, docs: seq<Doc>, t: string)
    ensures Idf(log, docs, t) == log((|docs| as real + 1.0) / (Containing(docs, t) as real + 0.5))
  {
    var n, df := |docs| as real, Containing(docs, t) as real;
    var q := (n - df + 0.5) / (df + 0.5);
    assert q * (df + 0.5) == n - df + 0.5;
    Distribute(q, df + 0.5);
    Quotient(n + 1.0, df + 0.5, q + 1.0);
  }

  lemma Distribute(q: real, d: real)
    ensures (q + 1.0) * d == q * d + d
  {
  }

  lemma RarerMore(log: real -> real, docs: seq<Doc>, s: string, t: string)
    requires Increasing(log) && Containing(docs, s) < Containing(docs, t)
    ensures Idf(log, docs, t) < Idf(log, docs, s)
  {
    IdfIs(log, docs, s);
    IdfIs(log, docs, t);
    var n := |docs| as real + 1.0;
    var a, b := Containing(docs, s) as real + 0.5, Containing(docs, t) as real + 0.5;
    LessTimes(a, b, n);
    assert n * a < n * b;
    LessQuotient(n, b, n, a);
    QuotientPositive(n, b);
  }

  /** What a token adds to a score, for an increasing logarithm that is positive above one:
      more when it is rarer, more when it occurs more often, less in a longer document. */
  lemma TermOrder(log: real -> real, docs: seq<Doc>, avg: real, a: Doc, b: Doc, s: string, t: string)
    requires Increasing(log) && PositiveAboveOne(log) && avg > 0.0 && s in a.tokens && t in b.tokens
    ensures Frequency(a.tokens, s) == Frequency(b.tokens, t) && |a.tokens| == |b.tokens| && Containing(docs, s) < Containing(docs, t)
        ==> Term(log, docs, avg, b, t) < Term(log, docs, avg, a, s)
    ensures s == t && |a.tokens| == |b.tokens| && Frequency(a.tokens, s) < Frequency(b.tokens, t)
        ==> Term(log, docs, avg, a, s) < Term(log, docs, avg, b, t)
    ensures s == t && Frequency(a.tokens, s) == Frequency(b.tokens, t) && |a.tokens| < |b.tokens|
        ==> Term(log, docs, avg, b, t) < Term(log, docs, avg, a, s)
  {
    FrequencyPositive(a.tokens, s);
    FrequencyPositive(b.tokens, t);
    IdfPositive(log, docs, s);
    var f, g := Frequency(a.tokens, s) as real, Frequency(b.tokens, t) as real;
    var m, n := |a.tokens| as real, |b.tokens| as real;
    if Containing(docs, s) < Containing(docs, t) {
      RarerMore(log, docs, s, t);
      WeighMoreIdf(Idf(log, docs, t), Idf(log, docs, s), f, m, avg);
    }
    if f < g { WeighMoreOften(Idf(log, docs, s), f, g, m, avg); }
    if m < n { WeighLessLong(Idf(log, docs, s), f, m, n, avg); }
  }

  /** A score is the sum over the query's tokens, repeated ones counted each time. */
  lemma {:induction false} ScoreAdds(log: real -> real, docs: seq<Doc>, avg: real, doc: Doc, a: seq<string>, b: seq<string>)
    requires doc.tokens != [] ==> avg > 0.0
    ensures Score(log, docs, avg, doc, a + b) == Score(log, docs, avg, doc, a) + Score(log, docs, avg, doc, b)
    ensures forall t :: Score(log, docs, avg, doc, [t]) == Term(log, docs, avg, doc, t)
    decreases |b|
  {
    forall t ensures Score(log, docs, avg, doc, [t]) == Term(log, docs, avg, doc, t) {
      assert Init([t]) == [];
    }
    if b == [] {
      assert a + b == a;
    } else {
      ScoreAdds(log, docs, avg, doc, a, Init(b));
      assert Init(a + b) == a + Init(b) && Last(a + b) == Last(b);
    }
  }

  /** A token that does not occur adds nothing, one that does adds its weight by rarity, count
      and length. */
  lemma TermWeighs(log: real -> real, docs: seq<Doc>, avg: real, doc: Doc, t: string)
    requires avg > 0.0
    ensures t !in doc.tokens ==> Term(log, docs, avg, doc, t) == 0.0
    ensures t in doc.tokens ==>
      var tf, norm := Frequency(doc.tokens, t) as real, Norm(|doc.tokens| as real, avg);
      tf + norm > 0.0 && Term(log, docs, avg, doc, t) == (2.2 * Idf(log, docs, t)) * Share(tf, norm)
  {
    FrequencyPositive(doc.tokens, t);
    if t in doc.tokens {
      WeighIs(Idf(log, docs, t), Frequency(doc.tokens, t) as real, |doc.tokens| as real, avg);
    }
  }
}
