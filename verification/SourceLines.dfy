/** The line numbers that overlapping chunks record, compared with the lines of the text the
    chunks come from. */
module SourceLines {
  import opened ByteTrimming
  import opened OverlapChunks
  import opened Sequences
  import opened Strings
  import opened TextChunks
  import opened Trimming

  /** The line of a position, counted from 1. */
  function SourceLine(text: string, at: nat): nat
    requires at <= |text|
  {
    1 + Newlines(text[..at])
  }

  /** Position of the first character that is not white space. */
  function FirstInk(text: string): nat {
    Lead(text)
  }

  function EndOf(p: Piece): nat {
    p.at + |p.text|
  }

  lemma {:induction false} NewlinesConcat(a: string, b: string)
    ensures Newlines(a + b) == Newlines(a) + Newlines(b)
  {
    if a == "" {
      assert a + b == b;
    } else {
      assert (a + b)[1..] == a[1..] + b;
      NewlinesConcat(a[1..], b);
    }
  }

  lemma {:induction false} NoNewlines(s: string)
    ensures Newlines(s) == 0 <==> '\n' !in s
  {
    if s != "" {
      assert s == [s[0]] + s[1..];
      NoNewlines(s[1..]);
    }
  }

  lemma NewlinesBetween(text: string, a: nat, b: nat, c: nat)
    requires a <= b <= c <= |text|
    ensures Newlines(text[a..c]) == Newlines(text[a..b]) + Newlines(text[b..c])
  {
    assert text[a..c] == text[a..b] + text[b..c];
    NewlinesConcat(text[a..b], text[b..c]);
  }

  // ---- where the pieces lie ----

  ghost predicate Lies(text: string, p: Piece) {
    p.text != "" && TextAt(text, p.at, p.text)
  }

  /** The pieces lie in the text one behind the other, from a position on; two line breaks at
      least lie between a whole paragraph and the piece before. */
  ghost predicate Located(text: string, from: nat, behind: bool, pieces: seq<Piece>)
    decreases |pieces|
  {
    && from <= |text|
    && (pieces != [] ==>
          var p := pieces[0];
          && from <= p.at && Lies(text, p)
          && (behind && !p.cut ==> Newlines(text[from..p.at]) >= 2)
          && Located(text, EndOf(p), true, pieces[1..]))
  }

  /** The same from an earlier position; behind a double line break also behind a piece. */
  lemma LocatedFrom(text: string, from: nat, later: nat, behind: bool, pieces: seq<Piece>)
    requires from <= later && Located(text, later, behind, pieces)
    ensures Located(text, from, behind, pieces)
    ensures Newlines(text[from..later]) >= 2 ==> Located(text, from, true, pieces)
  {
    if pieces != [] {
      NewlinesBetween(text, from, later, pieces[0].at);
    }
  }

  lemma LocatedLoose(text: string, from: nat, pieces: seq<Piece>)
    requires Located(text, from, true, pieces)
    ensures Located(text, from, false, pieces)
  {
  }

  lemma LocatedCons(text: string, from: nat, p: Piece, rest: seq<Piece>)
    requires from <= p.at && Lies(text, p)
    requires Located(text, EndOf(p), true, rest)
    ensures Located(text, from, false, [p] + rest) && (p.cut ==> Located(text, from, true, [p] + rest))
  {
    assert ([p] + rest)[1..] == rest;
  }

  /** Pieces that follow each other without a gap from one position to another. */
  ghost predicate Contiguous(text: string, at: nat, pieces: seq<Piece>, end: nat)
    decreases |pieces|
  {
    if pieces == [] then at == end <= |text|
    else
      && pieces[0].at == at && pieces[0].cut && Lies(text, pieces[0])
      && Contiguous(text, EndOf(pieces[0]), pieces[1..], end)
  }

  lemma {:induction false} ContiguousLocated(text: string, at: nat, pieces: seq<Piece>, end: nat, rest: seq<Piece>)
    requires Contiguous(text, at, pieces, end) && Located(text, end, true, rest)
    ensures Located(text, at, true, pieces + rest)
    decreases |pieces|
  {
    if pieces == [] {
      assert pieces + rest == rest;
    } else {
      ContiguousLocated(text, EndOf(pieces[0]), pieces[1..], end, rest);
      LocatedCons(text, at, pieces[0], pieces[1..] + rest);
      assert pieces + rest == [pieces[0]] + (pieces[1..] + rest);
    }
  }

  lemma SplitAt(text: string, at: nat, para: string, n: nat)
    requires TextAt(text, at, para) && n <= |para|
    ensures TextAt(text, at, para[..n]) && TextAt(text, at + n, para[n..])
  {
  }

  /** Laying a trimmed text in pieces at a position. */
  type Layout = (string, nat) -> seq<Piece>

  /** cut takes a piece off the front of a text. */
  ghost predicate TakesOff(cut: Layout, para: string, at: nat) {
    if para == "" then cut(para, at) == []
    else exists n: nat :: 0 < n <= |para| && cut(para, at) == [Piece(at, para[..n], true)] + cut(para[n..], at + n)
  }

  lemma CuttingIs(para: string, at: nat, size: nat)
    requires size > 0
    ensures TakesOff((t: string, from: nat) => Cut(t, from, size), para, at)
  {
    if para != "" {
      var n := if size > |para| then |para| else size;
      assert Cut(para, at, size) == [Piece(at, para[..n], true)] + Cut(para[n..], at + n, size);
    }
  }

  lemma ContiguousCons(text: string, p: Piece, tail: seq<Piece>, end: nat)
    requires p.cut && Lies(text, p) && Contiguous(text, EndOf(p), tail, end)
    ensures Contiguous(text, p.at, [p] + tail, end)
  {
    assert ([p] + tail)[1..] == tail;
  }

  lemma {:induction false} CutContiguous(cut: Layout, text: string, para: string, at: nat)
    requires TextAt(text, at, para) && forall t, from: nat :: TakesOff(cut, t, from)
    ensures Contiguous(text, at, cut(para, at), at + |para|)
    decreases |para|
  {
    assert TakesOff(cut, para, at);
    if para != "" {
      var n: nat :| 0 < n <= |para| && cut(para, at) == [Piece(at, para[..n], true)] + cut(para[n..], at + n);
      SplitAt(text, at, para, n);
      CutContiguous(cut, text, para[n..], at + n);
      ContiguousCons(text, Piece(at, para[..n], true), cut(para[n..], at + n), at + |para|);
    }
  }

  lemma CutLocated(text: string, para: string, at: nat, size: nat, rest: seq<Piece>)
    requires size > 0 && TextAt(text, at, para) && Located(text, at + |para|, true, rest)
    ensures Located(text, at, true, Cut(para, at, size) + rest)
  {
    var cut: Layout := (t: string, from: nat) => Cut(t, from, size);
    forall t: string, from: nat ensures TakesOff(cut, t, from) {
      CuttingIs(t, from, size);
    }
    CutContiguous(cut, text, para, at);
    ContiguousLocated(text, at, Cut(para, at, size), at + |para|, rest);
  }

  lemma PieceLocated(text: string, from: nat, at: nat, t: string, size: nat, rest: seq<Piece>)
    requires size > 0 && from <= at && TextAt(text, at, t)
    requires t == "" ==> Located(text, from, false, rest)
    requires t != "" ==> Located(text, at + |t|, true, rest)
    ensures Located(text, from, false, PiecesOf(t, at, size) + rest)
  {
    if t == "" {
      assert [] + rest == rest;
    } else if |t| <= size {
      LocatedCons(text, from, Piece(at, t, false), rest);
    } else {
      CutLocated(text, t, at, size, rest);
      LocatedFrom(text, from, at, true, Cut(t, at, size) + rest);
      LocatedLoose(text, from, Cut(t, at, size) + rest);
    }
  }

  lemma PlacedIn(text: string, pre: string, para: string, k: nat, t: string)
    requires pre + para <= text && TextAt(para, k, t)
    ensures TextAt(text, |pre| + k, t)
  {
    assert forall i :: 0 <= i < |para| ==> text[|pre| + i] == (pre + para)[|pre| + i] == para[i];
  }

  /** The break behind a paragraph counts between its text and the next piece. */
  lemma BreakBehind(pre: string, para: string, post: string, end: nat)
    requires end <= |pre + para|
    ensures Newlines((pre + para + SEPARATOR + post)[end..|pre + para + SEPARATOR|]) >= 2
  {
    var text := pre + para + SEPARATOR + post;
    var n := |pre + para|;
    NewlinesBetween(text, end, n, n + 2);
    assert text[n..n + 2] == SEPARATOR;
    assert SEPARATOR[1..] == "\n" && "\n"[1..] == "";
  }

  /** Pieces of a text that stands in another one are located there. */
  ghost predicate LocatesAt(of: Layout, text: string, from: nat, at: nat, t: string, rest: seq<Piece>) {
    && from <= at && TextAt(text, at, t)
    && (if t == "" then Located(text, from, false, rest) else Located(text, at + |t|, true, rest))
    ==> Located(text, from, false, of(t, at) + rest)
  }

  ghost predicate Locates(of: Layout) {
    forall text, from: nat, at: nat, t, rest :: LocatesAt(of, text, from, at, t, rest)
  }

  lemma LayingLocates(size: nat)
    requires size > 0
    ensures Locates(Laying(size))
  {
    var of: Layout := Laying(size);
    forall text: string, from: nat, at: nat, t: string, rest: seq<Piece> ensures LocatesAt(of, text, from, at, t, rest) {
      if from <= at && TextAt(text, at, t) {
        if (if t == "" then Located(text, from, false, rest) else Located(text, at + |t|, true, rest)) {
          PieceLocated(text, from, at, t, size, rest);
        }
      }
    }
  }

  lemma LastParagraph(of: Layout, text: string, pre: string, para: string, k: nat, t: string)
    requires Locates(of) && pre + para <= text && TextAt(para, k, t)
    ensures Located(text, |pre|, false, of(t, |pre| + k) + [])
  {
    PlacedIn(text, pre, para, k, t);
    assert LocatesAt(of, text, |pre|, |pre| + k, t, []);
  }

  lemma RestLocated(text: string, pre: string, para: string, more: string, end: nat, rest: seq<Piece>)
    requires text == pre + para + SEPARATOR + more && |pre| <= end <= |pre + para|
    requires Located(text, |pre + para + SEPARATOR|, false, rest)
    ensures Located(text, end, true, rest) && Located(text, |pre|, false, rest)
  {
    BreakBehind(pre, para, more, end);
    LocatedFrom(text, end, |pre + para + SEPARATOR|, false, rest);
    LocatedFrom(text, |pre|, |pre + para + SEPARATOR|, false, rest);
  }

  lemma NextParagraph(of: Layout, text: string, pre: string, para: string, k: nat, t: string, rest: seq<Piece>)
    requires Locates(of) && pre + para <= text && TextAt(para, k, t)
    requires Located(text, |pre| + k + |t|, true, rest) && Located(text, |pre|, false, rest)
    ensures Located(text, |pre|, false, of(t, |pre| + k) + rest)
  {
    PlacedIn(text, pre, para, k, t);
    assert LocatesAt(of, text, |pre|, |pre| + k, t, rest);
  }

  lemma JoinFirst(pre: string, paras: seq<string>)
    requires |paras| > 1
    ensures pre + Join(paras, SEPARATOR) == pre + paras[0] + SEPARATOR + Join(paras[1..], SEPARATOR)
  {
  }

  lemma PiecesFirst(slice: Layout, pre: string, paras: seq<string>)
    requires paras != []
    ensures Pieces(slice, paras, |pre|) == slice(paras[0], |pre|) + Pieces(slice, paras[1..], |pre + paras[0] + SEPARATOR|)
    ensures |paras| == 1 ==> Pieces(slice, paras, |pre|) == slice(paras[0], |pre|) + [] && Join(paras, SEPARATOR) == paras[0]
  {
  }

  /** A paragraph is laid as what trimming leaves of it. */
  ghost predicate SlicesRight(slice: Layout, of: Layout, para: string, at: nat) {
    exists k: nat, t :: Stands(para, k, t) && slice(para, at) == of(t, at + k)
  }

  lemma OneLocated(text: string, pre: string, para: string, slice: Layout, of: Layout)
    requires Locates(of) && SlicesRight(slice, of, para, |pre|) && pre + para <= text
    ensures Located(text, |pre|, false, slice(para, |pre|) + [])
  {
    var k, t :| Stands(para, k, t) && slice(para, |pre|) == of(t, |pre| + k);
    LastParagraph(of, text, pre, para, k, t);
  }

  lemma MoreLocated(text: string, pre: string, para: string, more: string, slice: Layout, of: Layout, rest: seq<Piece>)
    requires Locates(of) && SlicesRight(slice, of, para, |pre|) && text == pre + para + SEPARATOR + more
    requires Located(text, |pre + para + SEPARATOR|, false, rest)
    ensures Located(text, |pre|, false, slice(para, |pre|) + rest)
  {
    var k, t :| Stands(para, k, t) && slice(para, |pre|) == of(t, |pre| + k);
    RestLocated(text, pre, para, more, |pre| + k + |t|, rest);
    NextParagraph(of, text, pre, para, k, t, rest);
  }

  lemma {:induction false} PiecesLocated(text: string, pre: string, paras: seq<string>, slice: Layout, of: Layout)
    requires paras != [] && text == pre + Join(paras, SEPARATOR) && Locates(of)
    requires forall para, at: nat :: SlicesRight(slice, of, para, at)
    ensures Located(text, |pre|, false, Pieces(slice, paras, |pre|))
    decreases |paras|
  {
    PiecesFirst(slice, pre, paras);
    assert SlicesRight(slice, of, paras[0], |pre|);
    if |paras| == 1 {
      OneLocated(text, pre, paras[0], slice, of);
    } else {
      var before := pre + paras[0] + SEPARATOR;
      JoinFirst(pre, paras);
      PiecesLocated(text, before, paras[1..], slice, of);
      MoreLocated(text, pre, paras[0], Join(paras[1..], SEPARATOR), slice, of, Pieces(slice, paras[1..], |before|));
    }
  }

  lemma SliceIs(trim: string -> string, lead: string -> nat, size: nat, para: string, at: nat)
    requires size > 0
    ensures Slicing(trim, lead, size)(para, at) == Laying(size)(trim(para), at + lead(para))
  {
  }

  lemma AllRight(slice: Layout, of: Layout, trim: string -> string, lead: string -> nat)
    requires forall para, at: nat :: slice(para, at) == of(trim(para), at + lead(para))
    requires StandsAlways(trim, lead)
    ensures forall para, at: nat :: SlicesRight(slice, of, para, at)
  {
    forall para: string, at: nat ensures SlicesRight(slice, of, para, at) {
      assert Stands(para, lead(para), trim(para)) && slice(para, at) == of(trim(para), at + lead(para));
    }
  }

  lemma SlicingLaw(slice: Layout, of: Layout, trim: string -> string, lead: string -> nat, size: nat)
    requires size > 0 && slice == Slicing(trim, lead, size) && of == Laying(size)
    ensures forall para, at: nat :: slice(para, at) == of(trim(para), at + lead(para))
  {
    forall para: string, at: nat ensures slice(para, at) == of(trim(para), at + lead(para)) {
      SliceIs(trim, lead, size, para, at);
    }
  }

  ghost predicate StandsAlways(trim: string -> string, lead: string -> nat) {
    forall para :: Stands(para, lead(para), trim(para))
  }

  lemma BytesStand()
    ensures StandsAlways(TrimBytes, Lead)
  {
    forall para ensures Stands(para, Lead(para), TrimBytes(para)) {
      TrimStands(para);
    }
  }

  lemma LawRight(slice: Layout, of: Layout, trim: string -> string, lead: string -> nat, size: nat)
    requires size > 0 && slice == Slicing(trim, lead, size) && of == Laying(size) && StandsAlways(trim, lead)
    ensures forall para, at: nat :: SlicesRight(slice, of, para, at)
  {
    SlicingLaw(slice, of, trim, lead, size);
    AllRight(slice, of, trim, lead);
  }

  lemma SlicingRight(slice: Layout, of: Layout, size: nat)
    requires size > 0 && slice == Slicing(TrimBytes, Lead, size) && of == Laying(size)
    ensures forall para, at: nat :: SlicesRight(slice, of, para, at)
  {
    BytesStand();
    LawRight(slice, of, TrimBytes, Lead, size);
  }

  /** The pieces of a text lie in it. */
  lemma PiecesInText(text: string, size: nat)
    requires size > 0
    ensures Located(text, 0, false, PiecesIn(text, size))
  {
    SlicingRight(Slicing(TrimBytes, Lead, size), Laying(size), size);
    LayingLocates(size);
    JoinParagraphs(text);
    assert "" + Join(Paragraphs(text), SEPARATOR) == text;
    PiecesLocated(text, "", Paragraphs(text), Slicing(TrimBytes, Lead, size), Laying(size));
  }

  lemma {:induction false} LocatedSlice(text: string, from: nat, behind: bool, pieces: seq<Piece>, k: nat)
    requires Located(text, from, behind, pieces) && k <= |pieces|
    ensures k == 0 ==> pieces[k..] == pieces
    ensures k > 0 ==> Located(text, EndOf(pieces[k - 1]), true, pieces[k..])
    decreases k
  {
    if k > 1 {
      LocatedSlice(text, EndOf(pieces[0]), true, pieces[1..], k - 1);
      assert pieces[1..][k - 1..] == pieces[k..];
    }
  }

  lemma {:induction false} LocatedPrefix(text: string, from: nat, behind: bool, pieces: seq<Piece>, m: nat)
    requires Located(text, from, behind, pieces) && m <= |pieces|
    ensures Located(text, from, behind, pieces[..m])
    decreases m
  {
    if m > 0 {
      LocatedPrefix(text, EndOf(pieces[0]), true, pieces[1..], m - 1);
      assert pieces[..m][1..] == pieces[1..][..m - 1];
    }
  }

  // ---- whole paragraphs are trimmed ----

  predicate TrimmedWhole(p: Piece) {
    p.text != "" && (!p.cut ==> Clean(p.text))
  }

  lemma {:induction false} WholeTrimmed(slice: (string, nat) -> seq<Piece>, paras: seq<string>, base: nat)
    requires forall para, at: nat, p :: p in slice(para, at) ==> TrimmedWhole(p)
    ensures forall p :: p in Pieces(slice, paras, base) ==> TrimmedWhole(p)
  {
    if paras != [] {
      WholeTrimmed(slice, paras[1..], base + |paras[0]| + |SEPARATOR|);
    }
  }

  lemma LayingTrimmed(size: nat, t: string, at: nat, p: Piece)
    requires size > 0 && Clean(t) && p in Laying(size)(t, at)
    ensures TrimmedWhole(p)
  {
  }

  lemma SlicingWhole(slice: Layout, of: Layout, para: string, at: nat, p: Piece)
    requires SlicesRight(slice, of, para, at) && p in slice(para, at)
    requires forall t, at: nat, p :: Clean(t) && p in of(t, at) ==> TrimmedWhole(p)
    ensures TrimmedWhole(p)
  {
    var k, t :| Stands(para, k, t) && slice(para, at) == of(t, at + k);
  }

  lemma PiecesTrimmed(text: string, size: nat)
    requires size > 0
    ensures forall p :: p in PiecesIn(text, size) ==> TrimmedWhole(p)
  {
    var slice: Layout, of: Layout := Slicing(TrimBytes, Lead, size), Laying(size);
    SlicingRight(Slicing(TrimBytes, Lead, size), Laying(size), size);
    forall t: string, at: nat, p: Piece | Clean(t) && p in of(t, at) ensures TrimmedWhole(p) {
      LayingTrimmed(size, t, at, p);
    }
    forall para: string, at: nat, p: Piece | p in slice(para, at) ensures TrimmedWhole(p) {
      SlicingWhole(slice, of, para, at, p);
    }
    WholeTrimmed(slice, Paragraphs(text), 0);
  }

  // ---- where the first piece starts ----

  /** Only white space stands before the first piece, which starts with something else; when
      it is cut off a paragraph, so is the next. */
  ghost predicate StartsText(text: string, from: nat, pieces: seq<Piece>) {
    pieces != [] ==>
      && from <= pieces[0].at < |text| && Blank(text[from..pieces[0].at])
      && Ahead(text[pieces[0].at..]) == 0
      && (pieces[0].cut ==> |pieces| > 1 && pieces[1].cut)
  }

  lemma CutTwice(t: string, at: nat, size: nat)
    requires 0 < size < |t|
    ensures |Cut(t, at, size)| > 1 && Cut(t, at, size)[0] == FirstCut(at, t, size) && Cut(t, at, size)[1].cut
  {
    CutOne(t, at, size);
    CutOne(t[size..], at + size, size);
  }

  /** all is rest behind the pieces of a text that starts at a position. */
  predicate LaidBefore(all: seq<Piece>, t: string, at: nat, rest: seq<Piece>) {
    if t == "" then all == rest
    else all != [] && all[0].at == at && (all[0].cut ==> |all| > 1 && all[1].cut)
  }

  ghost predicate LaysFirst(of: Layout) {
    forall t: string, at: nat, rest: seq<Piece> :: LaidBefore(of(t, at) + rest, t, at, rest)
  }

  lemma LayingFirst(size: nat)
    requires size > 0
    ensures LaysFirst(Laying(size))
  {
    var of: Layout := Laying(size);
    forall t: string, at: nat, rest: seq<Piece> ensures LaidBefore(of(t, at) + rest, t, at, rest) {
      FirstPieces(t, at, size, rest);
    }
  }

  lemma FirstPieces(t: string, at: nat, size: nat, rest: seq<Piece>)
    requires size > 0
    ensures LaidBefore(PiecesOf(t, at, size) + rest, t, at, rest)
  {
    if t == "" {
      assert [] + rest == rest;
    } else if |t| > size {
      CutTwice(t, at, size);
    }
  }

  /** The text from a paragraph on, when all of the paragraph is blank or not. */
  lemma StartsAfter(text: string, from: nat, next: nat, pieces: seq<Piece>)
    requires from <= next <= |text| && Blank(text[from..next]) && StartsText(text, next, pieces)
    ensures StartsText(text, from, pieces)
  {
    if pieces != [] {
      assert text[from..pieces[0].at] == text[from..next] + text[next..pieces[0].at];
      BlankConcat(text[from..next], text[next..pieces[0].at]);
    }
  }

  lemma BlankBefore(pre: string, para: string, more: string)
    requires Blank(para)
    ensures Blank((pre + para + SEPARATOR + more)[|pre|..|pre + para + SEPARATOR|])
  {
    var text := pre + para + SEPARATOR + more;
    assert text[|pre|..|pre + para + SEPARATOR|] == para + SEPARATOR;
    BlankConcat(para, SEPARATOR);
    BlankSeparator();
  }

  lemma BlankSeparator()
    ensures Blank(SEPARATOR)
  {
    BlankBreak();
    BlankConcat(BREAK, BREAK);
    assert SEPARATOR == BREAK + BREAK;
  }

  /** A line break follows the paragraph, or nothing. */
  ghost predicate Closed(text: string, pre: string, para: string) {
    pre + para <= text && (|text| > |pre + para| ==> text[|pre + para|] == '\n')
  }

  lemma InkStarts(text: string, pre: string, para: string, k: nat, t: string, all: seq<Piece>)
    requires Closed(text, pre, para) && t != "" && Stands(para, k, t)
    requires all != [] && all[0].at == |pre| + k && (all[0].cut ==> |all| > 1 && all[1].cut)
    ensures StartsText(text, |pre|, all)
  {
    LeadPlaced(text, pre, para, k);
    InkPlaced(text, pre, para, k, t);
  }

  lemma LeadPlaced(text: string, pre: string, para: string, k: nat)
    requires pre + para <= text && k <= |para| && Blank(para[..k])
    ensures Blank(text[|pre|..|pre| + k])
  {
    PlacedIn(text, pre, para, 0, para[..k]);
    TextSlice(text, |pre|, para[..k]);
  }

  lemma Remaining(text: string, at: nat, t: string)
    requires TextAt(text, at, t)
    ensures text[at..] == t + text[at + |t|..]
  {
  }

  lemma StartsWith(text: string, at: nat, t: string)
    requires TextAt(text, at, t) && t != ""
    ensures text[at..] != "" && text[at..][0] == t[0]
  {
    assert text[at + 0] == t[0];
  }

  lemma InkPlaced(text: string, pre: string, para: string, k: nat, t: string)
    requires Closed(text, pre, para) && t != "" && Stands(para, k, t)
    ensures |pre| + k < |text| && Ahead(text[|pre| + k..]) == 0
  {
    var rest := text[|pre| + k + |t|..];
    PlacedIn(text, pre, para, k, t);
    Remaining(text, |pre| + k, t);
    if k + |t| < |para| {
      BlankStart(para[k + |t|..]);
      PlacedIn(text, pre, para, k + |t|, para[k + |t|..]);
      StartsWith(text, |pre| + k + |t|, para[k + |t|..]);
    }
    AheadConcat(t, rest);
  }

  lemma ParagraphStarts(text: string, pre: string, para: string, more: string, k: nat, t: string, all: seq<Piece>, rest: seq<Piece>)
    requires text == pre + para + SEPARATOR + more && Stands(para, k, t) && LaidBefore(all, t, |pre| + k, rest)
    requires StartsText(text, |pre + para + SEPARATOR|, rest)
    ensures StartsText(text, |pre|, all)
  {
    if t == "" {
      BlankBefore(pre, para, more);
      StartsAfter(text, |pre|, |pre + para + SEPARATOR|, rest);
    } else {
      InkStarts(text, pre, para, k, t, all);
    }
  }

  lemma OneStarts(text: string, pre: string, para: string, slice: Layout, of: Layout)
    requires LaysFirst(of) && SlicesRight(slice, of, para, |pre|) && text == pre + para
    ensures StartsText(text, |pre|, slice(para, |pre|) + [])
  {
    var k, t :| Stands(para, k, t) && slice(para, |pre|) == of(t, |pre| + k);
    assert LaidBefore(of(t, |pre| + k) + [], t, |pre| + k, []);
    if t != "" { InkStarts(text, pre, para, k, t, slice(para, |pre|) + []); }
  }

  lemma MoreStarts(text: string, pre: string, para: string, more: string, slice: Layout, of: Layout, rest: seq<Piece>)
    requires LaysFirst(of) && SlicesRight(slice, of, para, |pre|) && text == pre + para + SEPARATOR + more
    requires StartsText(text, |pre + para + SEPARATOR|, rest)
    ensures StartsText(text, |pre|, slice(para, |pre|) + rest)
  {
    var k, t :| Stands(para, k, t) && slice(para, |pre|) == of(t, |pre| + k);
    assert LaidBefore(of(t, |pre| + k) + rest, t, |pre| + k, rest);
    ParagraphStarts(text, pre, para, more, k, t, slice(para, |pre|) + rest, rest);
  }

  lemma {:induction false} PiecesStart(text: string, pre: string, paras: seq<string>, slice: Layout, of: Layout)
    requires paras != [] && text == pre + Join(paras, SEPARATOR) && LaysFirst(of)
    requires forall para, at: nat :: SlicesRight(slice, of, para, at)
    ensures StartsText(text, |pre|, Pieces(slice, paras, |pre|))
    decreases |paras|
  {
    PiecesFirst(slice, pre, paras);
    assert SlicesRight(slice, of, paras[0], |pre|);
    if |paras| == 1 {
      OneStarts(text, pre, paras[0], slice, of);
    } else {
      var before := pre + paras[0] + SEPARATOR;
      JoinFirst(pre, paras);
      PiecesStart(text, before, paras[1..], slice, of);
      MoreStarts(text, pre, paras[0], Join(paras[1..], SEPARATOR), slice, of, Pieces(slice, paras[1..], |before|));
    }
  }

  lemma InkIs(s: string, k: nat)
    requires k < |s| && Blank(s[..k]) && Ahead(s[k..]) == 0
    ensures Lead(s) == k
  {
    BlankPad(s[..k], s[k..]);
    assert s == s[..k] + s[k..];
  }

  /** The first piece of a text starts at its first character that is not white space. */
  lemma FirstAtInk(text: string, size: nat)
    requires size > 0
    ensures var pieces := PiecesIn(text, size);
      pieces != [] ==>
        && pieces[0].at == FirstInk(text) < |text| && Ahead(text[FirstInk(text)..]) == 0
        && (pieces[0].cut ==> |pieces| > 1 && pieces[1].cut)
  {
    SlicingRight(Slicing(TrimBytes, Lead, size), Laying(size), size);
    LayingFirst(size);
    JoinParagraphs(text);
    assert "" + Join(Paragraphs(text), SEPARATOR) == text;
    PiecesStart(text, "", Paragraphs(text), Slicing(TrimBytes, Lead, size), Laying(size));
    var pieces := PiecesIn(text, size);
    if pieces != [] {
      InkIs(text, pieces[0].at);
      assert text[0..pieces[0].at] == text[..pieces[0].at];
    }
  }

  // ---- how many lines a chunk spans ----

  predicate AllWhole(pieces: seq<Piece>) {
    forall p :: p in pieces ==> !p.cut
  }

  /** Exactly two line breaks lie between any two neighbouring pieces. */
  ghost predicate Tight(text: string, pieces: seq<Piece>)
    decreases |pieces|
  {
    |pieces| > 1 ==>
      && EndOf(pieces[0]) <= pieces[1].at <= |text|
      && Newlines(text[EndOf(pieces[0])..pieces[1].at]) == 2
      && Tight(text, pieces[1..])
  }

  lemma JoinTexts(pieces: seq<Piece>)
    requires |pieces| > 1
    ensures Newlines(Join(Texts(pieces), SEPARATOR)) == Newlines(pieces[0].text) + 2 + Newlines(Join(Texts(pieces[1..]), SEPARATOR))
  {
    var texts := Texts(pieces);
    assert texts[1..] == Texts(pieces[1..]);
    NewlinesConcat(texts[0] + SEPARATOR, Join(texts[1..], SEPARATOR));
    NewlinesConcat(texts[0], SEPARATOR);
    assert SEPARATOR[1..] == "\n" && "\n"[1..] == "";
  }

  lemma SpanStep(text: string, p: Piece, next: nat, end: nat)
    requires Lies(text, p) && EndOf(p) <= next <= end <= |text|
    ensures Newlines(text[p.at..end]) == Newlines(p.text) + Newlines(text[EndOf(p)..next]) + Newlines(text[next..end])
  {
    TextSlice(text, p.at, p.text);
    NewlinesBetween(text, p.at, EndOf(p), next);
    NewlinesBetween(text, p.at, next, end);
  }

  /** Whole paragraphs span at least as many line breaks in the text as joined, and as many
      exactly when nothing but a double break lies between them. */
  lemma {:induction false} SpanNewlines(text: string, from: nat, behind: bool, pieces: seq<Piece>)
    requires Located(text, from, behind, pieces) && pieces != [] && AllWhole(pieces)
    ensures pieces[0].at < EndOf(Last(pieces)) <= |text|
    ensures Newlines(Join(Texts(pieces), SEPARATOR)) <= Newlines(text[pieces[0].at..EndOf(Last(pieces))])
    ensures Newlines(Join(Texts(pieces), SEPARATOR)) == Newlines(text[pieces[0].at..EndOf(Last(pieces))]) <==> Tight(text, pieces)
    decreases |pieces|
  {
    var p, rest := pieces[0], pieces[1..];
    if rest == [] {
      TextSlice(text, p.at, p.text);
    } else {
      SpanNewlines(text, EndOf(p), true, rest);
      assert rest[0] in pieces && Last(rest) == Last(pieces);
      SpanStep(text, p, rest[0].at, EndOf(Last(rest)));
      JoinTexts(pieces);
    }
  }

  /** From one whole paragraph to a later one the text has at least two lines more than the
      paragraphs in between have joined. */
  lemma LinesApart(text: string, from: nat, behind: bool, pieces: seq<Piece>, m: nat)
    requires Located(text, from, behind, pieces) && AllWhole(pieces) && 0 < m < |pieces|
    ensures pieces[0].at <= |text| && pieces[m].at <= |text|
    ensures SourceLine(text, pieces[m].at) >= SourceLine(text, pieces[0].at) + Newlines(Join(Texts(pieces[..m]), SEPARATOR)) + 2
  {
    LocatedPrefix(text, from, behind, pieces, m);
    SpanNewlines(text, from, behind, pieces[..m]);
    LocatedSlice(text, from, behind, pieces, m);
    assert Last(pieces[..m]) == pieces[m - 1] && pieces[m..][0] == pieces[m];
    NewlinesBetween(text, 0, pieces[0].at, EndOf(pieces[m - 1]));
    NewlinesBetween(text, 0, EndOf(pieces[m - 1]), pieces[m].at);
    assert text[0..pieces[0].at] == text[..pieces[0].at] && text[0..pieces[m].at] == text[..pieces[m].at];
  }

  // ---- the pieces of one chunk ----

  lemma {:induction false} AddedPrefix(parts: seq<Part>, i: nat)
    requires i < |parts|
    ensures Added(parts[..i]) + parts[i].added <= Added(parts)
    decreases |parts|
  {
    if i < |parts| - 1 {
      AddedPrefix(Init(parts), i);
      assert Init(parts)[..i] == parts[..i];
      PrefixTransitive(Added(parts[..i]) + parts[i].added, Added(Init(parts)), Added(parts));
    }
  }

  /** t stands between two positions as far as its ends show: it starts with the character at
      the first and ends with the one before the second, without white space at its ends. */
  predicate Ends(text: string, from: int, end: int, t: string) {
    && 0 <= from < end <= |text| && t != ""
    && text[from] == t[0] && text[end - 1] == t[|t| - 1]
    && Clean(t)
  }

  lemma {:induction false} JoinEnds(texts: seq<string>)
    requires texts != [] && NoneEmpty(texts) && texts[0] != "" && texts[|texts| - 1] != ""
    ensures var all, last := Join(texts, SEPARATOR), texts[|texts| - 1];
      all != "" && all[0] == texts[0][0] && all[|all| - 1] == last[|last| - 1]
  {
    if |texts| > 1 {
      assert texts[1..][0] != "";
      JoinEnds(texts[1..]);
    }
  }

  /** White space at neither end of the texts is none at the ends of the texts joined. */
  lemma {:induction false} JoinClean(texts: seq<string>)
    requires texts != [] && forall i :: 0 <= i < |texts| ==> texts[i] != "" && Clean(texts[i])
    ensures Join(texts, SEPARATOR) != "" && Clean(Join(texts, SEPARATOR))
  {
    if |texts| > 1 {
      var rest := Join(texts[1..], SEPARATOR);
      JoinClean(texts[1..]);
      BehindBreak(rest);
      CleanAround(texts[0], BREAK + rest);
      assert Join(texts, SEPARATOR) == texts[0] + BREAK + (BREAK + rest);
    }
  }

  lemma JoinAhead(texts: seq<string>)
    requires texts != [] && texts[0] != "" && Ahead(texts[0]) == 0
    ensures Join(texts, SEPARATOR) != "" && Ahead(Join(texts, SEPARATOR)) == 0
  {
    if |texts| > 1 {
      var rest := Join(texts[1..], SEPARATOR);
      CleanAround(texts[0], BREAK + rest);
      assert Join(texts, SEPARATOR) == texts[0] + BREAK + (BREAK + rest);
    }
  }

  lemma TextsNotEmpty(pieces: seq<Piece>)
    requires forall p :: p in pieces ==> TrimmedWhole(p)
    ensures NoneEmpty(Texts(pieces))
    ensures forall i :: 0 <= i < |pieces| ==> TrimmedWhole(pieces[i])
  {
    forall i | 0 <= i < |pieces| ensures TrimmedWhole(pieces[i]) && Texts(pieces)[i] != "" {
      assert pieces[i] in pieces;
    }
  }

  /** A text that starts like one piece and ends like another, neither with white space. */
  predicate BothEnds(t: string, first: string, last: string) {
    && t != "" && first != "" && last != ""
    && t[0] == first[0] && t[|t| - 1] == last[|last| - 1]
    && Clean(t)
  }

  lemma WholeContent(pieces: seq<Piece>)
    requires pieces != [] && AllWhole(pieces) && (forall p :: p in pieces ==> TrimmedWhole(p))
    ensures BothEnds(Join(Texts(pieces), SEPARATOR), pieces[0].text, Last(pieces).text)
  {
    var texts := Texts(pieces);
    TextsNotEmpty(pieces);
    JoinEnds(texts);
    JoinClean(texts);
  }

  /** Trimming leaves joined whole paragraphs as they are. */
  lemma WholeStays(pieces: seq<Piece>, t: string)
    requires pieces != [] && AllWhole(pieces) && (forall p :: p in pieces ==> TrimmedWhole(p))
    requires t == TrimBytes(Join(Texts(pieces), SEPARATOR))
    ensures t == Join(Texts(pieces), SEPARATOR) && BothEnds(t, pieces[0].text, Last(pieces).text)
  {
    WholeContent(pieces);
    CleanIsFixed(Join(Texts(pieces), SEPARATOR));
  }

  lemma {:induction false} PackedAt(trim: string -> string, size: nat, carried: seq<string>, added: seq<Piece>, j: nat)
    requires Packed(trim, size, carried, added) && 0 < j < |added|
    ensures Joins(trim, size, carried, added[..j], added[j])
    decreases |added|
  {
    if j < |added| - 1 {
      PackedAt(trim, size, carried, Init(added), j);
      assert Init(added)[..j] == added[..j];
    } else {
      assert Init(added) == added[..j];
    }
  }

  /** Text that starts with something else than white space is not blank. */
  lemma InkNotBlank(s: string)
    requires s != "" && Ahead(s) == 0
    ensures TrimBytes(s) != ""
  {
    ByteTrimming.TrimBlank(s);
  }

  lemma NotCutBehindInk(size: nat, added: seq<Piece>, j: nat)
    requires Packed(TrimBytes, size, [], added) && 0 < j < |added|
    requires (forall p :: p in added ==> TrimmedWhole(p)) && added[0].text != "" && Ahead(added[0].text) == 0
    ensures !added[j].cut
  {
    var before := added[..j];
    PackedAt(TrimBytes, size, [], added, j);
    PrefixMembers(before, added);
    TextsNotEmpty(before);
    JoinAhead(Texts(before));
    InkNotBlank(Join(Texts(before), SEPARATOR));
    assert [] + Texts(before) == Texts(before);
  }

  /** The first chunk holds whole paragraphs, or one piece of a long one. */
  lemma FirstPart(text: string, size: nat, overlap: nat, chunks: seq<TextChunk>, parts: seq<Part>)
    requires size > 0 && Laid(TrimBytes, size, overlap, chunks, parts) && Added(parts) == PiecesIn(text, size) && chunks != []
    ensures parts[0].carried == [] && parts[0].added != [] && parts[0].added <= PiecesIn(text, size)
    ensures |parts[0].added| == 1 || AllWhole(parts[0].added)
  {
    assert LaidAt(TrimBytes, size, overlap, chunks, parts, 0);
    AddedPrefix(parts, 0);
    assert Added(parts[..0]) + parts[0].added == parts[0].added;
    FirstAdded(text, size, parts[0].added);
  }

  lemma FirstAdded(text: string, size: nat, added: seq<Piece>)
    requires size > 0 && Packed(TrimBytes, size, [], added) && added != [] && added <= PiecesIn(text, size)
    ensures |added| == 1 || AllWhole(added)
  {
    var pieces := PiecesIn(text, size);
    PiecesTrimmed(text, size);
    InkOfFirst(text, size);
    PrefixMembers(added, pieces);
    assert added[0] == pieces[0];
    forall j | 0 < j < |added| ensures !added[j].cut {
      NotCutBehindInk(size, added, j);
    }
    if |added| > 1 {
      assert added[1] == pieces[1];
    }
  }

  lemma PrefixMembers(a: seq<Piece>, b: seq<Piece>)
    requires a <= b
    ensures forall p :: p in a ==> p in b
  {
    assert forall i :: 0 <= i < |a| ==> a[i] == b[i];
  }

  lemma InkOfFirst(text: string, size: nat)
    requires size > 0
    ensures var pieces, ink := PiecesIn(text, size), FirstInk(text);
      pieces != [] ==>
        && Lies(text, pieces[0]) && pieces[0].at == ink < |text| && pieces[0].text[0] == text[ink] && Ahead(pieces[0].text) == 0
        && (pieces[0].cut ==> |pieces| > 1 && pieces[1].cut)
  {
    FirstAtInk(text, size);
    PiecesInText(text, size);
    var pieces := PiecesIn(text, size);
    if pieces != [] {
      var p := pieces[0];
      assert text[p.at + 0] == p.text[0];
      TextSlice(text, p.at, p.text);
      assert p.text <= text[p.at..];
      CleanFront(text[p.at..], p.text);
    }
  }

  // ---- the first chunk ----

  /** Where the text of a chunk with these pieces ends: behind the last one, without what is
      trimmed off. */
  function ChunkEnd(c: TextChunk, added: seq<Piece>): int
    requires added != []
  {
    EndOf(Last(added)) + |c.text| - |Join(Texts(added), SEPARATOR)|
  }

  lemma InkLine(text: string, end: nat)
    requires 0 < end <= |text| && text[end - 1] != '\n'
    ensures SourceLine(text, end - 1) == 1 + Newlines(text[..end])
  {
    assert text[..end] == text[..end - 1] + [text[end - 1]];
    NewlinesConcat(text[..end - 1], [text[end - 1]]);
    NoNewlines([text[end - 1]]);
  }

  /** The text of a chunk between two positions spans at least as many line breaks there. */
  ghost predicate Spanned(text: string, from: int, end: int, t: string, tight: bool) {
    && 0 <= from <= end <= |text|
    && Newlines(t) <= Newlines(text[from..end])
    && (Newlines(t) == Newlines(text[from..end]) <==> tight)
  }

  lemma LocatedLast(text: string, from: nat, behind: bool, pieces: seq<Piece>)
    requires Located(text, from, behind, pieces) && pieces != []
    ensures Lies(text, pieces[0]) && Lies(text, Last(pieces))
  {
    LocatedSlice(text, from, behind, pieces, |pieces| - 1);
    assert pieces[|pieces| - 1..][0] == Last(pieces);
  }

  lemma WholeEnds(text: string, t: string, first: Piece, last: Piece)
    requires Lies(text, first) && Lies(text, last) && first.at < EndOf(last) && BothEnds(t, first.text, last.text)
    ensures Ends(text, first.at, EndOf(last), t)
  {
    LastChar(text, first);
    LastChar(text, last);
  }

  /** A chunk made of whole paragraphs. */
  lemma WholeEnd(text: string, t: string, from: nat, behind: bool, added: seq<Piece>)
    requires Located(text, from, behind, added) && added != [] && AllWhole(added)
    requires t == Join(Texts(added), SEPARATOR) && BothEnds(t, added[0].text, Last(added).text)
    ensures Ends(text, added[0].at, EndOf(Last(added)), t)
    ensures Spanned(text, added[0].at, EndOf(Last(added)), t, Tight(text, added))
  {
    SpanNewlines(text, from, behind, added);
    LocatedLast(text, from, behind, added);
    WholeEnds(text, t, added[0], Last(added));
  }

  lemma LastChar(text: string, p: Piece)
    requires Lies(text, p)
    ensures text[p.at] == p.text[0] && text[EndOf(p) - 1] == p.text[|p.text| - 1]
  {
    assert text[p.at + 0] == p.text[0] && text[p.at + (|p.text| - 1)] == p.text[|p.text| - 1];
  }

  /** What trimming leaves of a text that starts with something else than white space. */
  lemma RightTrimmed(s: string, t: string)
    requires s != "" && Ahead(s) == 0 && t == TrimBytes(s)
    ensures t != "" && t <= s && Clean(t)
  {
    InkNotBlank(s);
    TrimIsClean(s);
    BackParts(s);
  }

  /** A chunk made of one piece that starts with something else than white space. */
  lemma PieceEnd(text: string, t: string, p: Piece)
    requires Lies(text, p) && Ahead(p.text) == 0 && t == TrimBytes(p.text)
    ensures Ends(text, p.at, p.at + |t|, t) && Spanned(text, p.at, p.at + |t|, t, true)
  {
    RightTrimmed(p.text, t);
    PrefixEnd(text, t, p);
  }

  lemma PrefixEnd(text: string, t: string, p: Piece)
    requires Lies(text, p) && t != "" && t <= p.text && Clean(t)
    ensures Ends(text, p.at, p.at + |t|, t) && Spanned(text, p.at, p.at + |t|, t, true)
  {
    var q := Piece(p.at, t, true);
    assert Lies(text, q);
    LastChar(text, q);
    TextSlice(text, p.at, t);
  }

  lemma WholeFirstEnd(text: string, t: string, added: seq<Piece>)
    requires Located(text, 0, false, added) && added != [] && AllWhole(added) && forall p :: p in added ==> TrimmedWhole(p)
    requires t == TrimBytes(Join(Texts(added), SEPARATOR))
    ensures |t| == |Join(Texts(added), SEPARATOR)|
    ensures Ends(text, added[0].at, EndOf(Last(added)), t)
    ensures Spanned(text, added[0].at, EndOf(Last(added)), t, Tight(text, added))
  {
    WholeStays(added, t);
    WholeEnd(text, t, 0, false, added);
  }

  lemma OneText(p: Piece)
    ensures Join(Texts([p]), SEPARATOR) == p.text
  {
    assert Texts([p]) == [p.text];
  }

  lemma FirstFacts(text: string, size: nat, added: seq<Piece>)
    requires size > 0 && added != [] && added <= PiecesIn(text, size)
    ensures Located(text, 0, false, added) && (forall p :: p in added ==> TrimmedWhole(p))
    ensures added[0].at == FirstInk(text) && Lies(text, added[0]) && Ahead(added[0].text) == 0
  {
    var pieces := PiecesIn(text, size);
    PiecesInText(text, size);
    LocatedPrefix(text, 0, false, pieces, |added|);
    InkOfFirst(text, size);
    assert added == pieces[..|added|];
    PiecesTrimmed(text, size);
    PrefixMembers(added, pieces);
  }

  lemma FirstWhole(text: string, size: nat, t: string, added: seq<Piece>, end: int)
    requires size > 0 && added != [] && added <= PiecesIn(text, size) && AllWhole(added)
    requires t == TrimBytes(Join(Texts(added), SEPARATOR)) && end == EndOf(Last(added)) + |t| - |Join(Texts(added), SEPARATOR)|
    ensures Ends(text, FirstInk(text), end, t)
    ensures Spanned(text, FirstInk(text), end, t, Tight(text, added))
  {
    FirstFacts(text, size, added);
    WholeFirstEnd(text, t, added);
    assert end == EndOf(Last(added));
  }

  lemma FirstSingle(text: string, size: nat, t: string, added: seq<Piece>, end: int)
    requires size > 0 && |added| == 1 && added <= PiecesIn(text, size)
    requires t == TrimBytes(Join(Texts(added), SEPARATOR)) && end == EndOf(Last(added)) + |t| - |Join(Texts(added), SEPARATOR)|
    ensures Ends(text, FirstInk(text), end, t)
    ensures Spanned(text, FirstInk(text), end, t, Tight(text, added))
  {
    var p := added[0];
    assert added == [p];
    FirstFacts(text, size, added);
    SingleEnd(text, t, p, end);
  }

  lemma SingleEnd(text: string, t: string, p: Piece, end: int)
    requires Lies(text, p) && Ahead(p.text) == 0 && t == TrimBytes(Join(Texts([p]), SEPARATOR))
    requires end == EndOf(p) + |t| - |Join(Texts([p]), SEPARATOR)|
    ensures Ends(text, p.at, end, t) && Spanned(text, p.at, end, t, true)
  {
    OneText(p);
    PieceEnd(text, t, p);
  }

  lemma Told(trim: string -> string, size: nat, overlap: nat, chunks: seq<TextChunk>, parts: seq<Part>, i: nat)
    requires Laid(trim, size, overlap, chunks, parts) && i < |chunks|
    ensures chunks[i].text == trim(Join(Whole(parts[i]), SEPARATOR))
    ensures chunks[i].startLine == FirstLine(chunks, i) && chunks[i].endLine == chunks[i].startLine + Newlines(chunks[i].text)
  {
    assert LaidAt(trim, size, overlap, chunks, parts, i);
  }

  /** Each chunk starts on the line behind the one on which the chunk before ends. */
  lemma ToldLines(trim: string -> string, size: nat, overlap: nat, chunks: seq<TextChunk>, parts: seq<Part>, i: nat)
    requires Laid(trim, size, overlap, chunks, parts) && i < |chunks|
    ensures chunks[i].startLine == if i == 0 then 1 else chunks[i - 1].startLine + Newlines(chunks[i - 1].text) + 1
  {
    Told(trim, size, overlap, chunks, parts, i);
    if i > 0 { Told(trim, size, overlap, chunks, parts, i - 1); }
  }

  /** The recorded start of a chunk that starts at a position is the line of that position if
      and only if no line break stands before it; the recorded end is that of its last
      character if and only if besides the text between holds no other line breaks. */
  ghost predicate LinesRight(text: string, c: TextChunk, ink: nat, end: int, tight: bool) {
    && Ends(text, ink, end, c.text)
    && (c.startLine == SourceLine(text, ink) <==> '\n' !in text[..ink])
    && (c.endLine == SourceLine(text, end - 1) <==> '\n' !in text[..ink] && tight)
  }

  /** The first chunk starts at the first character that is not white space; its recorded
      lines are right exactly when no line break stands before that and the white space between
      any two of its paragraphs holds no more than the double line break. */
  lemma FirstChunkLines(text: string, size: nat, overlap: nat, chunks: seq<TextChunk>, parts: seq<Part>)
    requires size > 0 && Laid(TrimBytes, size, overlap, chunks, parts) && Added(parts) == PiecesIn(text, size) && chunks != []
    ensures parts[0].added != []
    ensures LinesRight(text, chunks[0], FirstInk(text), ChunkEnd(chunks[0], parts[0].added), Tight(text, parts[0].added))
  {
    FirstPart(text, size, overlap, chunks, parts);
    FirstText(TrimBytes, size, overlap, chunks, parts);
    var end := ChunkEnd(chunks[0], parts[0].added);
    if AllWhole(parts[0].added) {
      FirstWhole(text, size, chunks[0].text, parts[0].added, end);
    } else {
      FirstSingle(text, size, chunks[0].text, parts[0].added, end);
    }
    LinesOf(text, FirstInk(text), end, chunks[0], Tight(text, parts[0].added));
  }

  lemma FirstText(trim: string -> string, size: nat, overlap: nat, chunks: seq<TextChunk>, parts: seq<Part>)
    requires Laid(trim, size, overlap, chunks, parts) && chunks != [] && parts[0].carried == []
    ensures chunks[0].text == trim(Join(Texts(parts[0].added), SEPARATOR))
    ensures chunks[0].startLine == 1 && chunks[0].endLine == 1 + Newlines(chunks[0].text)
  {
    Told(trim, size, overlap, chunks, parts, 0);
    assert Whole(parts[0]) == Texts(parts[0].added);
  }

  lemma LinesOf(text: string, ink: nat, end: int, c: TextChunk, tight: bool)
    requires Ends(text, ink, end, c.text) && Spanned(text, ink, end, c.text, tight)
    requires c.startLine == 1 && c.endLine == 1 + Newlines(c.text)
    ensures LinesRight(text, c, ink, end, tight)
  {
    NoNewlines(text[..ink]);
    InkLine(text, end);
    NewlinesBetween(text, 0, ink, end);
    assert text[0..ink] == text[..ink] && text[0..end] == text[..end];
  }

  // ---- later chunks, without overlap ----

  lemma {:induction false} NothingCarried(prev: seq<string>)
    requires NoneEmpty(prev)
    ensures Tail(prev, 0) == []
  {
    if prev != [] { NothingCarried(prev[1..]); }
  }

  lemma PartPieces(text: string, size: nat, overlap: nat, chunks: seq<TextChunk>, parts: seq<Part>, i: nat)
    requires size > 0 && Laid(TrimBytes, size, overlap, chunks, parts) && Added(parts) == PiecesIn(text, size) && i < |parts|
    ensures parts[i].added != [] && forall p :: p in parts[i].added ==> p in PiecesIn(text, size) && TrimmedWhole(p)
  {
    assert LaidAt(TrimBytes, size, overlap, chunks, parts, i);
    AddedPrefix(parts, i);
    PiecesTrimmed(text, size);
    var all := Added(parts[..i]) + parts[i].added;
    PrefixMembers(all, PiecesIn(text, size));
    forall p | p in parts[i].added ensures p in all {
    }
  }

  lemma {:induction false} CarriesNothing(text: string, size: nat, chunks: seq<TextChunk>, parts: seq<Part>, i: nat)
    requires size > 0 && Laid(TrimBytes, size, 0, chunks, parts) && Added(parts) == PiecesIn(text, size) && i < |parts|
    ensures parts[i].carried == []
  {
    Carried(size, chunks, parts, i);
    if i > 0 {
      CarriesNothing(text, size, chunks, parts, i - 1);
      PartPieces(text, size, 0, chunks, parts, i - 1);
      TextsNotEmpty(parts[i - 1].added);
      assert Whole(parts[i - 1]) == Texts(parts[i - 1].added);
      NothingCarried(Whole(parts[i - 1]));
    }
  }

  lemma Carried(size: nat, chunks: seq<TextChunk>, parts: seq<Part>, i: nat)
    requires Laid(TrimBytes, size, 0, chunks, parts) && i < |parts|
    ensures parts[i].carried == if i == 0 then [] else Tail(Whole(parts[i - 1]), 0)
  {
    assert LaidAt(TrimBytes, size, 0, chunks, parts, i);
  }

  /** No paragraph has to be cut. */
  predicate AllShort(text: string, size: nat) {
    forall p :: p in Paragraphs(text) ==> |TrimBytes(p)| <= size
  }

  lemma {:induction false} SlicedWhole(slice: Layout, paras: seq<string>, base: nat)
    requires forall para, at: nat :: para in paras ==> AllWhole(slice(para, at))
    ensures AllWhole(Pieces(slice, paras, base))
  {
    if paras != [] {
      assert forall p :: p in paras[1..] ==> p in paras;
      SlicedWhole(slice, paras[1..], base + |paras[0]| + |SEPARATOR|);
      assert AllWhole(slice(paras[0], base));
    }
  }

  lemma ShortSlice(size: nat, para: string, at: nat)
    requires size > 0 && |TrimBytes(para)| <= size
    ensures AllWhole(Slicing(TrimBytes, Lead, size)(para, at))
  {
    SliceIs(TrimBytes, Lead, size, para, at);
  }

  lemma ShortWhole(text: string, size: nat)
    requires size > 0 && AllShort(text, size)
    ensures AllWhole(PiecesIn(text, size))
  {
    var slice: Layout := Slicing(TrimBytes, Lead, size);
    forall para: string, at: nat | para in Paragraphs(text) ensures AllWhole(slice(para, at)) {
      ShortSlice(size, para, at);
    }
    SlicedWhole(slice, Paragraphs(text), 0);
  }

  /** Where the new pieces of a chunk stand among the pieces of the text. */
  lemma PartAt(trim: string -> string, pieces: seq<Piece>, size: nat, chunks: seq<TextChunk>, parts: seq<Part>, i: nat)
    requires Laid(trim, size, 0, chunks, parts) && Added(parts) == pieces && i + 1 < |parts|
    ensures var k, m := |Added(parts[..i])|, |parts[i].added|;
      && 0 < m < |pieces| - k && parts[i + 1].added != []
      && pieces[k..][..m] == parts[i].added && pieces[k..][m] == parts[i + 1].added[0]
  {
    assert LaidAt(trim, size, 0, chunks, parts, i) && LaidAt(trim, size, 0, chunks, parts, i + 1);
    AddedPrefix(parts, i + 1);
    assert parts[..i + 1][..i] == parts[..i] && Last(parts[..i + 1]) == parts[i];
    PrefixAt(Added(parts[..i]), parts[i].added, parts[i + 1].added, pieces);
  }

  lemma PrefixAt(a: seq<Piece>, b: seq<Piece>, c: seq<Piece>, all: seq<Piece>)
    requires a + b + c <= all && c != []
    ensures |a| + |b| < |all| && all[|a|..][..|b|] == b && all[|a|..][|b|] == c[0]
  {
    assert (a + b + c)[|a| + |b|] == c[0];
  }

  lemma StepBehind(text: string, size: nat, chunks: seq<TextChunk>, parts: seq<Part>, i: nat)
    requires size > 0 && Laid(TrimBytes, size, 0, chunks, parts) && Added(parts) == PiecesIn(text, size) && i + 1 < |parts|
    requires AllWhole(PiecesIn(text, size))
    ensures parts[i].added != [] && parts[i + 1].added != []
    ensures parts[i].added[0].at <= |text| && parts[i + 1].added[0].at <= |text|
    ensures SourceLine(text, parts[i + 1].added[0].at) >= SourceLine(text, parts[i].added[0].at) + Newlines(chunks[i].text) + 2
  {
    var k, m, pieces := |Added(parts[..i])|, |parts[i].added|, PiecesIn(text, size);
    PartAt(TrimBytes, pieces, size, chunks, parts, i);
    PiecesInText(text, size);
    LocatedSlice(text, 0, false, pieces, k);
    DropMembers(pieces, k);
    LinesApart(text, if k == 0 then 0 else EndOf(pieces[k - 1]), k > 0, pieces[k..], m);
    PartContent(text, size, chunks, parts, i);
    assert pieces[k..][0] == parts[i].added[0];
  }

  lemma DropMembers(pieces: seq<Piece>, k: nat)
    requires AllWhole(pieces) && k <= |pieces|
    ensures AllWhole(pieces[k..])
  {
    forall p | p in pieces[k..] ensures p in pieces {
    }
  }

  lemma PartContent(text: string, size: nat, chunks: seq<TextChunk>, parts: seq<Part>, i: nat)
    requires size > 0 && Laid(TrimBytes, size, 0, chunks, parts) && Added(parts) == PiecesIn(text, size) && i < |parts|
    requires AllWhole(PiecesIn(text, size))
    ensures parts[i].added != [] && chunks[i].text == Join(Texts(parts[i].added), SEPARATOR)
    ensures chunks[i].text != "" && parts[i].added[0].text != "" && chunks[i].text[0] == parts[i].added[0].text[0]
  {
    var added := parts[i].added;
    Told(TrimBytes, size, 0, chunks, parts, i);
    CarriesNothing(text, size, chunks, parts, i);
    PartPieces(text, size, 0, chunks, parts, i);
    assert Whole(parts[i]) == Texts(added);
    WholeStays(added, chunks[i].text);
  }

  lemma {:induction false} RecordedBefore(text: string, size: nat, chunks: seq<TextChunk>, parts: seq<Part>, i: nat)
    requires size > 0 && Laid(TrimBytes, size, 0, chunks, parts) && Added(parts) == PiecesIn(text, size) && i < |parts|
    requires AllWhole(PiecesIn(text, size))
    ensures parts[i].added != [] && parts[i].added[0].at <= |text|
    ensures chunks[i].startLine + i <= SourceLine(text, parts[i].added[0].at)
  {
    ToldLines(TrimBytes, size, 0, chunks, parts, i);
    if i == 0 {
      FirstPart(text, size, 0, chunks, parts);
      InkOfFirst(text, size);
    } else {
      RecordedBefore(text, size, chunks, parts, i - 1);
      StepBehind(text, size, chunks, parts, i - 1);
    }
  }

  lemma StartChar(text: string, size: nat, chunks: seq<TextChunk>, parts: seq<Part>, i: nat)
    requires size > 0 && Laid(TrimBytes, size, 0, chunks, parts) && Added(parts) == PiecesIn(text, size) && i < |parts|
    requires AllWhole(PiecesIn(text, size))
    ensures parts[i].added != [] && chunks[i].text != "" && parts[i].added[0].at < |text|
    ensures text[parts[i].added[0].at] == chunks[i].text[0]
  {
    PartContent(text, size, chunks, parts, i);
    PartPieces(text, size, 0, chunks, parts, i);
    PiecesInText(text, size);
    assert parts[i].added[0] in parts[i].added;
    MemberLies(text, 0, false, PiecesIn(text, size), parts[i].added[0]);
    LastChar(text, parts[i].added[0]);
  }

  lemma {:induction false} MemberLies(text: string, from: nat, behind: bool, pieces: seq<Piece>, p: Piece)
    requires Located(text, from, behind, pieces) && p in pieces
    ensures Lies(text, p)
    decreases |pieces|
  {
    if pieces[0] != p {
      MemberLies(text, EndOf(pieces[0]), true, pieces[1..], p);
    }
  }

  /** Without overlap, and when no paragraph has to be cut, chunk i is recorded at least i
      lines before the line on which it starts: the recorded start is right for the first
      chunk alone, and for it exactly when no line break stands before it. */
  lemma LaterChunksBefore(text: string, size: nat, chunks: seq<TextChunk>, parts: seq<Part>, i: nat)
    requires size > 0 && Laid(TrimBytes, size, 0, chunks, parts) && Added(parts) == PiecesIn(text, size) && i < |chunks|
    requires AllShort(text, size)
    ensures parts[i].added != [] && chunks[i].text != ""
    ensures var at := parts[i].added[0].at;
      && at < |text| && text[at] == chunks[i].text[0]
      && chunks[i].startLine + i <= SourceLine(text, at)
      && (chunks[i].startLine == SourceLine(text, at) <==> i == 0 && '\n' !in text[..FirstInk(text)])
  {
    ShortWhole(text, size);
    RecordedBefore(text, size, chunks, parts, i);
    StartChar(text, size, chunks, parts, i);
    if i == 0 {
      FirstPart(text, size, 0, chunks, parts);
      InkOfFirst(text, size);
      FirstChunkLines(text, size, 0, chunks, parts);
    }
  }

  // ---- a text whose chunk is recorded on the wrong line ----

  lemma {:induction false} OneParagraph(line: string)
    requires '\n' !in line
    ensures Paragraphs(line) == [line]
  {
    if |line| >= 2 {
      OneParagraph(line[1..]);
      assert line == [line[0]] + line[1..];
    }
  }

  lemma SecondPieces(slice: Layout, line: string)
    requires slice(line, 2) != []
    ensures Pieces(slice, [""] + [line], 0) != []
  {
    assert ([""] + [line])[1..] == [line];
    assert Pieces(slice, [line], 2) == slice(line, 2) + Pieces(slice, [line][1..], 2 + |line| + |SEPARATOR|);
  }

  lemma LayingSome(size: nat, t: string, at: nat)
    requires size > 0 && t != ""
    ensures Laying(size)(t, at) != []
  {
  }

  lemma SecondParagraph(line: string)
    requires '\n' !in line
    ensures Paragraphs("\n\n" + line) == [""] + [line]
  {
    OneParagraph(line);
    assert ("\n\n" + line)[2..] == line;
  }

  lemma ThirdLine(line: string)
    requires line != "" && Ahead(line) == 0
    ensures FirstInk("\n\n" + line) == 2 && '\n' in ("\n\n" + line)[..2] && SourceLine("\n\n" + line, 2) == 3
  {
    var text := "\n\n" + line;
    assert text[..2] == "\n\n" && text[2] == line[0];
    BlankSeparator();
    assert text[2..] == line;
    InkIs(text, 2);
    assert "\n\n"[1..] == "\n" && "\n"[1..] == "";
  }

  /** Behind two empty lines a line is recorded as the first. */
  lemma LinesAreNotSourceLines(line: string, size: nat, overlap: nat, chunks: seq<TextChunk>, parts: seq<Part>)
    requires 0 < |line| <= size && '\n' !in line && Clean(line)
    requires Laid(TrimBytes, size, overlap, chunks, parts) && Added(parts) == PiecesIn("\n\n" + line, size)
    ensures chunks != [] && chunks[0].startLine == 1 && SourceLine("\n\n" + line, FirstInk("\n\n" + line)) == 3
  {
    CleanIsFixed(line);
    SliceIs(TrimBytes, Lead, size, line, 2);
    LayingSome(size, TrimBytes(line), 2 + Lead(line));
    SecondPieces(Slicing(TrimBytes, Lead, size), line);
    SecondParagraph(line);
    assert parts != [];
    Told(TrimBytes, size, overlap, chunks, parts, 0);
    ThirdLine(line);
  }
}
