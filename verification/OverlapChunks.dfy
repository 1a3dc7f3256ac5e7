/** Splitting a text into chunks at paragraph boundaries, each chunk carrying over the tail
    of the one before. Sizes are counted in bytes and long paragraphs are cut at byte
    positions, so a text here is a sequence of bytes. */
module OverlapChunks {
  import opened ByteTrimming
  import opened Strings
  import opened Sequences
  import opened TextChunks
  import opened Trimming

  const SEPARATOR: string := "\n\n"

  /** strings.Split at double line breaks. */
  function Paragraphs(s: string): (r: seq<string>)
    ensures r != []
  {
    if |s| < 2 then [s]
    else if s[0] == '\n' && s[1] == '\n' then [""] + Paragraphs(s[2..])
    else
      var rest := Paragraphs(s[1..]);
      [[s[0]] + rest[0]] + rest[1..]
  }

  lemma {:induction false} JoinParagraphs(s: string)
    ensures Join(Paragraphs(s), SEPARATOR) == s
  {
    if |s| < 2 {
    } else if s[0] == '\n' && s[1] == '\n' {
      JoinParagraphs(s[2..]);
      assert ([""] + Paragraphs(s[2..]))[1..] == Paragraphs(s[2..]);
      assert s == SEPARATOR + s[2..];
    } else {
      JoinParagraphs(s[1..]);
      JoinHead([s[0]], Paragraphs(s[1..]));
      assert s == [s[0]] + s[1..];
    }
  }

  lemma JoinHead(head: string, parts: seq<string>)
    requires parts != []
    ensures Join([head + parts[0]] + parts[1..], SEPARATOR) == head + Join(parts, SEPARATOR)
  {
    assert ([head + parts[0]] + parts[1..])[1..] == parts[1..];
    if |parts| > 1 {
      ConcatAssoc(head, parts[0], SEPARATOR);
      ConcatAssoc(head, parts[0] + SEPARATOR, Join(parts[1..], SEPARATOR));
    }
  }

  /** A piece of the text: where it starts, and whether it was cut off a long paragraph. */
  datatype Piece = Piece(at: nat, text: string, cut: bool)

  function Texts(pieces: seq<Piece>): (r: seq<string>)
    ensures |r| == |pieces|
  {
    seq(|pieces|, i requires 0 <= i < |pieces| => pieces[i].text)
  }

  lemma TextsCons(piece: Piece, pieces: seq<Piece>)
    ensures Texts([piece] + pieces) == [piece.text] + Texts(pieces)
  {
  }

  lemma TextsSnoc(pieces: seq<Piece>, piece: Piece)
    ensures Texts(pieces + [piece]) == Texts(pieces) + [piece.text]
  {
  }

  function FirstCut(at: nat, para: string, size: nat): (p: Piece)
    ensures |p.text| == (if size > |para| then |para| else size) && p.text <= para
  {
    Piece(at, para[..if size > |para| then |para| else size], true)
  }

  /** A paragraph longer than size is cut into pieces of that many bytes. */
  function Cut(para: string, at: nat, size: nat): (r: seq<Piece>)
    requires size > 0
    ensures forall i :: 0 <= i < |r| ==> 0 < |r[i].text| <= size && r[i].cut
    decreases |para|
  {
    if para == "" then []
    else
      var piece := FirstCut(at, para, size);
      [piece] + Cut(para[|piece.text|..], at + |piece.text|, size)
  }

  /** The pieces of one trimmed paragraph that starts at a position. */
  function PiecesOf(para: string, at: nat, size: nat): seq<Piece>
    requires size > 0
  {
    if para == "" then [] else if |para| <= size then [Piece(at, para, false)] else Cut(para, at, size)
  }

  function Concat(parts: seq<string>): string {
    if parts == [] then "" else parts[0] + Concat(parts[1..])
  }

  lemma ConcatCons(head: string, parts: seq<string>)
    ensures Concat([head] + parts) == head + Concat(parts)
  {
    assert ([head] + parts)[1..] == parts;
  }

  lemma ConcatTexts(piece: Piece, more: seq<Piece>)
    ensures Concat(Texts([piece] + more)) == piece.text + Concat(Texts(more))
  {
    TextsCons(piece, more);
    ConcatCons(piece.text, Texts(more));
  }

  /** Cutting loses nothing. */
  lemma {:induction false} CutConserves(para: string, at: nat, size: nat)
    requires size > 0
    ensures Concat(Texts(Cut(para, at, size))) == para
    decreases |para|
  {
    if para != "" {
      var piece := FirstCut(at, para, size);
      var rest := para[|piece.text|..];
      var more := Cut(rest, at + |piece.text|, size);
      CutConserves(rest, at + |piece.text|, size);
      assert Cut(para, at, size) == [piece] + more;
      ConcatTexts(piece, more);
    }
  }

  lemma SizesCons(piece: Piece, more: seq<Piece>, at: nat, size: nat)
    requires piece.at == at && (more != [] ==> |piece.text| == size && more[0].at == at + |piece.text|)
    requires forall i :: 0 <= i < |more| - 1 ==> |more[i].text| == size && more[i + 1].at == more[i].at + |more[i].text|
    ensures var r := [piece] + more;
      r[0].at == at && forall i :: 0 <= i < |r| - 1 ==> |r[i].text| == size && r[i + 1].at == r[i].at + |r[i].text|
  {
    var r := [piece] + more;
    forall i | 0 <= i < |r| - 1 ensures |r[i].text| == size && r[i + 1].at == r[i].at + |r[i].text| {
      assert r[i + 1] == more[i];
      if i > 0 { assert r[i] == more[i - 1]; }
    }
  }

  /** Every piece but the last is as long as allowed, and each stands where it was cut. */
  lemma {:induction false} CutSizes(para: string, at: nat, size: nat)
    requires size > 0
    ensures var r := Cut(para, at, size);
      && (forall i :: 0 <= i < |r| - 1 ==> |r[i].text| == size)
      && (r != [] ==> r[0].at == at)
      && (forall i :: 0 <= i < |r| - 1 ==> r[i + 1].at == r[i].at + |r[i].text|)
    decreases |para|
  {
    if para != "" {
      var piece := FirstCut(at, para, size);
      var rest, r := para[|piece.text|..], Cut(para, at, size);
      var more := Cut(rest, at + |piece.text|, size);
      CutSizes(rest, at + |piece.text|, size);
      assert r == [piece] + more;
      SizesCons(piece, more, at, size);
    }
  }

  /** How one paragraph that starts at a position is laid in pieces: trimmed and, when it is
      too long, cut. lead counts the bytes trimmed off in front. */
  function Slicing(trim: string -> string, lead: string -> nat, size: nat): (string, nat) -> seq<Piece>
    requires size > 0
  {
    (para: string, at: nat) => PiecesOf(trim(para), at + lead(para), size)
  }

  /** The pieces of a text whose paragraphs start at a position. */
  function Pieces(slice: (string, nat) -> seq<Piece>, paras: seq<string>, base: nat): seq<Piece> {
    if paras == [] then []
    else slice(paras[0], base) + Pieces(slice, paras[1..], base + |paras[0]| + |SEPARATOR|)
  }

  /** Total length of some pieces. */
  function Sum(pieces: seq<string>): nat {
    if pieces == [] then 0 else |pieces[0]| + Sum(pieces[1..])
  }

  lemma {:induction false} SumConcat(a: seq<string>, b: seq<string>)
    ensures Sum(a + b) == Sum(a) + Sum(b)
  {
    if a == [] {
      assert a + b == b;
    } else {
      assert (a + b)[1..] == a[1..] + b;
      SumConcat(a[1..], b);
    }
  }

  ghost predicate NoneEmpty(pieces: seq<string>) {
    forall i :: 0 <= i < |pieces| ==> pieces[i] != ""
  }

  lemma {:induction false} CountAtMostSum(pieces: seq<string>)
    requires NoneEmpty(pieces)
    ensures |pieces| <= Sum(pieces)
  {
    if pieces != [] { CountAtMostSum(pieces[1..]); }
  }

  lemma {:induction false} JoinLength(pieces: seq<string>)
    requires pieces != []
    ensures |Join(pieces, SEPARATOR)| == Sum(pieces) + 2 * (|pieces| - 1)
  {
    if |pieces| > 1 { JoinLength(pieces[1..]); }
  }

  // ---- how large a chunk gets ----

  /** Pieces without the blank ones in front. */
  function Core(trim: string -> string, pieces: seq<string>): seq<string> {
    if pieces == [] then []
    else if trim(pieces[0]) == "" then Core(trim, pieces[1..])
    else pieces
  }

  lemma {:induction false} CoreSuffix(trim: string -> string, pieces: seq<string>)
    ensures IsSuffix(Core(trim, pieces), pieces)
  {
    if pieces != [] && trim(pieces[0]) == "" {
      CoreSuffix(trim, pieces[1..]);
      SuffixTransitive(Core(trim, pieces), pieces[1..], pieces);
    }
  }

  /** Length of the pieces joined, not counting blank pieces in front. */
  function Weight(trim: string -> string, pieces: seq<string>): nat {
    |Join(Core(trim, pieces), SEPARATOR)|
  }

  lemma {:induction false} CoreJoin(trim: string -> string, pieces: seq<string>)
    requires Trims(trim)
    ensures trim(Join(pieces, SEPARATOR)) == trim(Join(Core(trim, pieces), SEPARATOR))
  {
    if pieces != [] && trim(pieces[0]) == "" {
      CoreJoin(trim, pieces[1..]);
      if |pieces| > 1 {
        assert trim(BREAK + BREAK) == "" && BREAK + BREAK == SEPARATOR;
        assert trim(pieces[0] + SEPARATOR) == trim(SEPARATOR) == "";
        assert trim(pieces[0] + SEPARATOR + Join(pieces[1..], SEPARATOR)) == trim(Join(pieces[1..], SEPARATOR));
      }
    }
  }

  lemma {:induction false} CoreSnoc(trim: string -> string, pieces: seq<string>, last: string)
    ensures Core(trim, pieces + [last]) == (if Core(trim, pieces) == [] then Core(trim, [last]) else Core(trim, pieces) + [last])
  {
    if pieces == [] {
      assert pieces + [last] == [last];
    } else if trim(pieces[0]) == "" {
      assert (pieces + [last])[1..] == pieces[1..] + [last];
      CoreSnoc(trim, pieces[1..], last);
    }
  }

  lemma WeightSnoc(trim: string -> string, pieces: seq<string>, last: string)
    ensures Weight(trim, pieces + [last]) <= Weight(trim, pieces) + 2 + |last|
    ensures Core(trim, pieces) == [] ==> Weight(trim, pieces + [last]) <= |last|
  {
    CoreSnoc(trim, pieces, last);
    assert Core(trim, [last]) == [] || Core(trim, [last]) == [last];
    if Core(trim, pieces) != [] {
      JoinSnoc(Core(trim, pieces), last, SEPARATOR);
    }
  }

  lemma TextWithin(trim: string -> string, pieces: seq<string>)
    requires Trims(trim) && Settles(trim)
    ensures |trim(Join(pieces, SEPARATOR))| <= Weight(trim, pieces)
  {
    CoreJoin(trim, pieces);
  }

  lemma {:induction false} BlankCore(trim: string -> string, pieces: seq<string>)
    requires Trims(trim) && trim(Join(pieces, SEPARATOR)) == ""
    ensures Core(trim, pieces) == []
  {
    if |pieces| > 1 {
      var rest := Join(pieces[1..], SEPARATOR);
      assert pieces[0] + SEPARATOR + rest == pieces[0] + BREAK + (BREAK + rest);
      assert trim(BREAK + rest) == trim(rest) && trim(rest) == "";
      BlankCore(trim, pieces[1..]);
    }
  }

  lemma NotBlank(trim: string -> string, pieces: seq<string>, last: string)
    requires Trims(trim) && trim(last) != ""
    ensures trim(Join(pieces + [last], SEPARATOR)) != ""
  {
    if trim(Join(pieces + [last], SEPARATOR)) == "" {
      BlankCore(trim, pieces + [last]);
      CoreSnoc(trim, pieces, last);
      assert false;
    }
  }

  // ---- what is carried over ----

  /** The tail of prev that is carried over. */
  function Tail(prev: seq<string>, overlap: nat): seq<string> {
    if Sum(prev) <= overlap then prev else Tail(prev[1..], overlap)
  }

  /** It is the longest tail whose pieces total at most overlap. */
  lemma {:induction false} TailIsLongest(prev: seq<string>, overlap: nat)
    ensures IsSuffix(Tail(prev, overlap), prev) && Sum(Tail(prev, overlap)) <= overlap
    ensures forall t :: IsSuffix(t, prev) && Sum(t) <= overlap ==> |t| <= |Tail(prev, overlap)|
  {
    if Sum(prev) > overlap {
      TailIsLongest(prev[1..], overlap);
      SuffixTransitive(Tail(prev, overlap), prev[1..], prev);
      forall t | IsSuffix(t, prev) && Sum(t) <= overlap ensures |t| <= |Tail(prev, overlap)| {
        SuffixOfRest(t, prev);
      }
    }
  }

  lemma SuffixOfRest(t: seq<string>, prev: seq<string>)
    requires IsSuffix(t, prev) && t != prev
    ensures IsSuffix(t, prev[1..])
  {
    assert prev[0..] == prev;
    assert prev[1..][|prev| - 1 - |t|..] == prev[|prev| - |t|..];
  }

  lemma SuffixSum(prev: seq<string>, k: nat)
    requires k <= |prev|
    ensures Sum(prev[k..]) <= Sum(prev)
  {
    assert prev == prev[..k] + prev[k..];
    SumConcat(prev[..k], prev[k..]);
  }

  lemma {:induction false} TailFrom(prev: seq<string>, overlap: nat, k: nat)
    requires k <= |prev| && Sum(prev[k..]) <= overlap && (k > 0 ==> Sum(prev[k - 1..]) > overlap)
    ensures Tail(prev, overlap) == prev[k..]
  {
    if k == 0 {
      assert prev[0..] == prev;
    } else {
      SuffixSum(prev, k - 1);
      assert prev[1..][k - 1..] == prev[k..];
      if k > 1 { assert prev[1..][k - 2..] == prev[k - 1..]; }
      TailFrom(prev[1..], overlap, k - 1);
    }
  }

  method Carry(current: seq<string>, overlap: nat) returns (carry: seq<string>, carryLen: nat)
    ensures carry == Tail(current, overlap) && carryLen == Sum(carry) <= overlap
  {
    carry, carryLen := [], 0;
    var i := |current| - 1;
    while i >= 0
      invariant -1 <= i < |current| && carry == current[i + 1..]
      invariant carryLen == Sum(carry) <= overlap
    {
      var pLen := |current[i]|;
      assert current[i..] == [current[i]] + current[i + 1..];
      if carryLen + pLen > overlap {
        break;
      }
      carry := [current[i]] + carry;
      carryLen := carryLen + pLen;
      i := i - 1;
    }
    TailFrom(current, overlap, i + 1);
  }

  // ---- what a list of chunks has to say about its text ----

  /** Where a chunk came from: the pieces carried over from the chunk before, then new ones. */
  datatype Part = Part(carried: seq<string>, added: seq<Piece>)

  function Whole(part: Part): seq<string> {
    part.carried + Texts(part.added)
  }

  function Added(parts: seq<Part>): seq<Piece> {
    if parts == [] then [] else Added(parts[..|parts| - 1]) + parts[|parts| - 1].added
  }

  function Newlines(s: string): nat {
    if s == "" then 0 else (if s[0] == '\n' then 1 else 0) + Newlines(s[1..])
  }

  /** Line on which chunk i is said to start: one after the end of the chunk before. */
  function FirstLine(chunks: seq<TextChunk>, i: nat): nat
    requires i <= |chunks|
  {
    if i == 0 then 1 else chunks[i - 1].endLine + 1
  }

  /** What chunk i, starting at line, says: the trimmed text of its pieces, and a range of as
      many lines as that text has. */
  predicate Tells(trim: string -> string, c: TextChunk, part: Part, line: nat) {
    && c.text == trim(Join(Whole(part), SEPARATOR)) && c.text != ""
    && c.startLine == line && c.endLine == line + Newlines(c.text)
  }

  /** What chunk i carries over, given the parts before it. */
  predicate CarriesOver(parts: seq<Part>, i: nat, carried: seq<string>, overlap: nat)
    requires i <= |parts|
  {
    carried == if i == 0 then [] else Tail(Whole(parts[i - 1]), overlap)
  }

  /** What the size check counts: the pieces, and a separator in front of each whole
      paragraph but the first; none in front of a cut piece or between carried ones. */
  function Counted(carried: seq<string>, added: seq<Piece>): nat {
    if added == [] then Sum(carried)
    else
      Counted(carried, Init(added)) + |Last(added).text|
      + (if Last(added).cut || (carried == [] && |added| == 1) then 0 else |SEPARATOR|)
  }

  lemma CountedSnoc(carried: seq<string>, added: seq<Piece>, piece: Piece)
    ensures Counted(carried, added + [piece])
         == Counted(carried, added) + |piece.text| + if piece.cut || (carried == [] && added == []) then 0 else |SEPARATOR|
  {
    assert Init(added + [piece]) == added;
  }

  /** The next piece may join the current ones: a whole paragraph that the size has room for,
      or a cut piece behind nothing but blank. */
  predicate Joins(trim: string -> string, size: nat, carried: seq<string>, added: seq<Piece>, next: Piece) {
    if next.cut then trim(Join(carried + Texts(added), SEPARATOR)) == ""
    else Counted(carried, added) + |SEPARATOR| + |next.text| <= size
  }

  /** Every piece of a part but the first could join those before it. */
  predicate Packed(trim: string -> string, size: nat, carried: seq<string>, added: seq<Piece>) {
    |added| > 1 ==> Packed(trim, size, carried, Init(added)) && Joins(trim, size, carried, Init(added), Last(added))
  }

  /** A part is closed only when the next piece is cut off a long paragraph or would pass the
      size. */
  predicate Filled(size: nat, part: Part, next: Piece) {
    next.cut || Counted(part.carried, part.added) + |SEPARATOR| + |next.text| > size
  }

  lemma PackedSnoc(trim: string -> string, size: nat, carried: seq<string>, added: seq<Piece>, piece: Piece)
    requires Packed(trim, size, carried, added) && (added != [] ==> Joins(trim, size, carried, added, piece))
    ensures Packed(trim, size, carried, added + [piece])
  {
    assert Init(added + [piece]) == added;
  }

  /** Chunk i tells its part, which has something new, carries over the longest tail of the
      part before that the overlap allows, is not larger than it should be, takes in what the
      size allows, and follows a chunk that was closed for a reason. */
  ghost predicate LaidAt(trim: string -> string, size: nat, overlap: nat, chunks: seq<TextChunk>, parts: seq<Part>, i: nat)
    requires i < |chunks| && i < |parts|
  {
    && Tells(trim, chunks[i], parts[i], FirstLine(chunks, i))
    && CarriesOver(parts, i, parts[i].carried, overlap)
    && parts[i].added != []
    && |chunks[i].text| <= size + 3 * overlap
    && Packed(trim, size, parts[i].carried, parts[i].added)
    && (i > 0 ==> Filled(size, parts[i - 1], parts[i].added[0]))
  }

  ghost predicate Laid(trim: string -> string, size: nat, overlap: nat, chunks: seq<TextChunk>, parts: seq<Part>) {
    |chunks| == |parts| && forall i :: 0 <= i < |parts| ==> LaidAt(trim, size, overlap, chunks, parts, i)
  }

  lemma LaidStays(trim: string -> string, size: nat, overlap: nat, chunks: seq<TextChunk>, parts: seq<Part>, c: TextChunk, part: Part, i: nat)
    requires i < |chunks| && i < |parts| && LaidAt(trim, size, overlap, chunks, parts, i)
    ensures LaidAt(trim, size, overlap, chunks + [c], parts + [part], i)
  {
  }

  /** The same, chunk by chunk. */
  ghost predicate LaidSoFar(trim: string -> string, size: nat, overlap: nat, chunks: seq<TextChunk>, parts: seq<Part>) {
    && |chunks| == |parts|
    && (parts != [] ==>
          && LaidSoFar(trim, size, overlap, Init(chunks), Init(parts))
          && LaidAt(trim, size, overlap, chunks, parts, |parts| - 1))
  }

  lemma {:induction false} LaidEach(trim: string -> string, size: nat, overlap: nat, chunks: seq<TextChunk>, parts: seq<Part>, i: nat)
    requires LaidSoFar(trim, size, overlap, chunks, parts) && i < |parts|
    ensures LaidAt(trim, size, overlap, chunks, parts, i)
    decreases |parts|
  {
    if i < |parts| - 1 {
      LaidEach(trim, size, overlap, Init(chunks), Init(parts), i);
      LaidStays(trim, size, overlap, Init(chunks), Init(parts), Last(chunks), Last(parts), i);
      InitLast(chunks);
      InitLast(parts);
    }
  }

  lemma LaidAll(trim: string -> string, size: nat, overlap: nat, chunks: seq<TextChunk>, parts: seq<Part>)
    requires LaidSoFar(trim, size, overlap, chunks, parts)
    ensures Laid(trim, size, overlap, chunks, parts)
  {
    forall i | 0 <= i < |parts| ensures LaidAt(trim, size, overlap, chunks, parts, i) {
      LaidEach(trim, size, overlap, chunks, parts, i);
    }
  }

  lemma LaidMore(trim: string -> string, size: nat, overlap: nat, chunks: seq<TextChunk>, parts: seq<Part>, c: TextChunk, part: Part)
    requires LaidSoFar(trim, size, overlap, chunks, parts)
    requires Tells(trim, c, part, FirstLine(chunks, |chunks|)) && CarriesOver(parts, |parts|, part.carried, overlap)
    requires part.added != [] && |c.text| <= size + 3 * overlap && Packed(trim, size, part.carried, part.added)
    requires parts != [] ==> Filled(size, Last(parts), part.added[0])
    ensures LaidSoFar(trim, size, overlap, chunks + [c], parts + [part])
  {
    var cs, ps := chunks + [c], parts + [part];
    assert Init(cs) == chunks && Init(ps) == parts;
    assert cs[|chunks|] == c && ps[|parts|] == part && FirstLine(cs, |chunks|) == FirstLine(chunks, |chunks|);
  }

  lemma AddedSnoc(parts: seq<Part>, part: Part)
    ensures Added(parts + [part]) == Added(parts) + part.added
  {
    var ps := parts + [part];
    assert ps[..|ps| - 1] == parts;
  }

  /** Everything in done is laid in chunks or waits as carried and added. */
  ghost predicate Holds(trim: string -> string, size: nat, overlap: nat, chunks: seq<TextChunk>, parts: seq<Part>,
                        lineOffset: nat, carried: seq<string>, added: seq<Piece>, done: seq<Piece>) {
    && LaidSoFar(trim, size, overlap, chunks, parts)
    && lineOffset == FirstLine(chunks, |chunks|)
    && CarriesOver(parts, |parts|, carried, overlap)
    && done == Added(parts) + added
    && Packed(trim, size, carried, added)
    && (parts != [] && added != [] ==> Filled(size, Last(parts), added[0]))
  }

  lemma FlushHolds(trim: string -> string, size: nat, overlap: nat, chunks: seq<TextChunk>, parts: seq<Part>,
                   lineOffset: nat, carried: seq<string>, added: seq<Piece>, done: seq<Piece>,
                   c: TextChunk, carry: seq<string>)
    requires Holds(trim, size, overlap, chunks, parts, lineOffset, carried, added, done)
    requires Tells(trim, c, Part(carried, added), lineOffset) && added != [] && |c.text| <= size + 3 * overlap
    requires carry == Tail(carried + Texts(added), overlap)
    ensures Holds(trim, size, overlap, chunks + [c], parts + [Part(carried, added)], c.endLine + 1, carry, [], done)
  {
    var part := Part(carried, added);
    LaidMore(trim, size, overlap, chunks, parts, c, part);
    AddedSnoc(parts, part);
    NextOffset(chunks, c);
    assert CarriesOver(parts + [part], |parts + [part]|, carry, overlap);
  }

  lemma NextOffset(chunks: seq<TextChunk>, c: TextChunk)
    ensures FirstLine(chunks + [c], |chunks + [c]|) == c.endLine + 1
  {
  }

  lemma AppendHolds(trim: string -> string, size: nat, overlap: nat, chunks: seq<TextChunk>, parts: seq<Part>,
                    lineOffset: nat, carried: seq<string>, added: seq<Piece>, done: seq<Piece>, piece: Piece)
    requires Holds(trim, size, overlap, chunks, parts, lineOffset, carried, added, done)
    requires added != [] ==> Joins(trim, size, carried, added, piece)
    requires added == [] && parts != [] ==> Filled(size, Last(parts), piece)
    ensures Holds(trim, size, overlap, chunks, parts, lineOffset, carried, added + [piece], done + [piece])
  {
    PackedSnoc(trim, size, carried, added, piece);
    ConcatAssoc(Added(parts), added, [piece]);
  }

  // ---- room for one more piece ----

  /** One more piece stays within the size, whatever is current. */
  ghost predicate HasRoom(trim: string -> string, overlap: nat, current: seq<string>, currentLen: nat) {
    Core(trim, current) == [] || (Sum(current) <= overlap && Sum(current) <= currentLen)
  }

  /** The pieces may be flushed. */
  ghost predicate Fits(trim: string -> string, size: nat, overlap: nat, current: seq<string>, currentLen: nat) {
    Weight(trim, current) <= size + 3 * overlap && Weight(trim, current) <= currentLen + 2 * overlap
  }

  lemma RoomForOne(trim: string -> string, size: nat, overlap: nat, current: seq<string>, currentLen: nat, piece: string, newLen: nat)
    requires HasRoom(trim, overlap, current, currentLen) && NoneEmpty(current)
    requires |piece| <= size && newLen >= currentLen + |piece|
    ensures Fits(trim, size, overlap, current + [piece], newLen)
  {
    WeightSnoc(trim, current, piece);
    if Core(trim, current) != [] {
      WeightOfCarry(trim, current, piece);
    }
  }

  lemma RoomInCurrent(trim: string -> string, size: nat, overlap: nat, current: seq<string>, currentLen: nat, para: string)
    requires |para| <= size
    requires current == [] || (Fits(trim, size, overlap, current, currentLen) && currentLen + 2 + |para| <= size)
    ensures Fits(trim, size, overlap, current + [para], currentLen + |para| + if |current| > 0 then 2 else 0)
  {
    WeightSnoc(trim, current, para);
  }

  lemma WeightOfCarry(trim: string -> string, carry: seq<string>, piece: string)
    requires NoneEmpty(carry)
    ensures Weight(trim, carry + [piece]) <= 3 * Sum(carry) + |piece|
  {
    CoreSnoc(trim, carry, piece);
    CoreSuffix(trim, carry);
    var core := Core(trim, carry);
    if core == [] {
      assert Core(trim, [piece]) == [] || Core(trim, [piece]) == [piece];
    } else {
      JoinSnoc(core, piece, SEPARATOR);
      JoinLength(core);
      CountAtMostSum(core);
      assert carry == carry[..|carry| - |core|] + core;
      SumConcat(carry[..|carry| - |core|], core);
    }
  }

  lemma EndNotBlankAt(trim: string -> string, paragraph: string, k: nat)
    requires Settles(trim) && trim(paragraph) == paragraph && k < |paragraph|
    ensures trim(paragraph[k..]) != ""
  {
    assert paragraph == paragraph[..k] + paragraph[k..];
  }

  lemma {:induction false} TailNoneEmpty(prev: seq<string>, overlap: nat)
    requires NoneEmpty(prev)
    ensures NoneEmpty(Tail(prev, overlap))
  {
    if Sum(prev) > overlap {
      TailNoneEmpty(prev[1..], overlap);
    }
  }

  lemma NoneEmptySnoc(pieces: seq<string>, piece: string)
    requires NoneEmpty(pieces) && piece != ""
    ensures NoneEmpty(pieces + [piece])
  {
  }

  // ---- one step on values ----

  datatype Setup = Setup(trim: string -> string, size: nat, overlap: nat)

  /** The variables that the flush closure captures, and where the current pieces and the
      chunks came from. */
  datatype Progress = Progress(
    chunks: seq<TextChunk>,
    current: seq<string>,
    currentLen: nat,
    lineOffset: nat,
    parts: seq<Part>,
    carried: seq<string>,
    added: seq<Piece>)

  const NOTHING: Progress := Progress([], [], 0, 1, [], [], [])

  function Emitted(cfg: Setup, st: Progress, content: string): Progress {
    var endLine := st.lineOffset + Newlines(content);
    var carry := Tail(st.current, cfg.overlap);
    Progress(st.chunks + [TextChunk(content, st.lineOffset, endLine)], carry, Sum(carry), endLine + 1,
             st.parts + [Part(st.carried, st.added)], carry, [])
  }

  /** Nothing happens when the current pieces are blank. */
  function Flushed(cfg: Setup, st: Progress): Progress {
    var content := cfg.trim(Join(st.current, SEPARATOR));
    if st.current == [] || content == "" then st else Emitted(cfg, st, content)
  }

  /** A cut piece is counted without a separator. */
  function Appended(st: Progress, piece: Piece): Progress {
    st.(current := st.current + [piece.text],
        currentLen := st.currentLen + |piece.text| + (if piece.cut || st.current == [] then 0 else |SEPARATOR|),
        added := st.added + [piece])
  }

  /** Room is made for a whole paragraph when the size has none for it. */
  function MadeRoom(cfg: Setup, st: Progress, para: string): Progress {
    if st.current != [] && st.currentLen + |SEPARATOR| + |para| > cfg.size then Flushed(cfg, st) else st
  }

  /** Piece after piece, with a flush between two. */
  function TakenOver(flush: Progress -> Progress, st: Progress, pieces: seq<Piece>): Progress
    decreases |pieces|
  {
    if pieces == [] then st
    else if |pieces| == 1 then Appended(st, pieces[0])
    else TakenOver(flush, flush(Appended(st, pieces[0])), pieces[1..])
  }

  function Flushing(cfg: Setup): Progress -> Progress {
    (st: Progress) => Flushed(cfg, st)
  }

  /** One paragraph that starts at a position. */
  function Taken(cfg: Setup, st: Progress, para: string, at: nat): Progress
    requires cfg.size > 0
  {
    if para == "" then st
    else if |para| > cfg.size then TakenOver(Flushing(cfg), Flushed(cfg, st), Cut(para, at, cfg.size))
    else Appended(MadeRoom(cfg, st, para), Piece(at, para, false))
  }

  /** All paragraphs, from a position on. */
  function TakenAll(take: (Progress, string, nat) -> Progress, st: Progress, paras: seq<string>, base: nat): Progress
    decreases |paras|
  {
    if paras == [] then st
    else TakenAll(take, take(st, paras[0], base), paras[1..], base + |paras[0]| + |SEPARATOR|)
  }

  // ---- what every step keeps ----

  ghost predicate Lawful(cfg: Setup) {
    Trims(cfg.trim) && Settles(cfg.trim) && cfg.size > 0
  }

  /** The pieces in done are laid in chunks or current. */
  ghost predicate At(cfg: Setup, st: Progress, done: seq<Piece>) {
    && Holds(cfg.trim, cfg.size, cfg.overlap, st.chunks, st.parts, st.lineOffset, st.carried, st.added, done)
    && st.current == st.carried + Texts(st.added) && NoneEmpty(st.current) && st.currentLen == Counted(st.carried, st.added)
  }

  /** The current pieces may be flushed. */
  ghost predicate Flushable(cfg: Setup, st: Progress) {
    st.current != [] ==> st.added != [] && Fits(cfg.trim, cfg.size, cfg.overlap, st.current, st.currentLen)
  }

  /** The next piece may be cut off a long paragraph. */
  ghost predicate Ready(cfg: Setup, st: Progress) {
    && HasRoom(cfg.trim, cfg.overlap, st.current, st.currentLen)
    && (st.added != [] ==> cfg.trim(Join(st.current, SEPARATOR)) == "")
  }

  /** A piece has just been added. */
  ghost predicate EndsWith(cfg: Setup, st: Progress, text: string) {
    st.current != [] && st.added != [] && Last(st.current) == text
    && Fits(cfg.trim, cfg.size, cfg.overlap, st.current, st.currentLen)
  }

  /** Between paragraphs: nothing yet, or a last piece that is not blank. */
  ghost predicate Tidy(cfg: Setup, st: Progress) {
    || (st.current == [] && st.parts == [])
    || (st.current != [] && EndsWith(cfg, st, Last(st.current)) && cfg.trim(Last(st.current)) != "")
  }

  lemma EmitHolds(cfg: Setup, st: Progress, done: seq<Piece>, content: string)
    requires At(cfg, st, done) && st.added != [] && |content| <= cfg.size + 3 * cfg.overlap
    requires content == cfg.trim(Join(st.current, SEPARATOR)) && content != ""
    ensures At(cfg, Emitted(cfg, st, content), done)
  {
    var carry := Tail(st.current, cfg.overlap);
    var c := TextChunk(content, st.lineOffset, st.lineOffset + Newlines(content));
    TailNoneEmpty(st.current, cfg.overlap);
    assert Tells(cfg.trim, c, Part(st.carried, st.added), st.lineOffset);
    FlushHolds(cfg.trim, cfg.size, cfg.overlap, st.chunks, st.parts, st.lineOffset, st.carried, st.added, done, c, carry);
    CarriedAt(cfg, st.chunks + [c], carry, c.endLine + 1, st.parts + [Part(st.carried, st.added)], done);
  }

  lemma CarriedAt(cfg: Setup, chunks: seq<TextChunk>, carry: seq<string>, lineOffset: nat, parts: seq<Part>, done: seq<Piece>)
    requires Holds(cfg.trim, cfg.size, cfg.overlap, chunks, parts, lineOffset, carry, [], done) && NoneEmpty(carry)
    ensures At(cfg, Progress(chunks, carry, Sum(carry), lineOffset, parts, carry, []), done)
  {
    CarriedOnly(carry);
  }

  lemma CarriedOnly(carry: seq<string>)
    ensures carry == carry + Texts([]) && Counted(carry, []) == Sum(carry)
  {
  }

  lemma EmitKeeps(cfg: Setup, st: Progress, done: seq<Piece>)
    requires Lawful(cfg) && At(cfg, st, done) && st.current != [] && Flushable(cfg, st)
    requires cfg.trim(Join(st.current, SEPARATOR)) != ""
    ensures var next := Emitted(cfg, st, cfg.trim(Join(st.current, SEPARATOR)));
      At(cfg, next, done) && Sum(next.current) <= cfg.overlap
  {
    TextWithin(cfg.trim, st.current);
    TailIsLongest(st.current, cfg.overlap);
    EmitHolds(cfg, st, done, cfg.trim(Join(st.current, SEPARATOR)));
  }

  /** A flush keeps everything; unless the current pieces are blank, they become a part. */
  lemma FlushKeeps(cfg: Setup, st: Progress, done: seq<Piece>)
    requires Lawful(cfg) && At(cfg, st, done) && Flushable(cfg, st)
    ensures At(cfg, Flushed(cfg, st), done) && Ready(cfg, Flushed(cfg, st))
    ensures if st.current == [] || cfg.trim(Join(st.current, SEPARATOR)) == "" then Flushed(cfg, st) == st
            else Flushed(cfg, st).added == [] && Flushed(cfg, st).parts == st.parts + [Part(st.carried, st.added)]
  {
    if st.current != [] {
      if cfg.trim(Join(st.current, SEPARATOR)) == "" {
        BlankCore(cfg.trim, st.current);
      } else {
        EmitKeeps(cfg, st, done);
      }
    }
  }

  lemma AppendKeeps(cfg: Setup, st: Progress, piece: Piece, done: seq<Piece>)
    requires At(cfg, st, done) && piece.text != ""
    requires st.added != [] ==> Joins(cfg.trim, cfg.size, st.carried, st.added, piece)
    requires st.added == [] && st.parts != [] ==> Filled(cfg.size, Last(st.parts), piece)
    ensures At(cfg, Appended(st, piece), done + [piece])
  {
    AppendHolds(cfg.trim, cfg.size, cfg.overlap, st.chunks, st.parts, st.lineOffset, st.carried, st.added, done, piece);
    CountedSnoc(st.carried, st.added, piece);
    TextsSnoc(st.added, piece);
    ConcatAssoc(st.carried, Texts(st.added), [piece.text]);
    NoneEmptySnoc(st.current, piece.text);
  }

  lemma CutPieceKeeps(cfg: Setup, st: Progress, piece: Piece, done: seq<Piece>)
    requires At(cfg, st, done) && Ready(cfg, st) && piece.cut && 0 < |piece.text| <= cfg.size
    ensures At(cfg, Appended(st, piece), done + [piece]) && EndsWith(cfg, Appended(st, piece), piece.text)
  {
    AppendKeeps(cfg, st, piece, done);
    RoomForOne(cfg.trim, cfg.size, cfg.overlap, st.current, st.currentLen, piece.text, st.currentLen + |piece.text|);
  }

  // ---- a long paragraph ----

  predicate AllCut(pieces: seq<Piece>, size: nat) {
    forall i :: 0 <= i < |pieces| ==> pieces[i].cut && 0 < |pieces[i].text| <= size
  }

  /** Taking pieces one by one keeps what a single one and a flush keep. */
  lemma {:induction false} TakenOverKeeps(flush: Progress -> Progress, at: (Progress, seq<Piece>) -> bool, ready: Progress -> bool,
      ends: (Progress, string) -> bool, size: nat, st: Progress, pieces: seq<Piece>, done: seq<Piece>)
    requires forall st: Progress, done: seq<Piece>, p: Piece :: at(st, done) && ready(st) && p.cut && 0 < |p.text| <= size ==>
               at(Appended(st, p), done + [p]) && ends(Appended(st, p), p.text)
    requires forall st: Progress, done: seq<Piece>, text: string :: at(st, done) && ends(st, text) ==> at(flush(st), done) && ready(flush(st))
    requires at(st, done) && ready(st) && pieces != [] && AllCut(pieces, size)
    ensures at(TakenOver(flush, st, pieces), done + pieces) && ends(TakenOver(flush, st, pieces), Last(pieces).text)
    decreases |pieces|
  {
    var next := Appended(st, pieces[0]);
    assert at(next, done + [pieces[0]]) && ends(next, pieces[0].text);
    SplitFirst(done, pieces);
    if |pieces| > 1 {
      TakenOverKeeps(flush, at, ready, ends, size, flush(next), pieces[1..], done + [pieces[0]]);
    }
  }

  lemma SplitFirst(done: seq<Piece>, pieces: seq<Piece>)
    requires pieces != []
    ensures done + [pieces[0]] + pieces[1..] == done + pieces
    ensures |pieces| == 1 ==> done + [pieces[0]] == done + pieces
    ensures |pieces| > 1 ==> Last(pieces[1..]) == Last(pieces)
  {
  }

  lemma {:induction false} LastCut(para: string, at: nat, size: nat) returns (k: nat)
    requires size > 0 && para != ""
    ensures Cut(para, at, size) != [] && k < |para| && Last(Cut(para, at, size)).text == para[k..]
    decreases |para|
  {
    var piece := FirstCut(at, para, size);
    var n := |piece.text|;
    CutOne(para, at, size);
    if para[n..] == "" {
      k := 0;
      assert piece.text == para && para[0..] == para;
    } else {
      var j := LastCut(para[n..], at + n, size);
      k := n + j;
      DropDrop(para, n, j);
      LastTail(Cut(para, at, size));
    }
  }

  lemma LastTail(pieces: seq<Piece>)
    requires pieces != [] && pieces[1..] != []
    ensures Last(pieces) == Last(pieces[1..])
  {
  }

  lemma DropDrop(s: string, n: nat, j: nat)
    requires n + j <= |s|
    ensures s[n..][j..] == s[n + j..]
  {
  }

  lemma LongKeeps(cfg: Setup, st: Progress, para: string, at: nat, done: seq<Piece>)
    requires Lawful(cfg) && At(cfg, st, done) && Ready(cfg, st) && para != "" && cfg.trim(para) == para
    ensures var next := TakenOver(Flushing(cfg), st, Cut(para, at, cfg.size));
      At(cfg, next, done + Cut(para, at, cfg.size)) && Tidy(cfg, next)
  {
    var holds := (st: Progress, done: seq<Piece>) => At(cfg, st, done);
    var ready := (st: Progress) => Ready(cfg, st);
    var ends := (st: Progress, text: string) => EndsWith(cfg, st, text);
    forall st: Progress, done: seq<Piece>, p: Piece | holds(st, done) && ready(st) && p.cut && 0 < |p.text| <= cfg.size
      ensures holds(Appended(st, p), done + [p]) && ends(Appended(st, p), p.text)
    {
      CutPieceKeeps(cfg, st, p, done);
    }
    forall st: Progress, done: seq<Piece>, text: string | holds(st, done) && ends(st, text)
      ensures holds(Flushed(cfg, st), done) && ready(Flushed(cfg, st))
    {
      FlushKeeps(cfg, st, done);
    }
    var k := LastCut(para, at, cfg.size);
    TakenOverKeeps(Flushing(cfg), holds, ready, ends, cfg.size, st, Cut(para, at, cfg.size), done);
    EndNotBlankAt(cfg.trim, para, k);
  }

  // ---- a paragraph that fits ----

  /** A whole paragraph may be added, and begins a part only when the one before was full. */
  ghost predicate RoomFor(cfg: Setup, r: Progress, para: string) {
    && Fits(cfg.trim, cfg.size, cfg.overlap, r.current + [para], r.currentLen + |para| + if r.current == [] then 0 else 2)
    && (r.added != [] ==> Counted(r.carried, r.added) + |SEPARATOR| + |para| <= cfg.size)
    && (r.added == [] && r.parts != [] ==> Counted(Last(r.parts).carried, Last(r.parts).added) + |SEPARATOR| + |para| > cfg.size)
  }

  lemma RoomAfterFlush(cfg: Setup, st: Progress, para: string, done: seq<Piece>)
    requires Lawful(cfg) && At(cfg, st, done) && Tidy(cfg, st) && 0 < |para| <= cfg.size
    requires st.current != [] && st.currentLen + |SEPARATOR| + |para| > cfg.size
    ensures At(cfg, Flushed(cfg, st), done) && RoomFor(cfg, Flushed(cfg, st), para)
  {
    TidyNotBlank(cfg.trim, st.current);
    FlushKeeps(cfg, st, done);
    RoomBehind(cfg, Flushed(cfg, st), para, Part(st.carried, st.added));
  }

  lemma RoomBehind(cfg: Setup, r: Progress, para: string, part: Part)
    requires Ready(cfg, r) && NoneEmpty(r.current) && r.added == [] && 0 < |para| <= cfg.size
    requires r.parts != [] && Last(r.parts) == part && Counted(part.carried, part.added) + |SEPARATOR| + |para| > cfg.size
    ensures RoomFor(cfg, r, para)
  {
    RoomForOne(cfg.trim, cfg.size, cfg.overlap, r.current, r.currentLen, para, r.currentLen + |para| + if r.current == [] then 0 else 2);
  }

  lemma RoomAtOnce(cfg: Setup, st: Progress, para: string, done: seq<Piece>)
    requires Lawful(cfg) && At(cfg, st, done) && Tidy(cfg, st) && 0 < |para| <= cfg.size
    requires st.current == [] || st.currentLen + |SEPARATOR| + |para| <= cfg.size
    ensures RoomFor(cfg, st, para)
  {
    RoomInCurrent(cfg.trim, cfg.size, cfg.overlap, st.current, st.currentLen, para);
  }

  lemma MadeRoomKeeps(cfg: Setup, st: Progress, para: string, done: seq<Piece>)
    requires Lawful(cfg) && At(cfg, st, done) && Tidy(cfg, st) && 0 < |para| <= cfg.size
    ensures At(cfg, MadeRoom(cfg, st, para), done) && RoomFor(cfg, MadeRoom(cfg, st, para), para)
  {
    if st.current != [] && st.currentLen + |SEPARATOR| + |para| > cfg.size {
      RoomAfterFlush(cfg, st, para, done);
    } else {
      RoomAtOnce(cfg, st, para, done);
    }
  }

  lemma WholeKeeps(cfg: Setup, st: Progress, para: string, at: nat, done: seq<Piece>)
    requires Lawful(cfg) && At(cfg, st, done) && Tidy(cfg, st) && 0 < |para| <= cfg.size && cfg.trim(para) == para
    ensures var next := Appended(MadeRoom(cfg, st, para), Piece(at, para, false));
      At(cfg, next, done + [Piece(at, para, false)]) && Tidy(cfg, next)
  {
    MadeRoomKeeps(cfg, st, para, done);
    AppendWhole(cfg, MadeRoom(cfg, st, para), para, at, done);
  }

  lemma AppendWhole(cfg: Setup, r: Progress, para: string, at: nat, done: seq<Piece>)
    requires At(cfg, r, done) && RoomFor(cfg, r, para) && para != "" && cfg.trim(para) == para
    ensures var next := Appended(r, Piece(at, para, false));
      At(cfg, next, done + [Piece(at, para, false)]) && Tidy(cfg, next)
  {
    AppendKeeps(cfg, r, Piece(at, para, false), done);
    assert Last(r.current + [para]) == para;
  }

  lemma TakenKeeps(cfg: Setup, st: Progress, para: string, at: nat, done: seq<Piece>)
    requires Lawful(cfg) && At(cfg, st, done) && Tidy(cfg, st) && cfg.trim(para) == para
    ensures At(cfg, Taken(cfg, st, para, at), done + PiecesOf(para, at, cfg.size)) && Tidy(cfg, Taken(cfg, st, para, at))
  {
    if para == "" {
      assert done + [] == done;
    } else if |para| > cfg.size {
      FlushKeeps(cfg, st, done);
      LongKeeps(cfg, Flushed(cfg, st), para, at, done);
    } else {
      WholeKeeps(cfg, st, para, at, done);
    }
  }

  /** Pieces that end with one that is not blank are not blank together. */
  lemma TidyNotBlank(trim: string -> string, current: seq<string>)
    requires Trims(trim) && (current != [] ==> trim(current[|current| - 1]) != "")
    ensures current != [] ==> trim(Join(current, SEPARATOR)) != ""
  {
    if current != [] {
      InitLast(current);
      NotBlank(trim, Init(current), Last(current));
    }
  }

  // ---- all paragraphs ----

  /** One paragraph as the text has it. */
  function Taking(cfg: Setup, lead: string -> nat): (Progress, string, nat) -> Progress
    requires cfg.size > 0
  {
    (st: Progress, para: string, at: nat) => Taken(cfg, st, cfg.trim(para), at + lead(para))
  }

  ghost predicate Kept(cfg: Setup, st: Progress, done: seq<Piece>) {
    At(cfg, st, done) && Tidy(cfg, st)
  }

  lemma TrimmedTaken(cfg: Setup, st: Progress, para: string, at: nat, done: seq<Piece>)
    requires Lawful(cfg) && Kept(cfg, st, done)
    ensures Kept(cfg, Taken(cfg, st, cfg.trim(para), at), done + PiecesOf(cfg.trim(para), at, cfg.size))
  {
    var p := cfg.trim(para);
    assert cfg.trim(cfg.trim(para)) == cfg.trim(para);
    TakenKeeps(cfg, st, p, at, done);
  }

  lemma StepsAre(cfg: Setup, lead: string -> nat, take: (Progress, string, nat) -> Progress, slice: (string, nat) -> seq<Piece>,
      st: Progress, para: string, at: nat)
    requires cfg.size > 0 && take == Taking(cfg, lead) && slice == Slicing(cfg.trim, lead, cfg.size)
    ensures take(st, para, at) == Taken(cfg, st, cfg.trim(para), at + lead(para))
    ensures slice(para, at) == PiecesOf(cfg.trim(para), at + lead(para), cfg.size)
  {
  }

  lemma NothingKept(cfg: Setup)
    ensures Kept(cfg, NOTHING, [])
  {
    assert [] + Texts([]) == [];
  }

  lemma {:induction false} TakenAllKeeps(take: (Progress, string, nat) -> Progress, slice: (string, nat) -> seq<Piece>,
      ok: (Progress, seq<Piece>) -> bool, st: Progress, paras: seq<string>, base: nat, done: seq<Piece>)
    requires forall st: Progress, done: seq<Piece>, para: string, at: nat ::
               ok(st, done) ==> ok(take(st, para, at), done + slice(para, at))
    requires ok(st, done)
    ensures ok(TakenAll(take, st, paras, base), done + Pieces(slice, paras, base))
    decreases |paras|
  {
    if paras == [] {
      assert done + [] == done;
    } else {
      var next := base + |paras[0]| + |SEPARATOR|;
      assert ok(take(st, paras[0], base), done + slice(paras[0], base));
      TakenAllKeeps(take, slice, ok, take(st, paras[0], base), paras[1..], next, done + slice(paras[0], base));
      ConcatAssoc(done, slice(paras[0], base), Pieces(slice, paras[1..], next));
    }
  }

  ghost function Keeping(cfg: Setup): (Progress, seq<Piece>) -> bool {
    (st: Progress, done: seq<Piece>) => Kept(cfg, st, done)
  }

  /** Taking a trimmed paragraph, and the pieces it is laid in. */
  function TakingTrimmed(cfg: Setup): (Progress, string, nat) -> Progress
    requires cfg.size > 0
  {
    (st: Progress, para: string, at: nat) => Taken(cfg, st, para, at)
  }

  function Laying(size: nat): (string, nat) -> seq<Piece>
    requires size > 0
  {
    (para: string, at: nat) => PiecesOf(para, at, size)
  }

  /** taken keeps ok when it takes trimmed paragraphs. */
  ghost predicate TrimmedKeep(trim: string -> string, taken: (Progress, string, nat) -> Progress, laid: (string, nat) -> seq<Piece>,
      ok: (Progress, seq<Piece>) -> bool) {
    forall st: Progress, done: seq<Piece>, para: string, at: nat ::
      ok(st, done) ==> ok(taken(st, trim(para), at), done + laid(trim(para), at))
  }

  lemma TrimmedOk(cfg: Setup, ok: (Progress, seq<Piece>) -> bool, st: Progress, next: Progress, para: string, at: nat,
      pieces: seq<Piece>, done: seq<Piece>)
    requires Lawful(cfg) && (forall st: Progress, done: seq<Piece> :: ok(st, done) <==> Kept(cfg, st, done))
    requires ok(st, done) && next == Taken(cfg, st, cfg.trim(para), at) && pieces == PiecesOf(cfg.trim(para), at, cfg.size)
    ensures ok(next, done + pieces)
  {
    TrimmedTaken(cfg, st, para, at, done);
  }

  lemma TrimmedKept(cfg: Setup, ok: (Progress, seq<Piece>) -> bool)
    requires Lawful(cfg) && forall st: Progress, done: seq<Piece> :: ok(st, done) <==> Kept(cfg, st, done)
    ensures TrimmedKeep(cfg.trim, TakingTrimmed(cfg), Laying(cfg.size), ok)
  {
    forall st: Progress, done: seq<Piece>, para: string, at: nat | ok(st, done)
      ensures ok(TakingTrimmed(cfg)(st, cfg.trim(para), at), done + Laying(cfg.size)(cfg.trim(para), at))
    {
      TrimmedOk(cfg, ok, st, TakingTrimmed(cfg)(st, cfg.trim(para), at), para, at, Laying(cfg.size)(cfg.trim(para), at), done);
    }
  }

  /** take and slice are those for trimmed paragraphs behind a trimming. */
  ghost predicate After(trim: string -> string, lead: string -> nat, taken: (Progress, string, nat) -> Progress,
      laid: (string, nat) -> seq<Piece>, take: (Progress, string, nat) -> Progress, slice: (string, nat) -> seq<Piece>) {
    && (forall st: Progress, para: string, at: nat :: take(st, para, at) == taken(st, trim(para), at + lead(para)))
    && (forall para: string, at: nat :: slice(para, at) == laid(trim(para), at + lead(para)))
  }

  lemma StepAfter(cfg: Setup, lead: string -> nat, st: Progress, para: string, at: nat)
    requires cfg.size > 0
    ensures Taking(cfg, lead)(st, para, at) == TakingTrimmed(cfg)(st, cfg.trim(para), at + lead(para))
    ensures Slicing(cfg.trim, lead, cfg.size)(para, at) == Laying(cfg.size)(cfg.trim(para), at + lead(para))
  {
  }

  lemma StepsAfter(cfg: Setup, lead: string -> nat, taken: (Progress, string, nat) -> Progress, laid: (string, nat) -> seq<Piece>,
      take: (Progress, string, nat) -> Progress, slice: (string, nat) -> seq<Piece>)
    requires cfg.size > 0 && taken == TakingTrimmed(cfg) && laid == Laying(cfg.size)
    requires take == Taking(cfg, lead) && slice == Slicing(cfg.trim, lead, cfg.size)
    ensures After(cfg.trim, lead, taken, laid, take, slice)
  {
    forall st: Progress, para: string, at: nat
      ensures take(st, para, at) == taken(st, cfg.trim(para), at + lead(para)) && slice(para, at) == laid(cfg.trim(para), at + lead(para))
    {
      StepAfter(cfg, lead, st, para, at);
    }
    forall para: string, at: nat ensures slice(para, at) == laid(cfg.trim(para), at + lead(para)) {
      StepAfter(cfg, lead, NOTHING, para, at);
    }
  }

  lemma EachKept(trim: string -> string, lead: string -> nat, taken: (Progress, string, nat) -> Progress, laid: (string, nat) -> seq<Piece>,
      take: (Progress, string, nat) -> Progress, slice: (string, nat) -> seq<Piece>, ok: (Progress, seq<Piece>) -> bool)
    requires TrimmedKeep(trim, taken, laid, ok) && After(trim, lead, taken, laid, take, slice)
    ensures forall st: Progress, done: seq<Piece>, para: string, at: nat ::
              ok(st, done) ==> ok(take(st, para, at), done + slice(para, at))
  {
    forall st: Progress, done: seq<Piece>, para: string, at: nat | ok(st, done)
      ensures ok(take(st, para, at), done + slice(para, at))
    {
      assert ok(taken(st, trim(para), at + lead(para)), done + laid(trim(para), at + lead(para)));
    }
  }

  lemma AllKept(cfg: Setup, lead: string -> nat, paras: seq<string>)
    requires Lawful(cfg)
    ensures Kept(cfg, TakenAll(Taking(cfg, lead), NOTHING, paras, 0), [] + Pieces(Slicing(cfg.trim, lead, cfg.size), paras, 0))
  {
    var take, slice := Taking(cfg, lead), Slicing(cfg.trim, lead, cfg.size);
    var ok: (Progress, seq<Piece>) -> bool := Keeping(cfg);
    TrimmedKept(cfg, ok);
    StepsAfter(cfg, lead, TakingTrimmed(cfg), Laying(cfg.size), take, slice);
    EachKept(cfg.trim, lead, TakingTrimmed(cfg), Laying(cfg.size), take, slice, ok);
    NothingKept(cfg);
    TakenAllKeeps(take, slice, ok, NOTHING, paras, 0, []);
  }

  /** What is laid when all paragraphs are taken and the rest is flushed. */
  lemma AllLaid(cfg: Setup, lead: string -> nat, paras: seq<string>)
    requires Lawful(cfg)
    ensures var end := Flushed(cfg, TakenAll(Taking(cfg, lead), NOTHING, paras, 0));
      && Laid(cfg.trim, cfg.size, cfg.overlap, end.chunks, end.parts)
      && Added(end.parts) == Pieces(Slicing(cfg.trim, lead, cfg.size), paras, 0)
  {
    var all := Pieces(Slicing(cfg.trim, lead, cfg.size), paras, 0);
    AllKept(cfg, lead, paras);
    assert [] + all == all;
    LastFlush(cfg, TakenAll(Taking(cfg, lead), NOTHING, paras, 0), all);
  }

  lemma LastFlush(cfg: Setup, st: Progress, done: seq<Piece>)
    requires Lawful(cfg) && At(cfg, st, done) && Tidy(cfg, st)
    ensures Laid(cfg.trim, cfg.size, cfg.overlap, Flushed(cfg, st).chunks, Flushed(cfg, st).parts)
    ensures Added(Flushed(cfg, st).parts) == done
  {
    TidyNotBlank(cfg.trim, st.current);
    FlushKeeps(cfg, st, done);
    LaidAll(cfg.trim, cfg.size, cfg.overlap, Flushed(cfg, st).chunks, Flushed(cfg, st).parts);
  }

  // ---- the chunker ----

  class Chunker {
    const cfg: Setup
    var chunks: seq<TextChunk>
    var current: seq<string>
    var currentLen: nat
    var lineOffset: nat
    ghost var parts: seq<Part>
    ghost var carried: seq<string>
    ghost var added: seq<Piece>

    constructor (cfg: Setup)
      ensures this.cfg == cfg && Now() == NOTHING
    {
      this.cfg := cfg;
      chunks, current, currentLen, lineOffset := [], [], 0, 1;
      parts, carried, added := [], [], [];
    }

    ghost function Now(): Progress
      reads this
    {
      Progress(chunks, current, currentLen, lineOffset, parts, carried, added)
    }

    /** The flush closure. */
    method Flush()
      modifies this
      ensures Now() == Flushed(cfg, old(Now()))
    {
      if |current| == 0 {
        return;
      }
      var content := cfg.trim(Join(current, SEPARATOR));
      if content == "" {
        return;
      }
      var endLine := lineOffset + Newlines(content);
      chunks := chunks + [TextChunk(content, lineOffset, endLine)];
      parts := parts + [Part(carried, added)];
      var carry, carryLen := Carry(current, cfg.overlap);
      lineOffset := endLine + 1;
      current, currentLen := carry, carryLen;
      carried, added := carry, [];
    }

    /** One turn of the loop that cuts a long paragraph. */
    method CutPiece(ghost at: nat, para: string) returns (rest: string)
      requires cfg.size > 0 && para != ""
      modifies this
      ensures var piece := FirstCut(at, para, cfg.size);
        && rest == para[|piece.text|..]
        && Now() == if rest == "" then Appended(old(Now()), piece) else Flushed(cfg, Appended(old(Now()), piece))
    {
      var end := cfg.size;
      if end > |para| {
        end := |para|;
      }
      current := current + [para[..end]];
      currentLen := currentLen + end;
      added := added + [FirstCut(at, para, cfg.size)];
      rest := para[end..];
      if |rest| > 0 {
        Flush();
      }
    }

    /** A paragraph longer than the size is cut into pieces. */
    method ForceSplit(ghost at: nat, paragraph: string)
      requires cfg.size > 0 && paragraph != ""
      modifies this
      ensures Now() == TakenOver(Flushing(cfg), Flushed(cfg, old(Now())), Cut(paragraph, at, cfg.size))
    {
      Flush();
      ghost var flush, left, from: nat := Flushing(cfg), Cut(paragraph, at, cfg.size), at;
      ghost var goal := TakenOver(flush, Now(), left);
      var para := paragraph;
      while |para| > 0
        invariant left == Cut(para, from, cfg.size)
        invariant goal == TakenOver(flush, Now(), left)
        decreases |para|
      {
        ghost var piece := FirstCut(from, para, cfg.size);
        CutOne(para, from, cfg.size);
        TakenOne(flush, Now(), left);
        para := CutPiece(from, para);
        left, from := left[1..], from + |piece.text|;
      }
    }

    /** A paragraph that fits the size joins the current pieces, or those after a flush. */
    method AddWhole(ghost at: nat, para: string)
      modifies this
      ensures Now() == Appended(MadeRoom(cfg, old(Now()), para), Piece(at, para, false))
    {
      var sepLen := if |current| > 0 then 2 else 0;
      if currentLen + sepLen + |para| > cfg.size && |current| > 0 {
        Flush();
      }
      current := current + [para];
      currentLen := currentLen + |para|;
      if |current| > 1 {
        currentLen := currentLen + 2;
      }
      added := added + [Piece(at, para, false)];
    }

    /** The body of the loop over the paragraphs. */
    method AddParagraph(ghost at: nat, para: string, ghost next: Progress)
      requires cfg.size > 0 && next == Taken(cfg, Now(), para, at)
      modifies this
      ensures Now() == next
    {
      if para == "" {
      } else if |para| > cfg.size {
        ForceSplit(at, para);
      } else {
        AddWhole(at, para);
      }
    }
  }

  lemma CutOne(para: string, at: nat, size: nat)
    requires size > 0 && para != ""
    ensures var piece := FirstCut(at, para, size);
      && Cut(para, at, size) != [] && Cut(para, at, size)[0] == piece
      && Cut(para, at, size)[1..] == Cut(para[|piece.text|..], at + |piece.text|, size)
      && (para[|piece.text|..] == "" <==> Cut(para, at, size)[1..] == [])
  {
  }

  lemma TakenOne(flush: Progress -> Progress, st: Progress, pieces: seq<Piece>)
    requires pieces != []
    ensures TakenOver(flush, st, pieces)
         == if |pieces| == 1 then Appended(st, pieces[0]) else TakenOver(flush, flush(Appended(st, pieces[0])), pieces[1..])
    ensures |pieces| == 1 ==> pieces[1..] == [] && TakenOver(flush, Appended(st, pieces[0]), pieces[1..]) == Appended(st, pieces[0])
  {
  }

  /** rest tells what becomes of the paragraphs from the i-th on. */
  ghost predicate Continues(rest: (Progress, nat, nat) -> Progress, take: (Progress, string, nat) -> Progress, paras: seq<string>) {
    && (forall st: Progress, at: nat :: rest(st, |paras|, at) == st)
    && (forall st: Progress, i: nat, at: nat :: i < |paras| ==>
          rest(st, i, at) == rest(take(st, paras[i], at), i + 1, at + |paras[i]| + |SEPARATOR|))
  }

  ghost function Rest(take: (Progress, string, nat) -> Progress, paras: seq<string>): (Progress, nat, nat) -> Progress {
    (st: Progress, i: nat, at: nat) => if i <= |paras| then TakenAll(take, st, paras[i..], at) else st
  }

  lemma RestContinues(take: (Progress, string, nat) -> Progress, paras: seq<string>)
    ensures Continues(Rest(take, paras), take, paras)
    ensures Rest(take, paras)(NOTHING, 0, 0) == TakenAll(take, NOTHING, paras, 0)
  {
    var rest: (Progress, nat, nat) -> Progress := Rest(take, paras);
    assert paras[0..] == paras && paras[|paras|..] == [];
    forall st: Progress, i: nat, at: nat | i < |paras|
      ensures rest(st, i, at) == rest(take(st, paras[i], at), i + 1, at + |paras[i]| + |SEPARATOR|)
    {
      TakenAllOne(take, st, paras, i, at);
    }
  }

  method ChunkParagraphs(cfg: Setup, ghost lead: string -> nat, paras: seq<string>)
      returns (chunks: seq<TextChunk>, ghost parts: seq<Part>)
    requires Lawful(cfg)
    ensures Laid(cfg.trim, cfg.size, cfg.overlap, chunks, parts)
    ensures Added(parts) == Pieces(Slicing(cfg.trim, lead, cfg.size), paras, 0)
  {
    ghost var end;
    RestContinues(Taking(cfg, lead), paras);
    chunks, parts, end := TakeAll(cfg, lead, paras, Taking(cfg, lead), Rest(Taking(cfg, lead), paras));
    AllLaid(cfg, lead, paras);
  }

  /** The loop over the paragraphs and the last flush. */
  method TakeAll(cfg: Setup, ghost lead: string -> nat, paras: seq<string>,
      ghost take: (Progress, string, nat) -> Progress, ghost rest: (Progress, nat, nat) -> Progress)
      returns (chunks: seq<TextChunk>, ghost parts: seq<Part>, ghost end: Progress)
    requires cfg.size > 0 && take == Taking(cfg, lead) && Continues(rest, take, paras)
    ensures end == Flushed(cfg, rest(NOTHING, 0, 0)) && chunks == end.chunks && parts == end.parts
  {
    var ch := new Chunker(cfg);
    ghost var at: nat := 0;
    ghost var goal := rest(NOTHING, 0, 0);
    for i := 0 to |paras|
      invariant ch.cfg == cfg && fresh(ch)
      invariant goal == rest(ch.Now(), i, at)
    {
      StepsAre(cfg, lead, take, Slicing(cfg.trim, lead, cfg.size), ch.Now(), paras[i], at);
      ch.AddParagraph(at + lead(paras[i]), cfg.trim(paras[i]), take(ch.Now(), paras[i], at));
      at := at + |paras[i]| + |SEPARATOR|;
    }
    ch.Flush();
    chunks, parts, end := ch.chunks, ch.parts, ch.Now();
  }

  lemma TakenAllOne(take: (Progress, string, nat) -> Progress, st: Progress, paras: seq<string>, i: nat, at: nat)
    requires i < |paras|
    ensures TakenAll(take, st, paras[i..], at) == TakenAll(take, take(st, paras[i], at), paras[i + 1..], at + |paras[i]| + |SEPARATOR|)
  {
    assert paras[i..][1..] == paras[i + 1..];
  }

  /** Sizes that are not given. */
  function SizeOr(size: int): (s: nat)
    ensures s > 0
  {
    if size <= 0 then 1000 else size
  }

  function OverlapOr(overlap: int): nat {
    if overlap < 0 then 0 else overlap
  }

  /** The pieces of a text, and where they lie in it. */
  function PiecesIn(text: string, size: nat): seq<Piece>
    requires size > 0
  {
    Pieces(Slicing(TrimBytes, Lead, size), Paragraphs(text), 0)
  }

  /** The chunks conserve the text: what is new in each, in order, is exactly the pieces of
      the text; and no chunk is larger than the size and three times the overlap. */
  method ChunkTextWithOverlap(text: string, chunkSize: int, overlap: int)
      returns (chunks: seq<TextChunk>, ghost parts: seq<Part>)
    ensures var size, carried := if chunkSize <= 0 then 1000 else chunkSize, if overlap < 0 then 0 else overlap;
      Laid(TrimBytes, size, carried, chunks, parts) && Added(parts) == PiecesIn(text, size)
  {
    BytesTrim();
    BytesSettle();
    chunks, parts := ChunkParagraphs(Setup(TrimBytes, SizeOr(chunkSize), OverlapOr(overlap)), Lead, Paragraphs(text));
  }
}
