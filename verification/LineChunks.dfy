/** Splitting a memory document into chunks of whole lines. A chunk records the range of
    source lines it came from, and reading that range back gives the chunk's text. The
    proofs use only a few laws of trimming, so trimming is a parameter of the definitions;
    it is TrimSpace where they are put together. */
module LineChunks {
  import opened Strings
  import opened TextChunks
  import opened Trimming

  // ---- what a list of chunks has to say about its document ----

  /** The text of lines lo+1 .. hi. */
  function Lines(lines: seq<string>, lo: nat, hi: nat): string
    requires lo <= hi <= |lines|
  {
    Join(lines[lo..hi], BREAK)
  }

  /** The chunk holds exactly its lines, trimmed, and is not blank. */
  ghost predicate Agrees(trim: string -> string, lines: seq<string>, c: TextChunk) {
    && 1 <= c.startLine <= c.endLine <= |lines|
    && c.text != ""
    && c.text == trim(Lines(lines, c.startLine - 1, c.endLine))
  }

  predicate Covers(c: TextChunk, k: nat) {
    c.startLine <= k + 1 <= c.endLine
  }

  ghost predicate Covered(chunks: seq<TextChunk>, k: nat) {
    exists i :: 0 <= i < |chunks| && Covers(chunks[i], k)
  }

  /** chunks describes lines[..upto]: it agrees with the document, ranges increase without
      overlap, and every line that is not blank lies in one of them. */
  ghost predicate Describes(trim: string -> string, lines: seq<string>, upto: nat, chunks: seq<TextChunk>) {
    && upto <= |lines|
    && (forall i :: 0 <= i < |chunks| ==> Agrees(trim, lines, chunks[i]) && chunks[i].endLine <= upto)
    && (forall i, j :: 0 <= i < j < |chunks| ==> chunks[i].endLine < chunks[j].startLine)
    && (forall k :: 0 <= k < upto && trim(lines[k]) != "" ==> Covered(chunks, k))
  }

  /** The chunk that starts behind line lo goes on with line k + 1: what it holds is below max
      bytes, and below half of that if the line is blank, unless it holds nothing yet. */
  ghost predicate GoesOn(trim: string -> string, lines: seq<string>, max: nat, lo: nat, k: nat)
    requires lo <= k < |lines|
  {
    var held := trim(Lines(lines, lo, k));
    ByteLen(held) < max && (trim(lines[k]) == "" && held != "" ==> ByteLen(held) < max / 2)
  }

  ghost predicate AllGoOn(trim: string -> string, lines: seq<string>, max: nat, lo: nat, hi: nat)
    requires lo <= hi <= |lines|
  {
    forall k :: lo < k < hi ==> GoesOn(trim, lines, max, lo, k)
  }

  /** The chunk ends where the size asks for it and not earlier or later: before a blank line
      when its lines reach half of max bytes, or when they reach max, or at the end of the
      document; and wherever it went on there was a reason. */
  ghost predicate WellCut(trim: string -> string, lines: seq<string>, max: nat, c: TextChunk)
    requires Agrees(trim, lines, c)
  {
    var size := ByteLen(Lines(lines, c.startLine - 1, c.endLine));
    && (c.endLine < |lines| ==> size >= max || (trim(lines[c.endLine]) == "" && size >= max / 2))
    && AllGoOn(trim, lines, max, c.startLine - 1, c.endLine)
  }

  ghost predicate AllWellCut(trim: string -> string, lines: seq<string>, max: nat, chunks: seq<TextChunk>) {
    forall i :: 0 <= i < |chunks| ==> Agrees(trim, lines, chunks[i]) && WellCut(trim, lines, max, chunks[i])
  }

  /** What was written so far is its lines up to leading white space. */
  ghost predicate Written(trim: string -> string, lines: seq<string>, lo: nat, hi: nat, pad: string, current: string)
    requires lo <= hi <= |lines|
  {
    trim(pad) == "" && Lines(lines, lo, hi) == pad + current && (lo == hi ==> current == "")
  }

  // ---- lemmas about lines ----

  lemma {:induction false} JoinBlank(trim: string -> string, parts: seq<string>)
    requires Trims(trim) && trim(Join(parts, BREAK)) == ""
    ensures forall k :: 0 <= k < |parts| ==> trim(parts[k]) == ""
  {
    if |parts| > 1 {
      var rest := Join(parts[1..], BREAK);
      assert trim(parts[0] + BREAK + rest) == "";
      JoinBlank(trim, parts[1..]);
      assert forall k :: 1 <= k < |parts| ==> parts[k] == parts[1..][k - 1];
    }
  }

  lemma LinesSnoc(lines: seq<string>, lo: nat, hi: nat)
    requires lo <= hi < |lines|
    ensures Lines(lines, lo, hi + 1) == if lo == hi then lines[hi] else Lines(lines, lo, hi) + BREAK + lines[hi]
  {
    assert lines[lo..hi + 1] == lines[lo..hi] + [lines[hi]];
    if lo < hi {
      JoinSnoc(lines[lo..hi], lines[hi], BREAK);
    }
  }

  lemma Regroup(a: string, b: string, c: string, d: string)
    ensures a + b + c + d == a + (b + c + d) && a + "" + c + d == (a + c) + d
  {
  }

  lemma NothingWritten(trim: string -> string, lines: seq<string>, n: nat)
    requires trim("") == "" && n <= |lines|
    ensures Written(trim, lines, n, n, "", "")
  {
  }

  lemma WrittenMore(trim: string -> string, lines: seq<string>, lo: nat, hi: nat, pad: string, current: string) returns (pad': string)
    requires Trims(trim) && lo <= hi < |lines| && Written(trim, lines, lo, hi, pad, current)
    ensures Written(trim, lines, lo, hi + 1, pad', (if current != "" then current + BREAK else "") + lines[hi])
  {
    LinesSnoc(lines, lo, hi);
    Regroup(pad, current, BREAK, lines[hi]);
    assert "" + lines[hi] == lines[hi];
    if lo == hi {
      pad' := "";
    } else if current == "" {
      pad' := pad + BREAK;
    } else {
      pad' := pad;
    }
  }

  /** The lines lo+1..hi become one more chunk, or none when they are blank. */
  function WithChunk(chunks: seq<TextChunk>, content: string, lo: nat, hi: nat): seq<TextChunk> {
    if content == "" then chunks else chunks + [TextChunk(content, lo + 1, hi)]
  }

  lemma CoveredMore(chunks: seq<TextChunk>, c: TextChunk, k: nat)
    ensures Covered(chunks, k) || Covers(c, k) ==> Covered(chunks + [c], k)
  {
    var more := chunks + [c];
    if i :| 0 <= i < |chunks| && Covers(chunks[i], k) {
      assert Covers(more[i], k);
    }
    if Covers(c, k) {
      assert Covers(more[|chunks|], k);
    }
  }

  lemma DescribesMore(trim: string -> string, lines: seq<string>, lo: nat, hi: nat, chunks: seq<TextChunk>)
    requires Trims(trim) && lo < hi <= |lines| && Describes(trim, lines, lo, chunks)
    ensures Describes(trim, lines, hi, WithChunk(chunks, trim(Lines(lines, lo, hi)), lo, hi))
  {
    var content := trim(Lines(lines, lo, hi));
    var c := TextChunk(content, lo + 1, hi);
    var more := WithChunk(chunks, content, lo, hi);
    forall k | 0 <= k < hi && trim(lines[k]) != "" ensures Covered(more, k) {
      if content == "" {
        LinesBlank(trim, lines, lo, hi);
      } else {
        CoveredMore(chunks, c, k);
      }
    }
    assert content != "" ==> Agrees(trim, lines, c);
  }

  lemma LinesBlank(trim: string -> string, lines: seq<string>, lo: nat, hi: nat)
    requires Trims(trim) && lo <= hi <= |lines| && trim(Lines(lines, lo, hi)) == ""
    ensures forall k :: lo <= k < hi ==> trim(lines[k]) == ""
  {
    JoinBlank(trim, lines[lo..hi]);
    assert forall k :: lo <= k < hi ==> lines[k] == lines[lo..hi][k - lo];
  }

  // ---- the chunker ----

  /** A flush of lo+1..hi cuts well, as far as the size of what was written tells. */
  ghost predicate MayFlush(trim: string -> string, lines: seq<string>, max: nat, lo: nat, hi: nat, current: string)
    requires lo < hi <= |lines|
  {
    && (hi < |lines| ==> ByteLen(current) >= max || (trim(lines[hi]) == "" && ByteLen(current) >= max / 2))
    && AllGoOn(trim, lines, max, lo, hi)
  }

  lemma FlushCutsWell(trim: string -> string, lines: seq<string>, max: nat, lo: nat, hi: nat, pad: string, current: string, chunks: seq<TextChunk>)
    requires Trims(trim) && lo < hi <= |lines| && Written(trim, lines, lo, hi, pad, current)
    requires MayFlush(trim, lines, max, lo, hi, current) && AllWellCut(trim, lines, max, chunks)
    ensures trim(Lines(lines, lo, hi)) == trim(current)
    ensures AllWellCut(trim, lines, max, WithChunk(chunks, trim(current), lo, hi))
  {
    ByteLenConcat(pad, current);
    var c := TextChunk(trim(current), lo + 1, hi);
    if trim(current) != "" {
      assert Agrees(trim, lines, c) && WellCut(trim, lines, max, c);
    }
  }

  lemma FlushKeeps(trim: string -> string, lines: seq<string>, max: nat, lo: nat, hi: nat, pad: string, current: string, chunks: seq<TextChunk>)
    requires Trims(trim) && lo < hi <= |lines| && Describes(trim, lines, lo, chunks) && Written(trim, lines, lo, hi, pad, current)
    requires MayFlush(trim, lines, max, lo, hi, current) && AllWellCut(trim, lines, max, chunks)
    ensures Describes(trim, lines, hi, WithChunk(chunks, trim(current), lo, hi))
    ensures AllWellCut(trim, lines, max, WithChunk(chunks, trim(current), lo, hi))
    ensures Written(trim, lines, hi, hi, "", "")
  {
    DescribesMore(trim, lines, lo, hi, chunks);
    FlushCutsWell(trim, lines, max, lo, hi, pad, current, chunks);
    NothingWritten(trim, lines, hi);
  }

  /** The variables that the flush closure captures. */
  datatype Progress = Progress(chunks: seq<TextChunk>, current: string, startLine: nat)

  function Flushed(trim: string -> string, p: Progress, endLine: nat): Progress
    requires p.startLine >= 1
  {
    Progress(WithChunk(p.chunks, trim(p.current), p.startLine - 1, endLine), "", endLine + 1)
  }

  function Appended(p: Progress, line: string): Progress {
    p.(current := (if p.current != "" then p.current + BREAK else "") + line)
  }

  /** What the body of the loop makes of one line. */
  function Taken(trim: string -> string, max: nat, p: Progress, line: string, lineNum: nat): Progress
    requires p.startLine >= 1 && lineNum >= 1
  {
    if trim(line) == "" && p.current != "" && ByteLen(p.current) >= max / 2 then Flushed(trim, p, lineNum - 1)
    else
      var q := Appended(p, line);
      if ByteLen(q.current) >= max then Flushed(trim, q, lineNum) else q
  }

  /** Lines up to n are consumed: the flushed ones described, the others written behind pad. */
  ghost predicate At(trim: string -> string, lines: seq<string>, max: nat, p: Progress, n: nat, pad: string) {
    && 1 <= p.startLine <= n + 1 <= |lines| + 1
    && Describes(trim, lines, p.startLine - 1, p.chunks)
    && AllWellCut(trim, lines, max, p.chunks)
    && Written(trim, lines, p.startLine - 1, n, pad, p.current)
    && AllGoOn(trim, lines, max, p.startLine - 1, n)
  }

  lemma FlushAt(trim: string -> string, lines: seq<string>, max: nat, p: Progress, n: nat, pad: string)
    requires Trims(trim) && At(trim, lines, max, p, n, pad) && p.startLine <= n
    requires MayFlush(trim, lines, max, p.startLine - 1, n, p.current)
    ensures At(trim, lines, max, Flushed(trim, p, n), n, "")
  {
    FlushKeeps(trim, lines, max, p.startLine - 1, n, pad, p.current, p.chunks);
  }

  /** A blank line that ended a chunk goes unwritten before the next one. */
  lemma SkipBlank(trim: string -> string, lines: seq<string>, max: nat, p: Progress, n: nat)
    requires Trims(trim) && At(trim, lines, max, p, n, "") && n < |lines| && p.startLine == n + 1 && trim(lines[n]) == ""
    ensures At(trim, lines, max, p, n + 1, lines[n])
  {
    LinesSnoc(lines, n, n);
    assert lines[n] + "" == lines[n] && p.current == "";
  }

  lemma GoOnMore(trim: string -> string, lines: seq<string>, max: nat, lo: nat, n: nat)
    requires lo <= n < |lines| && AllGoOn(trim, lines, max, lo, n) && GoesOn(trim, lines, max, lo, n)
    ensures AllGoOn(trim, lines, max, lo, n + 1)
  {
  }

  lemma OneGoesOn(trim: string -> string, lines: seq<string>, max: nat, lo: nat, k: nat, pad: string, current: string)
    requires Trims(trim) && lo <= k < |lines| && Written(trim, lines, lo, k, pad, current)
    requires ByteLen(current) < max && !(trim(lines[k]) == "" && current != "" && ByteLen(current) >= max / 2)
    ensures GoesOn(trim, lines, max, lo, k)
  {
    assert trim(pad + current) == trim(current);
    assert ByteLen(trim(current)) <= ByteLen(current);
  }

  lemma AppendAt(trim: string -> string, lines: seq<string>, max: nat, p: Progress, n: nat, pad: string) returns (pad': string)
    requires Trims(trim) && At(trim, lines, max, p, n, pad) && n < |lines|
    requires ByteLen(p.current) < max && !(trim(lines[n]) == "" && p.current != "" && ByteLen(p.current) >= max / 2)
    ensures At(trim, lines, max, Appended(p, lines[n]), n + 1, pad')
  {
    OneGoesOn(trim, lines, max, p.startLine - 1, n, pad, p.current);
    GoOnMore(trim, lines, max, p.startLine - 1, n);
    pad' := WrittenMore(trim, lines, p.startLine - 1, n, pad, p.current);
  }

  lemma TakeAt(trim: string -> string, lines: seq<string>, max: nat, p: Progress, n: nat, pad: string) returns (pad': string)
    requires Trims(trim) && max > 0 && At(trim, lines, max, p, n, pad) && n < |lines| && ByteLen(p.current) < max
    ensures At(trim, lines, max, Taken(trim, max, p, lines[n], n + 1), n + 1, pad')
    ensures ByteLen(Taken(trim, max, p, lines[n], n + 1).current) < max
  {
    if trim(lines[n]) == "" && p.current != "" && ByteLen(p.current) >= max / 2 {
      FlushAt(trim, lines, max, p, n, pad);
      SkipBlank(trim, lines, max, Flushed(trim, p, n), n);
      pad' := lines[n];
    } else {
      pad' := AppendFlushAt(trim, lines, max, p, n, pad);
    }
  }

  lemma AppendFlushAt(trim: string -> string, lines: seq<string>, max: nat, p: Progress, n: nat, pad: string) returns (pad': string)
    requires Trims(trim) && max > 0 && At(trim, lines, max, p, n, pad) && n < |lines| && ByteLen(p.current) < max
    requires !(trim(lines[n]) == "" && p.current != "" && ByteLen(p.current) >= max / 2)
    ensures var q := Appended(p, lines[n]);
            var after := if ByteLen(q.current) >= max then Flushed(trim, q, n + 1) else q;
            At(trim, lines, max, after, n + 1, pad') && ByteLen(after.current) < max
  {
    pad' := AppendAt(trim, lines, max, p, n, pad);
    pad' := FlushFull(trim, lines, max, Appended(p, lines[n]), n + 1, pad');
  }

  lemma FlushFull(trim: string -> string, lines: seq<string>, max: nat, q: Progress, m: nat, pad: string) returns (pad': string)
    requires Trims(trim) && max > 0 && At(trim, lines, max, q, m, pad) && 1 <= q.startLine <= m
    ensures var after := if ByteLen(q.current) >= max then Flushed(trim, q, m) else q;
      At(trim, lines, max, after, m, pad') && ByteLen(after.current) < max
  {
    pad' := pad;
    if ByteLen(q.current) >= max {
      FlushAt(trim, lines, max, q, m, pad);
      pad' := "";
    }
  }

  /** What is left when nothing is written is blank. */
  lemma RestIsBlank(trim: string -> string, lines: seq<string>, max: nat, p: Progress, n: nat, pad: string)
    requires Trims(trim) && At(trim, lines, max, p, n, pad) && p.current == ""
    ensures Describes(trim, lines, n, p.chunks)
  {
    if p.startLine - 1 < n {
      assert pad + "" == pad;
      DescribesMore(trim, lines, p.startLine - 1, n, p.chunks);
    }
  }

  class Chunker {
    const trim: string -> string
    const max: nat
    var chunks: seq<TextChunk>
    var current: string
    var startLine: nat

    constructor (trim: string -> string, max: nat)
      ensures this.trim == trim && this.max == max && Now() == Progress([], "", 1)
    {
      this.trim, this.max := trim, max;
      chunks, current, startLine := [], "", 1;
    }

    function Now(): Progress
      reads this
    {
      Progress(chunks, current, startLine)
    }

    method Flush(endLine: nat)
      requires startLine >= 1
      modifies this
      ensures Now() == Flushed(trim, old(Now()), endLine)
    {
      var content := trim(current);
      if content != "" {
        chunks := chunks + [TextChunk(content, startLine, endLine)];
      }
      current := "";
      startLine := endLine + 1;
    }

    /** The body of the loop over the lines. */
    method TakeLine(line: string, lineNum: nat)
      requires startLine >= 1 && lineNum >= 1
      modifies this
      ensures Now() == Taken(trim, max, old(Now()), line, lineNum)
    {
      if trim(line) == "" && |current| > 0 && ByteLen(current) >= max / 2 {
        Flush(lineNum - 1);
        return;
      }
      if |current| > 0 {
        current := current + "\n";
      } else {
        assert current + line == "" + line;
      }
      current := current + line;
      if ByteLen(current) >= max {
        Flush(lineNum);
      }
    }
  }

  method ChunkLines(trim: string -> string, lines: seq<string>, maxChunkLen: int) returns (chunks: seq<TextChunk>)
    requires Trims(trim) && maxChunkLen > 0
    ensures Describes(trim, lines, |lines|, chunks) && AllWellCut(trim, lines, maxChunkLen, chunks)
  {
    ghost var end := TakenFrom(trim, lines, maxChunkLen, Progress([], "", 1), 0);
    chunks := TakeLines(trim, lines, maxChunkLen, end);
    AllKept(trim, lines, maxChunkLen);
    EndKept(trim, lines, maxChunkLen, end);
  }

  /** The lines from the i-th on, taken one by one. */
  function TakenFrom(trim: string -> string, lines: seq<string>, max: nat, p: Progress, i: nat): (r: Progress)
    requires i <= |lines| && p.startLine >= 1
    ensures r.startLine >= 1
    decreases |lines| - i
  {
    if i == |lines| then p else TakenFrom(trim, lines, max, Taken(trim, max, p, lines[i], i + 1), i + 1)
  }

  /** The lines up to n are consumed, and there is room for more. */
  ghost predicate Kept(trim: string -> string, lines: seq<string>, max: nat, p: Progress, n: nat) {
    ByteLen(p.current) < max && exists pad :: At(trim, lines, max, p, n, pad)
  }

  lemma TakeKept(trim: string -> string, lines: seq<string>, max: nat, p: Progress, n: nat)
    requires Trims(trim) && max > 0 && n < |lines| && p.startLine >= 1 && Kept(trim, lines, max, p, n)
    ensures Kept(trim, lines, max, Taken(trim, max, p, lines[n], n + 1), n + 1)
  {
    var pad :| At(trim, lines, max, p, n, pad);
    var pad' := TakeAt(trim, lines, max, p, n, pad);
  }

  lemma {:induction false} TakenFromKeeps(ok: (Progress, nat) -> bool, trim: string -> string, lines: seq<string>, max: nat, p: Progress, i: nat)
    requires i <= |lines| && p.startLine >= 1 && ok(p, i)
    requires forall q: Progress, j: nat :: j < |lines| && q.startLine >= 1 && ok(q, j) ==> ok(Taken(trim, max, q, lines[j], j + 1), j + 1)
    ensures ok(TakenFrom(trim, lines, max, p, i), |lines|)
    decreases |lines| - i
  {
    if i < |lines| {
      TakenFromKeeps(ok, trim, lines, max, Taken(trim, max, p, lines[i], i + 1), i + 1);
    }
  }

  lemma AllKept(trim: string -> string, lines: seq<string>, max: nat)
    requires Trims(trim) && max > 0
    ensures Kept(trim, lines, max, TakenFrom(trim, lines, max, Progress([], "", 1), 0), |lines|)
  {
    var ok := (p: Progress, n: nat) => Kept(trim, lines, max, p, n);
    forall q: Progress, j: nat | j < |lines| && q.startLine >= 1 && ok(q, j)
      ensures ok(Taken(trim, max, q, lines[j], j + 1), j + 1)
    {
      TakeKept(trim, lines, max, q, j);
    }
    StartKept(trim, lines, max);
    TakenFromKeeps(ok, trim, lines, max, Progress([], "", 1), 0);
  }

  /** The loop over the lines and the last flush. */
  method TakeLines(trim: string -> string, lines: seq<string>, maxChunkLen: int, ghost end: Progress) returns (chunks: seq<TextChunk>)
    requires maxChunkLen > 0 && end == TakenFrom(trim, lines, maxChunkLen, Progress([], "", 1), 0)
    ensures chunks == AtEnd(trim, end, |lines|)
  {
    var ch := new Chunker(trim, maxChunkLen);
    var i := 0;
    while i < |lines|
      invariant i <= |lines| && ch.startLine >= 1 && end == TakenFrom(trim, lines, maxChunkLen, ch.Now(), i)
      invariant ch.trim == trim && ch.max == maxChunkLen && fresh(ch)
    {
      ch.TakeLine(lines[i], i + 1);
      i := i + 1;
    }
    if |ch.current| > 0 {
      ch.Flush(|lines|);
    }
    return ch.chunks;
  }

  /** The chunks at the end of the document. */
  function AtEnd(trim: string -> string, p: Progress, n: nat): seq<TextChunk>
    requires p.startLine >= 1
  {
    if p.current != "" then Flushed(trim, p, n).chunks else p.chunks
  }

  lemma EndAt(trim: string -> string, lines: seq<string>, max: nat, p: Progress, pad: string)
    requires Trims(trim) && At(trim, lines, max, p, |lines|, pad) && ByteLen(p.current) < max
    ensures Describes(trim, lines, |lines|, AtEnd(trim, p, |lines|)) && AllWellCut(trim, lines, max, AtEnd(trim, p, |lines|))
  {
    if p.current != "" {
      FlushAt(trim, lines, max, p, |lines|, pad);
    } else {
      RestIsBlank(trim, lines, max, p, |lines|, pad);
    }
  }

  lemma EndKept(trim: string -> string, lines: seq<string>, max: nat, p: Progress)
    requires Trims(trim) && p.startLine >= 1 && Kept(trim, lines, max, p, |lines|)
    ensures Describes(trim, lines, |lines|, AtEnd(trim, p, |lines|)) && AllWellCut(trim, lines, max, AtEnd(trim, p, |lines|))
  {
    var pad :| At(trim, lines, max, p, |lines|, pad);
    EndAt(trim, lines, max, p, pad);
  }

  lemma StartKept(trim: string -> string, lines: seq<string>, max: nat)
    requires Trims(trim) && max > 0
    ensures Kept(trim, lines, max, Progress([], "", 1), 0)
  {
    assert At(trim, lines, max, Progress([], "", 1), 0, "");
  }

  function MaxLen(maxChunkLen: int): (m: nat)
    ensures m > 0
  {
    if maxChunkLen <= 0 then 1000 else maxChunkLen
  }

  method ChunkText(text: string, maxChunkLen: int) returns (chunks: seq<TextChunk>)
    ensures Describes(TrimSpace, SplitOn(text, '\n'), |SplitOn(text, '\n')|, chunks)
    ensures AllWellCut(TrimSpace, SplitOn(text, '\n'), if maxChunkLen <= 0 then 1000 else maxChunkLen, chunks)
  {
    TrimSpaceTrims();
    chunks := ChunkLines(TrimSpace, SplitOn(text, '\n'), MaxLen(maxChunkLen));
  }

  // ---- reading back ----

  /** extractLines of the memory manager: numLines lines from fromLine (1-based). */
  function ExtractLines(content: string, fromLine: int, numLines: int): string {
    if fromLine <= 0 && numLines <= 0 then content
    else LineRange(SplitOn(content, '\n'), if fromLine > 0 then fromLine - 1 else 0, numLines)
  }

  function LineRange(lines: seq<string>, start: nat, numLines: int): string {
    if start >= |lines| then ""
    else if numLines > 0 && start + numLines < |lines| then Lines(lines, start, start + numLines)
    else Lines(lines, start, |lines|)
  }

  lemma ExtractRange(text: string, first: nat, last: nat)
    requires 1 <= first <= last <= |SplitOn(text, '\n')|
    ensures ExtractLines(text, first, last - first + 1) == Lines(SplitOn(text, '\n'), first - 1, last)
  {
    RangeIs(SplitOn(text, '\n'), first - 1, last);
  }

  lemma RangeIs(lines: seq<string>, lo: nat, hi: nat)
    requires lo < hi <= |lines|
    ensures LineRange(lines, lo, hi - lo) == Lines(lines, lo, hi)
  {
  }

  lemma ChunkAgrees(trim: string -> string, lines: seq<string>, chunks: seq<TextChunk>, i: nat)
    requires Describes(trim, lines, |lines|, chunks) && i < |chunks|
    ensures 1 <= chunks[i].startLine <= chunks[i].endLine <= |lines|
    ensures trim(Lines(lines, chunks[i].startLine - 1, chunks[i].endLine)) == chunks[i].text
  {
    assert Agrees(trim, lines, chunks[i]);
  }

  /** Reading a chunk's line range back from the document gives the chunk's text. */
  lemma ReadBack(trim: string -> string, text: string, chunks: seq<TextChunk>, i: nat)
    requires Describes(trim, SplitOn(text, '\n'), |SplitOn(text, '\n')|, chunks) && i < |chunks|
    ensures trim(ExtractLines(text, chunks[i].startLine, chunks[i].endLine - chunks[i].startLine + 1)) == chunks[i].text
  {
    ChunkAgrees(trim, SplitOn(text, '\n'), chunks, i);
    ExtractRange(text, chunks[i].startLine, chunks[i].endLine);
  }

  /** Every line that is not blank lies in exactly one chunk. */
  lemma ExactlyOne(trim: string -> string, lines: seq<string>, chunks: seq<TextChunk>, k: nat) returns (i: nat)
    requires Describes(trim, lines, |lines|, chunks) && k < |lines| && trim(lines[k]) != ""
    ensures i < |chunks| && Covers(chunks[i], k)
    ensures forall j :: 0 <= j < |chunks| && Covers(chunks[j], k) ==> j == i
  {
    i :| 0 <= i < |chunks| && Covers(chunks[i], k);
  }
}
