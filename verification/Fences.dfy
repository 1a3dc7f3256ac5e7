/** Cutting a chat message at its fenced blocks: report and html blocks become segments of
    their own, everything else stays markdown. Nothing of the message is lost. */
module Fences {
  import opened Sequences
  import opened Wrappers

  const TICKS: string := "```"

  datatype Segment<R> = Markdown(text: string) | Report(spec: R) | Html(html: string)

  // ---- matching one fenced block ----

  /** A match of the fence pattern: s[index..end], with what stands behind the opening ticks
      on their line and the block's content. */
  datatype Fence = Fence(index: nat, lang: string, code: string, end: nat)

  predicate TicksAt(s: string, k: int) {
    0 <= k <= |s| - 3 && s[k] == '`' && s[k + 1] == '`' && s[k + 2] == '`'
  }

  lemma TicksText(s: string, k: nat)
    requires k + 3 <= |s|
    ensures TicksAt(s, k) <==> s[k..k + 3] == TICKS
  {
    var t := s[k..k + 3];
    assert t[0] == s[k] && t[1] == s[k + 1] && t[2] == s[k + 2];
  }

  /** The first ticks at or behind a position. */
  function FindTicks(s: string, start: nat): (r: Option<nat>)
    ensures r.Some? ==> start <= r.value && TicksAt(s, r.value)
    ensures forall k :: start <= k && TicksAt(s, k) ==> r.Some? && r.value <= k
    decreases |s| - start
  {
    if start + 3 > |s| then None
    else if TicksAt(s, start) then Some(start)
    else FindTicks(s, start + 1)
  }

  function LangEnd(s: string, start: nat): (e: nat)
    requires start <= |s|
    ensures start <= e <= |s|
    decreases |s| - start
  {
    if start == |s| || s[start] == '\n' || s[start] == '`' then start else LangEnd(s, start + 1)
  }

  /** The next match from a position on. */
  function NextFence(s: string, start: nat): (r: Option<Fence>)
    ensures r.Some? ==> start <= r.value.index < r.value.end <= |s|
    decreases |s| - start
  {
    match FindTicks(s, start)
    case None => None
    case Some(p) => if FenceFrom(s, p).Some? then FenceFrom(s, p) else NextFence(s, p + 1)
  }

  /** The match that starts with the ticks at p: the content ends at the next ticks. */
  function FenceFrom(s: string, p: nat): (r: Option<Fence>)
    requires p + 3 <= |s|
    ensures r.Some? ==> r.value.index == p < r.value.end <= |s|
  {
    var e := LangEnd(s, p + 3);
    var body := if e < |s| && s[e] == '\n' then e + 1 else e;
    match FindTicks(s, body)
    case None => None
    case Some(q) => Some(Fence(p, s[p + 3..e], s[body..q], q + 3))
  }

  /** A match of the pattern is the ticks, a language without line break and tick, at most one
      line break, any content and the ticks again. */
  predicate Matches(s: string, f: Fence, brk: string) {
    && f.index <= f.end <= |s| && '\n' !in f.lang && '`' !in f.lang && (brk == "" || brk == "\n")
    && s[f.index..f.end] == TICKS + f.lang + brk + f.code + TICKS
  }

  /** The match that the pattern yields when it looks from start on: no match stands before
      it, and among those that start with it its language is the longest and its end the
      first; its content holds no ticks. None if there is no match at all. */
  ghost predicate FirstMatch(s: string, start: nat, r: Option<Fence>) {
    && (r.Some? ==>
          && start <= r.value.index && FindTicks(r.value.code, 0).None?
          && (exists brk :: Matches(s, r.value, brk)))
    && (forall f, brk :: Matches(s, f, brk) && start <= f.index ==>
          && r.Some? && r.value.index <= f.index
          && (f.index == r.value.index ==> r.value.end <= f.end && |f.lang| <= |r.value.lang|))
  }

  lemma {:induction false} FenceText(s: string, start: nat)
    ensures FirstMatch(s, start, NextFence(s, start))
    decreases |s| - start
  {
    var ticks := FindTicks(s, start);
    forall f, brk | Matches(s, f, brk) && start <= f.index ensures ticks.Some? && ticks.value <= f.index {
      MatchTicks(s, f, brk);
    }
    if ticks.Some? {
      if FenceFrom(s, ticks.value).Some? {
        FenceFromShape(s, ticks.value);
        FoundFirst(s, start, ticks.value);
      } else {
        FenceText(s, ticks.value + 1);
        NoneThere(s, start, ticks.value);
      }
    }
  }

  lemma FoundFirst(s: string, start: nat, p: nat)
    requires start <= p && FindTicks(s, start) == Some(p) && FenceFrom(s, p).Some?
    requires FindTicks(FenceFrom(s, p).value.code, 0).None? && exists brk :: Matches(s, FenceFrom(s, p).value, brk)
    requires forall f, brk :: Matches(s, f, brk) && start <= f.index ==> p <= f.index
    ensures FirstMatch(s, start, FenceFrom(s, p))
  {
    forall f, brk | Matches(s, f, brk) && f.index == p
      ensures FenceFrom(s, p).value.end <= f.end && |f.lang| <= |FenceFrom(s, p).value.lang|
    {
      MatchFound(s, f, brk);
    }
  }

  lemma NoneThere(s: string, start: nat, p: nat)
    requires start <= p && FindTicks(s, start) == Some(p) && FenceFrom(s, p).None?
    requires FirstMatch(s, p + 1, NextFence(s, p + 1))
    requires forall f, brk :: Matches(s, f, brk) && start <= f.index ==> p <= f.index
    ensures FirstMatch(s, start, NextFence(s, p + 1))
  {
    forall f, brk | Matches(s, f, brk) && start <= f.index ensures p + 1 <= f.index {
      if f.index == p { MatchFound(s, f, brk); }
    }
  }

  lemma MatchTicks(s: string, f: Fence, brk: string)
    requires Matches(s, f, brk)
    ensures f.index + 6 + |f.lang| + |brk| <= f.end && TicksAt(s, f.index) && TicksAt(s, f.end - 3)
    ensures s[f.index + 3..f.index + 3 + |f.lang|] == f.lang
  {
    var m := s[f.index..f.end];
    var middle := f.lang + brk + f.code;
    MatchParts(f.lang, brk, f.code);
    assert m == TICKS + middle + TICKS;
    Bracketed(m, middle);
    Shifted(s, f.index, f.end);
    SliceSlice(s, f.index, f.end, 3, 3 + |f.lang|);
    SliceSlice(m, 3, |m| - 3, 0, |f.lang|);
  }

  lemma SliceSlice(s: string, a: nat, b: nat, c: nat, d: nat)
    requires a <= b <= |s| && c <= d <= b - a
    ensures s[a..b][c..d] == s[a + c..a + d]
  {
    var inner, outer := s[a..b][c..d], s[a + c..a + d];
    assert forall k :: 0 <= k < |outer| ==> inner[k] == s[a + c + k] == outer[k];
  }

  lemma MatchParts(lang: string, brk: string, code: string)
    ensures TICKS + lang + brk + code + TICKS == TICKS + (lang + brk + code) + TICKS
    ensures (lang + brk + code)[..|lang|] == lang
  {
    ConcatAssoc(TICKS, lang, brk);
    ConcatAssoc(TICKS, lang + brk, code);
  }

  lemma Bracketed(m: string, middle: string)
    requires m == TICKS + middle + TICKS
    ensures |m| == |middle| + 6 && TicksAt(m, 0) && TicksAt(m, |m| - 3) && m[3..|m| - 3] == middle
  {
  }

  lemma Shifted(s: string, from: nat, upTo: nat)
    requires from <= upTo <= |s|
    ensures forall k :: TicksAt(s[from..upTo], k) ==> TicksAt(s, from + k)
  {
  }

  /** Wherever the pattern can match, the match from those ticks is found. */
  lemma MatchFound(s: string, f: Fence, brk: string)
    requires Matches(s, f, brk)
    ensures f.index + 3 <= |s| && FenceFrom(s, f.index).Some?
    ensures FenceFrom(s, f.index).value.end <= f.end && |f.lang| <= |FenceFrom(s, f.index).value.lang|
  {
    MatchTicks(s, f, brk);
    var p, e, q := f.index, LangEnd(s, f.index + 3), f.end - 3;
    LangLongest(s, p + 3, p + 3 + |f.lang|);
    LangRuns(s, p + 3);
    assert TicksAt(s, q) && e <= q;
  }

  /** There is no tick in the language and none at a line break behind it. */
  lemma {:induction false} LangRuns(s: string, start: nat)
    requires start <= |s|
    ensures forall k :: start <= k < LangEnd(s, start) ==> s[k] != '`' && s[k] != '\n'
    decreases |s| - start
  {
    if start < |s| && s[start] != '\n' && s[start] != '`' {
      LangRuns(s, start + 1);
    }
  }

  lemma {:induction false} LangLongest(s: string, start: nat, end: nat)
    requires start <= end <= |s| && '\n' !in s[start..end] && '`' !in s[start..end]
    ensures end <= LangEnd(s, start)
    decreases end - start
  {
    if start < end {
      assert s[start] == s[start..end][0];
      assert s[start..end] == [s[start]] + s[start + 1..end];
      LangLongest(s, start + 1, end);
    }
  }

  lemma FenceFromShape(s: string, p: nat)
    requires p + 3 <= |s| && TicksAt(s, p) && FenceFrom(s, p).Some?
    ensures var f := FenceFrom(s, p).value; FindTicks(f.code, 0).None? && exists brk :: Matches(s, f, brk)
  {
    var e := LangEnd(s, p + 3);
    var body := if e < |s| && s[e] == '\n' then e + 1 else e;
    var q := FindTicks(s, body).value;
    var f := Fence(p, s[p + 3..e], s[body..q], q + 3);
    assert FenceFrom(s, p) == Some(f);
    LangIsLang(s, p + 3);
    FenceIsShaped(s, f, e, body, q);
  }

  lemma FenceIsShaped(s: string, f: Fence, e: nat, body: nat, q: nat)
    requires f.index + 3 <= e <= body <= q <= |s| && f == Fence(f.index, s[f.index + 3..e], s[body..q], q + 3)
    requires TicksAt(s, f.index) && FindTicks(s, body) == Some(q)
    requires body == e || (body == e + 1 && s[e] == '\n')
    requires '\n' !in f.lang && '`' !in f.lang
    ensures FindTicks(f.code, 0).None? && exists brk :: Matches(s, f, brk)
  {
    PiecesMatch(s, f.index, e, body, q);
    NoTicksBefore(s, body, q);
  }

  lemma PiecesMatch(s: string, p: nat, e: nat, body: nat, q: nat)
    requires p + 3 <= e <= body <= q && TicksAt(s, p) && TicksAt(s, q)
    requires body == e || (body == e + 1 && s[e] == '\n')
    requires '\n' !in s[p + 3..e] && '`' !in s[p + 3..e]
    ensures Matches(s, Fence(p, s[p + 3..e], s[body..q], q + 3), if body == e then "" else "\n")
  {
    TicksText(s, p);
    TicksText(s, q);
    FencePieces(s, p, e, body, q);
  }

  lemma NoTicksBefore(s: string, body: nat, q: nat)
    requires FindTicks(s, body) == Some(q)
    ensures FindTicks(s[body..q], 0).None?
  {
    Shifted(s, body, q);
  }

  lemma FencePieces(s: string, p: nat, e: nat, body: nat, q: nat)
    requires p + 3 <= e <= body <= q <= |s| - 3 && s[p..p + 3] == TICKS && s[q..q + 3] == TICKS
    requires body == e || (body == e + 1 && s[e] == '\n')
    ensures s[p..q + 3] == TICKS + s[p + 3..e] + (if body == e then "" else "\n") + s[body..q] + TICKS
  {
    var mid := s[e..body];
    if body == e {
      assert mid == "";
    } else {
      assert |mid| == 1 && mid[0] == '\n';
    }
    FivePieces(s, p, p + 3, e, body, q, q + 3);
  }

  lemma FivePieces(s: string, a: nat, b: nat, c: nat, d: nat, e: nat, f: nat)
    requires a <= b <= c <= d <= e <= f <= |s|
    ensures s[a..f] == s[a..b] + s[b..c] + s[c..d] + s[d..e] + s[e..f]
  {
    assert s[a..c] == s[a..b] + s[b..c];
    assert s[a..d] == s[a..c] + s[c..d];
    assert s[a..e] == s[a..d] + s[d..e];
  }

  lemma {:induction false} LangIsLang(s: string, start: nat)
    requires start <= |s|
    ensures var lang := s[start..LangEnd(s, start)]; '\n' !in lang && '`' !in lang
    decreases |s| - start
  {
    if start < |s| && s[start] != '\n' && s[start] != '`' {
      LangIsLang(s, start + 1);
      assert s[start..LangEnd(s, start)] == [s[start]] + s[start + 1..LangEnd(s, start)];
    }
  }

  // ---- segments ----

  /** How blocks are recognised: the parser of report blocks, and the label test and trimming
      for html blocks. */
  datatype Rules<!R> = Rules(report: (string, string) -> Option<R>, isHtml: string -> bool, trim: string -> string)

  /** The segment a block becomes, None if it stays markdown. */
  function Converted<R>(rules: Rules<R>, f: Fence): Option<Segment<R>> {
    match rules.report(f.lang, f.code)
    case Some(spec) => Some(Report(spec))
    case None => if rules.isHtml(f.lang) then Some(Html(rules.trim(f.code))) else None
  }

  /** A block becomes a segment exactly when it parses as a report or is labelled as html. */
  lemma ConvertedWhen<R>(rules: Rules<R>, f: Fence)
    ensures Converted(rules, f).Some? <==> rules.report(f.lang, f.code).Some? || rules.isHtml(f.lang)
  {
  }

  /** Where a segment comes from: its own text, or a match and the position it was looked for. */
  datatype Origin = Text(text: string) | Block(start: nat, fence: Fence)

  predicate Comes<R(==)>(rules: Rules<R>, content: string, seg: Segment<R>, o: Origin) {
    match o
    case Text(t) => seg == Markdown(t)
    case Block(start, f) =>
      && NextFence(content, start) == Some(f)
      && (if rules.report(f.lang, f.code).Some? then seg == Report(rules.report(f.lang, f.code).value)
          else rules.isHtml(f.lang) && seg == Html(rules.trim(f.code)))
  }

  function Source(content: string, o: Origin): string {
    match o
    case Text(t) => t
    case Block(_, f) => if f.index <= f.end <= |content| then content[f.index..f.end] else ""
  }

  /** The original text of all segments, in order. */
  function Sources(source: Origin -> string, origins: seq<Origin>): string {
    if origins == [] then "" else Sources(source, Init(origins)) + source(Last(origins))
  }

  function BlocksOf(origins: seq<Origin>): seq<Origin> {
    if origins == [] then []
    else BlocksOf(Init(origins)) + (if Last(origins).Block? then [Last(origins)] else [])
  }

  /** The scan: every match from start on that becomes a segment of its own, each looked for
      from the end of the one before. */
  function Scan<R>(next: nat -> Option<Fence>, convert: Fence -> Option<Segment<R>>, size: nat, start: nat): seq<Origin>
    decreases size - start
  {
    match next(start)
    case None => []
    case Some(f) =>
      if !(start < f.end <= size) then []
      else (if convert(f).Some? then [Block(start, f)] else []) + Scan(next, convert, size, f.end)
  }

  /** Every block stands in the text where it was matched. */
  ghost predicate Placed(source: Origin -> string, origins: seq<Origin>) {
    forall i :: 0 <= i < |origins| && origins[i].Block? ==> |Sources(source, origins[..i])| == origins[i].fence.index
  }

  /** Every segment comes from its origin, the origins together are the text, blocks where
      they were matched, no markdown is empty and no two neighbours are markdown. */
  ghost predicate Segments<R>(comes: (Segment<R>, Origin) -> bool, source: Origin -> string, segs: seq<Segment<R>>, origins: seq<Origin>, text: string) {
    && |segs| == |origins|
    && (forall i :: 0 <= i < |segs| ==> comes(segs[i], origins[i]) && segs[i] != Markdown(""))
    && Sources(source, origins) == text && Placed(source, origins)
    && (forall i :: 0 <= i < |segs| - 1 ==> !(segs[i].Markdown? && segs[i + 1].Markdown?))
  }

  ghost predicate TextLaws<R(!new)>(comes: (Segment<R>, Origin) -> bool, source: Origin -> string) {
    && (forall t :: comes(Markdown(t), Text(t)) && source(Text(t)) == t)
    && (forall t, o :: comes(Markdown(t), o) ==> o == Text(t))
  }

  lemma SourcesSnoc(source: Origin -> string, origins: seq<Origin>, o: Origin)
    ensures Sources(source, origins + [o]) == Sources(source, origins) + source(o)
    ensures BlocksOf(origins + [o]) == BlocksOf(origins) + (if o.Block? then [o] else [])
  {
    assert Init(origins + [o]) == origins && Last(origins + [o]) == o;
  }

  lemma PlacedSnoc(source: Origin -> string, origins: seq<Origin>, o: Origin)
    requires Placed(source, origins) && (o.Block? ==> |Sources(source, origins)| == o.fence.index)
    ensures Placed(source, origins + [o])
  {
    var more := origins + [o];
    assert more[..|origins|] == origins;
    forall i | 0 <= i < |origins| && more[i].Block?
      ensures |Sources(source, more[..i])| == more[i].fence.index
    {
      assert more[..i] == origins[..i] && more[i] == origins[i];
    }
  }

  lemma PlacedInit(source: Origin -> string, origins: seq<Origin>)
    requires Placed(source, origins) && origins != []
    ensures Placed(source, Init(origins))
  {
    forall i | 0 <= i < |origins| - 1 && origins[i].Block?
      ensures |Sources(source, Init(origins)[..i])| == Init(origins)[i].fence.index
    {
      assert Init(origins)[..i] == origins[..i];
    }
  }

  lemma Pushed<R>(comes: (Segment<R>, Origin) -> bool, source: Origin -> string, segs: seq<Segment<R>>, origins: seq<Origin>, sofar: string, seg: Segment<R>, o: Origin)
    requires Segments(comes, source, segs, origins, sofar) && comes(seg, o) && seg != Markdown("")
    requires segs != [] ==> !(Last(segs).Markdown? && seg.Markdown?)
    requires o.Block? ==> |sofar| == o.fence.index
    ensures Segments(comes, source, segs + [seg], origins + [o], sofar + source(o))
    ensures BlocksOf(origins + [o]) == BlocksOf(origins) + (if o.Block? then [o] else [])
  {
    SourcesSnoc(source, origins, o);
    PlacedSnoc(source, origins, o);
  }

  lemma Popped<R>(comes: (Segment<R>, Origin) -> bool, source: Origin -> string, segs: seq<Segment<R>>, origins: seq<Origin>, sofar: string)
    requires Segments(comes, source, segs, origins, sofar) && segs != []
    ensures Segments(comes, source, Init(segs), Init(origins), Sources(source, Init(origins)))
    ensures sofar == Sources(source, Init(origins)) + source(Last(origins)) && comes(Last(segs), Last(origins))
    ensures |segs| > 1 ==> !(Last(Init(segs)).Markdown? && Last(segs).Markdown?)
  {
    PlacedInit(source, origins);
  }

  method PushMarkdown<R(!new)>(ghost comes: (Segment<R>, Origin) -> bool, ghost source: Origin -> string, segs: seq<Segment<R>>, text: string,
                         ghost origins: seq<Origin>, ghost sofar: string)
      returns (more: seq<Segment<R>>, ghost moreOrigins: seq<Origin>)
    requires TextLaws(comes, source) && Segments(comes, source, segs, origins, sofar)
    ensures Segments(comes, source, more, moreOrigins, sofar + text) && BlocksOf(moreOrigins) == BlocksOf(origins)
    ensures more == [] <==> segs == [] && text == ""
  {
    if text == "" {
      assert sofar + text == sofar;
      return segs, origins;
    }
    if |segs| > 0 && Last(segs).Markdown? {
      var joined := Last(segs).text + text;
      ghost var before := Sources(source, Init(origins));
      Popped(comes, source, segs, origins, sofar);
      Pushed(comes, source, Init(segs), Init(origins), before, Markdown(joined), Text(joined));
      ConcatAssoc(before, Last(segs).text, text);
      more, moreOrigins := Init(segs) + [Markdown(joined)], Init(origins) + [Text(joined)];
    } else {
      Pushed(comes, source, segs, origins, sofar, Markdown(text), Text(text));
      more, moreOrigins := segs + [Markdown(text)], origins + [Text(text)];
    }
  }

  /** A matcher finds blocks inside the text, each behind the position it starts from. */
  ghost predicate Matcher<R(!new)>(content: string, next: nat -> Option<Fence>, convert: Fence -> Option<Segment<R>>,
                                   comes: (Segment<R>, Origin) -> bool, source: Origin -> string) {
    && (forall start: nat :: next(start).Some? ==> start <= next(start).value.index < next(start).value.end <= |content|)
    && (forall start: nat :: next(start).Some? ==>
          var f := next(start).value;
          && source(Block(start, f)) == content[f.index..f.end]
          && (convert(f).Some? ==> !convert(f).value.Markdown? && comes(convert(f).value, Block(start, f))))
  }

  lemma ScanStep<R>(next: nat -> Option<Fence>, convert: Fence -> Option<Segment<R>>, size: nat, start: nat, before: seq<Origin>)
    requires next(start).Some? && start < next(start).value.end <= size
    ensures var f := next(start).value;
      before + Scan(next, convert, size, start)
        == (if convert(f).Some? then before + [Block(start, f)] else before) + Scan(next, convert, size, f.end)
  {
    var f := next(start).value;
    if convert(f).Some? {
      ConcatAssoc(before, [Block(start, f)], Scan(next, convert, size, f.end));
    }
  }

  /** A match becomes a segment of its own, or stays markdown. */
  method PushFence<R(!new)>(ghost comes: (Segment<R>, Origin) -> bool, ghost source: Origin -> string, segs: seq<Segment<R>>,
                      content: string, f: Fence, seg: Option<Segment<R>>, ghost origins: seq<Origin>, ghost start: nat)
      returns (more: seq<Segment<R>>, ghost moreOrigins: seq<Origin>)
    requires f.index < f.end <= |content|
    requires TextLaws(comes, source) && Segments(comes, source, segs, origins, content[..f.index])
    requires source(Block(start, f)) == content[f.index..f.end]
    requires seg.Some? ==> !seg.value.Markdown? && comes(seg.value, Block(start, f))
    ensures Segments(comes, source, more, moreOrigins, content[..f.end]) && more != []
    ensures BlocksOf(moreOrigins) == if seg.Some? then BlocksOf(origins) + [Block(start, f)] else BlocksOf(origins)
  {
    Slices(content, f.index, f.end);
    if seg.Some? {
      Pushed(comes, source, segs, origins, content[..f.index], seg.value, Block(start, f));
      more, moreOrigins := segs + [seg.value], origins + [Block(start, f)];
    } else {
      more, moreOrigins := PushMarkdown(comes, source, segs, content[f.index..f.end], origins, content[..f.index]);
    }
  }

  /** The loop of parseReportMessageContent. */
  method Cut<R(!new)>(content: string, next: nat -> Option<Fence>, convert: Fence -> Option<Segment<R>>,
                ghost comes: (Segment<R>, Origin) -> bool, ghost source: Origin -> string)
      returns (segments: seq<Segment<R>>, ghost origins: seq<Origin>)
    requires TextLaws(comes, source) && Matcher(content, next, convert, comes, source)
    ensures Segments(comes, source, segments, origins, content) && (segments == [] ==> content == "")
    ensures BlocksOf(origins) == Scan(next, convert, |content|, 0)
  {
    segments, origins := [], [];
    var cursor := 0;
    while true
      invariant cursor <= |content| && Segments(comes, source, segments, origins, content[..cursor])
      invariant segments == [] ==> cursor == 0
      invariant BlocksOf(origins) + Scan(next, convert, |content|, cursor) == Scan(next, convert, |content|, 0)
      decreases |content| - cursor
    {
      var m := next(cursor);
      if m.None? {
        break;
      }
      var f := m.value;
      ScanStep(next, convert, |content|, cursor, BlocksOf(origins));
      segments, origins := PushMarkdown(comes, source, segments, content[cursor..f.index], origins, content[..cursor]);
      Slices(content, cursor, f.index);
      segments, origins := PushFence(comes, source, segments, content, f, convert(f), origins, cursor);
      cursor := f.end;
    }
    segments, origins := PushMarkdown(comes, source, segments, content[cursor..], origins, content[..cursor]);
    assert content[..cursor] + content[cursor..] == content;
  }

  lemma Slices(content: string, a: nat, b: nat)
    requires a <= b <= |content|
    ensures content[..a] + content[a..b] == content[..b]
  {
  }

  ghost function ComesFrom<R>(rules: Rules<R>, content: string): (Segment<R>, Origin) -> bool {
    (seg, o) => Comes(rules, content, seg, o)
  }

  ghost function SourceIn(content: string): Origin -> string {
    o => Source(content, o)
  }

  lemma ConcreteLaws<R(!new)>(rules: Rules<R>, content: string)
    ensures TextLaws(ComesFrom(rules, content), SourceIn(content))
  {
  }

  lemma ConcreteMatcher<R(!new)>(rules: Rules<R>, content: string, next: nat -> Option<Fence>, convert: Fence -> Option<Segment<R>>)
    requires (forall start: nat :: next(start) == NextFence(content, start)) && (forall f :: convert(f) == Converted(rules, f))
    ensures Matcher(content, next, convert, ComesFrom(rules, content), SourceIn(content))
  {
  }

  function Matching(content: string): nat -> Option<Fence> {
    (start: nat) => NextFence(content, start)
  }

  function Converting<R>(rules: Rules<R>): Fence -> Option<Segment<R>> {
    (f: Fence) => Converted(rules, f)
  }

  /** parseReportMessageContent: the segments that are not markdown are, in order, exactly the
      matches of the scan that convert; joining the markdown segments with the original text
      of the others gives back the message. */
  method ParseReportMessageContent<R(!new)>(rules: Rules<R>, content: string) returns (segments: seq<Segment<R>>, ghost origins: seq<Origin>)
    ensures if content == "" then segments == [Markdown("")] && origins == [Text("")]
            else segments != [] && Segments(ComesFrom(rules, content), SourceIn(content), segments, origins, content)
    ensures BlocksOf(origins) == Scan(Matching(content), Converting(rules), |content|, 0)
  {
    var next, convert := Matching(content), Converting(rules);
    ghost var comes, source := ComesFrom(rules, content), SourceIn(content);
    ConcreteLaws(rules, content);
    ConcreteMatcher(rules, content, next, convert);
    segments, origins := Cut(content, next, convert, comes, source);
    if |segments| == 0 {
      segments, origins := [Markdown(content)], [Text(content)];
      SourcesSnoc(source, [], Text(content));
    }
  }
}
