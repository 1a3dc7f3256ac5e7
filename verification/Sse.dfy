/** Server-sent events: the writer of an agent run's events, the bounded channel in front of
    it, and the browser's reader. The reader's result does not depend on how the network
    cuts the text, and it undoes the writer. */
module Sse {
  import opened Sequences
  import opened Strings
  import opened Wrappers

  const EVENT: string := "event: "
  const DATA: string := "data: "

  // ---- the reader ----

  /** The fields read since the last blank line, and the events handed on so far. */
  datatype Reading<E> = Reading(event: string, data: string, delivered: seq<E>)

  function Dispatched<E>(dispatch: (string, string) -> Option<E>, event: string, data: string): seq<E> {
    if event != "" && data != "" && dispatch(event, data).Some? then [dispatch(event, data).value] else []
  }

  function TakeLine<E>(trim: string -> string, dispatch: (string, string) -> Option<E>, r: Reading<E>, line: string): Reading<E> {
    if EVENT <= line then r.(event := trim(line[7..]))
    else if DATA <= line then r.(data := line[6..])
    else if line == "" then Reading("", "", r.delivered + Dispatched(dispatch, r.event, r.data))
    else r
  }

  function ReadFrom<E>(trim: string -> string, dispatch: (string, string) -> Option<E>, r: Reading<E>, lines: seq<string>): Reading<E>
    decreases |lines|
  {
    if lines == [] then r else ReadFrom(trim, dispatch, TakeLine(trim, dispatch, r, lines[0]), lines[1..])
  }

  /** The events a text holds: those of its complete lines. */
  function Delivered<E>(trim: string -> string, dispatch: (string, string) -> Option<E>, text: string): seq<E> {
    ReadFrom(trim, dispatch, Reading("", "", []), Init(SplitOn(text, '\n'))).delivered
  }

  lemma {:induction false} ReadConcat<E>(trim: string -> string, dispatch: (string, string) -> Option<E>, r: Reading<E>, a: seq<string>, b: seq<string>)
    ensures ReadFrom(trim, dispatch, r, a + b) == ReadFrom(trim, dispatch, ReadFrom(trim, dispatch, r, a), b)
    decreases |a|
  {
    if a == [] {
      assert a + b == b;
    } else {
      assert (a + b)[1..] == a[1..] + b;
      ReadConcat(trim, dispatch, TakeLine(trim, dispatch, r, a[0]), a[1..], b);
    }
  }

  lemma ReadSnoc<E>(trim: string -> string, dispatch: (string, string) -> Option<E>, r: Reading<E>, lines: seq<string>, line: string)
    ensures ReadFrom(trim, dispatch, r, lines + [line]) == TakeLine(trim, dispatch, ReadFrom(trim, dispatch, r, lines), line)
  {
    ReadConcat(trim, dispatch, r, lines, [line]);
    assert [line][1..] == [];
  }

  /** Text that arrives later only continues the last line. */
  lemma {:induction false} SplitConcat(a: string, b: string, sep: char)
    ensures SplitOn(a + b, sep) == Init(SplitOn(a, sep)) + SplitOn(Last(SplitOn(a, sep)) + b, sep)
  {
    if a == "" {
      assert a + b == b && "" + b == b;
    } else {
      assert (a + b)[1..] == a[1..] + b;
      SplitConcat(a[1..], b, sep);
      SplitCons(a[0], SplitOn(a[1..], sep), b, sep);
    }
  }

  /** The first character c either ends an empty first part or extends the first part. */
  function Extend(c: char, parts: seq<string>, sep: char): seq<string>
    requires parts != []
  {
    if c == sep then [""] + parts else [[c] + parts[0]] + parts[1..]
  }

  lemma SplitHead(c: char, s: string, sep: char)
    ensures SplitOn([c] + s, sep) == Extend(c, SplitOn(s, sep), sep)
  {
    assert ([c] + s)[1..] == s;
  }

  lemma ExtendConcat(c: char, first: seq<string>, more: seq<string>, sep: char)
    requires first != []
    ensures Extend(c, first + more, sep) == Extend(c, first, sep) + more
  {
  }

  lemma SplitCons(c: char, parts: seq<string>, b: string, sep: char)
    requires parts != []
    ensures Extend(c, Init(parts) + SplitOn(Last(parts) + b, sep), sep)
         == Init(Extend(c, parts, sep)) + SplitOn(Last(Extend(c, parts, sep)) + b, sep)
  {
    var rest := SplitOn(Last(parts) + b, sep);
    if c == sep {
      InitCons("", parts);
      ConcatAssoc([""], Init(parts), rest);
    } else if |parts| == 1 {
      ConcatAssoc([c], parts[0], b);
      SplitHead(c, parts[0] + b, sep);
      assert Init(parts) == [] && [] + rest == rest;
      assert Init(Extend(c, parts, sep)) == [];
    } else {
      ExtendConcat(c, Init(parts), rest, sep);
      InitExtend(c, parts, sep);
    }
  }

  lemma InitCons(first: string, parts: seq<string>)
    requires parts != []
    ensures Init([first] + parts) == [first] + Init(parts) && Last([first] + parts) == Last(parts)
  {
  }

  lemma InitExtend(c: char, parts: seq<string>, sep: char)
    requires c != sep && |parts| > 1
    ensures Init(Extend(c, parts, sep)) == Extend(c, Init(parts), sep) && Last(Extend(c, parts, sep)) == Last(parts)
  {
  }

  /** What one more chunk adds: its lines, the first one continued. */
  lemma ChunkRead<E>(trim: string -> string, dispatch: (string, string) -> Option<E>, received: string, chunk: string)
    ensures var r := Reading("", "", []);
            var before, lines := SplitOn(received, '\n'), SplitOn(Last(SplitOn(received, '\n')) + chunk, '\n');
            var after := SplitOn(received + chunk, '\n');
            && Last(after) == Last(lines)
            && ReadFrom(trim, dispatch, r, Init(after)) == ReadFrom(trim, dispatch, ReadFrom(trim, dispatch, r, Init(before)), Init(lines))
  {
    var before, lines := SplitOn(received, '\n'), SplitOn(Last(SplitOn(received, '\n')) + chunk, '\n');
    SplitConcat(received, chunk, '\n');
    assert Init(Init(before) + lines) == Init(before) + Init(lines);
    ReadConcat(trim, dispatch, Reading("", "", []), Init(before), Init(lines));
  }

  /** streamSSE: each network chunk extends the buffer, whose complete lines are read. */
  method StreamSSE<E>(trim: string -> string, dispatch: (string, string) -> Option<E>, chunks: seq<string>) returns (delivered: seq<E>)
    ensures delivered == Delivered(trim, dispatch, Join(chunks, ""))
  {
    var buffer, currentEvent, currentData := "", "", "";
    delivered := [];
    ghost var received, r := "", Reading("", "", []);
    assert SplitOn(received, '\n') == [""];
    for i := 0 to |chunks|
      invariant received == Join(chunks[..i], "") && buffer == Last(SplitOn(received, '\n'))
      invariant Reading(currentEvent, currentData, delivered) == ReadFrom(trim, dispatch, r, Init(SplitOn(received, '\n')))
    {
      ChunkRead(trim, dispatch, received, chunks[i]);
      buffer := buffer + chunks[i];
      var lines := SplitOn(buffer, '\n');
      buffer := Last(lines);
      lines := Init(lines);
      currentEvent, currentData, delivered := ReadLines(trim, dispatch, lines, currentEvent, currentData, delivered);
      JoinMore(chunks, i);
      received := received + chunks[i];
    }
    assert chunks[..|chunks|] == chunks;
  }

  lemma JoinMore(chunks: seq<string>, i: nat)
    requires i < |chunks|
    ensures Join(chunks[..i + 1], "") == Join(chunks[..i], "") + chunks[i]
  {
    assert chunks[..i + 1] == chunks[..i] + [chunks[i]];
    if i > 0 { JoinSnoc(chunks[..i], chunks[i], ""); }
  }

  /** The loop over the lines of one chunk. */
  method ReadLines<E>(trim: string -> string, dispatch: (string, string) -> Option<E>, lines: seq<string>, event: string, data: string, sofar: seq<E>)
      returns (currentEvent: string, currentData: string, delivered: seq<E>)
    ensures Reading(currentEvent, currentData, delivered) == ReadFrom(trim, dispatch, Reading(event, data, sofar), lines)
  {
    currentEvent, currentData, delivered := event, data, sofar;
    ghost var r := Reading(event, data, sofar);
    for k := 0 to |lines|
      invariant Reading(currentEvent, currentData, delivered) == ReadFrom(trim, dispatch, r, lines[..k])
    {
      var line := lines[k];
      assert lines[..k + 1] == lines[..k] + [line];
      ReadSnoc(trim, dispatch, r, lines[..k], line);
      if EVENT <= line {
        currentEvent := trim(line[7..]);
      } else if DATA <= line {
        currentData := line[6..];
      } else if line == "" {
        if currentEvent != "" && currentData != "" {
          var parsed := dispatch(currentEvent, currentData);
          if parsed.Some? {
            delivered := delivered + [parsed.value];
          }
        }
        currentEvent := "";
        currentData := "";
      }
    }
    assert lines[..|lines|] == lines;
  }

  // ---- what the reader means ----

  /** Text after the prefix in the last line that has it; "" if no line has. */
  function Field(prefix: string, lines: seq<string>): string {
    if lines == [] then ""
    else if prefix <= Last(lines) then Last(lines)[|prefix|..]
    else Field(prefix, Init(lines))
  }

  lemma {:induction false} FieldsRead<E>(trim: string -> string, dispatch: (string, string) -> Option<E>, lines: seq<string>, sofar: seq<E>)
    requires trim("") == "" && "" !in lines
    ensures ReadFrom(trim, dispatch, Reading("", "", sofar), lines) == Reading(trim(Field(EVENT, lines)), Field(DATA, lines), sofar)
  {
    if lines != [] {
      var line := Last(lines);
      assert lines == Init(lines) + [line];
      FieldsRead(trim, dispatch, Init(lines), sofar);
      ReadSnoc(trim, dispatch, Reading("", "", sofar), Init(lines), line);
      assert EVENT[0] != DATA[0];
    }
  }

  /** A block of lines ended by an empty one is one event at most: the one that its last event
      field and its last data field make, if both are there. */
  lemma BlockDelivers<E>(trim: string -> string, dispatch: (string, string) -> Option<E>, block: seq<string>, rest: seq<string>, sofar: seq<E>)
    requires trim("") == "" && "" !in block
    ensures ReadFrom(trim, dispatch, Reading("", "", sofar), block + [""] + rest)
         == ReadFrom(trim, dispatch, Reading("", "", sofar + Dispatched(dispatch, trim(Field(EVENT, block)), Field(DATA, block))), rest)
  {
    var r := Reading("", "", sofar);
    ReadConcat(trim, dispatch, r, block + [""], rest);
    ReadSnoc(trim, dispatch, r, block, "");
    FieldsRead(trim, dispatch, block, sofar);
  }

  /** Whatever arrives later, what was delivered stays. */
  lemma DeliveredGrows<E>(trim: string -> string, dispatch: (string, string) -> Option<E>, a: string, b: string)
    ensures Delivered(trim, dispatch, a) <= Delivered(trim, dispatch, a + b)
  {
    var r := Reading("", "", []);
    SplitConcat(a, b, '\n');
    var later := SplitOn(Last(SplitOn(a, '\n')) + b, '\n');
    assert Init(SplitOn(a + b, '\n')) == Init(SplitOn(a, '\n')) + Init(later);
    ReadConcat(trim, dispatch, r, Init(SplitOn(a, '\n')), Init(later));
    ReadGrows(trim, dispatch, ReadFrom(trim, dispatch, r, Init(SplitOn(a, '\n'))), Init(later));
  }

  lemma {:induction false} ReadGrows<E>(trim: string -> string, dispatch: (string, string) -> Option<E>, r: Reading<E>, lines: seq<string>)
    ensures r.delivered <= ReadFrom(trim, dispatch, r, lines).delivered
    decreases |lines|
  {
    if lines != [] {
      var next := TakeLine(trim, dispatch, r, lines[0]);
      ReadGrows(trim, dispatch, next, lines[1..]);
      PrefixTransitive(r.delivered, next.delivered, ReadFrom(trim, dispatch, r, lines).delivered);
    }
  }

  // ---- the writer ----

  function EventText(kind: string, data: string): string {
    EVENT + kind + "\n" + DATA + data + "\n\n"
  }

  /** What the writer prints for an event: a block, or nothing if it cannot be marshalled. */
  function BlockOf<E>(kind: E -> string, marshal: E -> Option<string>): E -> string {
    e => if marshal(e).Some? then EventText(kind(e), marshal(e).value) else ""
  }

  function WireText<E>(block: E -> string, events: seq<E>): string {
    if events == [] then "" else block(events[0]) + WireText(block, events[1..])
  }

  /** The events that can be marshalled. */
  function Sendable<E>(marshal: E -> Option<string>, events: seq<E>): seq<E> {
    if events == [] then []
    else (if marshal(events[0]).Some? then [events[0]] else []) + Sendable(marshal, events[1..])
  }

  /** Marshalled data is one line that parses back; the event type is a trimmed word. */
  ghost predicate Codes<E(!new)>(trim: string -> string, dispatch: (string, string) -> Option<E>, kind: E -> string, marshal: E -> Option<string>) {
    forall e :: marshal(e).Some? ==>
      && kind(e) != "" && trim(kind(e)) == kind(e) && '\n' !in kind(e)
      && marshal(e).value != "" && '\n' !in marshal(e).value
      && dispatch(kind(e), marshal(e).value) == Some(e)
  }

  lemma SplitEvent(kind: string, data: string, rest: string)
    requires '\n' !in kind && '\n' !in data
    ensures SplitOn(EventText(kind, data) + rest, '\n') == [EVENT + kind, DATA + data] + [""] + SplitOn(rest, '\n')
  {
    var first, second := EVENT + kind, DATA + data;
    assert '\n' !in first && '\n' !in second;
    assert EventText(kind, data) + rest == first + ['\n'] + (second + ['\n'] + ("" + ['\n'] + rest));
    SplitLine(first, second + ['\n'] + ("" + ['\n'] + rest), '\n');
    SplitLine(second, "" + ['\n'] + rest, '\n');
    SplitLine("", rest, '\n');
  }

  /** The two lines of an event and the empty one deliver it. */
  lemma EventRead<E(!new)>(trim: string -> string, dispatch: (string, string) -> Option<E>, kind: E -> string, marshal: E -> Option<string>, e: E, rest: seq<string>, sofar: seq<E>)
    requires trim("") == "" && Codes(trim, dispatch, kind, marshal) && marshal(e).Some?
    ensures ReadFrom(trim, dispatch, Reading("", "", sofar), [EVENT + kind(e), DATA + marshal(e).value] + [""] + rest)
         == ReadFrom(trim, dispatch, Reading("", "", sofar + [e]), rest)
  {
    var block := [EVENT + kind(e), DATA + marshal(e).value];
    BlockFields(kind(e), marshal(e).value);
    BlockDelivers(trim, dispatch, block, rest, sofar);
  }

  lemma BlockFields(kind: string, data: string)
    ensures "" !in [EVENT + kind, DATA + data]
    ensures Field(EVENT, [EVENT + kind, DATA + data]) == kind && Field(DATA, [EVENT + kind, DATA + data]) == data
  {
    var block := [EVENT + kind, DATA + data];
    assert Init(block) == [EVENT + kind];
    assert EVENT[0] != (DATA + data)[0];
    assert (EVENT + kind)[|EVENT|..] == kind && (DATA + data)[|DATA|..] == data;
  }

  /** The events in a text that is read after others were delivered. */
  function ReadText<E>(trim: string -> string, dispatch: (string, string) -> Option<E>): (seq<E>, string) -> seq<E> {
    (sofar, text) => ReadFrom(trim, dispatch, Reading("", "", sofar), Init(SplitOn(text, '\n'))).delivered
  }

  ghost predicate ReadsBlocks<E(!new)>(read: (seq<E>, string) -> seq<E>, block: E -> string, marshal: E -> Option<string>) {
    && (forall sofar :: read(sofar, "") == sofar)
    && (forall sofar, e, rest {:trigger read(sofar, block(e) + rest)} ::
          read(sofar, block(e) + rest) == read(if marshal(e).Some? then sofar + [e] else sofar, rest))
  }

  lemma BlocksRead<E(!new)>(trim: string -> string, dispatch: (string, string) -> Option<E>, kind: E -> string, marshal: E -> Option<string>)
    requires trim("") == "" && Codes(trim, dispatch, kind, marshal)
    ensures ReadsBlocks(ReadText(trim, dispatch), BlockOf(kind, marshal), marshal)
  {
    var read, block := ReadText(trim, dispatch), BlockOf(kind, marshal);
    forall sofar ensures read(sofar, "") == sofar {
      assert Init(SplitOn("", '\n')) == [];
    }
    forall sofar, e, rest ensures read(sofar, block(e) + rest) == read(if marshal(e).Some? then sofar + [e] else sofar, rest) {
      BlockRead(trim, dispatch, kind, marshal, e, rest, sofar);
    }
  }

  lemma BlockRead<E(!new)>(trim: string -> string, dispatch: (string, string) -> Option<E>, kind: E -> string, marshal: E -> Option<string>, e: E, rest: string, sofar: seq<E>)
    requires trim("") == "" && Codes(trim, dispatch, kind, marshal)
    ensures ReadText(trim, dispatch)(sofar, BlockOf(kind, marshal)(e) + rest)
         == ReadText(trim, dispatch)(if marshal(e).Some? then sofar + [e] else sofar, rest)
  {
    if marshal(e).Some? {
      var block, lines := [EVENT + kind(e), DATA + marshal(e).value], SplitOn(rest, '\n');
      SplitEvent(kind(e), marshal(e).value, rest);
      assert Init(block + [""] + lines) == block + [""] + Init(lines);
      EventRead(trim, dispatch, kind, marshal, e, Init(lines), sofar);
    } else {
      assert "" + rest == rest;
    }
  }

  lemma {:induction false} WireRead<E(!new)>(read: (seq<E>, string) -> seq<E>, block: E -> string, marshal: E -> Option<string>, events: seq<E>, sofar: seq<E>)
    requires ReadsBlocks(read, block, marshal)
    ensures read(sofar, WireText(block, events)) == sofar + Sendable(marshal, events)
    decreases |events|
  {
    if events != [] {
      var e := events[0];
      if marshal(e).Some? {
        WireRead(read, block, marshal, events[1..], sofar + [e]);
        ConcatAssoc(sofar, [e], Sendable(marshal, events[1..]));
      } else {
        WireRead(read, block, marshal, events[1..], sofar);
        assert [] + Sendable(marshal, events[1..]) == Sendable(marshal, events[1..]);
      }
    }
  }

  /** The reader undoes the writer, however the network cuts the text. */
  lemma RoundTrip<E(!new)>(trim: string -> string, dispatch: (string, string) -> Option<E>, kind: E -> string, marshal: E -> Option<string>, events: seq<E>, chunks: seq<string>)
    requires trim("") == "" && Codes(trim, dispatch, kind, marshal)
    requires Join(chunks, "") == WireText(BlockOf(kind, marshal), events)
    ensures Delivered(trim, dispatch, Join(chunks, "")) == Sendable(marshal, events)
  {
    BlocksRead(trim, dispatch, kind, marshal);
    WireRead(ReadText(trim, dispatch), BlockOf(kind, marshal), marshal, events, []);
  }

  // ---- the bounded channel between the run and the writer ----

  const CAPACITY: nat := 64

  /** The run emits, the writer takes; the two interleave in any way. */
  datatype Step<E> = Emit(event: E) | Take

  /** queue is the channel's buffer, taken what the writer took, dropped counts the events
      that found the buffer full. */
  datatype Channel<E> = Channel(queue: seq<E>, taken: seq<E>, dropped: nat)

  function After<E>(c: Channel<E>, step: Step<E>): Channel<E> {
    match step
    case Emit(e) => if |c.queue| < CAPACITY then c.(queue := c.queue + [e]) else c.(dropped := c.dropped + 1)
    case Take => if c.queue == [] then c else c.(queue := c.queue[1..], taken := c.taken + [c.queue[0]])
  }

  function Exec<E>(steps: seq<Step<E>>): Channel<E> {
    if steps == [] then Channel([], [], 0) else After(Exec(Init(steps)), Last(steps))
  }

  function Emitted<E>(steps: seq<Step<E>>): seq<E> {
    if steps == [] then []
    else match Last(steps)
      case Emit(e) => Emitted(Init(steps)) + [e]
      case Take => Emitted(Init(steps))
  }

  /** a is b without some of its elements. */
  predicate IsSubsequence<E(==)>(a: seq<E>, b: seq<E>)
    decreases |b|
  {
    if a == [] then true
    else if b == [] then false
    else if Last(a) == Last(b) then IsSubsequence(Init(a), Init(b))
    else IsSubsequence(a, Init(b))
  }

  lemma {:induction false} SubsequenceSkips<E>(a: seq<E>, b: seq<E>, e: E)
    requires IsSubsequence(a, b)
    ensures IsSubsequence(a, b + [e])
    decreases |b|, 1
  {
    assert Init(b + [e]) == b;
    if a != [] && Last(a) == e {
      SubsequenceShrinks(a, b);
    }
  }

  lemma {:induction false} SubsequenceShrinks<E>(a: seq<E>, b: seq<E>)
    requires IsSubsequence(a, b) && a != []
    ensures IsSubsequence(Init(a), b)
    decreases |b|, 0
  {
    assert b == Init(b) + [Last(b)];
    if Last(a) == Last(b) {
      SubsequenceSkips(Init(a), Init(b), Last(b));
    } else {
      SubsequenceShrinks(a, Init(b));
      SubsequenceSkips(Init(a), Init(b), Last(b));
    }
  }

  lemma SubsequenceTakes<E>(a: seq<E>, b: seq<E>, e: E)
    requires IsSubsequence(a, b)
    ensures IsSubsequence(a + [e], b + [e])
  {
    assert Init(a + [e]) == a && Init(b + [e]) == b;
  }

  /** The writer has got, or will get from the buffer, a subsequence of what was emitted; it
      misses exactly the events that found the buffer full. */
  ghost predicate Keeps<E>(c: Channel<E>, emitted: seq<E>) {
    && |c.queue| <= CAPACITY
    && IsSubsequence(c.taken + c.queue, emitted)
    && |c.taken + c.queue| + c.dropped == |emitted|
    && (c.dropped == 0 ==> c.taken + c.queue == emitted)
  }

  lemma EmitKeeps<E>(c: Channel<E>, emitted: seq<E>, e: E)
    requires Keeps(c, emitted)
    ensures Keeps(After(c, Emit(e)), emitted + [e])
  {
    var held := c.taken + c.queue;
    if |c.queue| < CAPACITY {
      SubsequenceTakes(held, emitted, e);
      ConcatAssoc(c.taken, c.queue, [e]);
    } else {
      SubsequenceSkips(held, emitted, e);
    }
  }

  lemma TakeKeeps<E>(c: Channel<E>, emitted: seq<E>)
    requires Keeps(c, emitted)
    ensures Keeps(After(c, Take), emitted)
  {
    if c.queue != [] {
      assert c.taken + [c.queue[0]] + c.queue[1..] == c.taken + c.queue;
    }
  }

  /** In every interleaving. All events arrive if and only if none found the buffer full. */
  lemma {:induction false} ChannelKeeps<E>(steps: seq<Step<E>>)
    ensures Keeps(Exec(steps), Emitted(steps))
    ensures Exec(steps).dropped == 0 <==> Exec(steps).taken + Exec(steps).queue == Emitted(steps)
  {
    if steps != [] {
      ChannelKeeps(Init(steps));
      match Last(steps)
      case Emit(e) => EmitKeeps(Exec(Init(steps)), Emitted(Init(steps)), e);
      case Take => TakeKeeps(Exec(Init(steps)), Emitted(Init(steps)));
    }
  }

  /** Step i emits an event that finds fewer than 64 in the buffer. */
  predicate Accepts<E>(steps: seq<Step<E>>, i: nat) {
    i < |steps| && steps[i].Emit? && |Exec(steps[..i]).queue| < 64
  }

  /** held are the events of the accepted steps, in order; at tells which steps. */
  ghost predicate Marks<E>(steps: seq<Step<E>>, accepts: nat -> bool, at: seq<nat>, held: seq<E>) {
    && |at| == |held| && (forall i, j :: 0 <= i < j < |at| ==> at[i] < at[j])
    && (forall i: nat :: i in at <==> i < |steps| && accepts(i))
    && (forall j :: 0 <= j < |at| ==> at[j] < |steps| && steps[at[j]] == Emit(held[j]))
  }

  lemma MarksSame<E>(steps: seq<Step<E>>, a: nat -> bool, b: nat -> bool, at: seq<nat>, held: seq<E>)
    requires Marks(steps, a, at, held) && forall i: nat :: i < |steps| ==> (a(i) <==> b(i))
    ensures Marks(steps, b, at, held)
  {
  }

  lemma MarksOne<E>(steps: seq<Step<E>>, accepts: nat -> bool, at: seq<nat>, held: seq<E>, event: E)
    requires Marks(steps, accepts, at, held) && accepts(|steps|)
    ensures Marks(steps + [Emit(event)], accepts, at + [|steps|], held + [event])
  {
    assert forall j :: 0 <= j < |at| ==> at[j] in at;
  }

  lemma MarksNone<E>(steps: seq<Step<E>>, accepts: nat -> bool, at: seq<nat>, held: seq<E>, step: Step<E>)
    requires Marks(steps, accepts, at, held) && !accepts(|steps|)
    ensures Marks(steps + [step], accepts, at, held)
  {
  }

  ghost function Accepting<E>(steps: seq<Step<E>>): nat -> bool {
    (i: nat) => Accepts(steps, i)
  }

  /** In every interleaving what the writer has got or will get are exactly the accepted events,
      in order. */
  lemma {:induction false} ChannelHolds<E>(steps: seq<Step<E>>) returns (at: seq<nat>)
    ensures Marks(steps, Accepting(steps), at, Exec(steps).taken + Exec(steps).queue)
  {
    at := [];
    if steps != [] {
      var init, last := Init(steps), Last(steps);
      at := ChannelHolds(init);
      SameAccepts(steps);
      MarksSame(init, Accepting(init), Accepting(steps), at, Exec(init).taken + Exec(init).queue);
      HeldAfter(Exec(init), last);
      at := MarksStep(init, Accepting(steps), at, Exec(init).taken + Exec(init).queue, last, Exec(steps).taken + Exec(steps).queue);
      InitLast(steps);
    }
  }

  lemma MarksStep<E>(steps: seq<Step<E>>, accepts: nat -> bool, at: seq<nat>, held: seq<E>, step: Step<E>, next: seq<E>) returns (more: seq<nat>)
    requires Marks(steps, accepts, at, held) && (accepts(|steps|) ==> step.Emit?)
    requires next == if accepts(|steps|) then held + [step.event] else held
    ensures Marks(steps + [step], accepts, more, next)
  {
    if accepts(|steps|) {
      MarksOne(steps, accepts, at, held, step.event);
      more := at + [|steps|];
    } else {
      MarksNone(steps, accepts, at, held, step);
      more := at;
    }
  }

  lemma SameAccepts<E>(steps: seq<Step<E>>)
    requires steps != []
    ensures forall i: nat :: i < |steps| - 1 ==> (Accepting(Init(steps))(i) <==> Accepting(steps)(i))
    ensures Accepts(steps, |steps| - 1) <==> Last(steps).Emit? && |Exec(Init(steps)).queue| < 64
  {
    forall i: nat | i < |steps| - 1 ensures Accepts(Init(steps), i) <==> Accepts(steps, i) {
      assert steps[..i] == Init(steps)[..i];
    }
  }

  lemma HeldAfter<E>(c: Channel<E>, step: Step<E>)
    ensures var next := After(c, step);
      next.taken + next.queue == if step.Emit? && |c.queue| < 64 then c.taken + c.queue + [step.event] else c.taken + c.queue
  {
    if step.Emit? {
      ConcatAssoc(c.taken, c.queue, [step.event]);
    } else if c.queue != [] {
      assert c.taken + [c.queue[0]] + c.queue[1..] == c.taken + c.queue;
    }
  }

  lemma {:induction false} SendableSubsequence<E>(marshal: E -> Option<string>, events: seq<E>)
    ensures IsSubsequence(Sendable(marshal, events), events)
  {
    if events != [] {
      SendableSnoc(marshal, Init(events), Last(events));
      assert events == Init(events) + [Last(events)];
      SendableSubsequence(marshal, Init(events));
      var sent := Sendable(marshal, Init(events));
      SubsequenceTakes(sent, Init(events), Last(events));
      SubsequenceSkips(sent, Init(events), Last(events));
      assert sent + [] == sent;
    }
  }

  lemma {:induction false} SendableSnoc<E>(marshal: E -> Option<string>, events: seq<E>, e: E)
    ensures Sendable(marshal, events + [e]) == Sendable(marshal, events) + (if marshal(e).Some? then [e] else [])
  {
    var first := if marshal((events + [e])[0]).Some? then [(events + [e])[0]] else [];
    if events == [] {
      assert (events + [e])[1..] == [];
    } else {
      assert (events + [e])[1..] == events[1..] + [e];
      SendableSnoc(marshal, events[1..], e);
      ConcatAssoc(first, Sendable(marshal, events[1..]), if marshal(e).Some? then [e] else []);
    }
  }

  lemma {:induction false} SubsequenceTransitive<E>(a: seq<E>, b: seq<E>, c: seq<E>)
    requires IsSubsequence(a, b) && IsSubsequence(b, c)
    ensures IsSubsequence(a, c)
    decreases |c|
  {
    if a != [] {
      assert c == Init(c) + [Last(c)];
      if Last(b) != Last(c) {
        SubsequenceTransitive(a, b, Init(c));
        SubsequenceSkips(a, Init(c), Last(c));
      } else if Last(a) == Last(b) {
        SubsequenceTransitive(Init(a), Init(b), Init(c));
      } else {
        SubsequenceTransitive(a, Init(b), Init(c));
        SubsequenceSkips(a, Init(c), Last(c));
      }
    }
  }

  /** From the run to the browser: when the channel is drained, what the reader delivers is a
      subsequence of what the run emitted, for every interleaving and every cutting; if no
      event found the buffer full and all can be marshalled, it is all of it. */
  lemma EndToEnd<E(!new)>(trim: string -> string, dispatch: (string, string) -> Option<E>, kind: E -> string, marshal: E -> Option<string>, steps: seq<Step<E>>, chunks: seq<string>)
    requires trim("") == "" && Codes(trim, dispatch, kind, marshal)
    requires Exec(steps).queue == [] && Join(chunks, "") == WireText(BlockOf(kind, marshal), Exec(steps).taken)
    ensures IsSubsequence(Delivered(trim, dispatch, Join(chunks, "")), Emitted(steps))
    ensures Exec(steps).dropped == 0 ==> Delivered(trim, dispatch, Join(chunks, "")) == Sendable(marshal, Emitted(steps))
  {
    var taken := Exec(steps).taken;
    ChannelKeeps(steps);
    assert taken + [] == taken;
    RoundTrip(trim, dispatch, kind, marshal, taken, chunks);
    SendableSubsequence(marshal, taken);
    SubsequenceTransitive(Sendable(marshal, taken), taken, Emitted(steps));
  }
}
