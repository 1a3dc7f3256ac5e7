/** Reading a chat completion from the OpenAI API, whole or as a stream of chunks. A streamed
    answer, however it was cut and its tool calls interleaved, is put together to what
    parsing the whole answer gives. */
module OpenAIStream {
  import opened JsonValues
  import opened Sequences
  import opened Strings
  import opened Wrappers
  import Messages

  type ToolCall = Messages.ToolCall

  // ---- the wire format ----

  datatype WireUsage = WireUsage(prompt: int, completion: int, total: int, cached: Option<int>)

  datatype WireCall = WireCall(id: string, name: string, arguments: string)

  datatype WireChoice = WireChoice(content: string, calls: seq<WireCall>, finish: string)

  datatype WireResponse = WireResponse(choices: seq<WireChoice>, usage: Option<WireUsage>)

  datatype Fragment = Fragment(index: int, id: string, name: string, arguments: string)

  datatype Delta = Delta(content: string, calls: seq<Fragment>, finish: string)

  datatype Chunk = Chunk(choices: seq<Delta>, usage: Option<WireUsage>)

  // ---- the result ----

  datatype Usage = Usage(prompt: int, completion: int, total: int, cacheRead: int)

  datatype ChatResponse = ChatResponse(content: string, toolCalls: seq<ToolCall>, finish: string, usage: Option<Usage>)

  function UsageOf(u: Option<WireUsage>): Option<Usage> {
    if u.None? then None
    else Some(Usage(u.value.prompt, u.value.completion, u.value.total, if u.value.cached.Some? then u.value.cached.value else 0))
  }

  /** A tool call from its wire form; args stands for json.Unmarshal into an empty map. */
  function CallOf(args: string -> map<string, Json>, c: WireCall): ToolCall {
    Messages.ToolCall(c.id, TrimSpace(c.name), args(c.arguments))
  }

  // ---- the whole answer ----

  function CallsOf(args: string -> map<string, Json>, calls: seq<WireCall>): (r: seq<ToolCall>)
    ensures |r| == |calls|
  {
    seq(|calls|, i requires 0 <= i < |calls| => CallOf(args, calls[i]))
  }

  lemma CallsSnoc(args: string -> map<string, Json>, calls: seq<WireCall>, i: nat)
    requires i < |calls|
    ensures CallsOf(args, calls)[..i + 1] == CallsOf(args, calls)[..i] + [CallOf(args, calls[i])]
  {
  }

  function Parsed(args: string -> map<string, Json>, resp: WireResponse): ChatResponse {
    if resp.choices == [] then ChatResponse("", [], "stop", UsageOf(resp.usage))
    else
      var c := resp.choices[0];
      ChatResponse(c.content, CallsOf(args, c.calls), if c.calls != [] then "tool_calls" else c.finish, UsageOf(resp.usage))
  }

  method ParseResponse(args: string -> map<string, Json>, resp: WireResponse) returns (result: ChatResponse)
    ensures result == Parsed(args, resp)
  {
    result := ChatResponse("", [], "stop", None);
    if |resp.choices| > 0 {
      var msg := resp.choices[0];
      result := ChatResponse(msg.content, [], msg.finish, None);
      ghost var all := CallsOf(args, msg.calls);
      for i := 0 to |msg.calls|
        invariant result == ChatResponse(msg.content, all[..i], msg.finish, None)
      {
        CallsSnoc(args, msg.calls, i);
        result := result.(toolCalls := result.toolCalls + [CallOf(args, msg.calls[i])]);
      }
      if |result.toolCalls| > 0 {
        result := result.(finish := "tool_calls");
      }
    }
    if resp.usage.Some? {
      result := result.(usage := UsageOf(resp.usage));
    }
  }

  // ---- the streamed answer ----

  const DATA: string := "data:"

  /** The chunks in a stream: the lines with the prefix that decode, up to the end mark. */
  function ChunksOf(decode: string -> Option<Chunk>, lines: seq<string>): seq<Chunk> {
    if lines == [] then []
    else if !(DATA <= lines[0]) then ChunksOf(decode, lines[1..])
    else if Payload(lines[0]) == "[DONE]" then []
    else (if decode(Payload(lines[0])).Some? then [decode(Payload(lines[0])).value] else []) + ChunksOf(decode, lines[1..])
  }

  /** What follows the prefix; one space may separate them. */
  function Payload(line: string): string
    requires DATA <= line
  {
    var data := line[|DATA|..];
    if data != "" && data[0] == ' ' then data[1..] else data
  }

  /** The contents of the chunks, in order. */
  function Contents(chunks: seq<Chunk>): seq<string> {
    if chunks == [] then []
    else Contents(Init(chunks)) + (if Last(chunks).choices != [] && Last(chunks).choices[0].content != "" then [Last(chunks).choices[0].content] else [])
  }

  function Fragments(chunks: seq<Chunk>): seq<Fragment> {
    if chunks == [] then []
    else Fragments(Init(chunks)) + (if Last(chunks).choices != [] then Last(chunks).choices[0].calls else [])
  }

  /** The last finish reason given. */
  function LastFinish(chunks: seq<Chunk>): string {
    if chunks == [] then ""
    else if Last(chunks).choices != [] && Last(chunks).choices[0].finish != "" then Last(chunks).choices[0].finish
    else LastFinish(Init(chunks))
  }

  function FinishOr(finish: string): string {
    if finish == "" then "stop" else finish
  }

  /** The last usage given. */
  function LastUsage(chunks: seq<Chunk>): Option<WireUsage> {
    if chunks == [] then None
    else if Last(chunks).usage.Some? then Last(chunks).usage
    else LastUsage(Init(chunks))
  }

  // ---- the accumulators ----

  datatype Accumulator = Accumulator(id: string, name: string, rawArgs: string)

  /** The fragments of one call, in order. */
  function OfIndex(frags: seq<Fragment>, k: int): seq<Fragment> {
    if frags == [] then []
    else if Last(frags).index == k then OfIndex(Init(frags), k) + [Last(frags)]
    else OfIndex(Init(frags), k)
  }

  /** The last name given. */
  function NameOf(pieces: seq<Fragment>): string {
    if pieces == [] then ""
    else if Last(pieces).name != "" then Last(pieces).name
    else NameOf(Init(pieces))
  }

  function ArgumentsOf(pieces: seq<Fragment>): string {
    if pieces == [] then "" else ArgumentsOf(Init(pieces)) + Last(pieces).arguments
  }

  function Accumulated(pieces: seq<Fragment>): Accumulator
    requires pieces != []
  {
    Accumulator(pieces[0].id, TrimSpace(NameOf(pieces)), ArgumentsOf(pieces))
  }

  /** The table holds an accumulator for every index that occurs, over all of its fragments. */
  ghost predicate Gathers(table: map<int, Accumulator>, frags: seq<Fragment>) {
    forall k :: if OfIndex(frags, k) == [] then k !in table else k in table && table[k] == Accumulated(OfIndex(frags, k))
  }

  method Accumulate(before: map<int, Accumulator>, tc: Fragment, ghost frags: seq<Fragment>) returns (table: map<int, Accumulator>)
    requires Gathers(before, frags)
    ensures Gathers(table, frags + [tc])
  {
    table := before;
    var acc;
    if tc.index in table {
      acc := table[tc.index];
    } else {
      acc := Accumulator(tc.id, TrimSpace(tc.name), "");
    }
    if tc.name != "" {
      acc := acc.(name := TrimSpace(tc.name));
    }
    acc := acc.(rawArgs := acc.rawArgs + tc.arguments);
    table := table[tc.index := acc];
    AccumulatedSnoc(OfIndex(frags, tc.index), tc);
    GathersMore(before, frags, tc, acc);
  }

  lemma GathersMore(table: map<int, Accumulator>, frags: seq<Fragment>, tc: Fragment, acc: Accumulator)
    requires Gathers(table, frags) && acc == Accumulated(OfIndex(frags, tc.index) + [tc])
    ensures Gathers(table[tc.index := acc], frags + [tc])
  {
    assert Init(frags + [tc]) == frags && Last(frags + [tc]) == tc;
    forall k ensures OfIndex(frags + [tc], k) == if k == tc.index then OfIndex(frags, k) + [tc] else OfIndex(frags, k) {
    }
  }

  lemma AccumulatedSnoc(pieces: seq<Fragment>, tc: Fragment)
    ensures var acc := if pieces == [] then Accumulator(tc.id, TrimSpace(tc.name), "") else Accumulated(pieces);
            Accumulated(pieces + [tc])
            == Accumulator(acc.id, if tc.name != "" then TrimSpace(tc.name) else acc.name, acc.rawArgs + tc.arguments)
  {
    assert Init(pieces + [tc]) == pieces && Last(pieces + [tc]) == tc;
    if pieces == [] {
      assert NameOf(pieces + [tc]) == tc.name && ArgumentsOf(pieces + [tc]) == "" + tc.arguments;
    }
  }

  // ---- putting the stream together ----

  /** The calls are numbered 0 to n - 1. */
  ghost predicate Dense(frags: seq<Fragment>, n: nat) {
    forall k :: OfIndex(frags, k) != [] <==> 0 <= k < n
  }

  ghost function Built(args: string -> map<string, Json>, chunks: seq<Chunk>, n: nat): ChatResponse
    requires Dense(Fragments(chunks), n)
  {
    ChatResponse(Join(Contents(chunks), ""), seq(n, i requires 0 <= i < n => BuiltCall(args, Fragments(chunks), i)),
                 if n > 0 then "tool_calls" else FinishOr(LastFinish(chunks)), UsageOf(LastUsage(chunks)))
  }

  function BuiltCall(args: string -> map<string, Json>, frags: seq<Fragment>, i: nat): ToolCall
    requires OfIndex(frags, i) != []
  {
    ToCall(args, Accumulated(OfIndex(frags, i)))
  }

  function ToCall(args: string -> map<string, Json>, acc: Accumulator): ToolCall {
    Messages.ToolCall(acc.id, acc.name, args(acc.rawArgs))
  }

  /** What the loop over the lines has made of the chunks seen. */
  ghost predicate Holds(result: ChatResponse, table: map<int, Accumulator>, passed: seq<string>, seen: seq<Chunk>) {
    && result == ChatResponse(Join(passed, ""), [], FinishOr(LastFinish(seen)), UsageOf(LastUsage(seen)))
    && passed == Contents(seen)
    && Gathers(table, Fragments(seen))
  }

  method TakeCalls(before: map<int, Accumulator>, calls: seq<Fragment>, ghost frags: seq<Fragment>) returns (table: map<int, Accumulator>)
    requires Gathers(before, frags)
    ensures Gathers(table, frags + calls)
  {
    table := before;
    assert frags + calls[..0] == frags;
    for i := 0 to |calls|
      invariant Gathers(table, frags + calls[..i])
    {
      table := Accumulate(table, calls[i], frags + calls[..i]);
      assert frags + calls[..i] + [calls[i]] == frags + calls[..i + 1];
    }
    assert calls[..|calls|] == calls;
  }

  method TakeChunk(before: ChatResponse, accumulators: map<int, Accumulator>, sofar: seq<string>, chunk: Chunk, ghost seen: seq<Chunk>)
      returns (result: ChatResponse, table: map<int, Accumulator>, passed: seq<string>)
    requires Holds(before, accumulators, sofar, seen)
    ensures Holds(result, table, passed, seen + [chunk])
  {
    result, table, passed := before, accumulators, sofar;
    assert Init(seen + [chunk]) == seen && Last(seen + [chunk]) == chunk;
    if chunk.usage.Some? {
      result := result.(usage := UsageOf(chunk.usage));
    }
    if |chunk.choices| == 0 {
      assert Contents(seen) + [] == Contents(seen) && Fragments(seen) + [] == Fragments(seen);
      return;
    }
    var delta := chunk.choices[0];
    if delta.content != "" {
      JoinPassed(passed, delta.content);
      result := result.(content := result.content + delta.content);
      passed := passed + [delta.content];
    } else {
      assert Contents(seen) + [] == Contents(seen);
    }
    table := TakeCalls(table, delta.calls, Fragments(seen));
    if delta.finish != "" {
      result := result.(finish := delta.finish);
    }
  }

  lemma JoinPassed(passed: seq<string>, content: string)
    ensures Join(passed + [content], "") == Join(passed, "") + content
  {
    if passed != [] {
      JoinSnoc(passed, content, "");
      assert Join(passed, "") + "" == Join(passed, "");
    }
  }

  /** The loop over the lines. */
  method ReadLines(decode: string -> Option<Chunk>, lines: seq<string>)
      returns (result: ChatResponse, accumulators: map<int, Accumulator>, passed: seq<string>)
    ensures Holds(result, accumulators, passed, ChunksOf(decode, lines))
  {
    result, accumulators, passed := ChatResponse("", [], "stop", None), map[], [];
    ghost var seen: seq<Chunk>, all := [], ChunksOf(decode, lines);
    var i := 0;
    assert lines[0..] == lines && [] + all == all;
    while i < |lines|
      invariant i <= |lines| && all == seen + ChunksOf(decode, lines[i..])
      invariant Holds(result, accumulators, passed, seen)
    {
      var line := lines[i];
      ChunksFirst(decode, lines, i, seen);
      i := i + 1;
      if !(DATA <= line) {
        continue;
      }
      var data := Payload(line);
      if data == "[DONE]" {
        return;
      }
      var chunk := decode(data);
      if chunk.None? {
        continue;
      }
      result, accumulators, passed := TakeChunk(result, accumulators, passed, chunk.value, seen);
      seen := seen + [chunk.value];
    }
    assert ChunksOf(decode, lines[i..]) == [] && seen + [] == seen;
  }

  lemma ChunksFirst(decode: string -> Option<Chunk>, lines: seq<string>, i: nat, seen: seq<Chunk>)
    requires i < |lines|
    ensures var all, rest := seen + ChunksOf(decode, lines[i..]), ChunksOf(decode, lines[i + 1..]);
      if !(DATA <= lines[i]) then all == seen + rest
      else if Payload(lines[i]) == "[DONE]" then all == seen
      else match decode(Payload(lines[i]))
        case None => all == seen + rest
        case Some(chunk) => all == seen + [chunk] + rest
  {
    var rest := ChunksOf(decode, lines[i + 1..]);
    assert lines[i..][1..] == lines[i + 1..];
    assert [] + rest == rest;
    if DATA <= lines[i] && decode(Payload(lines[i])).Some? {
      ConcatAssoc(seen, [decode(Payload(lines[i])).value], rest);
    }
  }

  /** ChatStream after the connection: the answer, or None where a missing index makes it
      dereference a nil accumulator; and the contents passed on to the caller. */
  method ChatStream(decode: string -> Option<Chunk>, args: string -> map<string, Json>, lines: seq<string>)
      returns (answer: Option<ChatResponse>, passed: seq<string>)
    ensures passed == Contents(ChunksOf(decode, lines))
    ensures answer.Some? ==>
              var chunks, n := ChunksOf(decode, lines), |answer.value.toolCalls|;
              Dense(Fragments(chunks), n) && answer.value == Built(args, chunks, n) && Join(passed, "") == answer.value.content
    ensures answer.None? ==> forall n :: !Dense(Fragments(ChunksOf(decode, lines)), n)
    ensures forall n :: Dense(Fragments(ChunksOf(decode, lines)), n) ==> answer == Some(Built(args, ChunksOf(decode, lines), n))
  {
    var result, accumulators;
    result, accumulators, passed := ReadLines(decode, lines);
    answer := Finish(args, result, accumulators, ChunksOf(decode, lines), passed);
    forall n | Dense(Fragments(ChunksOf(decode, lines)), n) ensures answer.Some? && |answer.value.toolCalls| == n {
      if answer.Some? { DenseOnce(Fragments(ChunksOf(decode, lines)), n, |answer.value.toolCalls|); }
    }
  }

  lemma DenseAt(frags: seq<Fragment>, n: nat, k: nat)
    requires Dense(frags, n)
    ensures OfIndex(frags, k) != [] <==> k < n
  {
  }

  /** The numbering of the calls is determined. */
  lemma DenseOnce(frags: seq<Fragment>, m: nat, n: nat)
    requires Dense(frags, m) && Dense(frags, n)
    ensures m == n
  {
    DenseAt(frags, m, n);
    DenseAt(frags, n, n);
    DenseAt(frags, m, m);
    DenseAt(frags, n, m);
  }

  /** The loop over the accumulators; None where an index is missing. */
  method CollectCalls(args: string -> map<string, Json>, table: map<int, Accumulator>) returns (calls: Option<seq<ToolCall>>)
    ensures calls.Some? ==> |calls.value| == |table|
    ensures calls.Some? ==> forall k :: 0 <= k < |table| ==> k in table && calls.value[k] == ToCall(args, table[k])
    ensures calls.None? ==> exists i :: 0 <= i < |table| && i !in table
  {
    var list := [];
    for i := 0 to |table|
      invariant |list| == i && forall k :: 0 <= k < i ==> k in table && list[k] == ToCall(args, table[k])
    {
      if i !in table {
        return None;
      }
      list := list + [ToCall(args, table[i])];
    }
    return Some(list);
  }

  lemma FinishedIs(args: string -> map<string, Json>, before: ChatResponse, table: map<int, Accumulator>, seen: seq<Chunk>, passed: seq<string>,
      calls: seq<ToolCall>)
    requires Holds(before, table, passed, seen) && |calls| == |table|
    requires forall k :: 0 <= k < |table| ==> k in table && calls[k] == ToCall(args, table[k])
    ensures Dense(Fragments(seen), |calls|)
    ensures Built(args, seen, |calls|).toolCalls == calls && Built(args, seen, |calls|).content == before.content
    ensures Built(args, seen, |calls|).usage == before.usage
    ensures Built(args, seen, |calls|).finish == if |calls| > 0 then "tool_calls" else before.finish
  {
    Full(table, Fragments(seen));
    forall k | 0 <= k < |calls| ensures calls[k] == BuiltCall(args, Fragments(seen), k) {
    }
  }

  /** What follows the loop over the lines. */
  method Finish(args: string -> map<string, Json>, before: ChatResponse, table: map<int, Accumulator>, ghost seen: seq<Chunk>, ghost passed: seq<string>)
      returns (answer: Option<ChatResponse>)
    requires Holds(before, table, passed, seen)
    ensures answer.Some? ==>
              var n := |answer.value.toolCalls|;
              Dense(Fragments(seen), n) && answer.value == Built(args, seen, n)
    ensures answer.None? ==> forall n :: !Dense(Fragments(seen), n)
  {
    var calls := CollectCalls(args, table);
    if calls.None? {
      ghost var i: nat :| i < |table| && i !in table;
      Sparse(table, Fragments(seen), i);
      return None;
    }
    FinishedIs(args, before, table, seen, passed, calls.value);
    var result := before.(toolCalls := calls.value);
    if |calls.value| > 0 {
      result := result.(finish := "tool_calls");
    }
    return Some(result);
  }

  function Range(n: nat): (r: set<int>)
    ensures |r| == n && forall i :: i in r <==> 0 <= i < n
  {
    if n == 0 then {} else Range(n - 1) + {n - 1}
  }

  lemma SameSize(a: set<int>, b: set<int>)
    requires a <= b && |a| == |b|
    ensures a == b
  {
    assert b == a + (b - a);
  }

  lemma Full(table: map<int, Accumulator>, frags: seq<Fragment>)
    requires Gathers(table, frags) && forall k :: 0 <= k < |table| ==> k in table
    ensures Dense(frags, |table|)
  {
    SameSize(Range(|table|), table.Keys);
    assert forall k :: k in table <==> k in Range(|table|);
  }

  lemma Sparse(table: map<int, Accumulator>, frags: seq<Fragment>, i: nat)
    requires Gathers(table, frags) && i < |table| && i !in table
    ensures forall n :: !Dense(frags, n)
  {
    forall n: nat ensures !Dense(frags, n) {
      SparseAt(table, frags, i, n);
    }
  }

  lemma DenseKeys(table: map<int, Accumulator>, frags: seq<Fragment>, n: nat)
    requires Gathers(table, frags) && Dense(frags, n)
    ensures table.Keys == Range(n) && |table| == n
  {
    assert forall k :: k in table <==> OfIndex(frags, k) != [];
  }

  lemma SparseAt(table: map<int, Accumulator>, frags: seq<Fragment>, i: nat, n: nat)
    requires Gathers(table, frags) && i < |table| && i !in table
    ensures !Dense(frags, n)
  {
    if Dense(frags, n) {
      DenseKeys(table, frags, n);
    }
  }

  /** A stream for which that happens: its one fragment has index 1. */
  lemma IndexFromOneFails(decode: string -> Option<Chunk>, text: string, content: string, call: Fragment, finish: string)
    requires call.index == 1 && text != "" && text[0] != ' ' && text != "[DONE]"
    requires decode(text) == Some(Chunk([Delta(content, [call], finish)], None))
    ensures forall n :: !Dense(Fragments(ChunksOf(decode, [DATA + text])), n)
  {
    var chunk := Chunk([Delta(content, [call], finish)], None);
    assert (DATA + text)[|DATA|..] == text && [DATA + text][1..] == [];
    assert Payload(DATA + text) == text;
    assert ChunksOf(decode, [DATA + text]) == [chunk] + ChunksOf(decode, []) == [chunk];
    assert Init([chunk]) == [] && Init([call]) == [];
    assert Fragments([]) == [] && Fragments([chunk]) == [] + [call] == [call];
    assert OfIndex([], 0) == [] && OfIndex([], 1) == [];
    assert OfIndex([call], 0) == [] && OfIndex([call], 1) == [] + [call];
  }

  // ---- from lines to chunks ----

  /** A line of a stream: something else, or data with or without a space behind the prefix. */
  datatype Item = Other(line: string) | Data(text: string, spaced: bool)

  function LineOf(it: Item): string {
    match it
    case Other(line) => line
    case Data(text, spaced) => (if spaced then "data: " else "data:") + text
  }

  /** Nothing else starts like data, and data behind the bare prefix starts with no space. */
  predicate Proper(it: Item) {
    match it
    case Other(line) => !("data:" <= line)
    case Data(text, spaced) => text != "[DONE]" && (spaced || text == "" || text[0] != ' ')
  }

  function LinesOf(items: seq<Item>): seq<string> {
    seq(|items|, i requires 0 <= i < |items| => LineOf(items[i]))
  }

  /** The chunks of the data that decode, in order. */
  function Decoded(decode: string -> Option<Chunk>, items: seq<Item>): seq<Chunk> {
    if items == [] then []
    else (if items[0].Data? && decode(items[0].text).Some? then [decode(items[0].text).value] else []) + Decoded(decode, items[1..])
  }

  /** The stream ends here: with the end mark and anything behind it, or with the lines. */
  predicate Ends(lines: seq<string>) {
    lines == [] || lines[0] == "data: [DONE]" || lines[0] == "data:[DONE]"
  }

  lemma SpacedPayload(text: string)
    ensures DATA <= "data: " + text && Payload("data: " + text) == text
  {
    var line := "data: " + text;
    assert line[..5] == DATA && line[5..] == [' '] + text;
  }

  lemma BarePayload(text: string)
    requires text == "" || text[0] != ' '
    ensures DATA <= "data:" + text && Payload("data:" + text) == text
  {
    assert ("data:" + text)[5..] == text;
  }

  lemma ItemPayload(it: Item)
    requires it.Data? && (it.spaced || it.text == "" || it.text[0] != ' ')
    ensures DATA <= LineOf(it) && Payload(LineOf(it)) == it.text
  {
    if it.spaced { SpacedPayload(it.text); } else { BarePayload(it.text); }
  }

  lemma EndMark(decode: string -> Option<Chunk>, lines: seq<string>)
    requires Ends(lines)
    ensures ChunksOf(decode, lines) == []
  {
    if lines != [] {
      ItemPayload(Data("[DONE]", lines[0] == "data: [DONE]"));
      SpacedPayload("[DONE]");
      BarePayload("[DONE]");
      assert "data: " + "[DONE]" == "data: [DONE]" && "data:" + "[DONE]" == "data:[DONE]";
    }
  }

  lemma OneItem(decode: string -> Option<Chunk>, it: Item, rest: seq<string>)
    requires Proper(it)
    ensures ChunksOf(decode, [LineOf(it)] + rest)
         == (if it.Data? && decode(it.text).Some? then [decode(it.text).value] else []) + ChunksOf(decode, rest)
  {
    var lines := [LineOf(it)] + rest;
    assert lines[1..] == rest;
    if it.Data? { ItemPayload(it); }
  }

  lemma LinesFirst(items: seq<Item>)
    requires items != []
    ensures LinesOf(items) == [LineOf(items[0])] + LinesOf(items[1..])
  {
  }

  /** Whatever is written between them and behind the end mark, the chunks of a stream are
      those of its data, in order. */
  lemma {:induction false} LinesDecode(decode: string -> Option<Chunk>, items: seq<Item>, end: seq<string>)
    requires Ends(end) && forall i :: 0 <= i < |items| ==> Proper(items[i])
    ensures ChunksOf(decode, LinesOf(items) + end) == Decoded(decode, items)
  {
    if items == [] {
      assert LinesOf(items) + end == end;
      EndMark(decode, end);
    } else {
      LinesDecode(decode, items[1..], end);
      OneItem(decode, items[0], LinesOf(items[1..]) + end);
      LinesFirst(items);
      ConcatAssoc([LineOf(items[0])], LinesOf(items[1..]), end);
    }
  }

  // ---- streamed and whole ----

  /** What a chunk says; nothing when it has no choice. */
  function DeltaOf(c: Chunk): Delta {
    if c.choices == [] then Delta("", [], "") else c.choices[0]
  }

  function Flat<T>(parts: seq<seq<T>>): seq<T> {
    if parts == [] then [] else parts[0] + Flat(parts[1..])
  }

  lemma {:induction false} FlatSnoc<T>(parts: seq<seq<T>>, last: seq<T>)
    ensures Flat(parts + [last]) == Flat(parts) + last
  {
    if parts == [] {
      assert [last][1..] == [] && parts + [last] == [last];
    } else {
      assert (parts + [last])[1..] == parts[1..] + [last];
      FlatSnoc(parts[1..], last);
    }
  }

  function Texts(chunks: seq<Chunk>): (r: seq<string>)
    ensures |r| == |chunks|
  {
    seq(|chunks|, i requires 0 <= i < |chunks| => DeltaOf(chunks[i]).content)
  }

  function Pieces(chunks: seq<Chunk>): (r: seq<seq<Fragment>>)
    ensures |r| == |chunks|
  {
    seq(|chunks|, i requires 0 <= i < |chunks| => DeltaOf(chunks[i]).calls)
  }

  /** The fragments of one call and their arguments, in order. */
  function Only(frags: seq<Fragment>, k: int): seq<Fragment> {
    if frags == [] then [] else (if frags[0].index == k then [frags[0]] else []) + Only(frags[1..], k)
  }

  function Arguments(frags: seq<Fragment>): string {
    Flat(seq(|frags|, i requires 0 <= i < |frags| => frags[i].arguments))
  }

  /** The fragments of a call: the first brings its id and name, all together its arguments. */
  ghost predicate Splits(call: WireCall, pieces: seq<Fragment>) {
    && pieces != [] && pieces[0].id == call.id && pieces[0].name == call.name
    && (forall k :: 1 <= k < |pieces| ==> pieces[k].name == "")
    && Arguments(pieces) == call.arguments
  }

  /** The last of the texts that is not empty. */
  ghost predicate LastGiven(texts: seq<string>, last: string) {
    if forall i :: 0 <= i < |texts| ==> texts[i] == "" then last == ""
    else exists i :: 0 <= i < |texts| && texts[i] == last != "" && forall j :: i < j < |texts| ==> texts[j] == ""
  }

  ghost predicate LastReported(usages: seq<Option<WireUsage>>, last: Option<WireUsage>) {
    if forall i :: 0 <= i < |usages| ==> usages[i].None? then last.None?
    else exists i :: 0 <= i < |usages| && usages[i] == last && last.Some? && forall j :: i < j < |usages| ==> usages[j].None?
  }

  function Finishes(chunks: seq<Chunk>): seq<string> {
    seq(|chunks|, i requires 0 <= i < |chunks| => DeltaOf(chunks[i]).finish)
  }

  function Usages(chunks: seq<Chunk>): seq<Option<WireUsage>> {
    seq(|chunks|, i requires 0 <= i < |chunks| => chunks[i].usage)
  }

  /** The chunks carry the answer: its content and its calls in pieces, the pieces of
      different calls in any order among each other, its finish reason and its usage. */
  ghost predicate Carries(chunks: seq<Chunk>, answer: WireChoice, usage: Option<WireUsage>) {
    && Flat(Texts(chunks)) == answer.content
    && (forall f :: f in Flat(Pieces(chunks)) ==> 0 <= f.index < |answer.calls|)
    && (forall i :: 0 <= i < |answer.calls| ==> Splits(answer.calls[i], Only(Flat(Pieces(chunks)), i)))
    && LastGiven(Finishes(chunks), answer.finish) && LastReported(Usages(chunks), usage)
  }

  lemma {:induction false} ContentsFlat(chunks: seq<Chunk>)
    ensures Join(Contents(chunks), "") == Flat(Texts(chunks))
  {
    if chunks != [] {
      ContentsFlat(Init(chunks));
      InitLast(chunks);
      FlatSnoc(Texts(Init(chunks)), DeltaOf(Last(chunks)).content);
      assert Texts(chunks) == Texts(Init(chunks)) + [DeltaOf(Last(chunks)).content];
      JoinPassed(Contents(Init(chunks)), DeltaOf(Last(chunks)).content);
      assert Contents(Init(chunks)) + [] == Contents(Init(chunks));
    }
  }

  lemma {:induction false} FragmentsFlat(chunks: seq<Chunk>)
    ensures Fragments(chunks) == Flat(Pieces(chunks))
  {
    if chunks != [] {
      FragmentsFlat(Init(chunks));
      FlatSnoc(Pieces(Init(chunks)), DeltaOf(Last(chunks)).calls);
      assert Pieces(chunks) == Pieces(Init(chunks)) + [DeltaOf(Last(chunks)).calls];
    }
  }

  lemma {:induction false} OnlySnoc(frags: seq<Fragment>, f: Fragment, k: int)
    ensures Only(frags + [f], k) == Only(frags, k) + if f.index == k then [f] else []
  {
    if frags == [] {
      assert frags + [f] == [f] && [f][1..] == [];
    } else {
      assert (frags + [f])[1..] == frags[1..] + [f];
      OnlySnoc(frags[1..], f, k);
    }
  }

  lemma {:induction false} OfIndexOnly(frags: seq<Fragment>, k: int)
    ensures OfIndex(frags, k) == Only(frags, k)
  {
    if frags != [] {
      OfIndexOnly(Init(frags), k);
      OnlySnoc(Init(frags), Last(frags), k);
      InitLast(frags);
    }
  }

  lemma {:induction false} ArgumentsFlat(pieces: seq<Fragment>)
    ensures ArgumentsOf(pieces) == Arguments(pieces)
  {
    if pieces != [] {
      ArgumentsFlat(Init(pieces));
      var parts := seq(|pieces| - 1, i requires 0 <= i < |pieces| - 1 => Init(pieces)[i].arguments);
      FlatSnoc(parts, Last(pieces).arguments);
      assert seq(|pieces|, i requires 0 <= i < |pieces| => pieces[i].arguments) == parts + [Last(pieces).arguments];
    }
  }

  lemma {:induction false} LastFinishGiven(chunks: seq<Chunk>, last: string)
    requires LastGiven(Finishes(chunks), last)
    ensures LastFinish(chunks) == last
  {
    if chunks != [] && DeltaOf(Last(chunks)).finish == "" {
      var init := Finishes(Init(chunks));
      assert Finishes(chunks)[..|chunks| - 1] == init;
      assert forall i :: 0 <= i < |init| ==> Finishes(chunks)[i] == init[i];
      LastFinishGiven(Init(chunks), last);
    } else if chunks != [] {
      assert Finishes(chunks)[|chunks| - 1] != "";
    }
  }

  lemma {:induction false} LastUsageReported(chunks: seq<Chunk>, last: Option<WireUsage>)
    requires LastReported(Usages(chunks), last)
    ensures LastUsage(chunks) == last
  {
    if chunks != [] && Last(chunks).usage.None? {
      var init := Usages(Init(chunks));
      assert forall i :: 0 <= i < |init| ==> Usages(chunks)[i] == init[i];
      LastUsageReported(Init(chunks), last);
    } else if chunks != [] {
      assert Usages(chunks)[|chunks| - 1].Some?;
    }
  }

  lemma {:induction false} NameIsFirst(pieces: seq<Fragment>)
    requires pieces != [] && forall k :: 1 <= k < |pieces| ==> pieces[k].name == ""
    ensures NameOf(pieces) == pieces[0].name
  {
    if |pieces| > 1 {
      NameIsFirst(Init(pieces));
    }
  }

  lemma {:induction false} OfIndexOccurs(frags: seq<Fragment>, k: int)
    ensures OfIndex(frags, k) != [] ==> exists f :: f in frags && f.index == k
  {
    if frags != [] && Last(frags).index != k {
      OfIndexOccurs(Init(frags), k);
    }
  }

  lemma SplitCall(args: string -> map<string, Json>, call: WireCall, frags: seq<Fragment>, i: nat)
    requires Splits(call, Only(frags, i))
    ensures OfIndex(frags, i) != [] && BuiltCall(args, frags, i) == CallOf(args, call)
  {
    OfIndexOnly(frags, i);
    ArgumentsFlat(OfIndex(frags, i));
    NameIsFirst(OfIndex(frags, i));
  }

  lemma CarriedCalls(args: string -> map<string, Json>, answer: WireChoice, usage: Option<WireUsage>, chunks: seq<Chunk>)
    requires Carries(chunks, answer, usage)
    ensures Dense(Fragments(chunks), |answer.calls|)
    ensures Built(args, chunks, |answer.calls|).toolCalls == CallsOf(args, answer.calls)
  {
    var frags, n := Fragments(chunks), |answer.calls|;
    FragmentsFlat(chunks);
    forall k ensures OfIndex(frags, k) != [] <==> 0 <= k < n {
      OfIndexOccurs(frags, k);
      if 0 <= k < n { SplitCall(args, answer.calls[k], frags, k); }
    }
    forall i | 0 <= i < n ensures BuiltCall(args, frags, i) == CallOf(args, answer.calls[i]) {
      SplitCall(args, answer.calls[i], frags, i);
    }
  }

  /** Putting together a streamed answer gives the same as parsing the whole one, the finish
      reason included exactly when it is given or there are tool calls. */
  lemma StreamedIsWhole(args: string -> map<string, Json>, resp: WireResponse, chunks: seq<Chunk>)
    requires resp.choices != [] && Carries(chunks, resp.choices[0], resp.usage)
    ensures var answer := resp.choices[0];
            var n := |answer.calls|;
            && Dense(Fragments(chunks), n)
            && Built(args, chunks, n).(finish := "") == Parsed(args, resp).(finish := "")
            && (Built(args, chunks, n) == Parsed(args, resp) <==> answer.finish != "" || n > 0)
  {
    var answer := resp.choices[0];
    CarriedCalls(args, answer, resp.usage, chunks);
    ContentsFlat(chunks);
    LastFinishGiven(chunks, answer.finish);
    LastUsageReported(chunks, resp.usage);
  }

  /** The answer read, field by field. */
  ghost predicate Reads(args: string -> map<string, Json>, answer: WireChoice, usage: Option<WireUsage>, finish: string, read: ChatResponse) {
    && read.content == answer.content && read.finish == finish
    && |read.toolCalls| == |answer.calls|
    && (forall i :: 0 <= i < |answer.calls| ==>
          && read.toolCalls[i].id == answer.calls[i].id
          && read.toolCalls[i].name == TrimSpace(answer.calls[i].name)
          && read.toolCalls[i].arguments == args(answer.calls[i].arguments))
    && (usage.None? ==> read.usage.None?)
    && (usage.Some? ==>
          && read.usage.Some?
          && read.usage.value.prompt == usage.value.prompt && read.usage.value.completion == usage.value.completion
          && read.usage.value.total == usage.value.total
          && read.usage.value.cacheRead == (match usage.value.cached case Some(n) => n case None => 0))
  }

  lemma ParsedReads(args: string -> map<string, Json>, resp: WireResponse)
    requires resp.choices != []
    ensures var answer := resp.choices[0];
      Reads(args, answer, resp.usage, if answer.calls != [] then "tool_calls" else answer.finish, Parsed(args, resp))
  {
  }

  lemma BuiltReads(args: string -> map<string, Json>, answer: WireChoice, usage: Option<WireUsage>, chunks: seq<Chunk>)
    requires Carries(chunks, answer, usage)
    ensures Dense(Fragments(chunks), |answer.calls|)
    ensures Reads(args, answer, usage, if answer.calls != [] then "tool_calls" else if answer.finish == "" then "stop" else answer.finish,
                  Built(args, chunks, |answer.calls|))
  {
    var resp := WireResponse([answer], usage);
    StreamedIsWhole(args, resp, chunks);
    ParsedReads(args, resp);
    LastFinishGiven(chunks, answer.finish);
  }

  /** From the lines of a stream to the answer: however the data is spaced, whatever stands
      between and behind, and however the answer is cut and its calls interleaved. */
  lemma LinesRead(decode: string -> Option<Chunk>, args: string -> map<string, Json>, items: seq<Item>, end: seq<string>,
      answer: WireChoice, usage: Option<WireUsage>)
    requires Ends(end) && forall i :: 0 <= i < |items| ==> Proper(items[i])
    requires Carries(Decoded(decode, items), answer, usage)
    ensures var chunks := ChunksOf(decode, LinesOf(items) + end);
      && Dense(Fragments(chunks), |answer.calls|)
      && Reads(args, answer, usage, if answer.calls != [] then "tool_calls" else if answer.finish == "" then "stop" else answer.finish,
               Built(args, chunks, |answer.calls|))
  {
    LinesDecode(decode, items, end);
    BuiltReads(args, answer, usage, Decoded(decode, items));
  }
}
