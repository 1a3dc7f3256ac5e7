/** Trimming and repairing stored history before it is sent to the model: the turn limit
    and the repair of tool-call pairing. */
module History {
  import opened Messages
  import opened Ordering
  import opened Sequences

  // ---- turn limit ----

  /** First user message, or the length when there is none. */
  function FirstUser(ms: seq<Message>): (n: nat)
    ensures n <= |ms|
    ensures n < |ms| ==> ms[n].role == User
    ensures forall i :: 0 <= i < n ==> ms[i].role != User
  {
    if ms == [] || ms[0].role == User then 0 else 1 + FirstUser(ms[1..])
  }

  /** Where the last `keep` user turns start: 0 when there are no more than `keep`, else
      the user message with exactly `keep` user messages from it on. */
  ghost predicate IsTurnStart(ms: seq<Message>, keep: int, idx: nat) {
    if keep <= 0 then idx == |ms|
    else if UserTurns(ms) <= keep then idx == 0
    else idx < |ms| && ms[idx].role == User && UserTurns(ms[idx..]) == keep
  }

  lemma {:induction false} UserTurnsSuffix(ms: seq<Message>, i: nat, j: nat)
    requires i <= j <= |ms|
    ensures UserTurns(ms[i..]) >= UserTurns(ms[j..])
    ensures i < j && ms[i].role == User ==> UserTurns(ms[i..]) > UserTurns(ms[j..])
    decreases j - i
  {
    if i < j {
      UserTurnsSuffix(ms, i + 1, j);
      assert ms[i..][1..] == ms[i + 1..];
    }
  }

  lemma UserTurnsAt(ms: seq<Message>, i: nat)
    requires i < |ms|
    ensures UserTurns(ms[i..]) == (if ms[i].role == User then 1 else 0) + UserTurns(ms[i + 1..])
  {
    assert ms[i..][1..] == ms[i + 1..];
  }

  lemma TurnStartUnique(ms: seq<Message>, keep: int, i: nat, j: nat)
    requires IsTurnStart(ms, keep, i) && IsTurnStart(ms, keep, j)
    ensures i == j
  {
    if keep > 0 && UserTurns(ms) > keep {
      UserTurnsSuffix(ms, if i < j then i else j, if i < j then j else i);
    }
  }

  lemma TurnStartFound(ms: seq<Message>, keep: int, i: nat, idx: nat)
    requires 0 < keep && i < idx < |ms| && ms[idx].role == User
    requires UserTurns(ms[idx..]) == keep && UserTurns(ms[i..]) > keep
    ensures IsTurnStart(ms, keep, idx)
  {
    UserTurnsSuffix(ms, 0, i);
    assert ms[0..] == ms;
  }

  method HistoryTurnStartIndex(msgs: seq<Message>, keepTurns: int) returns (idx: nat)
    ensures idx <= |msgs| && IsTurnStart(msgs, keepTurns, idx)
  {
    if keepTurns <= 0 {
      return |msgs|;
    }
    if |msgs| == 0 {
      return 0;
    }
    var userCount := 0;
    var lastUserIndex := |msgs|;
    var i := |msgs| - 1;
    while i >= 0
      invariant -1 <= i < |msgs|
      invariant i < lastUserIndex <= |msgs|
      invariant userCount == UserTurns(msgs[i + 1..]) <= keepTurns
      invariant userCount == UserTurns(msgs[lastUserIndex..])
      invariant userCount > 0 ==> lastUserIndex < |msgs| && msgs[lastUserIndex].role == User
    {
      UserTurnsAt(msgs, i);
      if msgs[i].role == User {
        userCount := userCount + 1;
        if userCount > keepTurns {
          TurnStartFound(msgs, keepTurns, i, lastUserIndex);
          return lastUserIndex;
        }
        lastUserIndex := i;
      }
      i := i - 1;
    }
    assert msgs[0..] == msgs;
    return 0;
  }

  /** The last `limit` user turns; everything when limit is not positive. */
  ghost predicate IsLimited(ms: seq<Message>, limit: int, out: seq<Message>) {
    if limit <= 0 then out == ms
    else exists idx: nat :: idx <= |ms| && IsTurnStart(ms, limit, idx) && out == ms[idx..]
  }

  method LimitHistoryTurns(msgs: seq<Message>, limit: int) returns (out: seq<Message>)
    ensures IsLimited(msgs, limit, out)
  {
    if limit <= 0 || |msgs| == 0 {
      if limit > 0 {
        assert IsTurnStart(msgs, limit, 0) && msgs[0..] == msgs;
      }
      return msgs;
    }
    var idx := HistoryTurnStartIndex(msgs, limit);
    return msgs[idx..];
  }

  /** The limit keeps a suffix with exactly min(limit, all) user turns, and starts at a
      user message whenever something was dropped. */
  lemma LimitedTurns(ms: seq<Message>, limit: int, out: seq<Message>)
    requires IsLimited(ms, limit, out)
    ensures IsSuffix(out, ms)
    ensures UserTurns(out) == if 0 < limit < UserTurns(ms) then limit else UserTurns(ms)
    ensures out != ms ==> out != [] && out[0].role == User
  {
    if limit > 0 {
      var idx: nat :| idx <= |ms| && IsTurnStart(ms, limit, idx) && out == ms[idx..];
      if idx == 0 { assert ms[0..] == ms; }
    } else {
      assert ms[0..] == ms;
    }
  }

  // ---- repair of tool-call pairing ----

  const MISSING_RESULT: string := "[Tool result missing — session was compacted]"

  /** The results that are kept: the first one for each expected id, in order. */
  function FirstAnswers(block: seq<Message>, expected: set<string>): (r: seq<Message>)
    ensures |r| <= |block|
  {
    if block == [] then []
    else if block[0].toolCallId in expected then
      [block[0]] + FirstAnswers(block[1..], expected - {block[0].toolCallId})
    else FirstAnswers(block[1..], expected)
  }

  /** Placeholders for the missing ids, each once, in any order. */
  ghost predicate FillsIn(block: seq<Message>, missing: set<string>) {
    && |block| == |missing|
    && Elements(ResultIds(block)) == missing
    && forall i :: 0 <= i < |block| ==> block[i] == ToolResult(block[i].toolCallId, MISSING_RESULT)
  }

  function KeptAnswers(calls: seq<ToolCall>, block: seq<Message>): seq<Message> {
    FirstAnswers(block, Elements(CallIds(calls)))
  }

  function MissingIds(calls: seq<ToolCall>, block: seq<Message>): set<string> {
    Elements(CallIds(calls)) - Elements(ResultIds(KeptAnswers(calls, block)))
  }

  /** The block of tool results that the repair writes after a calling message. */
  ghost predicate BlockRepair(calls: seq<ToolCall>, block: seq<Message>, answers: seq<Message>) {
    var kept := KeptAnswers(calls, block);
    |kept| <= |answers| && answers[..|kept|] == kept && FillsIn(answers[|kept|..], MissingIds(calls, block))
  }

  /** out is a possible result of repairing ms: after each assistant message with calls
      come the first real answer to each call and then a placeholder for each call left
      unanswered; all other tool results are dropped; nothing else changes. */
  ghost predicate Repairs(ms: seq<Message>, out: seq<Message>)
    decreases |ms|
  {
    if ms == [] then out == []
    else if OpensCalls(ms[0]) then
      var n := LeadingTools(ms[1..]);
      && out != []
      && out[0] == ms[0]
      && var k := LeadingTools(out[1..]);
      && BlockRepair(ms[0].toolCalls, ms[1..1 + n], out[1..1 + k])
      && Repairs(ms[1 + n..], out[1 + k..])
    else if ms[0].role == Tool then Repairs(ms[1..], out)
    else out != [] && out[0] == ms[0] && Repairs(ms[1..], out[1..])
  }

  lemma ElementsSnoc(s: seq<string>, x: string)
    ensures Elements(s + [x]) == Elements(s) + {x}
  {
    var t := s + [x];
    forall y ensures y in t <==> y == x || y in s {
      if y in s {
        var k :| 0 <= k < |s| && s[k] == y;
        assert t[k] == y;
      }
      assert t[|s|] == x;
    }
  }

  lemma ResultIdsCons(m: Message, block: seq<Message>)
    ensures ResultIds([m] + block) == [m.toolCallId] + ResultIds(block)
  {
  }

  lemma {:induction false} FirstAnswersIds(block: seq<Message>, expected: set<string>)
    ensures var ids := ResultIds(FirstAnswers(block, expected));
      Distinct(ids) && Elements(ids) == expected * Elements(ResultIds(block))
  {
    if block != [] {
      var id := block[0].toolCallId;
      var left := if id in expected then expected - {id} else expected;
      FirstAnswersIds(block[1..], left);
      assert block == [block[0]] + block[1..];
      ResultIdsCons(block[0], block[1..]);
      ElementsCons(id, ResultIds(block[1..]));
      if id in expected {
        ResultIdsCons(block[0], FirstAnswers(block[1..], left));
        ElementsCons(id, ResultIds(FirstAnswers(block[1..], left)));
      }
    }
  }

  /** Once the expected id is struck off, later results with it are dropped. */
  lemma {:induction false} FirstAnswersSnoc(block: seq<Message>, m: Message, expected: set<string>)
    ensures FirstAnswers(block + [m], expected) ==
      FirstAnswers(block, expected)
      + if m.toolCallId in expected - Elements(ResultIds(FirstAnswers(block, expected))) then [m] else []
  {
    if block == [] {
      assert block + [m] == [m] && [m][1..] == [];
    } else {
      var id := block[0].toolCallId;
      assert (block + [m])[1..] == block[1..] + [m];
      if id in expected {
        FirstAnswersSnoc(block[1..], m, expected - {id});
        assert ResultIds(FirstAnswers(block, expected)) == [id] + ResultIds(FirstAnswers(block[1..], expected - {id}));
      } else {
        FirstAnswersSnoc(block[1..], m, expected);
      }
    }
  }

  lemma {:induction false} FirstAnswersAll(block: seq<Message>, expected: set<string>)
    requires Distinct(ResultIds(block)) && Elements(ResultIds(block)) <= expected
    ensures FirstAnswers(block, expected) == block
  {
    if block != [] {
      var id := block[0].toolCallId;
      assert block == [block[0]] + block[1..];
      ResultIdsCons(block[0], block[1..]);
      ElementsCons(id, ResultIds(block[1..]));
      FirstAnswersAll(block[1..], expected - {id});
    }
  }

  lemma {:induction false} FirstAnswersRole(block: seq<Message>, expected: set<string>)
    requires forall i :: 0 <= i < |block| ==> block[i].role == Tool
    ensures forall i :: 0 <= i < |FirstAnswers(block, expected)| ==> FirstAnswers(block, expected)[i].role == Tool
  {
    if block != [] {
      var id := block[0].toolCallId;
      FirstAnswersRole(block[1..], if id in expected then expected - {id} else expected);
    }
  }

  lemma DistinctConcat(s: seq<string>, t: seq<string>)
    requires Distinct(s) && Distinct(t) && Elements(s) !! Elements(t)
    ensures Distinct(s + t) && Elements(s + t) == Elements(s) + Elements(t)
  {
    forall i, j | 0 <= i < |s| && 0 <= j < |t| ensures s[i] != t[j] {
      assert s[i] in Elements(s) && t[j] in Elements(t);
    }
  }

  lemma FillIds(fill: seq<Message>, missing: set<string>)
    requires FillsIn(fill, missing)
    ensures Distinct(ResultIds(fill)) && forall i :: 0 <= i < |fill| ==> fill[i].role == Tool
  {
    DistinctCount(ResultIds(fill));
  }

  lemma ResultIdsConcat(a: seq<Message>, b: seq<Message>)
    ensures ResultIds(a + b) == ResultIds(a) + ResultIds(b)
  {
  }

  /** The block that the repair leaves after a calling message answers it. */
  lemma BlockRepairAnswers(calls: seq<ToolCall>, block: seq<Message>, answers: seq<Message>)
    requires BlockRepair(calls, block, answers)
    requires forall i :: 0 <= i < |block| ==> block[i].role == Tool
    ensures Answers(calls, answers)
    ensures forall i :: 0 <= i < |answers| ==> answers[i].role == Tool
  {
    var ids := Elements(CallIds(calls));
    var kept := FirstAnswers(block, ids);
    var fill := answers[|kept|..];
    FirstAnswersIds(block, ids);
    FirstAnswersRole(block, ids);
    FillIds(fill, MissingIds(calls, block));
    assert answers == kept + fill;
    ResultIdsConcat(kept, fill);
    DistinctConcat(ResultIds(kept), ResultIds(fill));
  }

  /** Result k is the first in its block for a call of the message. */
  ghost predicate FirstFor(calls: seq<ToolCall>, block: seq<Message>, k: nat) {
    && k < |block| && (exists c :: c in calls && c.id == block[k].toolCallId)
    && forall j :: 0 <= j < k ==> block[j].toolCallId != block[k].toolCallId
  }

  /** The block behind a calling message after the repair: the first result for each call, in
      the order they had, and then, in any order, a placeholder for each call without one. */
  ghost predicate Repaired(calls: seq<ToolCall>, block: seq<Message>, at: seq<nat>, answers: seq<Message>) {
    && |at| <= |answers| && (forall i, j :: 0 <= i < j < |at| ==> at[i] < at[j])
    && (forall k: nat :: k in at <==> FirstFor(calls, block, k))
    && (forall i :: 0 <= i < |at| ==> at[i] < |block| && answers[i] == block[at[i]])
    && (forall i :: |at| <= i < |answers| ==>
          answers[i] == Message(Tool, "[Tool result missing — session was compacted]", [], answers[i].toolCallId))
    && (forall c :: c in calls ==> exists i :: 0 <= i < |answers| && answers[i].toolCallId == c.id)
    && (forall i, j :: 0 <= i < j < |answers| ==> answers[i].toolCallId != answers[j].toolCallId)
  }

  lemma {:induction false} FirstAnswersAt(block: seq<Message>, expected: set<string>) returns (at: seq<nat>)
    ensures var kept := FirstAnswers(block, expected);
      && |at| == |kept| && (forall i, j :: 0 <= i < j < |at| ==> at[i] < at[j])
      && (forall i :: 0 <= i < |at| ==> at[i] < |block| && kept[i] == block[at[i]])
      && (forall k: nat :: k in at <==>
            k < |block| && block[k].toolCallId in expected && forall j :: 0 <= j < k ==> block[j].toolCallId != block[k].toolCallId)
  {
    if block == [] {
      at := [];
    } else {
      var id, init, last := block[0].toolCallId, Init(block), Last(block);
      InitLast(block);
      FirstAnswersSnoc(init, last, expected);
      FirstAnswersIds(init, expected);
      at := FirstAnswersAt(init, expected);
      InElements(ResultIds(init), last.toolCallId);
      assert forall j :: 0 <= j < |init| ==> block[j] == init[j] && ResultIds(init)[j] == block[j].toolCallId;
      assert block[|init|] == last;
      if last.toolCallId in expected - Elements(ResultIds(FirstAnswers(init, expected))) {
        at := at + [|init|];
      }
    }
  }

  lemma InElements(ids: seq<string>, id: string)
    ensures id in Elements(ids) <==> exists j :: 0 <= j < |ids| && ids[j] == id
  {
  }

  lemma BlockTold(calls: seq<ToolCall>, block: seq<Message>, answers: seq<Message>) returns (at: seq<nat>)
    requires BlockRepair(calls, block, answers) && forall i :: 0 <= i < |block| ==> block[i].role == Tool
    ensures Repaired(calls, block, at, answers)
  {
    var ids := Elements(CallIds(calls));
    at := FirstAnswersAt(block, ids);
    CallIdsOf(calls);
    BlockRepairAnswers(calls, block, answers);
    var kept := KeptAnswers(calls, block);
    var fill := answers[|kept|..];
    forall i | |at| <= i < |answers| ensures answers[i] == ToolResult(answers[i].toolCallId, MISSING_RESULT) {
      assert answers[i] == fill[i - |kept|];
    }
    forall i | 0 <= i < |at| ensures answers[i] == block[at[i]] {
      assert answers[i] == answers[..|kept|][i];
    }
    forall c | c in calls ensures exists i :: 0 <= i < |answers| && answers[i].toolCallId == c.id {
      assert c.id in Elements(ResultIds(answers));
      InElements(ResultIds(answers), c.id);
    }
    forall i, j | 0 <= i < j < |answers| ensures answers[i].toolCallId != answers[j].toolCallId {
      assert ResultIds(answers)[i] != ResultIds(answers)[j];
    }
  }

  lemma BlockRepairIdentity(calls: seq<ToolCall>, block: seq<Message>, answers: seq<Message>)
    requires BlockRepair(calls, block, answers) && Answers(calls, block)
    ensures answers == block
  {
    FirstAnswersAll(block, Elements(CallIds(calls)));
  }

  lemma {:induction false} RepairsHead(ms: seq<Message>, out: seq<Message>)
    requires Repairs(ms, out)
    ensures !StartsWithTool(out)
    decreases |ms|
  {
    if ms != [] && !OpensCalls(ms[0]) && ms[0].role == Tool {
      RepairsHead(ms[1..], out);
    }
  }

  /** A list that starts with a calling message: its block of results, and the rest. */
  lemma OpenedParts(ms: seq<Message>) returns (block: seq<Message>, rest: seq<Message>)
    requires ms != [] && OpensCalls(ms[0])
    ensures var n := LeadingTools(ms[1..]); block == ms[1..1 + n] && rest == ms[1 + n..]
    ensures ms == [ms[0]] + block + rest && !StartsWithTool(rest) && |rest| < |ms|
    ensures forall i :: 0 <= i < |block| ==> block[i].role == Tool
  {
    var n := LeadingTools(ms[1..]);
    block, rest := ms[1..1 + n], ms[1 + n..];
    SplitThree(ms, n);
    assert forall i :: 0 <= i < n ==> ms[1..][i] == block[i];
    if rest != [] { assert rest[0] == ms[1..][n]; }
  }

  lemma RepairsParts(ms: seq<Message>, out: seq<Message>)
      returns (block: seq<Message>, rest: seq<Message>, answers: seq<Message>, done: seq<Message>)
    requires ms != [] && OpensCalls(ms[0]) && Repairs(ms, out)
    ensures var n := LeadingTools(ms[1..]); block == ms[1..1 + n] && rest == ms[1 + n..]
    ensures ms == [ms[0]] + block + rest && !StartsWithTool(rest) && |rest| < |ms|
    ensures forall i :: 0 <= i < |block| ==> block[i].role == Tool
    ensures out == [ms[0]] + answers + done && Repairs(rest, done)
    ensures BlockRepair(ms[0].toolCalls, block, answers)
  {
    block, rest := OpenedParts(ms);
    answers, done := OpenedParts(out);
  }

  /** Whatever was stored, the repaired list is well paired. */
  lemma {:induction false} RepairWellPaired(ms: seq<Message>, out: seq<Message>)
    requires Repairs(ms, out)
    ensures WellPaired(out)
    decreases |ms|
  {
    if ms == [] {
    } else if OpensCalls(ms[0]) {
      var block, rest, answers, done := RepairsParts(ms, out);
      RepairWellPaired(rest, done);
      BlockRepairAnswers(ms[0].toolCalls, block, answers);
      RepairsHead(rest, done);
      WellPairedCons(ms[0], answers, done);
    } else if ms[0].role == Tool {
      RepairWellPaired(ms[1..], out);
    } else {
      RepairWellPaired(ms[1..], out[1..]);
    }
  }

  /** The repair keeps every other message, unchanged and in order. */
  lemma {:induction false} RepairKeepsNonTools(ms: seq<Message>, out: seq<Message>)
    requires Repairs(ms, out)
    ensures NonTools(out) == NonTools(ms)
    decreases |ms|
  {
    if ms == [] {
    } else if OpensCalls(ms[0]) {
      var block, rest, answers, done := RepairsParts(ms, out);
      RepairKeepsNonTools(rest, done);
      BlockRepairAnswers(ms[0].toolCalls, block, answers);
      NonToolsCons(ms[0], block, rest);
      NonToolsCons(ms[0], answers, done);
    } else if ms[0].role == Tool {
      RepairKeepsNonTools(ms[1..], out);
    } else {
      RepairKeepsNonTools(ms[1..], out[1..]);
    }
  }

  /** A well-paired list is left exactly as it is. */
  lemma {:induction false} RepairIdentity(ms: seq<Message>, out: seq<Message>)
    requires Repairs(ms, out) && WellPaired(ms)
    ensures out == ms
    decreases |ms|
  {
    if ms == [] {
    } else if OpensCalls(ms[0]) {
      var block, rest, answers, done := RepairsParts(ms, out);
      BlockRepairIdentity(ms[0].toolCalls, block, answers);
      RepairIdentity(rest, done);
    } else {
      RepairIdentity(ms[1..], out[1..]);
      assert ms == [ms[0]] + ms[1..] && out == [out[0]] + out[1..];
    }
  }

  lemma WellPairedCons(m: Message, block: seq<Message>, rest: seq<Message>)
    requires OpensCalls(m) && Answers(m.toolCalls, block) && WellPaired(rest) && !StartsWithTool(rest)
    requires forall i :: 0 <= i < |block| ==> block[i].role == Tool
    ensures WellPaired([m] + block + rest)
  {
    BuiltParts(m, block, rest);
  }

  lemma NonToolsCons(m: Message, block: seq<Message>, rest: seq<Message>)
    requires m.role != Tool && forall i :: 0 <= i < |block| ==> block[i].role == Tool
    ensures NonTools([m] + block + rest) == [m] + NonTools(rest)
  {
    NonToolsConcat([m] + block, rest);
    NonToolsConcat([m], block);
    NonToolsOfTools(block);
    assert NonTools([m]) == [m] + NonTools([m][1..]) == [m];
  }

  lemma RepairsSkip(ms: seq<Message>, out: seq<Message>)
    requires StartsWithTool(ms)
    ensures Repairs(ms, out) <==> Repairs(ms[1..], out)
  {
  }

  /** What is still to come after position i completes what was written so far. */
  ghost predicate Completes(ms: seq<Message>, i: nat, done: seq<Message>)
    requires i <= |ms|
  {
    forall rest {:trigger Repairs(ms, done + rest)} :: Repairs(ms[i..], rest) ==> Repairs(ms, done + rest)
  }

  lemma CompletesStart(ms: seq<Message>)
    ensures Completes(ms, 0, [])
  {
    assert ms[0..] == ms;
    forall rest | Repairs(ms[0..], rest) ensures Repairs(ms, [] + rest) {
      assert [] + rest == rest;
    }
  }

  lemma ResultIdsSnoc(kept: seq<Message>, m: Message, ids: set<string>)
    ensures ids - Elements(ResultIds(kept + [m])) == ids - Elements(ResultIds(kept)) - {m.toolCallId}
  {
    ResultIdsConcat(kept, [m]);
    ElementsSnoc(ResultIds(kept), m.toolCallId);
    assert ResultIds([m]) == [m.toolCallId];
  }

  /** The results after a calling message: keeps the first one for each expected id and
      strikes the id off. */
  method CollectAnswers(msgs: seq<Message>, first: nat) returns (kept: seq<Message>, expected: set<string>, i: nat)
    requires first < |msgs| && OpensCalls(msgs[first])
    ensures i == first + LeadingTools(msgs[first + 1..]) < |msgs|
    ensures kept == KeptAnswers(msgs[first].toolCalls, msgs[first + 1..i + 1])
    ensures expected == MissingIds(msgs[first].toolCalls, msgs[first + 1..i + 1])
  {
    var calls := msgs[first].toolCalls;
    ghost var ids := Elements(CallIds(calls));
    ghost var n := LeadingTools(msgs[first + 1..]);
    expected := set c | c in calls :: c.id;
    CallIdsOf(calls);
    kept := [];
    i := first;
    ghost var later := msgs[first + 1..];
    assert forall k :: 0 <= k < n ==> later[k] == msgs[first + 1 + k];
    while i + 1 < |msgs| && msgs[i + 1].role == Tool
      invariant first <= i <= first + n < |msgs|
      invariant kept == FirstAnswers(msgs[first + 1..i + 1], ids)
      invariant expected == ids - Elements(ResultIds(kept))
    {
      ghost var block := msgs[first + 1..i + 1];
      i := i + 1;
      var toolMsg := msgs[i];
      assert msgs[first + 1..i + 1] == block + [toolMsg];
      FirstAnswersSnoc(block, toolMsg, ids);
      if toolMsg.toolCallId in expected {
        ResultIdsSnoc(kept, toolMsg, ids);
        kept := kept + [toolMsg];
        expected := expected - {toolMsg.toolCallId};
      }
    }
  }

  lemma FillsInSnoc(fill: seq<Message>, filled: set<string>, id: string)
    requires FillsIn(fill, filled) && id !in filled
    ensures FillsIn(fill + [ToolResult(id, MISSING_RESULT)], filled + {id})
  {
    ResultIdsConcat(fill, [ToolResult(id, MISSING_RESULT)]);
    ElementsSnoc(ResultIds(fill), id);
    assert ResultIds([ToolResult(id, MISSING_RESULT)]) == [id];
  }

  /** One placeholder for each id, in whatever order the map is ranged over. */
  method SynthesizeMissing(missing: set<string>) returns (fill: seq<Message>)
    ensures FillsIn(fill, missing)
  {
    fill := [];
    var left := missing;
    while left != {}
      invariant left <= missing && FillsIn(fill, missing - left)
    {
      var id :| id in left;
      assert missing - (left - {id}) == (missing - left) + {id};
      FillsInSnoc(fill, missing - left, id);
      fill := fill + [ToolResult(id, MISSING_RESULT)];
      left := left - {id};
    }
    assert missing - {} == missing;
  }

  /** The block of results written after the calling message at index i; last is the index
      of the last message it consumes. */
  method AnswerCalls(msgs: seq<Message>, i: nat, ghost done: seq<Message>) returns (answers: seq<Message>, last: nat)
    requires i < |msgs| && OpensCalls(msgs[i]) && Completes(msgs, i, done)
    ensures i <= last < |msgs| && Completes(msgs, last + 1, done + ([msgs[i]] + answers))
  {
    var kept, expected;
    kept, expected, last := CollectAnswers(msgs, i);
    var fill := SynthesizeMissing(expected);
    answers := kept + fill;
    assert answers[..|kept|] == kept && answers[|kept|..] == fill;
    ghost var block, _ := OpenedParts(msgs[i..]);
    assert msgs[i..][1..] == msgs[i + 1..] && block == msgs[i + 1..last + 1];
    BlockRepairAnswers(msgs[i].toolCalls, block, answers);
    RepairsOpened(msgs, i, last, done, answers);
  }

  method SanitizeHistory(msgs: seq<Message>) returns (result: seq<Message>)
    ensures Repairs(msgs, result)
  {
    if |msgs| == 0 {
      return msgs;
    }
    var start := 0;
    CompletesStart(msgs);
    while start < |msgs| && msgs[start].role == Tool
      invariant 0 <= start <= |msgs|
      invariant Completes(msgs, start, [])
    {
      RepairsSkipped(msgs, start, []);
      start := start + 1;
    }
    if start >= |msgs| {
      CompletesEnd(msgs, []);
      return [];
    }
    result := RepairFrom(msgs, start);
    CompletesEnd(msgs, result);
  }

  method RepairFrom(msgs: seq<Message>, start: nat) returns (result: seq<Message>)
    requires start <= |msgs| && Completes(msgs, start, [])
    ensures Completes(msgs, |msgs|, result)
  {
    result := [];
    var i := start;
    while i < |msgs|
      invariant start <= i <= |msgs|
      invariant Completes(msgs, i, result)
    {
      var msg := msgs[i];
      if OpensCalls(msg) {
        var answers, last := AnswerCalls(msgs, i, result);
        result := result + ([msg] + answers);
        i := last;
      } else if msg.role == Tool {
        RepairsSkipped(msgs, i, result);
      } else {
        RepairsCopied(msgs, i, result);
        result := result + [msg];
      }
      i := i + 1;
    }
  }

  lemma CompletesEnd(ms: seq<Message>, done: seq<Message>)
    requires Completes(ms, |ms|, done)
    ensures Repairs(ms, done)
  {
    assert Repairs(ms[|ms|..], []);
    assert done + [] == done;
  }

  lemma CallIdsOf(calls: seq<ToolCall>)
    ensures Elements(CallIds(calls)) == set c | c in calls :: c.id
  {
    var ids := CallIds(calls);
    forall x ensures x in Elements(ids) <==> x in set c | c in calls :: c.id {
      if x in Elements(ids) {
        var k :| 0 <= k < |ids| && ids[k] == x;
        assert calls[k] in calls;
      }
      if c :| c in calls && c.id == x {
        var k :| 0 <= k < |calls| && calls[k] == c;
        assert ids[k] == x;
      }
    }
  }

  lemma RepairsSkipped(ms: seq<Message>, i: nat, done: seq<Message>)
    requires i < |ms| && ms[i].role == Tool && Completes(ms, i, done)
    ensures Completes(ms, i + 1, done)
  {
    forall rest | Repairs(ms[i + 1..], rest) ensures Repairs(ms, done + rest) {
      assert ms[i..][1..] == ms[i + 1..];
      RepairsSkip(ms[i..], rest);
    }
  }

  lemma RepairsCopied(ms: seq<Message>, i: nat, done: seq<Message>)
    requires i < |ms| && ms[i].role != Tool && !OpensCalls(ms[i]) && Completes(ms, i, done)
    ensures Completes(ms, i + 1, done + [ms[i]])
  {
    forall rest | Repairs(ms[i + 1..], rest) ensures Repairs(ms, done + [ms[i]] + rest) {
      assert ms[i..][1..] == ms[i + 1..] && ([ms[i]] + rest)[1..] == rest;
      assert Repairs(ms[i..], [ms[i]] + rest);
      ConcatAssoc(done, [ms[i]], rest);
    }
  }

  lemma RepairsOpened(ms: seq<Message>, i: nat, last: nat, done: seq<Message>, answers: seq<Message>)
    requires i < |ms| && OpensCalls(ms[i]) && last == i + LeadingTools(ms[i + 1..]) && Completes(ms, i, done)
    requires BlockRepair(ms[i].toolCalls, ms[i + 1..last + 1], answers)
    requires forall k :: 0 <= k < |answers| ==> answers[k].role == Tool
    ensures Completes(ms, last + 1, done + ([ms[i]] + answers))
  {
    var written := [ms[i]] + answers;
    forall rest | Repairs(ms[last + 1..], rest)
      ensures Repairs(ms, done + written + rest)
    {
      RepairsWritten(ms, i, last, answers, rest);
      CompletesWith(ms, i, done, written + rest);
      ConcatAssoc(done, written, rest);
    }
  }

  lemma CompletesWith(ms: seq<Message>, i: nat, done: seq<Message>, rest: seq<Message>)
    requires i <= |ms| && Completes(ms, i, done) && Repairs(ms[i..], rest)
    ensures Repairs(ms, done + rest)
  {
  }

  lemma RepairsWritten(ms: seq<Message>, i: nat, last: nat, answers: seq<Message>, rest: seq<Message>)
    requires i < |ms| && OpensCalls(ms[i]) && last == i + LeadingTools(ms[i + 1..])
    requires BlockRepair(ms[i].toolCalls, ms[i + 1..last + 1], answers)
    requires forall k :: 0 <= k < |answers| ==> answers[k].role == Tool
    requires Repairs(ms[last + 1..], rest)
    ensures Repairs(ms[i..], [ms[i]] + answers + rest)
  {
    var tail, n := ms[i..], last - i;
    assert tail[1..] == ms[i + 1..] && tail[1..1 + n] == ms[i + 1..last + 1] && tail[1 + n..] == ms[last + 1..];
    RepairsBuilt(tail, n, answers, rest);
  }

  lemma RepairsBuilt(ms: seq<Message>, n: nat, answers: seq<Message>, rest: seq<Message>)
    requires ms != [] && OpensCalls(ms[0]) && n == LeadingTools(ms[1..])
    requires BlockRepair(ms[0].toolCalls, ms[1..1 + n], answers) && Repairs(ms[1 + n..], rest)
    requires forall i :: 0 <= i < |answers| ==> answers[i].role == Tool
    ensures Repairs(ms, [ms[0]] + answers + rest)
  {
    RepairsHead(ms[1 + n..], rest);
    BuiltParts(ms[0], answers, rest);
  }

  lemma BuiltParts(m: Message, answers: seq<Message>, rest: seq<Message>)
    requires !StartsWithTool(rest) && forall i :: 0 <= i < |answers| ==> answers[i].role == Tool
    ensures var out := [m] + answers + rest;
      && out[0] == m
      && LeadingTools(out[1..]) == |answers|
      && out[1..1 + |answers|] == answers
      && out[1 + |answers|..] == rest
  {
    var out := [m] + answers + rest;
    assert out[1..] == answers + rest;
    LeadingToolsAll(answers);
    LeadingToolsConcat(answers, rest);
  }
}
