/** Conversation messages and what it means for tool results to be matched to tool calls. */
module Messages {
  import opened JsonValues
  import opened Ordering
  import opened Sequences

  datatype Role = System | User | Assistant | Tool | OtherRole(name: string)

  datatype ToolCall = ToolCall(id: string, name: string, arguments: map<string, Json>)

  datatype Message = Message(role: Role, content: string, toolCalls: seq<ToolCall>, toolCallId: string)

  function Plain(role: Role, content: string): Message {
    Message(role, content, [], "")
  }

  function ToolResult(id: string, content: string): Message {
    Message(Tool, content, [], id)
  }

  /** An assistant message that asks for tools. */
  predicate OpensCalls(m: Message) {
    m.role == Assistant && |m.toolCalls| > 0
  }

  function CallIds(calls: seq<ToolCall>): (ids: seq<string>)
    ensures |ids| == |calls|
  {
    seq(|calls|, i requires 0 <= i < |calls| => calls[i].id)
  }

  function ResultIds(block: seq<Message>): (ids: seq<string>)
    ensures |ids| == |block|
  {
    seq(|block|, i requires 0 <= i < |block| => block[i].toolCallId)
  }

  /** Length of the run of tool messages at the start. */
  function LeadingTools(ms: seq<Message>): (n: nat)
    ensures n <= |ms|
    ensures forall i :: 0 <= i < n ==> ms[i].role == Tool
    ensures n < |ms| ==> ms[n].role != Tool
  {
    if ms == [] || ms[0].role != Tool then 0 else 1 + LeadingTools(ms[1..])
  }

  /** Each distinct call id is answered exactly once. */
  predicate Answers(calls: seq<ToolCall>, block: seq<Message>) {
    Distinct(ResultIds(block)) && Elements(ResultIds(block)) == Elements(CallIds(calls))
  }

  /** Tool results stand only in the block directly after an assistant message with tool
      calls, and that block answers every call of the message exactly once. */
  predicate WellPaired(ms: seq<Message>)
    decreases |ms|
  {
    if ms == [] then true
    else if ms[0].role == Tool then false
    else if OpensCalls(ms[0]) then
      var n := LeadingTools(ms[1..]);
      Answers(ms[0].toolCalls, ms[1..1 + n]) && WellPaired(ms[1 + n..])
    else WellPaired(ms[1..])
  }

  predicate StartsWithTool(ms: seq<Message>) {
    ms != [] && ms[0].role == Tool
  }

  lemma {:induction false} LeadingToolsConcat(a: seq<Message>, b: seq<Message>)
    requires !StartsWithTool(b)
    ensures LeadingTools(a + b) == LeadingTools(a)
  {
    if a == [] {
      assert a + b == b;
    } else {
      assert (a + b)[1..] == a[1..] + b;
      LeadingToolsConcat(a[1..], b);
    }
  }

  lemma {:induction false} LeadingToolsAll(a: seq<Message>)
    requires forall i :: 0 <= i < |a| ==> a[i].role == Tool
    ensures LeadingTools(a) == |a|
  {
    if a != [] { LeadingToolsAll(a[1..]); }
  }

  lemma OpenedUnfold(ms: seq<Message>, n: nat)
    requires ms != [] && OpensCalls(ms[0]) && n == LeadingTools(ms[1..])
    ensures WellPaired(ms) <==> Answers(ms[0].toolCalls, ms[1..1 + n]) && WellPaired(ms[1 + n..])
  {
  }

  /** Cutting a list where no tool result starts splits well-pairedness. */
  lemma {:induction false} WellPairedConcat(a: seq<Message>, b: seq<Message>)
    requires !StartsWithTool(b)
    ensures WellPaired(a + b) <==> WellPaired(a) && WellPaired(b)
    decreases |a|
  {
    if a == [] {
      assert a + b == b;
    } else if OpensCalls(a[0]) {
      assert (a + b)[1..] == a[1..] + b;
      LeadingToolsConcat(a[1..], b);
      var n := LeadingTools(a[1..]);
      SliceConcat(a, b, n);
      OpenedUnfold(a, n);
      OpenedUnfold(a + b, n);
      WellPairedConcat(a[1 + n..], b);
    } else {
      assert (a + b)[1..] == a[1..] + b;
      WellPairedConcat(a[1..], b);
    }
  }

  /** A message that neither opens calls nor answers one can be put anywhere tool results
      do not continue. */
  lemma WellPairedSingle(m: Message)
    requires m.role != Tool && !OpensCalls(m)
    ensures WellPaired([m])
  {
  }

  /** The messages other than tool results, in order. */
  function NonTools(ms: seq<Message>): seq<Message> {
    if ms == [] then []
    else (if ms[0].role == Tool then [] else [ms[0]]) + NonTools(ms[1..])
  }

  lemma {:induction false} NonToolsConcat(a: seq<Message>, b: seq<Message>)
    ensures NonTools(a + b) == NonTools(a) + NonTools(b)
  {
    if a == [] {
      assert a + b == b;
    } else {
      assert (a + b)[1..] == a[1..] + b;
      NonToolsConcat(a[1..], b);
    }
  }

  lemma {:induction false} NonToolsOfTools(a: seq<Message>)
    requires forall i :: 0 <= i < |a| ==> a[i].role == Tool
    ensures NonTools(a) == []
  {
    if a != [] { NonToolsOfTools(a[1..]); }
  }

  /** Number of user messages. */
  function UserTurns(ms: seq<Message>): nat {
    if ms == [] then 0 else (if ms[0].role == User then 1 else 0) + UserTurns(ms[1..])
  }

  /** Message i is the one answer to a call of message j: only tool results stand between
      them, j asked for the id, and no earlier result of the block carries it. */
  ghost predicate AnswerTo(ms: seq<Message>, i: nat, j: nat)
    requires j < i < |ms|
  {
    && OpensCalls(ms[j])
    && (forall k :: j < k <= i ==> ms[k].role == Tool)
    && ms[i].toolCallId in CallIds(ms[j].toolCalls)
    && (forall k :: j < k < i ==> ms[k].toolCallId != ms[i].toolCallId)
  }

  lemma AnswerToSuffix(ms: seq<Message>, from: nat, i: nat, j: nat)
    requires from <= j < i < |ms| && AnswerTo(ms[from..], i - from, j - from)
    ensures AnswerTo(ms, i, j)
  {
    var rest := ms[from..];
    assert forall k :: from <= k < |ms| ==> ms[k] == rest[k - from];
  }

  /** Position by position, a well-paired list has no stray tool result. */
  lemma {:induction false} WellPairedAnswers(ms: seq<Message>, i: nat) returns (j: nat)
    requires WellPaired(ms) && i < |ms| && ms[i].role == Tool
    ensures j < i && AnswerTo(ms, i, j)
    decreases |ms|
  {
    var n := FirstBlock(ms);
    if i <= n {
      BlockAnswers(ms, n, i);
      j := 0;
    } else {
      j := WellPairedAnswers(ms[1 + n..], i - 1 - n);
      j := j + 1 + n;
      AnswerToSuffix(ms, 1 + n, i, j);
    }
  }

  /** The results directly behind the first message, which answer it. */
  lemma FirstBlock(ms: seq<Message>) returns (n: nat)
    requires WellPaired(ms) && ms != []
    ensures n < |ms| && WellPaired(ms[1 + n..]) && ms[0].role != Tool
    ensures n > 0 ==> OpensCalls(ms[0]) && n == LeadingTools(ms[1..]) && Answers(ms[0].toolCalls, ms[1..1 + n])
  {
    n := if OpensCalls(ms[0]) then LeadingTools(ms[1..]) else 0;
  }

  lemma BlockAnswers(ms: seq<Message>, n: nat, i: nat)
    requires ms != [] && OpensCalls(ms[0]) && n == LeadingTools(ms[1..])
    requires Answers(ms[0].toolCalls, ms[1..1 + n]) && 0 < i <= n
    ensures AnswerTo(ms, i, 0)
  {
    var ids := ResultIds(ms[1..1 + n]);
    assert forall k :: 0 < k <= n ==> ms[k] == ms[1..][k - 1] && ids[k - 1] == ms[k].toolCallId;
    assert ids[i - 1] in Elements(ids);
  }
}
