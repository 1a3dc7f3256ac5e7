/** The agent loop: ask the model, run the tools it calls, feed the results back. The model
    and the tools are an arbitrary script of answers, one entry for each request. The loop
    is described twice: as a step function on values, about which the run-wide properties
    are proved, and as the imperative loop, which is proved to follow it. */
module AgentLoop {
  import opened JsonValues
  import opened Messages
  import opened Sequences
  import opened Compaction
  import opened ToolLoop
  import opened Ordering
  import opened Wrappers

  datatype Usage = Usage(prompt: int, completion: int, total: int)

  function Add(a: Usage, b: Option<Usage>): Usage {
    match b
    case None => a
    case Some(u) => Usage(a.prompt + u.prompt, a.completion + u.completion, a.total + u.total)
  }

  datatype Response = Response(content: string, toolCalls: seq<ToolCall>, usage: Option<Usage>)

  /** What the outside world does for one request: the model call fails, or it answers; the
      texts of the tool results in call order; and the answer of the summarizing call, in
      case this is the turn that compacts. */
  datatype Turn = CallFails | Answers(resp: Response, results: seq<string>, summary: Option<string>)

  datatype Config = Config(
    maxIterations: int,
    contextWindow: int,
    maxHistoryShare: real,
    hashCall: (string, map<string, Json>) -> string,
    hashResult: string -> string,
    verdict: seq<Pair> -> Level,
    count: seq<Pair> -> nat,
    phrase: (Level, string, nat) -> string,
    clean: string -> string)

  /** The loop runs with the repeated-call detector. */
  ghost predicate Standard(cfg: Config) {
    cfg.verdict == VerdictOf && cfg.count == CountOf
  }

  datatype Status = Running | Finished(content: string) | Failed

  datatype RunState = RunState(
    messages: seq<Message>,
    pending: seq<Message>,
    requests: seq<seq<Message>>,
    usage: Usage,
    log: seq<Pair>,
    compacted: bool,
    status: Status)

  // ---- one batch of tool calls ----

  datatype Batch = Batch(messages: seq<Message>, log: seq<Pair>, stop: Option<string>)

  function ResultText(results: seq<string>, i: nat): string {
    if i < |results| then results[i] else ""
  }

  function Logged(tc: ToolCall, result: string, log: seq<Pair>, cfg: Config): (r: seq<Pair>)
    ensures r != [] && r[..|r| - 1] == log
  {
    log + [Pair(cfg.hashCall(tc.name, tc.arguments), cfg.hashResult(result))]
  }

  /** The messages that the calls from index i on add: a result each, after it a warning
      when the detector warns, and nothing more once it is critical. */
  function RunBatch(calls: seq<ToolCall>, results: seq<string>, i: nat, log: seq<Pair>, cfg: Config): Batch
    requires i <= |calls|
    decreases |calls| - i
  {
    if i == |calls| then Batch([], log, None)
    else
      var text := ResultText(results, i);
      var log' := Logged(calls[i], text, log, cfg);
      var result := ToolResult(calls[i].id, text);
      var notice := cfg.phrase(cfg.verdict(log'), calls[i].name, cfg.count(log'));
      if cfg.verdict(log') == Critical then Batch([result], log', Some(notice))
      else
        var rest := RunBatch(calls, results, i + 1, log', cfg);
        Prepend(if cfg.verdict(log') == Warning then [result] + [Plain(User, notice)] else [result], rest)
  }

  function Prepend(said: seq<Message>, b: Batch): Batch {
    Batch(said + b.messages, b.log, b.stop)
  }

  lemma PrependAssoc(a: seq<Message>, b: seq<Message>, batch: Batch)
    ensures Prepend(a, Prepend(b, batch)) == Prepend(a + b, batch)
  {
    ConcatAssoc(a, b, batch.messages);
  }

  /** The detector speaks up before the last call of the batch: a warning then falls between
      two results, and a critical stop leaves the later calls unanswered. */
  predicate Interrupted(calls: seq<ToolCall>, results: seq<string>, i: nat, log: seq<Pair>, cfg: Config)
    requires i <= |calls|
    decreases |calls| - i
  {
    if i + 1 >= |calls| then false
    else
      var log' := Logged(calls[i], ResultText(results, i), log, cfg);
      cfg.verdict(log') != Quiet || Interrupted(calls, results, i + 1, log', cfg)
  }

  // ---- one turn ----

  function Threshold(cfg: Config): int {
    (cfg.contextWindow as real * cfg.maxHistoryShare).Floor
  }

  /** The prompt of this answer has filled its share of the context window. */
  predicate Fills(resp: Response, cfg: Config) {
    cfg.contextWindow > 0 && resp.usage.Some? && resp.usage.value.prompt >= Threshold(cfg)
  }

  /** In numbers: a reported prompt that, rounded up, reaches its share of the window. */
  lemma FillsWhen(resp: Response, cfg: Config)
    ensures Fills(resp, cfg) <==>
      cfg.contextWindow > 0 && resp.usage.Some? && (resp.usage.value.prompt + 1) as real > cfg.contextWindow as real * cfg.maxHistoryShare
  {
    var share := cfg.contextWindow as real * cfg.maxHistoryShare;
    assert share.Floor as real <= share < (share.Floor + 1) as real;
  }

  predicate CompactionDue(st: RunState, resp: Response, cfg: Config) {
    !st.compacted && Fills(resp, cfg)
  }

  /** The messages after the compaction check of a turn. */
  ghost function AfterCompaction(st: RunState, turn: Turn, cfg: Config): seq<Message>
    requires turn.Answers?
  {
    if CompactionDue(st, turn.resp, cfg) && Compacted(st.messages, turn.summary).Some? then
      Compacted(st.messages, turn.summary).value
    else st.messages
  }

  function CallMessage(resp: Response): Message {
    Message(Assistant, resp.content, resp.toolCalls, "")
  }

  /** The messages that a turn adds to the conversation, after the calls in log. */
  function Added(log: seq<Pair>, turn: Turn, cfg: Config): seq<Message> {
    if turn.CallFails? || turn.resp.toolCalls == [] then []
    else [CallMessage(turn.resp)] + RunBatch(turn.resp.toolCalls, turn.results, 0, log, cfg).messages
  }

  ghost function Step(st: RunState, turn: Turn, cfg: Config): RunState {
    var asked := st.requests + [st.messages];
    match turn
    case CallFails => st.(requests := asked, status := Failed)
    case Answers(resp, results, _) =>
      var batch := RunBatch(resp.toolCalls, results, 0, st.log, cfg);
      RunState(
        AfterCompaction(st, turn, cfg) + Added(st.log, turn, cfg),
        st.pending + Added(st.log, turn, cfg),
        asked,
        Add(st.usage, resp.usage),
        batch.log,
        st.compacted || CompactionDue(st, resp, cfg),
        if resp.toolCalls == [] then Finished(resp.content)
        else if batch.stop.Some? then Finished(batch.stop.value) else Running)
  }

  /** One turn in a given world. */
  ghost function Turning(env: nat -> Turn, cfg: Config): RunState -> RunState {
    (st: RunState) => Step(st, env(|st.requests|), cfg)
  }

  /** At most `fuel` further turns. */
  ghost function Run(st: RunState, step: RunState -> RunState, fuel: nat): RunState
    decreases fuel
  {
    if fuel == 0 || st.status != Running then st else Run(step(st), step, fuel - 1)
  }

  function Start(messages: seq<Message>, userMessage: string): RunState {
    RunState(messages, [Plain(User, userMessage)], [], Usage(0, 0, 0), [], false, Running)
  }

  // ---- pairing of requests ----

  function Results(calls: seq<ToolCall>, results: seq<string>, i: nat): (r: seq<Message>)
    requires i <= |calls|
    ensures |r| == |calls| - i
    ensures forall k :: 0 <= k < |r| ==> r[k].role == Tool
    decreases |calls| - i
  {
    if i == |calls| then [] else [ToolResult(calls[i].id, ResultText(results, i))] + Results(calls, results, i + 1)
  }

  lemma {:induction false} ResultsIds(calls: seq<ToolCall>, results: seq<string>, i: nat)
    requires i <= |calls|
    ensures ResultIds(Results(calls, results, i)) == CallIds(calls)[i..]
    decreases |calls| - i
  {
    if i < |calls| {
      ResultsIds(calls, results, i + 1);
      var rest := Results(calls, results, i + 1);
      assert ResultIds(Results(calls, results, i)) == [calls[i].id] + ResultIds(rest);
      assert CallIds(calls)[i..] == [calls[i].id] + CallIds(calls)[i + 1..];
    }
  }

  /** A batch that is not interrupted is the results in call order, with at most a warning
      at the end. */
  lemma {:induction false} QuietBatch(calls: seq<ToolCall>, results: seq<string>, i: nat, log: seq<Pair>, cfg: Config) returns (tail: seq<Message>)
    requires i <= |calls| && !Interrupted(calls, results, i, log, cfg)
    ensures RunBatch(calls, results, i, log, cfg).messages == Results(calls, results, i) + tail
    ensures tail == [] || exists text :: tail == [Plain(User, text)]
    decreases |calls| - i
  {
    tail := [];
    if i < |calls| {
      var log' := Logged(calls[i], ResultText(results, i), log, cfg);
      if cfg.verdict(log') == Quiet {
        tail := QuietBatch(calls, results, i + 1, log', cfg);
        ConcatAssoc([ToolResult(calls[i].id, ResultText(results, i))], Results(calls, results, i + 1), tail);
      } else if cfg.verdict(log') == Warning {
        assert RunBatch(calls, results, i + 1, log', cfg).messages == [];
        tail := [Plain(User, cfg.phrase(cfg.verdict(log'), calls[i].name, cfg.count(log')))];
      }
    }
  }

  /** The messages of a batch from index i on, when it does not stop there. */
  lemma BatchFrom(calls: seq<ToolCall>, results: seq<string>, i: nat, log: seq<Pair>, cfg: Config)
    requires i < |calls|
    ensures var log' := Logged(calls[i], ResultText(results, i), log, cfg);
      var result := ToolResult(calls[i].id, ResultText(results, i));
      var rest := RunBatch(calls, results, i + 1, log', cfg).messages;
      var warning := [Plain(User, cfg.phrase(cfg.verdict(log'), calls[i].name, cfg.count(log')))];
      var all := RunBatch(calls, results, i, log, cfg).messages;
      && (cfg.verdict(log') == Quiet ==> all == [result] + rest)
      && (cfg.verdict(log') == Warning ==> all == [result] + (warning + rest))
      && StartsWithTool(all)
  {
    var log' := Logged(calls[i], ResultText(results, i), log, cfg);
    var result := [ToolResult(calls[i].id, ResultText(results, i))];
    var warning := [Plain(User, cfg.phrase(cfg.verdict(log'), calls[i].name, cfg.count(log')))];
    ConcatAssoc(result, warning, RunBatch(calls, results, i + 1, log', cfg).messages);
  }

  /** An interrupted batch either has a result behind a user message, or too few results. */
  lemma {:induction false} InterruptedBatch(calls: seq<ToolCall>, results: seq<string>, i: nat, log: seq<Pair>, cfg: Config)
      returns (before: seq<Message>, rest: seq<Message>)
    requires i <= |calls| && Interrupted(calls, results, i, log, cfg)
    ensures RunBatch(calls, results, i, log, cfg).messages == before + rest
    ensures forall k :: 0 <= k < |before| ==> before[k].role == Tool
    ensures rest != [] ==> rest[0].role == User && StartsWithTool(rest[1..])
    ensures rest == [] ==> |before| < |calls| - i && RunBatch(calls, results, i, log, cfg).stop.Some?
    decreases |calls| - i
  {
    var log' := Logged(calls[i], ResultText(results, i), log, cfg);
    var result := [ToolResult(calls[i].id, ResultText(results, i))];
    BatchFrom(calls, results, i, log, cfg);
    if cfg.verdict(log') == Critical {
      before, rest := result, [];
    } else if cfg.verdict(log') == Warning {
      BatchFrom(calls, results, i + 1, log', cfg);
      var warning := [Plain(User, cfg.phrase(cfg.verdict(log'), calls[i].name, cfg.count(log')))];
      before, rest := result, warning + RunBatch(calls, results, i + 1, log', cfg).messages;
      assert rest[1..] == RunBatch(calls, results, i + 1, log', cfg).messages;
    } else {
      before, rest := InterruptedBatch(calls, results, i + 1, log', cfg);
      ConcatAssoc(result, before, rest);
      before := result + before;
    }
  }

  predicate CleanBatch(calls: seq<ToolCall>, results: seq<string>, log: seq<Pair>, cfg: Config) {
    Distinct(CallIds(calls)) && !Interrupted(calls, results, 0, log, cfg)
  }

  lemma InterruptedUnpaired(resp: Response, results: seq<string>, log: seq<Pair>, cfg: Config)
    requires resp.toolCalls != [] && Interrupted(resp.toolCalls, results, 0, log, cfg)
    requires RunBatch(resp.toolCalls, results, 0, log, cfg).stop == None || Distinct(CallIds(resp.toolCalls))
    ensures !WellPaired([CallMessage(resp)] + RunBatch(resp.toolCalls, results, 0, log, cfg).messages)
  {
    var calls, head := resp.toolCalls, [CallMessage(resp)];
    var before, rest := InterruptedBatch(calls, results, 0, log, cfg);
    if rest != [] {
      WellPairedConcat(head + before, rest);
      ConcatAssoc(head, before, rest);
    } else {
      assert before + rest == before;
      OpenedBlock(CallMessage(resp), before);
      DistinctCount(ResultIds(before));
      DistinctCount(CallIds(calls));
    }
  }

  lemma UninterruptedPaired(resp: Response, results: seq<string>, log: seq<Pair>, cfg: Config)
    requires resp.toolCalls != [] && !Interrupted(resp.toolCalls, results, 0, log, cfg)
    ensures WellPaired([CallMessage(resp)] + RunBatch(resp.toolCalls, results, 0, log, cfg).messages)
      <==> Distinct(CallIds(resp.toolCalls))
  {
    var calls, head := resp.toolCalls, [CallMessage(resp)];
    var tail := QuietBatch(calls, results, 0, log, cfg);
    var block := Results(calls, results, 0);
    ResultsIds(calls, results, 0);
    OpenedBlock(CallMessage(resp), block);
    WellPairedConcat(head + block, tail);
    ConcatAssoc(head, block, tail);
    assert CallIds(calls)[0..] == CallIds(calls);
  }

  /** The messages of a batch are well paired exactly when its call ids are distinct and the
      detector stays silent before the last call. (A batch that stops is considered only
      with distinct ids: an early stop can answer two calls of the same id with one result.) */
  lemma BatchPaired(resp: Response, results: seq<string>, log: seq<Pair>, cfg: Config)
    requires resp.toolCalls != []
    requires RunBatch(resp.toolCalls, results, 0, log, cfg).stop == None || Distinct(CallIds(resp.toolCalls))
    ensures WellPaired([CallMessage(resp)] + RunBatch(resp.toolCalls, results, 0, log, cfg).messages)
      <==> CleanBatch(resp.toolCalls, results, log, cfg)
  {
    if Interrupted(resp.toolCalls, results, 0, log, cfg) {
      InterruptedUnpaired(resp, results, log, cfg);
    } else {
      UninterruptedPaired(resp, results, log, cfg);
    }
  }

  /** The same call under different ids. */
  function WithIds(tc: ToolCall, ids: seq<string>): seq<ToolCall> {
    seq(|ids|, k requires 0 <= k < |ids| => tc.(id := ids[k]))
  }

  /** A batch that the detector interrupts exists: four equal calls with equal results. Its
      warning lands before the fourth result. */
  lemma WarningBreaksPairing(tc: ToolCall, ids: seq<string>, text: string, cfg: Config)
    requires Standard(cfg) && |ids| == 4 && Distinct(ids)
    ensures var calls := WithIds(tc, ids);
      var resp := Response("", calls, None);
      && Distinct(CallIds(calls))
      && !WellPaired([CallMessage(resp)] + RunBatch(calls, [text, text, text, text], 0, [], cfg).messages)
  {
    var calls := WithIds(tc, ids);
    var results := [text, text, text, text];
    var p := Pair(cfg.hashCall(tc.name, tc.arguments), cfg.hashResult(text));
    EqualCallsInterrupted(calls, results, p, cfg);
    assert CallIds(calls) == ids;
    InterruptedUnpaired(Response("", calls, None), results, [], cfg);
  }

  lemma EqualCallsInterrupted(calls: seq<ToolCall>, results: seq<string>, p: Pair, cfg: Config)
    requires Standard(cfg) && |calls| == 4 && |results| == 4
    requires forall k :: 0 <= k < 4 ==> Pair(cfg.hashCall(calls[k].name, calls[k].arguments), cfg.hashResult(results[k])) == p
    ensures Interrupted(calls, results, 0, [], cfg)
  {
    ThirdWarns(calls, results, [p, p], p, cfg);
    FourEqualCalls(calls, results, p, cfg);
  }

  lemma FourEqualCalls(calls: seq<ToolCall>, results: seq<string>, p: Pair, cfg: Config)
    requires |calls| == 4 && |results| == 4 && Interrupted(calls, results, 2, [p, p], cfg)
    requires forall k :: 0 <= k < 4 ==> Pair(cfg.hashCall(calls[k].name, calls[k].arguments), cfg.hashResult(results[k])) == p
    ensures Interrupted(calls, results, 0, [], cfg)
  {
    assert Logged(calls[0], results[0], [], cfg) == [p];
    assert Logged(calls[1], results[1], [p], cfg) == [p, p];
    InterruptedLater(calls, results, 1, [p], cfg);
    InterruptedLater(calls, results, 0, [], cfg);
  }

  lemma ThirdWarns(calls: seq<ToolCall>, results: seq<string>, log: seq<Pair>, p: Pair, cfg: Config)
    requires Standard(cfg) && |calls| == 4 && |results| == 4 && log == [p, p]
    requires Pair(cfg.hashCall(calls[2].name, calls[2].arguments), cfg.hashResult(results[2])) == p
    ensures Interrupted(calls, results, 2, log, cfg)
  {
    var three := Logged(calls[2], results[2], log, cfg);
    assert three == [p, p, p];
    ThreeWarn(p);
    assert cfg.verdict(three) == Verdict(three);
  }

  lemma ThreeWarn(p: Pair)
    ensures Verdict([p, p, p]) == Warning
  {
    assert multiset([p, p, p]) == multiset{p, p, p};
  }

  lemma InterruptedLater(calls: seq<ToolCall>, results: seq<string>, i: nat, log: seq<Pair>, cfg: Config)
    requires i + 1 < |calls| && Interrupted(calls, results, i + 1, Logged(calls[i], ResultText(results, i), log, cfg), cfg)
    ensures Interrupted(calls, results, i, log, cfg)
  {
  }

  lemma OpenedBlock(m: Message, block: seq<Message>)
    requires OpensCalls(m) && forall k :: 0 <= k < |block| ==> block[k].role == Tool
    ensures WellPaired([m] + block) <==> Messages.Answers(m.toolCalls, block)
  {
    var ms := [m] + block;
    assert ms[1..] == block;
    LeadingToolsAll(block);
    assert ms[1..1 + |block|] == block && ms[1 + |block|..] == [];
  }

  /** The turn that the world takes in this state has a clean batch. */
  ghost function CleanTurn(env: nat -> Turn, cfg: Config): RunState -> bool {
    (st: RunState) =>
      var turn := env(|st.requests|);
      turn.Answers? && CleanBatch(turn.resp.toolCalls, turn.results, st.log, cfg)
  }

  /** Every turn that is followed by another request satisfies ok. */
  ghost predicate EachOn(st: RunState, step: RunState -> RunState, ok: RunState -> bool, fuel: nat)
    decreases fuel
  {
    if fuel == 0 || st.status != Running then true
    else
      && (step(st).status == Running && fuel > 1 ==> ok(st))
      && EachOn(step(st), step, ok, fuel - 1)
  }

  ghost predicate AllPaired(requests: seq<seq<Message>>) {
    forall k :: 0 <= k < |requests| ==> WellPaired(requests[k])
  }

  lemma AfterCompactionPaired(st: RunState, turn: Turn, cfg: Config)
    requires turn.Answers? && WellPaired(st.messages)
    ensures WellPaired(AfterCompaction(st, turn, cfg))
  {
    var out := Compacted(st.messages, turn.summary);
    if out.Some? { CompactedShape(st.messages, turn.summary, out); }
  }

  /** One turn that goes on: its messages are well paired exactly when its batch is clean. */
  lemma StepPaired(st: RunState, turn: Turn, cfg: Config)
    requires WellPaired(st.messages) && Step(st, turn, cfg).status == Running
    ensures turn.Answers? && turn.resp.toolCalls != []
    ensures WellPaired(Step(st, turn, cfg).messages) <==> CleanBatch(turn.resp.toolCalls, turn.results, st.log, cfg)
  {
    AfterCompactionPaired(st, turn, cfg);
    BatchPaired(turn.resp, turn.results, st.log, cfg);
    WellPairedConcat(AfterCompaction(st, turn, cfg), Added(st.log, turn, cfg));
  }

  /** Each turn records the request it sends. */
  ghost predicate Asks(step: RunState -> RunState) {
    forall s: RunState :: step(s).requests == s.requests + [s.messages]
  }

  lemma StepAsks(st: RunState, turn: Turn, cfg: Config)
    ensures Step(st, turn, cfg).requests == st.requests + [st.messages]
  {
  }

  lemma TurningAsks(env: nat -> Turn, cfg: Config)
    ensures Asks(Turning(env, cfg))
  {
    var step: RunState -> RunState := Turning(env, cfg);
    forall s: RunState ensures step(s).requests == s.requests + [s.messages] {
      StepAsks(s, env(|s.requests|), cfg);
    }
  }

  lemma {:induction false} RunKeepsRequests(st: RunState, step: RunState -> RunState, fuel: nat)
    requires Asks(step)
    ensures |Run(st, step, fuel).requests| <= |st.requests| + fuel
    ensures st.requests <= Run(st, step, fuel).requests
    ensures fuel > 0 && st.status == Running ==> st.requests + [st.messages] <= Run(st, step, fuel).requests
    decreases fuel
  {
    if fuel > 0 && st.status == Running {
      var next := step(st);
      RunKeepsRequests(next, step, fuel - 1);
      PrefixTransitive(st.requests, next.requests, Run(next, step, fuel - 1).requests);
    }
  }

  ghost predicate PairedIff(step: RunState -> RunState, ok: RunState -> bool) {
    forall s: RunState :: WellPaired(s.messages) && step(s).status == Running ==> (WellPaired(step(s).messages) <==> ok(s))
  }

  lemma AllPairedSnoc(requests: seq<seq<Message>>, ms: seq<Message>)
    ensures AllPaired(requests + [ms]) <==> AllPaired(requests) && WellPaired(ms)
  {
    var all := requests + [ms];
    assert all[|requests|] == ms && forall k :: 0 <= k < |requests| ==> all[k] == requests[k];
  }

  lemma AllPairedPrefix(first: seq<seq<Message>>, all: seq<seq<Message>>)
    requires first <= all && AllPaired(all)
    ensures AllPaired(first)
  {
    assert forall k :: 0 <= k < |first| ==> all[k] == first[k];
  }

  lemma UnpairedRun(next: RunState, step: RunState -> RunState, fuel: nat)
    requires Asks(step) && fuel > 0 && next.status == Running && !WellPaired(next.messages)
    ensures !AllPaired(Run(next, step, fuel).requests)
  {
    RunKeepsRequests(next, step, fuel);
    if AllPaired(Run(next, step, fuel).requests) {
      AllPairedPrefix(next.requests + [next.messages], Run(next, step, fuel).requests);
      AllPairedSnoc(next.requests, next.messages);
    }
  }

  lemma {:induction false} PairedRequests(st: RunState, step: RunState -> RunState, ok: RunState -> bool, fuel: nat)
    requires Asks(step) && PairedIff(step, ok)
    requires WellPaired(st.messages) && AllPaired(st.requests)
    ensures AllPaired(Run(st, step, fuel).requests) <==> EachOn(st, step, ok, fuel)
    decreases fuel
  {
    if fuel > 0 && st.status == Running {
      var next := step(st);
      AllPairedSnoc(st.requests, st.messages);
      if next.status == Running && fuel > 1 {
        if ok(st) {
          PairedRequests(next, step, ok, fuel - 1);
        } else {
          UnpairedRun(next, step, fuel - 1);
        }
      }
    }
  }

  /** In every run, all requests are well paired, also after compaction, exactly when every
      batch that is followed by another request has distinct call ids and no warning
      between its results. */
  lemma RequestsPaired(messages: seq<Message>, userMessage: string, env: nat -> Turn, fuel: nat, cfg: Config)
    requires WellPaired(messages)
    ensures AllPaired(Run(Start(messages, userMessage), Turning(env, cfg), fuel).requests)
      <==> EachOn(Start(messages, userMessage), Turning(env, cfg), CleanTurn(env, cfg), fuel)
  {
    TurningAsks(env, cfg);
    var step: RunState -> RunState, ok: RunState -> bool := Turning(env, cfg), CleanTurn(env, cfg);
    forall s: RunState | WellPaired(s.messages) && step(s).status == Running
      ensures WellPaired(step(s).messages) <==> ok(s)
    {
      StepPaired(s, env(|s.requests|), cfg);
    }
    PairedRequests(Start(messages, userMessage), step, ok, fuel);
  }

  // ---- what every run keeps ----

  lemma {:induction false} RunInvariant(st: RunState, step: RunState -> RunState, inv: RunState -> bool, fuel: nat)
    requires inv(st) && forall s: RunState :: inv(s) && s.status == Running ==> inv(step(s))
    ensures inv(Run(st, step, fuel))
    decreases fuel
  {
    if fuel > 0 && st.status == Running {
      RunInvariant(step(st), step, inv, fuel - 1);
    }
  }

  lemma StepParts(st: RunState, turn: Turn, cfg: Config)
    requires turn.Answers?
    ensures var next := Step(st, turn, cfg);
      && next.messages == AfterCompaction(st, turn, cfg) + Added(st.log, turn, cfg)
      && next.pending == st.pending + Added(st.log, turn, cfg)
      && next.compacted == (st.compacted || CompactionDue(st, turn.resp, cfg))
      && next.log == RunBatch(turn.resp.toolCalls, turn.results, 0, st.log, cfg).log
  {
  }

  function TurnUsage(turn: Turn): Option<Usage> {
    if turn.Answers? then turn.resp.usage else None
  }

  /** The sum of one count over the answers of the first n turns that report their usage. */
  function Total(env: nat -> Turn, count: Usage -> int, n: nat): int {
    if n == 0 then 0
    else Total(env, count, n - 1) + (if env(n - 1).Answers? && env(n - 1).resp.usage.Some? then count(env(n - 1).resp.usage.value) else 0)
  }

  /** The token counts of the first n turns together. */
  function SumUsage(env: nat -> Turn, n: nat): Usage {
    Usage(Total(env, (u: Usage) => u.prompt, n), Total(env, (u: Usage) => u.completion, n), Total(env, (u: Usage) => u.total, n))
  }

  lemma SumNext(env: nat -> Turn, n: nat)
    ensures SumUsage(env, n + 1) == Add(SumUsage(env, n), TurnUsage(env(n)))
  {
  }

  lemma StepUsage(st: RunState, turn: Turn, cfg: Config)
    ensures Step(st, turn, cfg).usage == Add(st.usage, TurnUsage(turn))
    ensures |Step(st, turn, cfg).requests| == |st.requests| + 1
  {
  }

  /** The totals are the sums over the model calls made, at most one for each iteration. */
  lemma UsageAddsUp(base: seq<Message>, userMessage: string, env: nat -> Turn, fuel: nat, cfg: Config)
    ensures var end := Run(Start(base, userMessage), Turning(env, cfg), fuel);
      end.usage == SumUsage(env, |end.requests|) && |end.requests| <= fuel
  {
    var inv: RunState -> bool := (s: RunState) => s.usage == SumUsage(env, |s.requests|);
    var step: RunState -> RunState := Turning(env, cfg);
    forall s: RunState | inv(s) ensures inv(step(s)) {
      StepUsage(s, env(|s.requests|), cfg);
      SumNext(env, |s.requests|);
    }
    RunInvariant(Start(base, userMessage), step, inv, fuel);
    TurningAsks(env, cfg);
    RunKeepsRequests(Start(base, userMessage), step, fuel);
  }

  // ---- pairing of what is stored ----

  /** Every turn that is taken satisfies ok. */
  ghost predicate Each(st: RunState, step: RunState -> RunState, ok: RunState -> bool, fuel: nat)
    decreases fuel
  {
    fuel > 0 && st.status == Running ==> ok(st) && Each(step(st), step, ok, fuel - 1)
  }

  /** The batch of the turn that the world takes in this state is not interrupted. */
  ghost function Uninterrupted(env: nat -> Turn, cfg: Config): RunState -> bool {
    (st: RunState) =>
      var turn := env(|st.requests|);
      turn.Answers? ==> !Interrupted(turn.resp.toolCalls, turn.results, 0, st.log, cfg)
  }

  ghost predicate DistinctIds(env: nat -> Turn) {
    forall n: nat :: env(n).Answers? ==> Distinct(CallIds(env(n).resp.toolCalls))
  }

  ghost predicate PendingIff(step: RunState -> RunState, ok: RunState -> bool) {
    forall s: RunState :: WellPaired(step(s).pending) <==> WellPaired(s.pending) && ok(s)
  }

  lemma {:induction false} PendingRun(st: RunState, step: RunState -> RunState, ok: RunState -> bool, fuel: nat)
    requires PendingIff(step, ok)
    ensures WellPaired(Run(st, step, fuel).pending) <==> WellPaired(st.pending) && Each(st, step, ok, fuel)
    decreases fuel
  {
    if fuel > 0 && st.status == Running {
      PendingRun(step(st), step, ok, fuel - 1);
    }
  }

  lemma StepPending(st: RunState, turn: Turn, cfg: Config)
    requires turn.Answers? ==> Distinct(CallIds(turn.resp.toolCalls))
    ensures WellPaired(Step(st, turn, cfg).pending)
      <==> WellPaired(st.pending) && (turn.Answers? ==> !Interrupted(turn.resp.toolCalls, turn.results, 0, st.log, cfg))
  {
    if turn.Answers? {
      StepParts(st, turn, cfg);
      WellPairedConcat(st.pending, Added(st.log, turn, cfg));
      if turn.resp.toolCalls != [] {
        BatchPaired(turn.resp, turn.results, st.log, cfg);
      }
    }
  }

  /** What a run leaves to be stored is well paired exactly when the detector never spoke up
      before the last call of a batch, given that each answer has distinct call ids. */
  lemma PendingPaired(messages: seq<Message>, userMessage: string, env: nat -> Turn, fuel: nat, cfg: Config)
    requires DistinctIds(env)
    ensures WellPaired(Run(Start(messages, userMessage), Turning(env, cfg), fuel).pending)
      <==> Each(Start(messages, userMessage), Turning(env, cfg), Uninterrupted(env, cfg), fuel)
  {
    var step: RunState -> RunState, ok: RunState -> bool := Turning(env, cfg), Uninterrupted(env, cfg);
    forall s: RunState ensures WellPaired(step(s).pending) <==> WellPaired(s.pending) && ok(s) {
      StepPending(s, env(|s.requests|), cfg);
    }
    WellPairedSingle(Plain(User, userMessage));
    PendingRun(Start(messages, userMessage), step, ok, fuel);
  }

  // ---- few distinct calls make a short run ----

  /** While a run goes on the detector was never critical; when it stopped, not before the
      last pair. */
  ghost predicate Guarded(verdict: seq<Pair> -> Level, st: RunState) {
    NeverCriticalBefore(verdict, st.log) && (st.status == Running ==> Harmless(verdict, st.log))
  }

  lemma {:induction false} BatchGuarded(calls: seq<ToolCall>, results: seq<string>, i: nat, log: seq<Pair>, cfg: Config)
    requires i <= |calls| && Harmless(cfg.verdict, log)
    ensures var batch := RunBatch(calls, results, i, log, cfg);
      NeverCriticalBefore(cfg.verdict, batch.log) && (batch.stop == None ==> Harmless(cfg.verdict, batch.log))
    decreases |calls| - i
  {
    if i < |calls| {
      var log' := Logged(calls[i], ResultText(results, i), log, cfg);
      if cfg.verdict(log') != Critical {
        BatchGuarded(calls, results, i + 1, log', cfg);
      }
    }
  }

  lemma StepGuarded(st: RunState, turn: Turn, cfg: Config)
    requires Guarded(cfg.verdict, st) && st.status == Running
    ensures Guarded(cfg.verdict, Step(st, turn, cfg))
  {
    if turn.Answers? {
      BatchGuarded(turn.resp.toolCalls, turn.results, 0, st.log, cfg);
    }
  }

  /** A run whose calls make at most k distinct (call, result) pairs, k at most 7, records at
      most 4k+1 calls, however many iterations it may take. */
  lemma FewPairsShortRun(base: seq<Message>, userMessage: string, env: nat -> Turn, fuel: nat, cfg: Config, k: nat)
    requires Standard(cfg)
    requires |Elements(Run(Start(base, userMessage), Turning(env, cfg), fuel).log)| <= k <= 7
    ensures |Run(Start(base, userMessage), Turning(env, cfg), fuel).log| <= 4 * k + 1
  {
    var inv: RunState -> bool := (s: RunState) => Guarded(cfg.verdict, s);
    var step: RunState -> RunState := Turning(env, cfg);
    forall s: RunState | inv(s) && s.status == Running ensures inv(step(s)) {
      StepGuarded(s, env(|s.requests|), cfg);
    }
    RunInvariant(Start(base, userMessage), step, inv, fuel);
    LoopBound(Run(Start(base, userMessage), step, fuel).log, k);
  }

  // ---- the loop itself ----

  /** Records one executed call and asks the detector about it. */
  method Observe(detector: ToolLoopState, tc: ToolCall, text: string, cfg: Config) returns (level: Level, message: string)
    requires detector.Valid() && Standard(cfg)
    requires detector.hashCall == cfg.hashCall && detector.hashResult == cfg.hashResult && detector.phrase == cfg.phrase
    modifies detector
    ensures detector.Valid() && detector.log == Logged(tc, text, old(detector.log), cfg)
    ensures level == cfg.verdict(detector.log)
    ensures level != Quiet ==> message == cfg.phrase(level, tc.name, cfg.count(detector.log))
  {
    var argsHash := detector.RecordCall(tc.name, tc.arguments);
    detector.RecordResult(argsHash, text);
    level, message := detector.Detect(tc.name, argsHash);
    DetectCountsPair(detector.log);
  }

  /** The whole batch, given what was said by the calls before i and whether they stopped it. */
  function Left(calls: seq<ToolCall>, results: seq<string>, i: nat, log: seq<Pair>, cfg: Config, said: seq<Message>, stop: Option<string>): Batch
    requires i <= |calls|
  {
    if stop.Some? then Batch(said, log, stop) else Prepend(said, RunBatch(calls, results, i, log, cfg))
  }

  /** One call of a batch: its result, and the warning or the stop that the detector asks
      for. */
  method ExecuteCall(detector: ToolLoopState, calls: seq<ToolCall>, results: seq<string>, i: nat, cfg: Config,
                     said: seq<Message>, ghost whole: Batch)
      returns (more: seq<Message>, stop: Option<string>)
    requires detector.Valid() && Standard(cfg) && i < |calls|
    requires detector.hashCall == cfg.hashCall && detector.hashResult == cfg.hashResult && detector.phrase == cfg.phrase
    requires whole == Left(calls, results, i, detector.log, cfg, said, None)
    modifies detector
    ensures detector.Valid() && whole == Left(calls, results, i + 1, detector.log, cfg, more, stop)
  {
    var tc, text := calls[i], ResultText(results, i);
    BatchStep(calls, results, i, detector.log, cfg, said);
    var level, msg := Observe(detector, tc, text, cfg);
    more, stop := said + [ToolResult(tc.id, text)], None;
    if level == Critical {
      stop := Some(msg);
    } else if level == Warning {
      more := more + [Plain(User, msg)];
    }
  }

  /** Runs the calls of one answer and feeds the detector. A single call and a parallel
      batch differ only in when the tools run: results are used in call order. */
  method ExecuteBatch(detector: ToolLoopState, calls: seq<ToolCall>, results: seq<string>, cfg: Config)
      returns (said: seq<Message>, stop: Option<string>)
    requires detector.Valid() && Standard(cfg)
    requires detector.hashCall == cfg.hashCall && detector.hashResult == cfg.hashResult && detector.phrase == cfg.phrase
    modifies detector
    ensures detector.Valid()
    ensures Batch(said, detector.log, stop) == RunBatch(calls, results, 0, old(detector.log), cfg)
  {
    said, stop := [], None;
    ghost var whole := RunBatch(calls, results, 0, detector.log, cfg);
    assert [] + whole.messages == whole.messages;
    var i := 0;
    while i < |calls| && stop == None
      invariant i <= |calls| && detector.Valid()
      invariant whole == Left(calls, results, i, detector.log, cfg, said, stop)
    {
      said, stop := ExecuteCall(detector, calls, results, i, cfg, said, whole);
      i := i + 1;
    }
    EmptyBatch(calls, results, i, detector.log, cfg, said, stop);
  }

  lemma EmptyBatch(calls: seq<ToolCall>, results: seq<string>, i: nat, log: seq<Pair>, cfg: Config, said: seq<Message>, stop: Option<string>)
    requires i <= |calls| && (i == |calls| || stop.Some?)
    ensures Left(calls, results, i, log, cfg, said, stop) == Batch(said, log, stop)
  {
    assert said + [] == said;
  }

  lemma BatchStep(calls: seq<ToolCall>, results: seq<string>, i: nat, log: seq<Pair>, cfg: Config, said: seq<Message>)
    requires i < |calls|
    ensures var log' := Logged(calls[i], ResultText(results, i), log, cfg);
      var result := [ToolResult(calls[i].id, ResultText(results, i))];
      var notice := cfg.phrase(cfg.verdict(log'), calls[i].name, cfg.count(log'));
      Prepend(said, RunBatch(calls, results, i, log, cfg)) == match cfg.verdict(log')
        case Critical => Batch(said + result, log', Some(notice))
        case Warning => Prepend(said + result + [Plain(User, notice)], RunBatch(calls, results, i + 1, log', cfg))
        case Quiet => Prepend(said + result, RunBatch(calls, results, i + 1, log', cfg))
  {
    var log' := Logged(calls[i], ResultText(results, i), log, cfg);
    var result := [ToolResult(calls[i].id, ResultText(results, i))];
    var notice := [Plain(User, cfg.phrase(cfg.verdict(log'), calls[i].name, cfg.count(log')))];
    var rest := RunBatch(calls, results, i + 1, log', cfg);
    if cfg.verdict(log') == Warning {
      assert RunBatch(calls, results, i, log, cfg) == Prepend(result + notice, rest);
      PrependAssoc(said, result + notice, rest);
      ConcatAssoc(said, result, notice);
    } else if cfg.verdict(log') == Quiet {
      assert RunBatch(calls, results, i, log, cfg) == Prepend(result, rest);
      PrependAssoc(said, result, rest);
    }
  }
}
