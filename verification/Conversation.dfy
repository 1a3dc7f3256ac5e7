/** One run on a session: build the request from the stored history, loop, and store what
    was said only when the run completes. */
module Conversation {
  import opened Messages
  import opened ToolLoop
  import opened AgentLoop
  import opened Transcript
  import opened RunEnds
  import opened Compaction
  import opened Pipeline
  import opened Sessions
  import opened Sequences
  import opened Strings
  import opened Wrappers
  import Pruning

  datatype RunRequest = RunRequest(
    key: string,
    message: string,
    systemPrompt: string,
    summaryPrefix: string,
    memoryBlock: string,
    historyLimit: int)

  datatype Outcome = Error | Completed(content: string, iterations: nat, usage: Usage)

  ghost function Fuel(cfg: Config): nat {
    if cfg.maxIterations <= 0 then 0 else cfg.maxIterations
  }

  /** The check after each answer: compact once, when the prompt has filled its share of the
      context window. */
  method CompactWhenDue(ghost st: RunState, messages0: seq<Message>, compacted0: bool, turn: Turn, cfg: Config)
      returns (messages: seq<Message>, compacted: bool)
    requires turn.Answers? && st.messages == messages0 && st.compacted == compacted0
    ensures messages == AfterCompaction(st, turn, cfg)
    ensures compacted == (st.compacted || CompactionDue(st, turn.resp, cfg))
  {
    messages, compacted := messages0, compacted0;
    var resp := turn.resp;
    if !compacted && cfg.contextWindow > 0 && resp.usage.Some? {
      var threshold := (cfg.contextWindow as real * cfg.maxHistoryShare).Floor;
      if resp.usage.value.prompt >= threshold {
        compacted := true;
        var out := CompactMessagesInPlace(messages, turn.summary);
        CompactedUnique(messages, turn.summary, out, Compacted(messages, turn.summary));
        if out.Some? {
          messages := out.value;
        }
      }
    }
  }

  /** The prompt size and message count of the last answer that reported its usage. */
  function LastReport(env: nat -> Turn, requests: seq<seq<Message>>): Option<(int, nat)> {
    if requests == [] then None
    else
      var usage := TurnUsage(env(|requests| - 1));
      if usage.Some? then Some((usage.value.prompt, |Last(requests)|)) else LastReport(env, Init(requests))
  }

  /** It is that of the last turn that reported its usage. */
  lemma {:induction false} LastReportIs(env: nat -> Turn, requests: seq<seq<Message>>) returns (k: nat)
    ensures LastReport(env, requests).None? ==>
      forall i: nat :: i < |requests| && env(i).Answers? ==> env(i).resp.usage.None?
    ensures LastReport(env, requests).Some? ==>
      && k < |requests| && env(k).Answers? && env(k).resp.usage.Some?
      && LastReport(env, requests) == Some((env(k).resp.usage.value.prompt, |requests[k]|))
      && forall i: nat :: k < i < |requests| && env(i).Answers? ==> env(i).resp.usage.None?
  {
    k := 0;
    if requests != [] {
      if TurnUsage(env(|requests| - 1)).Some? {
        k := |requests| - 1;
      } else {
        k := LastReportIs(env, Init(requests));
      }
    }
  }

  lemma LastReportSnoc(env: nat -> Turn, requests: seq<seq<Message>>, messages: seq<Message>)
    ensures LastReport(env, requests + [messages]) ==
      var usage := TurnUsage(env(|requests|));
      if usage.Some? then Some((usage.value.prompt, |messages|)) else LastReport(env, requests)
  {
    assert Init(requests + [messages]) == requests;
  }

  /** One iteration: the body of the loop. */
  method TakeTurn(detector: ToolLoopState, messages0: seq<Message>, pending0: seq<Message>, requests0: seq<seq<Message>>,
      usage0: Usage, compacted0: bool, calibration0: Option<(int, nat)>, turn: Turn, cfg: Config, ghost st: RunState)
      returns (messages: seq<Message>, pending: seq<Message>, requests: seq<seq<Message>>, usage: Usage,
               compacted: bool, status: Status, calibration: Option<(int, nat)>)
    requires detector.Valid() && detector.hashCall == cfg.hashCall && detector.hashResult == cfg.hashResult && detector.phrase == cfg.phrase
    requires Standard(cfg)
    requires st == RunState(messages0, pending0, requests0, usage0, detector.log, compacted0, Running)
    modifies detector
    ensures detector.Valid() && requests == requests0 + [messages0]
    ensures RunState(messages, pending, requests, usage, detector.log, compacted, status) == Step(st, turn, cfg)
    ensures calibration == var usage := TurnUsage(turn);
      if usage.Some? then Some((usage.value.prompt, |messages0|)) else calibration0
  {
    messages, pending, requests, usage := messages0, pending0, requests0 + [messages0], usage0;
    compacted, status, calibration := compacted0, Running, calibration0;
    if turn.CallFails? {
      status := Failed;
      return;
    }
    var resp := turn.resp;
    if resp.usage.Some? {
      usage := Add(usage, resp.usage);
      calibration := Some((resp.usage.value.prompt, |messages|));
    }
    messages, compacted := CompactWhenDue(st, messages, compacted, turn, cfg);
    if |resp.toolCalls| == 0 {
      status := Finished(resp.content);
      return;
    }
    var said, stop := ExecuteBatch(detector, resp.toolCalls, turn.results, cfg);
    messages := messages + ([CallMessage(resp)] + said);
    pending := pending + ([CallMessage(resp)] + said);
    if stop.Some? {
      status := Finished(stop.value);
    }
  }

  /** The loop: it follows Run for at most maxIterations turns. calibration holds the prompt
      size and message count of the last answer that reported its usage. */
  method RunLoop(messages0: seq<Message>, userMessage: string, env: nat -> Turn, cfg: Config)
      returns (status: Status, pending: seq<Message>, requests: seq<seq<Message>>, usage: Usage,
               calibration: Option<(int, nat)>, ghost st: RunState)
    requires Standard(cfg)
    ensures status == st.status && pending == st.pending && requests == st.requests && usage == st.usage
    ensures st == Run(Start(messages0, userMessage), Turning(env, cfg), Fuel(cfg))
    ensures calibration == LastReport(env, requests)
  {
    ghost var rest: (RunState, nat) -> RunState := Remaining(env, cfg);
    RemainingIsRun(env, cfg);
    status, pending, requests, usage, calibration, st := Iterate(messages0, userMessage, env, cfg, rest);
  }

  /** Where the loop ends from a state with so many iterations left. */
  ghost function Remaining(env: nat -> Turn, cfg: Config): (RunState, nat) -> RunState {
    (st: RunState, fuel: nat) => Run(st, Turning(env, cfg), fuel)
  }

  /** rest tells where the loop ends, one turn at a time. */
  ghost predicate Advances(rest: (RunState, nat) -> RunState, env: nat -> Turn, cfg: Config) {
    && (forall st: RunState, fuel: nat :: fuel == 0 || st.status != Running ==> rest(st, fuel) == st)
    && (forall st: RunState, fuel: nat :: fuel > 0 && st.status == Running ==>
          rest(st, fuel) == rest(Step(st, env(|st.requests|), cfg), fuel - 1))
  }

  lemma RemainingIsRun(env: nat -> Turn, cfg: Config)
    ensures Advances(Remaining(env, cfg), env, cfg)
  {
  }

  method Iterate(messages0: seq<Message>, userMessage: string, env: nat -> Turn, cfg: Config,
      ghost rest: (RunState, nat) -> RunState)
      returns (status: Status, pending: seq<Message>, requests: seq<seq<Message>>, usage: Usage,
               calibration: Option<(int, nat)>, ghost st: RunState)
    requires Standard(cfg) && Advances(rest, env, cfg)
    ensures status == st.status && pending == st.pending && requests == st.requests && usage == st.usage
    ensures st == rest(Start(messages0, userMessage), Fuel(cfg))
    ensures calibration == LastReport(env, requests)
  {
    var messages := messages0;
    pending, requests, usage := [Plain(User, userMessage)], [], Usage(0, 0, 0);
    status := Running;
    var compacted := false;
    var detector := new ToolLoopState(cfg.hashCall, cfg.hashResult, cfg.phrase);
    calibration := None;
    st := Start(messages0, userMessage);
    ghost var goal := rest(st, Fuel(cfg));
    var iteration := 0;
    while iteration < cfg.maxIterations && status == Running
      invariant 0 <= iteration <= Fuel(cfg) && iteration == |requests|
      invariant detector.Valid() && fresh(detector)
      invariant detector.hashCall == cfg.hashCall && detector.hashResult == cfg.hashResult && detector.phrase == cfg.phrase
      invariant st == RunState(messages, pending, requests, usage, detector.log, compacted, status)
      invariant goal == rest(st, Fuel(cfg) - iteration) && calibration == LastReport(env, requests)
    {
      LastReportSnoc(env, requests, messages);
      ghost var before := st;
      st := Step(st, env(iteration), cfg);
      messages, pending, requests, usage, compacted, status, calibration :=
        TakeTurn(detector, messages, pending, requests, usage, compacted, calibration, env(iteration), cfg, before);
      iteration := iteration + 1;
    }
  }

  const PLACEHOLDER: string := "..."

  function Or(content: string, fallback: string): string {
    if content == "" then fallback else content
  }

  /** The text stored as the answer: cleaned, never empty. */
  function FinalContent(status: Status, cfg: Config): string {
    var content := cfg.clean(if status.Finished? then status.content else "");
    TrimSpace(Or(content, PLACEHOLDER))
  }

  /** The cleanup answers trimmed text. */
  ghost predicate CleansToTrimmed(cfg: Config) {
    forall s :: Trimmed(cfg.clean(s), IsSpace)
  }

  /** The answer of a run that ended so is its cleaned content, or three dots in its place:
      never empty. */
  ghost predicate IsAnswer(status: Status, cfg: Config, content: string) {
    var cleaned := cfg.clean(match status case Finished(c) => c case _ => "");
    content != "" && content == if cleaned == "" then "..." else cleaned
  }

  lemma FinalContentIs(status: Status, cfg: Config)
    requires CleansToTrimmed(cfg)
    ensures IsAnswer(status, cfg, FinalContent(status, cfg))
  {
    var cleaned := cfg.clean(if status.Finished? then status.content else "");
    OrStays(cleaned, PLACEHOLDER);
  }

  lemma OrStays(content: string, fallback: string)
    requires Trimmed(content, IsSpace) && fallback == "..."
    ensures TrimSpace(Or(content, fallback)) == Or(content, fallback)
  {
    assert !IsSpace(fallback[0]) && !IsSpace(fallback[2]);
    StaysTrimmed(Or(content, fallback), IsSpace);
  }

  lemma StaysTrimmed(s: string, p: char -> bool)
    requires Trimmed(s, p)
    ensures Trim(s, p) == s
  {
    TrimmedIsFixed(s, p);
  }

  method StorePending(store: SessionStore, key: string, pending: seq<Message>)
    requires pending != []
    modifies store
    ensures key in store.cache && SameElsewhere(old(store.cache), store.cache, key)
    ensures store.At(key) == old(store.At(key)).(messages := old(store.At(key)).messages + pending)
  {
    ghost var data := store.At(key);
    var i := 0;
    while i < |pending|
      invariant i <= |pending| && SameElsewhere(old(store.cache), store.cache, key)
      invariant store.At(key) == data.(messages := data.messages + pending[..i])
      invariant i > 0 ==> key in store.cache
    {
      assert pending[..i + 1] == pending[..i] + [pending[i]];
      ConcatAssoc(data.messages, pending[..i], [pending[i]]);
      store.AddMessage(key, pending[i]);
      i := i + 1;
    }
    assert pending[..|pending|] == pending;
  }

  /** messages is a request of this run for a session with this history and summary. */
  ghost predicate IsRequest(history: seq<Message>, summary: string, req: RunRequest, window: int, pruning: Pruning.Config,
      prepared: seq<Message>, messages: seq<Message>) {
    && Prepared(history, req.historyLimit, window, pruning, prepared)
    && messages == Assembled(req.systemPrompt, if summary == "" then "" else req.summaryPrefix + summary,
                             req.memoryBlock, prepared, req.message)
    && WellPaired(messages)
  }

  /** What a run reads from its session, which loads it. */
  method ReadSession(store: SessionStore, key: string) returns (history: seq<Message>, summary: string)
    modifies store
    ensures history == old(store.At(key)).messages && summary == old(store.At(key)).summary
    ensures SameElsewhere(old(store.cache), store.cache, key)
    ensures store.At(key) == old(store.At(key)) && (key in store.cache <==> old(store.Known(key)))
  {
    history := store.GetHistory(key);
    summary := store.GetSummary(key);
  }

  /** The request of a run, from what is stored. */
  method BuildRequest(history: seq<Message>, summary: string, req: RunRequest, window: int, pruning: Pruning.Config)
      returns (messages: seq<Message>, ghost prepared: seq<Message>)
    ensures IsRequest(history, summary, req, window, pruning, prepared, messages)
  {
    var summaryText := if summary == "" then "" else req.summaryPrefix + summary;
    messages, prepared := BuildMessages(history, req.systemPrompt, summaryText, req.memoryBlock, req.message, req.historyLimit, window, pruning);
  }

  /** The data of a session after a completed run. */
  function AfterRun(data: SessionData, pending: seq<Message>, content: string, usage: Usage): SessionData {
    data.(messages := data.messages + pending + [Plain(Assistant, content)],
          inputTokens := data.inputTokens + usage.prompt,
          outputTokens := data.outputTokens + usage.completion)
  }

  method StoreRun(store: SessionStore, key: string, pending: seq<Message>, content: string, usage: Usage)
    modifies store
    ensures key in store.cache && SameElsewhere(old(store.cache), store.cache, key)
    ensures store.At(key) == AfterRun(old(store.At(key)), pending, content, usage)
  {
    ConcatAssoc(store.At(key).messages, pending, [Plain(Assistant, content)]);
    StorePending(store, key, pending + [Plain(Assistant, content)]);
    store.AccumulateTokens(key, usage.prompt, usage.completion);
  }

  /** The data after the answers of a run have calibrated the token estimate: only a session
      that was there before the run is. */
  function CalibratedBy(data: SessionData, known: bool, report: Option<(int, nat)>): SessionData {
    if known && report.Some? then data.(lastPromptTokens := report.value.0, lastMessageCount := report.value.1) else data
  }

  /** How a run went: its requests and what it keeps are those of the transcript; all its
      requests are well paired exactly when its batches are clean. */
  ghost predicate Went(base: seq<Message>, userMessage: string, env: nat -> Turn, cfg: Config, st: RunState) {
    && st == Run(Start(base, userMessage), Turning(env, cfg), Fuel(cfg))
    && st.pending == [Plain(User, userMessage)] + SaidBy(env, cfg, |st.requests|)
    && SentAll(base, env, cfg, st.requests)
    && Ended(env, cfg, |st.requests|, Fuel(cfg), st.status)
    && st.usage == SumUsage(env, |st.requests|)
    && (AllPaired(st.requests) <==> EachOn(Start(base, userMessage), Turning(env, cfg), CleanTurn(env, cfg), Fuel(cfg)))
  }

  lemma RunWent(base: seq<Message>, userMessage: string, env: nat -> Turn, cfg: Config)
    requires WellPaired(base) && Standard(cfg)
    ensures Went(base, userMessage, env, cfg, Run(Start(base, userMessage), Turning(env, cfg), Fuel(cfg)))
  {
    RequestsPaired(base, userMessage, env, Fuel(cfg), cfg);
    RunTold(base, userMessage, env, Fuel(cfg), cfg);
    EveryRunEnds(base, userMessage, env, Fuel(cfg), cfg);
    UsageAddsUp(base, userMessage, env, Fuel(cfg), cfg);
  }

  /** The part of a run that does not touch the session any more. */
  method Converse(history: seq<Message>, summary: string, req: RunRequest, env: nat -> Turn, window: int, pruning: Pruning.Config, cfg: Config)
      returns (status: Status, pending: seq<Message>, iterations: nat, usage: Usage, calibration: Option<(int, nat)>,
               ghost prepared: seq<Message>, ghost initial: seq<Message>, ghost st: RunState)
    requires Standard(cfg)
    ensures IsRequest(history, summary, req, window, pruning, prepared, initial)
    ensures Went(initial, req.message, env, cfg, st)
    ensures status == st.status && pending == st.pending && iterations == |st.requests| && usage == st.usage
    ensures calibration == LastReport(env, st.requests)
  {
    var messages;
    messages, prepared := BuildRequest(history, summary, req, window, pruning);
    initial := messages;
    var requests;
    status, pending, requests, usage, calibration, st := RunLoop(messages, req.message, env, cfg);
    iterations := |requests|;
    RunWent(messages, req.message, env, cfg);
  }

  /** The part of a run that writes to the session, once the loop has ended. */
  method FinishRun(store: SessionStore, key: string, status: Status, pending: seq<Message>, iterations: nat, usage: Usage,
      calibration: Option<(int, nat)>, cfg: Config)
      returns (outcome: Outcome)
    requires CleansToTrimmed(cfg) && (key !in store.cache ==> !store.Known(key))
    modifies store
    ensures SameElsewhere(old(store.cache), store.cache, key)
    ensures outcome == if status == Failed then Error else Completed(FinalContent(status, cfg), iterations, usage)
    ensures store.At(key) ==
      var before := CalibratedBy(old(store.At(key)), old(store.Known(key)), calibration);
      if outcome.Error? then before else AfterRun(before, pending, outcome.content, usage)
  {
    if calibration.Some? {
      store.SetLastPromptTokens(key, calibration.value.0, calibration.value.1);
    }
    if status == Failed {
      return Error;
    }
    var content := FinalContent(status, cfg);
    StoreRun(store, key, pending, content, usage);
    outcome := Completed(content, iterations, usage);
  }

  /** What a run leaves of the data of its session, field by field. kept is what it appends. */
  ghost predicate Leaves(was: SessionData, now: SessionData, known: bool, kept: seq<Message>, input: int, output: int, report: Option<(int, nat)>) {
    && now.messages == was.messages + kept
    && now.inputTokens == was.inputTokens + input && now.outputTokens == was.outputTokens + output
    && now.summary == was.summary && now.compactionCount == was.compactionCount && now.memoryFlushAt == was.memoryFlushAt
    && (now.lastPromptTokens, now.lastMessageCount)
       == if known && report.Some? then report.value else (was.lastPromptTokens, was.lastMessageCount)
  }

  lemma RunLeaves(was: SessionData, known: bool, pending: seq<Message>, content: string, usage: Usage, report: Option<(int, nat)>)
    ensures Leaves(was, CalibratedBy(was, known, report), known, [], 0, 0, report)
    ensures Leaves(was, AfterRun(CalibratedBy(was, known, report), pending, content, usage), known,
                   pending + [Plain(Assistant, content)], usage.prompt, usage.completion, report)
  {
    ConcatAssoc(was.messages, pending, [Plain(Assistant, content)]);
    assert was.messages + [] == was.messages;
  }

  /** The outcome of a run that ended so. */
  ghost predicate Outcomes(status: Status, cfg: Config, n: nat, usage: Usage, outcome: Outcome) {
    match outcome
    case Error => status == Failed
    case Completed(content, iterations, used) =>
      status != Failed && IsAnswer(status, cfg, content) && iterations == n && used == usage
  }

  /** A run. st is where the loop ended. A failed run stores no message, only what its
      answers reported; a completed one appends the user's message, everything said in the
      turns taken and one non-empty assistant message, in order, whatever compaction did to
      the requests; other sessions are not touched. */
  method RunOnce(store: SessionStore, req: RunRequest, env: nat -> Turn, window: int, pruning: Pruning.Config, cfg: Config)
      returns (outcome: Outcome, ghost prepared: seq<Message>, ghost initial: seq<Message>, ghost st: RunState)
    requires Standard(cfg) && CleansToTrimmed(cfg)
    modifies store
    ensures var data := old(store.At(req.key));
      IsRequest(data.messages, data.summary, req, window, pruning, prepared, initial)
    ensures Went(initial, req.message, env, cfg, st)
    ensures SameElsewhere(old(store.cache), store.cache, req.key)
    ensures Outcomes(st.status, cfg, |st.requests|, st.usage, outcome)
    ensures Leaves(old(store.At(req.key)), store.At(req.key), old(store.Known(req.key)),
                   if outcome.Error? then []
                   else [Message(User, req.message, [], "")] + SaidBy(env, cfg, |st.requests|) + [Message(Assistant, outcome.content, [], "")],
                   if outcome.Error? then 0 else st.usage.prompt, if outcome.Error? then 0 else st.usage.completion,
                   LastReport(env, st.requests))
  {
    var history, summary := ReadSession(store, req.key);
    var status, pending, iterations, usage, calibration;
    status, pending, iterations, usage, calibration, prepared, initial, st := Converse(history, summary, req, env, window, pruning, cfg);
    ghost var was, known := store.At(req.key), store.Known(req.key);
    outcome := FinishRun(store, req.key, status, pending, iterations, usage, calibration, cfg);
    FinalContentIs(status, cfg);
    RunLeaves(was, known, pending, if outcome.Error? then "" else outcome.content, usage, calibration);
  }
}
