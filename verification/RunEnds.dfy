/** What a batch of calls says and logs, call by call, and how a run ends: told by the script
    of answers and the detector's verdicts alone. */
module RunEnds {
  import opened Messages
  import opened Sequences
  import opened ToolLoop
  import opened AgentLoop
  import opened Transcript
  import opened Wrappers

  // ---- one batch, call by call ----

  /** The log once the first k calls of a batch have been recorded. */
  function LogAfter(calls: seq<ToolCall>, results: seq<string>, log: seq<Pair>, k: nat, cfg: Config): (r: seq<Pair>)
    requires k <= |calls|
    ensures |r| == |log| + k
  {
    log + seq(k, j requires 0 <= j < k => Pair(cfg.hashCall(calls[j].name, calls[j].arguments), cfg.hashResult(ResultText(results, j))))
  }

  /** How often the last pair of a log stands among its last thirty. */
  function Repeats(log: seq<Pair>): nat {
    |set i: nat | i < |log| <= i + 30 && log[i] == log[|log| - 1]|
  }

  /** The detector's verdict on call j: critical from five repeats on, a warning from three. */
  function LevelAt(calls: seq<ToolCall>, results: seq<string>, log: seq<Pair>, j: nat, cfg: Config): Level
    requires j < |calls|
  {
    var n := Repeats(LogAfter(calls, results, log, j + 1, cfg));
    if n >= 5 then Critical else if n >= 3 then Warning else Quiet
  }

  function NoticeAt(calls: seq<ToolCall>, results: seq<string>, log: seq<Pair>, j: nat, cfg: Config): string
    requires j < |calls|
  {
    cfg.phrase(LevelAt(calls, results, log, j, cfg), calls[j].name, Repeats(LogAfter(calls, results, log, j + 1, cfg)))
  }

  function Places(s: seq<Pair>, p: Pair): set<nat> {
    set i: nat | i < |s| && s[i] == p
  }

  lemma {:induction false} PlacesCount(s: seq<Pair>, p: Pair)
    ensures |Places(s, p)| == multiset(s)[p]
  {
    if s == [] {
      assert Places(s, p) == {};
    } else {
      var init, n := Init(s), |s| - 1;
      PlacesCount(init, p);
      InitLast(s);
      assert Places(s, p) == if s[n] == p then Places(init, p) + {n} else Places(init, p);
    }
  }

  lemma {:induction false} ShiftCount(a: set<nat>, b: set<nat>, k: nat)
    requires forall i: nat :: i in a <==> i + k in b
    requires forall i: nat :: i in b ==> i >= k
    ensures |a| == |b|
    decreases a
  {
    if a == {} {
      assert forall i: nat :: i in b ==> i - k in a;
    } else {
      var i :| i in a;
      ShiftCount(a - {i}, b - {i + k}, k);
    }
  }

  lemma RepeatsAre(log: seq<Pair>)
    requires log != []
    ensures Repeats(log) == RepeatCount(log)
  {
    var last, k: nat := log[|log| - 1], if |log| <= 30 then 0 else |log| - 30;
    var all := set i: nat | i < |log| <= i + 30 && log[i] == log[|log| - 1];
    assert Recent(log) == log[k..];
    PlacesCount(log[k..], last);
    ShiftCount(Places(log[k..], last), all, k);
  }

  lemma StandardLevel(calls: seq<ToolCall>, results: seq<string>, log: seq<Pair>, j: nat, cfg: Config)
    requires j < |calls| && Standard(cfg)
    ensures var now := LogAfter(calls, results, log, j + 1, cfg);
      cfg.verdict(now) == LevelAt(calls, results, log, j, cfg) && cfg.count(now) == Repeats(now)
  {
    RepeatsAre(LogAfter(calls, results, log, j + 1, cfg));
  }

  /** What follows call j: its result under its id, and then the warning if there is one. */
  function Reply(calls: seq<ToolCall>, results: seq<string>, log: seq<Pair>, j: nat, cfg: Config): seq<Message>
    requires j < |calls|
  {
    [Message(Tool, ResultText(results, j), [], calls[j].id)]
    + if LevelAt(calls, results, log, j, cfg) == Warning then [Message(User, NoticeAt(calls, results, log, j, cfg), [], "")] else []
  }

  function Replies(calls: seq<ToolCall>, results: seq<string>, log: seq<Pair>, k: nat, cfg: Config): seq<Message>
    requires k <= |calls|
  {
    if k == 0 then [] else Replies(calls, results, log, k - 1, cfg) + Reply(calls, results, log, k - 1, cfg)
  }

  /** Of the first k calls none is critical. */
  ghost predicate Calm(calls: seq<ToolCall>, results: seq<string>, log: seq<Pair>, k: nat, cfg: Config)
    requires k <= |calls|
  {
    forall j: nat :: j < k ==> LevelAt(calls, results, log, j, cfg) != Critical
  }

  /** The batch ran its first m calls: all of them, or up to the first critical one. */
  ghost predicate RanTo(calls: seq<ToolCall>, results: seq<string>, log: seq<Pair>, m: nat, cfg: Config, b: Batch) {
    && m <= |calls|
    && b.messages == Replies(calls, results, log, m, cfg)
    && b.log == LogAfter(calls, results, log, m, cfg)
    && (b.stop == None ==> m == |calls| && Calm(calls, results, log, m, cfg))
    && (b.stop.Some? ==>
          && m > 0 && Calm(calls, results, log, m - 1, cfg)
          && LevelAt(calls, results, log, m - 1, cfg) == Critical
          && b.stop.value == NoticeAt(calls, results, log, m - 1, cfg))
  }

  lemma LogAfterNone(calls: seq<ToolCall>, results: seq<string>, log: seq<Pair>, cfg: Config)
    ensures LogAfter(calls, results, log, 0, cfg) == log
  {
  }

  lemma LogAfterOne(calls: seq<ToolCall>, results: seq<string>, log: seq<Pair>, i: nat, cfg: Config)
    requires i < |calls|
    ensures LogAfter(calls, results, log, i + 1, cfg) == Logged(calls[i], ResultText(results, i), LogAfter(calls, results, log, i, cfg), cfg)
  {
  }

  lemma OneCall(calls: seq<ToolCall>, results: seq<string>, log: seq<Pair>, i: nat, cfg: Config)
    requires Standard(cfg) && i < |calls|
    ensures var sofar, now := Replies(calls, results, log, i, cfg), LogAfter(calls, results, log, i, cfg);
      var more, next := Replies(calls, results, log, i + 1, cfg), LogAfter(calls, results, log, i + 1, cfg);
      Prepend(sofar, RunBatch(calls, results, i, now, cfg))
      == if LevelAt(calls, results, log, i, cfg) == Critical then Batch(more, next, Some(NoticeAt(calls, results, log, i, cfg)))
         else Prepend(more, RunBatch(calls, results, i + 1, next, cfg))
  {
    LogAfterOne(calls, results, log, i, cfg);
    StandardLevel(calls, results, log, i, cfg);
    BatchStep(calls, results, i, LogAfter(calls, results, log, i, cfg), cfg, Replies(calls, results, log, i, cfg));
    ReplyIs(calls, results, log, i, cfg);
  }

  lemma CalmMore(calls: seq<ToolCall>, results: seq<string>, log: seq<Pair>, i: nat, cfg: Config)
    requires i < |calls| && Calm(calls, results, log, i, cfg) && LevelAt(calls, results, log, i, cfg) != Critical
    ensures Calm(calls, results, log, i + 1, cfg)
  {
  }

  lemma RanAll(calls: seq<ToolCall>, results: seq<string>, log: seq<Pair>, cfg: Config, b: Batch)
    requires Calm(calls, results, log, |calls|, cfg)
    requires b == Prepend(Replies(calls, results, log, |calls|, cfg),
                          RunBatch(calls, results, |calls|, LogAfter(calls, results, log, |calls|, cfg), cfg))
    ensures RanTo(calls, results, log, |calls|, cfg, b)
  {
    var said := Replies(calls, results, log, |calls|, cfg);
    assert said + [] == said;
  }

  lemma RanUntil(calls: seq<ToolCall>, results: seq<string>, log: seq<Pair>, i: nat, cfg: Config, b: Batch)
    requires i < |calls| && Calm(calls, results, log, i, cfg) && LevelAt(calls, results, log, i, cfg) == Critical
    requires b == Batch(Replies(calls, results, log, i + 1, cfg), LogAfter(calls, results, log, i + 1, cfg), Some(NoticeAt(calls, results, log, i, cfg)))
    ensures RanTo(calls, results, log, i + 1, cfg, b)
  {
  }

  /** The rest of a batch, once the first i calls have been calm. */
  lemma {:induction false} RestRuns(calls: seq<ToolCall>, results: seq<string>, log: seq<Pair>, i: nat, cfg: Config, b: Batch) returns (m: nat)
    requires Standard(cfg) && i <= |calls| && Calm(calls, results, log, i, cfg)
    requires b == Prepend(Replies(calls, results, log, i, cfg), RunBatch(calls, results, i, LogAfter(calls, results, log, i, cfg), cfg))
    ensures RanTo(calls, results, log, m, cfg, b)
    decreases |calls| - i
  {
    if i == |calls| {
      m := i;
      RanAll(calls, results, log, cfg, b);
    } else {
      OneCall(calls, results, log, i, cfg);
      if LevelAt(calls, results, log, i, cfg) == Critical {
        m := i + 1;
        RanUntil(calls, results, log, i, cfg, b);
      } else {
        CalmMore(calls, results, log, i, cfg);
        m := RestRuns(calls, results, log, i + 1, cfg, b);
      }
    }
  }

  lemma ReplyIs(calls: seq<ToolCall>, results: seq<string>, log: seq<Pair>, i: nat, cfg: Config)
    requires i < |calls|
    ensures var result := [ToolResult(calls[i].id, ResultText(results, i))];
      var notice := [Plain(User, NoticeAt(calls, results, log, i, cfg))];
      var sofar, next := Replies(calls, results, log, i, cfg), Replies(calls, results, log, i + 1, cfg);
      next == if LevelAt(calls, results, log, i, cfg) == Warning then sofar + result + notice else sofar + result
  {
    var sofar := Replies(calls, results, log, i, cfg);
    ConcatAssoc(sofar, [ToolResult(calls[i].id, ResultText(results, i))], [Plain(User, NoticeAt(calls, results, log, i, cfg))]);
    assert Reply(calls, results, log, i, cfg) == [ToolResult(calls[i].id, ResultText(results, i))]
      || LevelAt(calls, results, log, i, cfg) == Warning;
  }

  /** Every batch runs its calls in order, answers each under its id, warns where the detector
      warns, and stops at the first critical verdict and only there. */
  lemma BatchTold(calls: seq<ToolCall>, results: seq<string>, log: seq<Pair>, cfg: Config) returns (m: nat)
    requires Standard(cfg)
    ensures RanTo(calls, results, log, m, cfg, RunBatch(calls, results, 0, log, cfg))
  {
    LogAfterNone(calls, results, log, cfg);
    var b := RunBatch(calls, results, 0, log, cfg);
    assert [] + b.messages == b.messages;
    m := RestRuns(calls, results, log, 0, cfg, b);
  }

  // ---- turn by turn ----

  /** The conversation after a turn: nothing more when the call failed or asked for no tools,
      and otherwise the assistant's message and what its calls gave. */
  ghost predicate Continues(turn: Turn, log: seq<Pair>, cfg: Config, said: seq<Message>, logged: seq<Pair>) {
    match turn
    case CallFails => said == [] && logged == log
    case Answers(resp, results, _) =>
      if resp.toolCalls == [] then said == [] && logged == log
      else exists m: nat, stop ::
        && m <= |resp.toolCalls|
        && RanTo(resp.toolCalls, results, log, m, cfg, Batch(Replies(resp.toolCalls, results, log, m, cfg), logged, stop))
        && said == [Message(Assistant, resp.content, resp.toolCalls, "")] + Replies(resp.toolCalls, results, log, m, cfg)
  }

  lemma TurnTold(turn: Turn, log: seq<Pair>, cfg: Config)
    requires Standard(cfg)
    ensures Continues(turn, log, cfg, Added(log, turn, cfg),
                      if turn.CallFails? then log else RunBatch(turn.resp.toolCalls, turn.results, 0, log, cfg).log)
  {
    if turn.Answers? && turn.resp.toolCalls != [] {
      var m := BatchTold(turn.resp.toolCalls, turn.results, log, cfg);
      var b := RunBatch(turn.resp.toolCalls, turn.results, 0, log, cfg);
      assert b == Batch(Replies(turn.resp.toolCalls, turn.results, log, m, cfg), b.log, b.stop);
    }
  }

  /** What is said and logged before turn i + 1 is what was before turn i and what it adds. */
  ghost predicate ToldAt(env: nat -> Turn, cfg: Config, said: nat -> seq<Message>, logs: nat -> seq<Pair>, i: nat) {
    said(i) <= said(i + 1) && Continues(env(i), logs(i), cfg, said(i + 1)[|said(i)|..], logs(i + 1))
  }

  /** What is said and logged before each turn, from turn to turn. */
  ghost predicate ToldBy(env: nat -> Turn, cfg: Config, said: nat -> seq<Message>, logs: nat -> seq<Pair>) {
    said(0) == [] && logs(0) == [] && forall i: nat :: ToldAt(env, cfg, said, logs, i)
  }

  ghost function Saying(env: nat -> Turn, cfg: Config): nat -> seq<Message> {
    (n: nat) => SaidBy(env, cfg, n)
  }

  ghost function Logging(env: nat -> Turn, cfg: Config): nat -> seq<Pair> {
    (n: nat) => LogOf(env, cfg, n)
  }

  lemma NextTold(env: nat -> Turn, cfg: Config, i: nat)
    requires Standard(cfg)
    ensures SaidBy(env, cfg, i) <= SaidBy(env, cfg, i + 1)
    ensures Continues(env(i), LogOf(env, cfg, i), cfg, SaidBy(env, cfg, i + 1)[|SaidBy(env, cfg, i)|..], LogOf(env, cfg, i + 1))
  {
    TurnTold(env(i), LogOf(env, cfg, i), cfg);
    var said, more := SaidBy(env, cfg, i), Added(LogOf(env, cfg, i), env(i), cfg);
    assert (said + more)[|said|..] == more;
  }

  lemma EachTold(env: nat -> Turn, cfg: Config, said: nat -> seq<Message>, logs: nat -> seq<Pair>, i: nat)
    requires Standard(cfg) && said(i) == SaidBy(env, cfg, i) && said(i + 1) == SaidBy(env, cfg, i + 1)
    requires logs(i) == LogOf(env, cfg, i) && logs(i + 1) == LogOf(env, cfg, i + 1)
    ensures ToldAt(env, cfg, said, logs, i)
  {
    NextTold(env, cfg, i);
  }

  /** The transcript is told so. */
  lemma TranscriptTold(env: nat -> Turn, cfg: Config)
    requires Standard(cfg)
    ensures ToldBy(env, cfg, Saying(env, cfg), Logging(env, cfg))
  {
    var said: nat -> seq<Message>, logs: nat -> seq<Pair> := Saying(env, cfg), Logging(env, cfg);
    forall i: nat ensures ToldAt(env, cfg, said, logs, i) {
      EachTold(env, cfg, said, logs, i);
    }
  }

  // ---- how a run ends ----

  /** The run goes on after this turn: it asks for tools and no call of it is critical. */
  ghost predicate GoesOn(turn: Turn, log: seq<Pair>, cfg: Config) {
    turn.Answers? && turn.resp.toolCalls != [] && Calm(turn.resp.toolCalls, turn.results, log, |turn.resp.toolCalls|, cfg)
  }

  /** The first critical call of a batch. */
  ghost predicate FirstCritical(calls: seq<ToolCall>, results: seq<string>, log: seq<Pair>, j: nat, cfg: Config) {
    j < |calls| && Calm(calls, results, log, j, cfg) && LevelAt(calls, results, log, j, cfg) == Critical
  }

  /** How the run stands after a turn: failed with the call; finished with the content of an
      answer that asks for no tools, or with the notice on the first critical call; and
      otherwise running. */
  ghost predicate StandsAfter(turn: Turn, log: seq<Pair>, cfg: Config, status: Status) {
    match turn
    case CallFails => status == Failed
    case Answers(resp, results, _) =>
      if resp.toolCalls == [] then status == Finished(resp.content)
      else
        && (GoesOn(turn, log, cfg) ==> status == Running)
        && (forall j: nat :: FirstCritical(resp.toolCalls, results, log, j, cfg) ==>
              status == Finished(cfg.phrase(Critical, resp.toolCalls[j].name, Repeats(LogAfter(resp.toolCalls, results, log, j + 1, cfg)))))
        && (GoesOn(turn, log, cfg) || exists j: nat :: FirstCritical(resp.toolCalls, results, log, j, cfg))
  }

  lemma BatchStands(turn: Turn, log: seq<Pair>, cfg: Config, m: nat, b: Batch, status: Status)
    requires turn.Answers? && turn.resp.toolCalls != [] && RanTo(turn.resp.toolCalls, turn.results, log, m, cfg, b)
    requires status == if b.stop.Some? then Finished(b.stop.value) else Running
    ensures StandsAfter(turn, log, cfg, status)
  {
    if b.stop.Some? {
      assert FirstCritical(turn.resp.toolCalls, turn.results, log, m - 1, cfg);
    }
  }

  lemma StepStands(st: RunState, turn: Turn, cfg: Config)
    requires Standard(cfg)
    ensures StandsAfter(turn, st.log, cfg, Step(st, turn, cfg).status)
  {
    if turn.Answers? && turn.resp.toolCalls != [] {
      var m := BatchTold(turn.resp.toolCalls, turn.results, st.log, cfg);
      BatchStands(turn, st.log, cfg, m, RunBatch(turn.resp.toolCalls, turn.results, 0, st.log, cfg), Step(st, turn, cfg).status);
    }
  }

  /** After n turns: every turn but the last went on, and the last one says how the run
      stands. */
  ghost predicate StandsAt(goes: nat -> bool, stands: (nat, Status) -> bool, n: nat, status: Status) {
    && (forall i: nat :: i + 1 < n ==> goes(i))
    && (if n == 0 then status == Running else stands(n - 1, status))
  }

  ghost function GoingOn(env: nat -> Turn, cfg: Config): nat -> bool {
    (i: nat) => GoesOn(env(i), LogOf(env, cfg, i), cfg)
  }

  ghost function Standing(env: nat -> Turn, cfg: Config): (nat, Status) -> bool {
    (i: nat, status: Status) => StandsAfter(env(i), LogOf(env, cfg, i), cfg, status)
  }

  /** A run of at most fuel turns ends so: still running only when it has used them up. */
  ghost predicate Ended(env: nat -> Turn, cfg: Config, n: nat, fuel: nat, status: Status) {
    && n <= fuel && (status == Running ==> n == fuel)
    && StandsAt(GoingOn(env, cfg), Standing(env, cfg), n, status)
  }

  lemma RunningGoesOn(turn: Turn, log: seq<Pair>, cfg: Config, status: Status)
    requires StandsAfter(turn, log, cfg, status)
    ensures status == Running <==> GoesOn(turn, log, cfg)
  {
  }

  lemma StandsOnce(turn: Turn, log: seq<Pair>, cfg: Config, a: Status, b: Status)
    requires StandsAfter(turn, log, cfg, a) && StandsAfter(turn, log, cfg, b)
    ensures a == b
  {
  }

  ghost predicate Consistent(goes: nat -> bool, stands: (nat, Status) -> bool) {
    && (forall i: nat, s: Status :: stands(i, s) ==> (s == Running <==> goes(i)))
    && (forall i: nat, a: Status, b: Status :: stands(i, a) && stands(i, b) ==> a == b)
  }

  lemma TurnsConsistent(env: nat -> Turn, cfg: Config)
    ensures Consistent(GoingOn(env, cfg), Standing(env, cfg))
  {
    forall i: nat, s: Status | Standing(env, cfg)(i, s) ensures s == Running <==> GoingOn(env, cfg)(i) {
      RunningGoesOn(env(i), LogOf(env, cfg, i), cfg, s);
    }
    forall i: nat, a: Status, b: Status | Standing(env, cfg)(i, a) && Standing(env, cfg)(i, b) ensures a == b {
      StandsOnce(env(i), LogOf(env, cfg, i), cfg, a, b);
    }
  }

  lemma StandsNext(goes: nat -> bool, stands: (nat, Status) -> bool, n: nat, next: Status)
    requires Consistent(goes, stands) && StandsAt(goes, stands, n, Running) && stands(n, next)
    ensures StandsAt(goes, stands, n + 1, next)
  {
  }

  lemma StepTold(env: nat -> Turn, cfg: Config, st: RunState)
    requires Standard(cfg) && st.log == LogOf(env, cfg, |st.requests|)
    ensures var n, next := |st.requests|, Step(st, env(|st.requests|), cfg);
      |next.requests| == n + 1 && next.log == LogOf(env, cfg, n + 1) && StandsAfter(env(n), LogOf(env, cfg, n), cfg, next.status)
  {
    var n := |st.requests|;
    StepAsks(st, env(n), cfg);
    StepStands(st, env(n), cfg);
    if env(n).Answers? { StepParts(st, env(n), cfg); }
  }

  lemma StepEnds(env: nat -> Turn, cfg: Config, st: RunState, next: RunState)
    requires Standard(cfg) && st.log == LogOf(env, cfg, |st.requests|) && st.status == Running
    requires StandsAt(GoingOn(env, cfg), Standing(env, cfg), |st.requests|, Running)
    requires next == Turning(env, cfg)(st)
    ensures next.log == LogOf(env, cfg, |next.requests|)
    ensures StandsAt(GoingOn(env, cfg), Standing(env, cfg), |next.requests|, next.status)
  {
    StepTold(env, cfg, st);
    TurnsConsistent(env, cfg);
    StandsNext(GoingOn(env, cfg), Standing(env, cfg), |st.requests|, next.status);
  }

  lemma {:induction false} RunUsesUp(st: RunState, step: RunState -> RunState, fuel: nat)
    requires Asks(step)
    ensures var end := Run(st, step, fuel);
      end.status == Running ==> |end.requests| == |st.requests| + fuel
    decreases fuel
  {
    if fuel > 0 && st.status == Running { RunUsesUp(step(st), step, fuel - 1); }
  }

  /** How every run ends. */
  lemma EveryRunEnds(base: seq<Message>, userMessage: string, env: nat -> Turn, fuel: nat, cfg: Config)
    requires Standard(cfg)
    ensures var end := Run(Start(base, userMessage), Turning(env, cfg), fuel);
      Ended(env, cfg, |end.requests|, fuel, end.status)
  {
    var inv: RunState -> bool := (s: RunState) =>
      s.log == LogOf(env, cfg, |s.requests|) && StandsAt(GoingOn(env, cfg), Standing(env, cfg), |s.requests|, s.status);
    var step: RunState -> RunState := Turning(env, cfg);
    forall s: RunState | inv(s) && s.status == Running ensures inv(step(s)) {
      StepEnds(env, cfg, s, step(s));
    }
    var start := Start(base, userMessage);
    RunInvariant(start, step, inv, fuel);
    TurningAsks(env, cfg);
    RunKeepsRequests(start, step, fuel);
    RunUsesUp(start, step, fuel);
  }

  lemma EndsOnce(goes: nat -> bool, stands: (nat, Status) -> bool, fuel: nat, n: nat, a: Status, m: nat, b: Status)
    requires Consistent(goes, stands) && StandsAt(goes, stands, n, a) && StandsAt(goes, stands, m, b)
    requires n <= m <= fuel && (a == Running ==> n == fuel)
    ensures n == m && a == b
  {
  }

  /** The script determines after how many turns a run ends, and how, whatever the history. */
  lemma EndUnique(env: nat -> Turn, cfg: Config, fuel: nat, n: nat, a: Status, m: nat, b: Status)
    requires Ended(env, cfg, n, fuel, a) && Ended(env, cfg, m, fuel, b)
    ensures n == m && a == b
  {
    TurnsConsistent(env, cfg);
    if n <= m {
      EndsOnce(GoingOn(env, cfg), Standing(env, cfg), fuel, n, a, m, b);
    } else {
      EndsOnce(GoingOn(env, cfg), Standing(env, cfg), fuel, m, b, n, a);
    }
  }
}
