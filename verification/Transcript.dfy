/** The course of a run, told by the script of answers alone: what has been said, logged and
    sent before each turn, without the state of the loop. The loop is proved to follow it. */
module Transcript {
  import opened Messages
  import opened Sequences
  import opened Compaction
  import opened ToolLoop
  import opened AgentLoop
  import opened Wrappers

  /** The calls logged in the first n turns. */
  function LogOf(env: nat -> Turn, cfg: Config, n: nat): seq<Pair> {
    if n == 0 then []
    else if env(n - 1).CallFails? then LogOf(env, cfg, n - 1)
    else RunBatch(env(n - 1).resp.toolCalls, env(n - 1).results, 0, LogOf(env, cfg, n - 1), cfg).log
  }

  /** Everything said in the first n turns: the message of each batch of calls and what the
      batch adds behind it. Compaction plays no part in it. */
  function SaidBy(env: nat -> Turn, cfg: Config, n: nat): seq<Message> {
    if n == 0 then [] else SaidBy(env, cfg, n - 1) + Added(LogOf(env, cfg, n - 1), env(n - 1), cfg)
  }

  /** The first of n turns whose answer fills the context window. */
  function FirstFull(env: nat -> Turn, cfg: Config, n: nat): (r: Option<nat>)
    ensures r.Some? ==> r.value < n && env(r.value).Answers? && Fills(env(r.value).resp, cfg)
    ensures forall i :: 0 <= i < (if r.Some? then r.value else n) && env(i).Answers? ==> !Fills(env(i).resp, cfg)
  {
    if n == 0 then None
    else if FirstFull(env, cfg, n - 1).Some? then FirstFull(env, cfg, n - 1)
    else if env(n - 1).Answers? && Fills(env(n - 1).resp, cfg) then Some(n - 1)
    else None
  }

  /** The turn before n in which the conversation is compacted, when there is one. */
  ghost predicate CutIn(base: seq<Message>, env: nat -> Turn, cfg: Config, n: nat, c: nat) {
    && FirstFull(env, cfg, n) == Some(c)
    && CanCut(base + SaidBy(env, cfg, c), env(c).summary)
  }

  /** The messages of request n: the conversation so far, or its compacted form at the turn
      that compacts and everything said since. */
  ghost function Sent(base: seq<Message>, env: nat -> Turn, cfg: Config, n: nat): seq<Message> {
    var said := SaidBy(env, cfg, n);
    match FirstFull(env, cfg, n)
    case None => base + said
    case Some(c) => Since(base, SaidBy(env, cfg, c), said, env(c).summary)
  }

  /** What is sent after everything in said, when compaction was tried after before. */
  ghost function Since(base: seq<Message>, before: seq<Message>, said: seq<Message>, summary: Option<string>): seq<Message> {
    var out := Compacted(base + before, summary);
    if out.Some? && |before| <= |said| then out.value + said[|before|..] else base + said
  }

  lemma SaidNext(env: nat -> Turn, cfg: Config, n: nat)
    ensures SaidBy(env, cfg, n) <= SaidBy(env, cfg, n + 1)
  {
    var said, more := SaidBy(env, cfg, n), Added(LogOf(env, cfg, n), env(n), cfg);
    assert SaidBy(env, cfg, n + 1) == said + more;
  }

  lemma {:induction false} GrowsBetween(said: nat -> seq<Message>, n: nat, m: nat)
    requires n <= m && forall i: nat :: said(i) <= said(i + 1)
    ensures said(n) <= said(m)
    decreases m - n
  {
    if n < m {
      GrowsBetween(said, n + 1, m);
      PrefixTransitive(said(n), said(n + 1), said(m));
    }
  }

  lemma SaidGrows(env: nat -> Turn, cfg: Config, n: nat, m: nat)
    requires n <= m
    ensures SaidBy(env, cfg, n) <= SaidBy(env, cfg, m)
  {
    var said := (i: nat) => SaidBy(env, cfg, i);
    forall i: nat ensures said(i) <= said(i + 1) {
      SaidNext(env, cfg, i);
    }
    GrowsBetween(said, n, m);
  }

  // ---- the loop follows the transcript ----

  /** The state is the one the transcript tells after as many turns as requests were made. */
  ghost predicate Told(base: seq<Message>, user: Message, env: nat -> Turn, cfg: Config, st: RunState) {
    var n := |st.requests|;
    && st.messages == Sent(base, env, cfg, n)
    && st.pending == [user] + SaidBy(env, cfg, n)
    && st.log == LogOf(env, cfg, n)
    && st.compacted == FirstFull(env, cfg, n).Some?
    && SentAll(base, env, cfg, st.requests)
  }

  ghost predicate SentAll(base: seq<Message>, env: nat -> Turn, cfg: Config, requests: seq<seq<Message>>) {
    forall k: nat :: k < |requests| ==> requests[k] == Sent(base, env, cfg, k)
  }

  lemma SinceMore(base: seq<Message>, before: seq<Message>, said: seq<Message>, more: seq<Message>, summary: Option<string>)
    requires before <= said
    ensures Since(base, before, said + more, summary) == Since(base, before, said, summary) + more
  {
    var out := Compacted(base + before, summary);
    ConcatAssoc(base, said, more);
    if out.Some? {
      assert (said + more)[|before|..] == said[|before|..] + more;
      ConcatAssoc(out.value, said[|before|..], more);
    }
  }

  lemma SinceNow(base: seq<Message>, said: seq<Message>, summary: Option<string>)
    ensures var out := Compacted(base + said, summary);
      Since(base, said, said, summary) == if out.Some? then out.value else base + said
  {
    assert said[|said|..] == [];
  }

  /** What one turn does to the messages sent. */
  lemma SentStep(base: seq<Message>, env: nat -> Turn, cfg: Config, st: RunState)
    requires var n := |st.requests|; st.messages == Sent(base, env, cfg, n) && st.compacted == FirstFull(env, cfg, n).Some?
    requires env(|st.requests|).Answers?
    ensures var n := |st.requests|;
      Sent(base, env, cfg, n + 1) == AfterCompaction(st, env(n), cfg) + Added(LogOf(env, cfg, n), env(n), cfg)
    ensures FirstFull(env, cfg, |st.requests| + 1).Some? == (st.compacted || CompactionDue(st, env(|st.requests|).resp, cfg))
  {
    var n := |st.requests|;
    var said, more := SaidBy(env, cfg, n), Added(LogOf(env, cfg, n), env(n), cfg);
    assert SaidBy(env, cfg, n + 1) == said + more;
    if st.compacted {
      var c := FirstFull(env, cfg, n).value;
      SaidGrows(env, cfg, c, n);
      SinceMore(base, SaidBy(env, cfg, c), said, more, env(c).summary);
    } else if Fills(env(n).resp, cfg) {
      SinceMore(base, said, said, more, env(n).summary);
      SinceNow(base, said, env(n).summary);
    } else {
      ConcatAssoc(base, said, more);
    }
  }

  lemma SentStays(base: seq<Message>, env: nat -> Turn, cfg: Config, n: nat)
    requires env(n).CallFails?
    ensures SaidBy(env, cfg, n + 1) == SaidBy(env, cfg, n)
    ensures FirstFull(env, cfg, n + 1) == FirstFull(env, cfg, n)
    ensures Sent(base, env, cfg, n + 1) == Sent(base, env, cfg, n)
  {
    assert SaidBy(env, cfg, n) + [] == SaidBy(env, cfg, n);
  }

  lemma SentAllSnoc(base: seq<Message>, env: nat -> Turn, cfg: Config, requests: seq<seq<Message>>, ms: seq<Message>)
    requires SentAll(base, env, cfg, requests) && ms == Sent(base, env, cfg, |requests|)
    ensures SentAll(base, env, cfg, requests + [ms])
  {
  }

  lemma StepTold(base: seq<Message>, user: Message, env: nat -> Turn, cfg: Config, st: RunState)
    requires Told(base, user, env, cfg, st)
    ensures Told(base, user, env, cfg, Step(st, env(|st.requests|), cfg))
  {
    var n := |st.requests|;
    var next := Step(st, env(n), cfg);
    StepAsks(st, env(n), cfg);
    SentAllSnoc(base, env, cfg, st.requests, st.messages);
    if env(n).CallFails? {
      SentStays(base, env, cfg, n);
    } else {
      StepParts(st, env(n), cfg);
      SentStep(base, env, cfg, st);
      ConcatAssoc([user], SaidBy(env, cfg, n), Added(LogOf(env, cfg, n), env(n), cfg));
    }
  }

  lemma StartTold(base: seq<Message>, userMessage: string, env: nat -> Turn, cfg: Config)
    ensures Told(base, Plain(User, userMessage), env, cfg, Start(base, userMessage))
  {
    var user := Plain(User, userMessage);
    assert base + [] == base && [user] + [] == [user];
  }

  lemma RunTold(base: seq<Message>, userMessage: string, env: nat -> Turn, fuel: nat, cfg: Config)
    ensures Told(base, Plain(User, userMessage), env, cfg, Run(Start(base, userMessage), Turning(env, cfg), fuel))
  {
    var user := Plain(User, userMessage);
    var inv: RunState -> bool := (s: RunState) => Told(base, user, env, cfg, s);
    var step: RunState -> RunState := Turning(env, cfg);
    forall s: RunState | inv(s) ensures inv(step(s)) {
      StepTold(base, user, env, cfg, s);
    }
    StartTold(base, userMessage, env, cfg);
    RunInvariant(Start(base, userMessage), step, inv, fuel);
  }

  // ---- what is kept to be stored ----

  /** In every run the pending buffer is the user's message and then everything said in the
      turns taken: compaction cuts nothing from it. */
  lemma PendingCovers(base: seq<Message>, userMessage: string, env: nat -> Turn, fuel: nat, cfg: Config)
    ensures var end := Run(Start(base, userMessage), Turning(env, cfg), fuel);
      end.pending == [Plain(User, userMessage)] + SaidBy(env, cfg, |end.requests|)
  {
    RunTold(base, userMessage, env, fuel, cfg);
  }

  lemma {:induction false} RunSplit(st: RunState, step: RunState -> RunState, a: nat, b: nat)
    ensures Run(st, step, a + b) == Run(Run(st, step, a), step, b)
    decreases a
  {
    if a > 0 && st.status == Running {
      RunSplit(step(st), step, a - 1, b);
    }
  }

  ghost predicate Grows(step: RunState -> RunState) {
    forall s: RunState :: s.pending <= step(s).pending
  }

  lemma {:induction false} RunGrows(st: RunState, step: RunState -> RunState, fuel: nat)
    requires Grows(step)
    ensures st.pending <= Run(st, step, fuel).pending
    decreases fuel
  {
    if fuel > 0 && st.status == Running {
      RunGrows(step(st), step, fuel - 1);
      PrefixTransitive(st.pending, step(st).pending, Run(step(st), step, fuel - 1).pending);
    }
  }

  lemma TurningGrows(env: nat -> Turn, cfg: Config)
    ensures Grows(Turning(env, cfg))
  {
    forall s: RunState ensures s.pending <= Turning(env, cfg)(s).pending {
      if env(|s.requests|).Answers? { StepParts(s, env(|s.requests|), cfg); }
    }
  }

  /** With more iterations the buffer only grows. */
  lemma PendingGrows(st: RunState, env: nat -> Turn, fuel: nat, more: nat, cfg: Config)
    ensures Run(st, Turning(env, cfg), fuel).pending <= Run(st, Turning(env, cfg), fuel + more).pending
  {
    TurningGrows(env, cfg);
    RunSplit(st, Turning(env, cfg), fuel, more);
    RunGrows(Run(st, Turning(env, cfg), fuel), Turning(env, cfg), more);
  }

  // ---- what is sent ----

  /** A summary, at least the messages that turn c must keep, and everything said from c on. */
  ghost predicate Summarized(base: seq<Message>, env: nat -> Turn, cfg: Config, k: nat, c: nat, sent: seq<Message>) {
    var all, before := base + SaidBy(env, cfg, k), base + SaidBy(env, cfg, c);
    && env(c).Answers? && env(c).summary.Some?
    && sent != [] && sent[0] == Plain(User, env(c).summary.value)
    && IsSuffix(sent[1..], all)
    && KeepCount(|before|) + |all| - |before| <= |sent| - 1 <= |all| - 2
  }

  /** The whole conversation before turn k, or, when an earlier turn has compacted, a summary
      and then a suffix of it that holds everything said since. */
  ghost predicate Covers(base: seq<Message>, env: nat -> Turn, cfg: Config, k: nat, sent: seq<Message>) {
    && ((forall c: nat :: !CutIn(base, env, cfg, k, c)) ==> sent == base + SaidBy(env, cfg, k))
    && (forall c: nat :: CutIn(base, env, cfg, k, c) ==> Summarized(base, env, cfg, k, c, sent))
  }

  lemma SinceShape(base: seq<Message>, before: seq<Message>, since: seq<Message>, summary: Option<string>)
    requires CanCut(base + before, summary)
    ensures var all, sent := base + (before + since), Since(base, before, before + since, summary);
      && sent != [] && sent[0] == Plain(User, summary.value) && IsSuffix(sent[1..], all)
      && KeepCount(|base + before|) + |since| <= |sent| - 1 <= |all| - 2
  {
    var out := Compacted(base + before, summary);
    CompactedWhen(base + before, summary, out);
    CompactedShape(base + before, summary, out);
    assert (before + since)[|before|..] == since;
    ConcatAssoc(base, before, since);
    SuffixConcat(out.value[1..], base + before, since);
    assert (out.value + since)[1..] == out.value[1..] + since;
  }

  lemma SentSummarized(base: seq<Message>, env: nat -> Turn, cfg: Config, k: nat, c: nat)
    requires CutIn(base, env, cfg, k, c)
    ensures Summarized(base, env, cfg, k, c, Sent(base, env, cfg, k))
  {
    var before, said := SaidBy(env, cfg, c), SaidBy(env, cfg, k);
    SaidGrows(env, cfg, c, k);
    SentSince(base, env, cfg, k, c);
    SinceShape(base, before, said[|before|..], env(c).summary);
    assert said == before + said[|before|..];
  }

  lemma SentSince(base: seq<Message>, env: nat -> Turn, cfg: Config, k: nat, c: nat)
    requires FirstFull(env, cfg, k) == Some(c)
    ensures Sent(base, env, cfg, k) == Since(base, SaidBy(env, cfg, c), SaidBy(env, cfg, k), env(c).summary)
  {
  }

  lemma SentCovers(base: seq<Message>, env: nat -> Turn, cfg: Config, k: nat)
    ensures Covers(base, env, cfg, k, Sent(base, env, cfg, k))
  {
    var first := FirstFull(env, cfg, k);
    if first.Some? {
      var c := first.value;
      var before := base + SaidBy(env, cfg, c);
      CompactedWhen(before, env(c).summary, Compacted(before, env(c).summary));
      if CanCut(before, env(c).summary) {
        assert CutIn(base, env, cfg, k, c);
        SentSummarized(base, env, cfg, k, c);
      }
    }
  }

  /** Request k of a run is what the transcript says, and so covers the conversation. */
  lemma RequestsCover(base: seq<Message>, userMessage: string, env: nat -> Turn, fuel: nat, cfg: Config, k: nat)
    requires k < |Run(Start(base, userMessage), Turning(env, cfg), fuel).requests|
    ensures Run(Start(base, userMessage), Turning(env, cfg), fuel).requests[k] == Sent(base, env, cfg, k)
    ensures Covers(base, env, cfg, k, Run(Start(base, userMessage), Turning(env, cfg), fuel).requests[k])
  {
    RunTold(base, userMessage, env, fuel, cfg);
    SentCovers(base, env, cfg, k);
  }

  lemma PromptCovered(base: seq<Message>, env: nat -> Turn, cfg: Config, k: nat, sent: seq<Message>)
    requires base != [] && base[0].role == System && Covers(base, env, cfg, k, sent)
    ensures sent != [] && (sent[0] == base[0] <==> forall c: nat :: !CutIn(base, env, cfg, k, c))
  {
    if c: nat :| CutIn(base, env, cfg, k, c) {
      assert Summarized(base, env, cfg, k, c, sent);
    }
  }

  /** Request k still starts with the system prompt exactly when no earlier turn has
      compacted. */
  lemma PromptKept(base: seq<Message>, userMessage: string, env: nat -> Turn, fuel: nat, cfg: Config, k: nat)
    requires base != [] && base[0].role == System
    requires k < |Run(Start(base, userMessage), Turning(env, cfg), fuel).requests|
    ensures var sent := Run(Start(base, userMessage), Turning(env, cfg), fuel).requests[k];
      sent != [] && (sent[0] == base[0] <==> forall c: nat :: !CutIn(base, env, cfg, k, c))
  {
    RequestsCover(base, userMessage, env, fuel, cfg, k);
    PromptCovered(base, env, cfg, k, Run(Start(base, userMessage), Turning(env, cfg), fuel).requests[k]);
  }

  /** An answer that fills the window and asks for one tool, and then an answer without. */
  function FillingThenDone(call: ToolCall, cfg: Config): nat -> Turn {
    (n: nat) =>
      if n == 0 then Answers(Response("", [call], Some(Usage(Threshold(cfg), 0, Threshold(cfg)))), [""], Some(""))
      else Answers(Response("", [], None), [], None)
  }

  /** The first request of a session with two turns behind it. */
  function SixMessages(prompt: string, said: seq<string>): seq<Message>
    requires |said| == 5
  {
    [Plain(System, prompt), Plain(User, said[0]), Plain(Assistant, said[1]), Plain(User, said[2]),
     Plain(Assistant, said[3]), Plain(User, said[4])]
  }

  /** A run on it whose second request has lost the system prompt. */
  lemma PromptLost(prompt: string, said: seq<string>, call: ToolCall, fuel: nat, cfg: Config)
    requires Standard(cfg) && cfg.contextWindow > 0 && |said| == 5 && fuel >= 2
    ensures var requests := Run(Start(SixMessages(prompt, said), said[4]), Turning(FillingThenDone(call, cfg), cfg), fuel).requests;
      |requests| == 2 && requests[0] == SixMessages(prompt, said) && requests[1] != [] && requests[1][0].role == User
  {
    var base, env := SixMessages(prompt, said), FillingThenDone(call, cfg);
    TwoTurns(base, said[4], call, fuel, cfg);
    RequestsCover(base, said[4], env, fuel, cfg, 0);
    RequestsCover(base, said[4], env, fuel, cfg, 1);
    SixCut(prompt, said, call, cfg);
    assert Summarized(base, env, cfg, 1, 0, Sent(base, env, cfg, 1));
    assert Sent(base, env, cfg, 0) == base + [] == base;
  }

  lemma SixCut(prompt: string, said: seq<string>, call: ToolCall, cfg: Config)
    requires cfg.contextWindow > 0 && |said| == 5
    ensures CutIn(SixMessages(prompt, said), FillingThenDone(call, cfg), cfg, 1, 0)
  {
    var base, env := SixMessages(prompt, said), FillingThenDone(call, cfg);
    assert SaidBy(env, cfg, 0) == [] && base + [] == base;
    assert FirstFull(env, cfg, 0) == None;
    assert KeepCount(6) == 4 && !AtPair(base[2]);
  }

  lemma TwoTurns(base: seq<Message>, userMessage: string, call: ToolCall, fuel: nat, cfg: Config)
    requires Standard(cfg) && fuel >= 2
    ensures |Run(Start(base, userMessage), Turning(FillingThenDone(call, cfg), cfg), fuel).requests| == 2
  {
    var env := FillingThenDone(call, cfg);
    var step: RunState -> RunState, start := Turning(env, cfg), Start(base, userMessage);
    var second := step(start);
    assert RunBatch([call], [""], 1, Logged(call, "", [], cfg), cfg).stop == None;
    assert second.status == Running && |second.requests| == 1;
    var third := step(second);
    assert third.status == Finished("") && |third.requests| == 2;
    assert Run(start, step, fuel) == Run(second, step, fuel - 1) == Run(third, step, fuel - 2) == third;
  }
}
