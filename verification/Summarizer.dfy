/** Finished runs and background summarization interleaved on one session. Each finished
    run is a thread: it appends its messages one by one, checks whether the history is due
    for summarizing, and, if it gets the session's lock, flushes memory, takes a snapshot,
    asks for a summary, and truncates. Every access to the store is one atomic step. */
module Summarizer {
  import opened Messages
  import opened History
  import opened Sessions
  import opened Sequences
  import opened Wrappers

  const KEEP_TURNS := 4
  const MESSAGE_LIMIT := 50

  datatype Pc =
    | Appending(rest: seq<Message>)
    | Checking
    | Locking
    | FlushDue
    | Flushing(count: nat)
    | Marking(count: nat)
    | Snapshotting
    | Summarizing(snapshot: seq<Message>, split: nat)
    | Truncating(snapshot: seq<Message>, split: nat)
    | Counting
    | Unlocking
    | Done

  /** appended is everything ever appended to the session, flushes the compaction counts at
      which a memory flush was started. */
  datatype State = State(
    data: SessionData,
    locked: bool,
    threads: map<nat, Pc>,
    appended: seq<Message>,
    flushes: seq<nat>)

  /** What the outside decides at a step: the token estimate, and the summary returned
      (None when the call fails or its cleaned text is empty). */
  datatype Choice = Choice(tokenEstimate: int, summary: Option<string>)

  datatype Event = Finish(id: nat, pending: seq<Message>) | Advance(id: nat, choice: Choice)

  datatype Setup = Setup(hasMemory: bool, threshold: int)

  function Move(s: State, id: nat, pc: Pc): State {
    s.(threads := s.threads[id := pc])
  }

  /** The split point of a snapshot, for the last KEEP_TURNS user turns. */
  ghost function SplitOf(ms: seq<Message>): (split: nat)
    ensures split <= |ms| && IsTurnStart(ms, KEEP_TURNS, split)
  {
    TurnStartExists(ms, KEEP_TURNS);
    var split: nat :| split <= |ms| && IsTurnStart(ms, KEEP_TURNS, split);
    split
  }

  lemma {:induction false} TurnStartExists(ms: seq<Message>, keep: int)
    ensures exists idx: nat :: idx <= |ms| && IsTurnStart(ms, keep, idx)
  {
    if keep <= 0 {
      assert IsTurnStart(ms, keep, |ms|);
    } else if UserTurns(ms) <= keep {
      assert IsTurnStart(ms, keep, 0);
    } else {
      var idx := NthUser(ms, keep);
      assert IsTurnStart(ms, keep, idx);
    }
  }

  lemma {:induction false} NthUser(ms: seq<Message>, keep: nat) returns (idx: nat)
    requires 0 < keep <= UserTurns(ms)
    ensures idx < |ms| && ms[idx].role == User && UserTurns(ms[idx..]) == keep
  {
    if UserTurns(ms[1..]) >= keep {
      idx := NthUser(ms[1..], keep);
      assert ms[1..][idx..] == ms[idx + 1..];
      idx := idx + 1;
    } else {
      idx := 0;
      assert ms[0..] == ms;
    }
  }

  ghost function Step(s: State, id: nat, c: Choice, setup: Setup): State
    requires id in s.threads
  {
    match s.threads[id]
    case Appending(rest) =>
      if rest == [] then Move(s, id, Checking)
      else Move(s.(data := s.data.(messages := s.data.messages + [rest[0]]), appended := s.appended + [rest[0]]),
                id, Appending(rest[1..]))
    case Checking =>
      if |s.data.messages| <= MESSAGE_LIMIT && c.tokenEstimate <= setup.threshold then Move(s, id, Done)
      else Move(s, id, Locking)
    case Locking =>
      if s.locked then Move(s, id, Done) else Move(s.(locked := true), id, FlushDue)
    case FlushDue =>
      if !setup.hasMemory || s.data.memoryFlushAt >= s.data.compactionCount then Move(s, id, Snapshotting)
      else Move(s, id, Flushing(s.data.compactionCount))
    case Flushing(count) =>
      Move(s.(flushes := s.flushes + [count]), id, Marking(count))
    case Marking(count) =>
      Move(s.(data := s.data.(memoryFlushAt := count)), id, Snapshotting)
    case Snapshotting =>
      var split := SplitOf(s.data.messages);
      if split <= 0 then Move(s, id, Unlocking) else Move(s, id, Summarizing(s.data.messages, split))
    case Summarizing(snapshot, split) =>
      if c.summary.None? then Move(s, id, Unlocking)
      else Move(s.(data := s.data.(summary := c.summary.value)), id, Truncating(snapshot, split))
    case Truncating(snapshot, split) =>
      Move(s.(data := s.data.(messages := KeepLast(s.data.messages, |snapshot| - split))), id, Counting)
    case Counting =>
      Move(s.(data := s.data.(compactionCount := s.data.compactionCount + 1)), id, Unlocking)
    case Unlocking => Move(s.(locked := false), id, Done)
    case Done => s
  }

  ghost function Exec(s: State, e: Event, setup: Setup): State {
    match e
    case Finish(id, pending) => if id in s.threads then s else Move(s, id, Appending(pending))
    case Advance(id, c) => if id in s.threads then Step(s, id, c, setup) else s
  }

  ghost function ExecAll(s: State, events: seq<Event>, setup: Setup): State
    decreases |events|
  {
    if events == [] then s else ExecAll(Exec(s, events[0], setup), events[1..], setup)
  }

  /** A session as it is loaded: some history and counters, no thread at work, and the flush
      marker at zero, since it is not persisted. */
  ghost predicate Initial(s: State) {
    && !s.locked && s.threads == map[] && s.flushes == []
    && s.appended == s.data.messages && s.data.memoryFlushAt == 0
  }

  // ---- what every step keeps ----

  predicate Critical(pc: Pc) {
    !pc.Appending? && !pc.Checking? && !pc.Locking? && !pc.Done?
  }

  ghost predicate SomeCritical(threads: map<nat, Pc>) {
    exists id :: id in threads && Critical(threads[id])
  }

  ghost predicate SomeMarking(threads: map<nat, Pc>) {
    exists id :: id in threads && threads[id].Marking?
  }

  /** The lock is held by exactly the one thread that is in its critical part. */
  ghost predicate LockOk(s: State) {
    && (s.locked <==> SomeCritical(s.threads))
    && forall i, j :: i in s.threads && j in s.threads && Critical(s.threads[i]) && Critical(s.threads[j]) ==> i == j
  }

  /** While a summary is in flight, the live history extends its snapshot. */
  ghost predicate SnapshotOk(s: State, pc: Pc) {
    pc.Summarizing? || pc.Truncating? ==>
      && pc.snapshot <= s.data.messages
      && 0 < pc.split <= |pc.snapshot|
      && IsTurnStart(pc.snapshot, KEEP_TURNS, pc.split)
  }

  ghost predicate FlushOk(s: State, pc: Pc) {
    && (pc.Flushing? ==> pc.count == s.data.compactionCount > s.data.memoryFlushAt)
    && (pc.Marking? ==> pc.count == s.data.compactionCount && s.flushes != [] && s.flushes[|s.flushes| - 1] == pc.count)
  }

  /** The flush marker is at the last flush, unless a thread is about to put it there. */
  ghost predicate MarkerOk(s: State) {
    && s.data.memoryFlushAt <= s.data.compactionCount
    && (s.flushes == [] || s.flushes[|s.flushes| - 1] == s.data.memoryFlushAt
        || SomeMarking(s.threads))
  }

  /** At most one flush for each compaction count, in order, and none before the first
      compaction. */
  ghost predicate FlushesOk(s: State) {
    && (forall i, j :: 0 <= i < j < |s.flushes| ==> s.flushes[i] < s.flushes[j])
    && (forall i :: 0 <= i < |s.flushes| ==> 0 < s.flushes[i] <= s.data.compactionCount)
  }

  ghost predicate Inv(s: State) {
    && IsSuffix(s.data.messages, s.appended)
    && LockOk(s)
    && (forall id :: id in s.threads ==> SnapshotOk(s, s.threads[id]) && FlushOk(s, s.threads[id]))
    && MarkerOk(s)
    && FlushesOk(s)
  }

  lemma OthersNotCritical(s: State, id: nat)
    requires LockOk(s) && id in s.threads && Critical(s.threads[id])
    ensures s.locked && forall k :: k in s.threads && k != id ==> !Critical(s.threads[k])
  {
  }

  /** A step of the thread in its critical part only has to keep what is about the data. */
  lemma CriticalStep(s: State, id: nat, next: State, pc: Pc)
    requires Inv(s) && id in s.threads && Critical(s.threads[id]) && Critical(pc)
    requires next.threads == s.threads[id := pc] && next.locked == s.locked
    requires IsSuffix(next.data.messages, next.appended)
    requires SnapshotOk(next, pc) && FlushOk(next, pc) && MarkerOk(next) && FlushesOk(next)
    ensures Inv(next)
  {
    OthersNotCritical(s, id);
    assert next.threads[id] == pc;
    assert SomeCritical(next.threads);
  }

  /** Moving a thread outside its critical part changes neither who holds the lock nor who
      is about to mark. */
  lemma QuietMove(threads: map<nat, Pc>, id: nat, pc: Pc)
    requires !Critical(pc) && (id in threads ==> !Critical(threads[id]))
    ensures SomeCritical(threads[id := pc]) <==> SomeCritical(threads)
    ensures SomeMarking(threads[id := pc]) <==> SomeMarking(threads)
  {
    var next := threads[id := pc];
    assert forall k :: k != id ==> (k in next <==> k in threads) && (k in threads ==> next[k] == threads[k]);
    if k :| k in threads && Critical(threads[k]) { assert k in next && Critical(next[k]); }
    if k :| k in threads && threads[k].Marking? { assert k in next && next[k].Marking?; }
  }

  lemma QuietStep(s: State, id: nat, next: State, pc: Pc)
    requires Inv(s) && !Critical(pc) && (id in s.threads ==> !Critical(s.threads[id]))
    requires next == s.(threads := s.threads[id := pc])
    ensures Inv(next)
  {
    QuietMove(s.threads, id, pc);
    forall k | k in next.threads ensures SnapshotOk(next, next.threads[k]) && FlushOk(next, next.threads[k]) {
      if k != id { assert SnapshotOk(s, s.threads[k]) && FlushOk(s, s.threads[k]); }
    }
  }

  lemma AppendStep(s: State, id: nat, next: State, m: Message, rest: seq<Message>)
    requires Inv(s) && id in s.threads && s.threads[id].Appending?
    requires next == s.(data := s.data.(messages := s.data.messages + [m]), appended := s.appended + [m],
                        threads := s.threads[id := Appending(rest)])
    ensures Inv(next)
  {
    var mid := s.(threads := s.threads[id := Appending(rest)]);
    QuietStep(s, id, mid, Appending(rest));
    SuffixConcat(s.data.messages, s.appended, [m]);
    forall k | k in mid.threads ensures SnapshotOk(next, mid.threads[k]) && FlushOk(next, mid.threads[k]) {
      assert SnapshotOk(mid, mid.threads[k]) && FlushOk(mid, mid.threads[k]);
    }
  }

  lemma AcquireStep(s: State, id: nat, next: State)
    requires Inv(s) && id in s.threads && s.threads[id].Locking? && !s.locked
    requires next == s.(locked := true, threads := s.threads[id := FlushDue])
    ensures Inv(next)
  {
    assert next.threads[id] == FlushDue && SomeCritical(next.threads);
    assert !SomeMarking(s.threads) by {
      assert forall k :: k in s.threads ==> !Critical(s.threads[k]);
    }
  }

  lemma ReleaseStep(s: State, id: nat, next: State)
    requires Inv(s) && id in s.threads && s.threads[id].Unlocking?
    requires next == s.(locked := false, threads := s.threads[id := Done])
    ensures Inv(next)
  {
    OthersNotCritical(s, id);
    assert forall k :: k in next.threads ==> !Critical(next.threads[k]);
    assert !SomeMarking(s.threads);
  }

  lemma FlushingStep(s: State, id: nat, count: nat)
    requires Inv(s) && id in s.threads && s.threads[id] == Flushing(count)
    ensures Inv(Move(s.(flushes := s.flushes + [count]), id, Marking(count)))
  {
    var next := Move(s.(flushes := s.flushes + [count]), id, Marking(count));
    OthersNotCritical(s, id);
    assert !SomeMarking(s.threads);
    assert next.threads[id] == Marking(count) && SomeMarking(next.threads);
    CriticalStep(s, id, next, Marking(count));
  }

  lemma MarkingStep(s: State, id: nat, count: nat)
    requires Inv(s) && id in s.threads && s.threads[id] == Marking(count)
    ensures Inv(Move(s.(data := s.data.(memoryFlushAt := count)), id, Snapshotting))
  {
    CriticalStep(s, id, Move(s.(data := s.data.(memoryFlushAt := count)), id, Snapshotting), Snapshotting);
  }

  /** In the critical part outside the flush, no thread is about to mark. */
  lemma NoMarking(s: State, id: nat)
    requires Inv(s) && id in s.threads && Critical(s.threads[id]) && !s.threads[id].Marking?
    ensures !SomeMarking(s.threads)
  {
    OthersNotCritical(s, id);
  }

  lemma TruncatingStep(s: State, id: nat, snapshot: seq<Message>, split: nat)
    requires Inv(s) && id in s.threads && s.threads[id] == Truncating(snapshot, split)
    ensures Inv(Move(s.(data := s.data.(messages := KeepLast(s.data.messages, |snapshot| - split))), id, Counting))
  {
    NoMarking(s, id);
    var kept := KeepLast(s.data.messages, |snapshot| - split);
    SuffixTransitive(kept, s.data.messages, s.appended);
    CriticalStep(s, id, Move(s.(data := s.data.(messages := kept)), id, Counting), Counting);
  }

  lemma CountingStep(s: State, id: nat)
    requires Inv(s) && id in s.threads && s.threads[id] == Counting
    ensures Inv(Move(s.(data := s.data.(compactionCount := s.data.compactionCount + 1)), id, Unlocking))
  {
    NoMarking(s, id);
    CriticalStep(s, id, Move(s.(data := s.data.(compactionCount := s.data.compactionCount + 1)), id, Unlocking), Unlocking);
  }

  lemma SnapshottingStep(s: State, id: nat)
    requires Inv(s) && id in s.threads && s.threads[id] == Snapshotting
    ensures var split := SplitOf(s.data.messages);
      && (split <= 0 ==> Inv(Move(s, id, Unlocking)))
      && (split > 0 ==> Inv(Move(s, id, Summarizing(s.data.messages, split))))
  {
    NoMarking(s, id);
    var split := SplitOf(s.data.messages);
    if split <= 0 {
      CriticalStep(s, id, Move(s, id, Unlocking), Unlocking);
    } else {
      CriticalStep(s, id, Move(s, id, Summarizing(s.data.messages, split)), Summarizing(s.data.messages, split));
    }
  }

  lemma SummarizingStep(s: State, id: nat, c: Choice, setup: Setup)
    requires Inv(s) && id in s.threads && s.threads[id].Summarizing?
    ensures Inv(Step(s, id, c, setup))
  {
    NoMarking(s, id);
    var pc := s.threads[id];
    assert SnapshotOk(s, pc);
    if c.summary.None? {
      CriticalStep(s, id, Move(s, id, Unlocking), Unlocking);
    } else {
      var next := Move(s.(data := s.data.(summary := c.summary.value)), id, Truncating(pc.snapshot, pc.split));
      CriticalStep(s, id, next, Truncating(pc.snapshot, pc.split));
    }
  }

  lemma FlushDueStep(s: State, id: nat, c: Choice, setup: Setup)
    requires Inv(s) && id in s.threads && s.threads[id] == FlushDue
    ensures Inv(Step(s, id, c, setup))
  {
    NoMarking(s, id);
    var pc := if !setup.hasMemory || s.data.memoryFlushAt >= s.data.compactionCount then Snapshotting
              else Flushing(s.data.compactionCount);
    CriticalStep(s, id, Move(s, id, pc), pc);
  }

  lemma FreeStepInv(s: State, id: nat, c: Choice, setup: Setup)
    requires Inv(s) && id in s.threads && !Critical(s.threads[id])
    ensures Inv(Step(s, id, c, setup))
  {
    match s.threads[id]
    case Appending(rest) =>
      if rest == [] {
        QuietStep(s, id, Move(s, id, Checking), Checking);
      } else {
        AppendStep(s, id, Step(s, id, c, setup), rest[0], rest[1..]);
      }
    case Checking =>
      QuietStep(s, id, Move(s, id, Done), Done);
      QuietStep(s, id, Move(s, id, Locking), Locking);
    case Locking =>
      if s.locked {
        QuietStep(s, id, Move(s, id, Done), Done);
      } else {
        AcquireStep(s, id, Step(s, id, c, setup));
      }
    case Done =>
  }

  /** The steps of the flush. */
  lemma FlushStepInv(s: State, id: nat, c: Choice, setup: Setup)
    requires Inv(s) && id in s.threads && (s.threads[id].FlushDue? || s.threads[id].Flushing? || s.threads[id].Marking?)
    ensures Inv(Step(s, id, c, setup))
  {
    match s.threads[id]
    case FlushDue => FlushDueStep(s, id, c, setup);
    case Flushing(count) => FlushingStep(s, id, count);
    case Marking(count) => MarkingStep(s, id, count);
  }

  /** The steps up to the summary. */
  lemma SummaryStepInv(s: State, id: nat, c: Choice, setup: Setup)
    requires Inv(s) && id in s.threads && (s.threads[id].Snapshotting? || s.threads[id].Summarizing?)
    ensures Inv(Step(s, id, c, setup))
  {
    if s.threads[id].Snapshotting? {
      SnapshottingStep(s, id);
    } else {
      SummarizingStep(s, id, c, setup);
    }
  }

  /** The steps behind it. */
  lemma TruncateStepInv(s: State, id: nat, c: Choice, setup: Setup)
    requires Inv(s) && id in s.threads && s.threads[id].Truncating?
    ensures Inv(Step(s, id, c, setup))
  {
    TruncatingStep(s, id, s.threads[id].snapshot, s.threads[id].split);
  }

  lemma LastStepInv(s: State, id: nat, c: Choice, setup: Setup)
    requires Inv(s) && id in s.threads && (s.threads[id].Counting? || s.threads[id].Unlocking?)
    ensures Inv(Step(s, id, c, setup))
  {
    if s.threads[id].Counting? {
      CountingStep(s, id);
    } else {
      ReleaseStep(s, id, Step(s, id, c, setup));
    }
  }

  lemma StepInv(s: State, id: nat, c: Choice, setup: Setup)
    requires Inv(s) && id in s.threads
    ensures Inv(Step(s, id, c, setup))
  {
    var pc := s.threads[id];
    if !Critical(pc) {
      FreeStepInv(s, id, c, setup);
    } else if pc.FlushDue? || pc.Flushing? || pc.Marking? {
      FlushStepInv(s, id, c, setup);
    } else if pc.Snapshotting? || pc.Summarizing? {
      SummaryStepInv(s, id, c, setup);
    } else if pc.Truncating? {
      TruncateStepInv(s, id, c, setup);
    } else {
      LastStepInv(s, id, c, setup);
    }
  }

  lemma ExecOneInv(s: State, e: Event, setup: Setup)
    requires Inv(s)
    ensures Inv(Exec(s, e, setup))
  {
    match e
    case Finish(id, pending) =>
      if id !in s.threads { QuietStep(s, id, Move(s, id, Appending(pending)), Appending(pending)); }
    case Advance(id, c) =>
      if id in s.threads { StepInv(s, id, c, setup); }
  }

  lemma {:induction false} ExecInv(s: State, events: seq<Event>, setup: Setup)
    requires Inv(s)
    ensures Inv(ExecAll(s, events, setup))
    decreases |events|
  {
    if events != [] {
      ExecOneInv(s, events[0], setup);
      ExecInv(Exec(s, events[0], setup), events[1..], setup);
    }
  }

  /** In every interleaving of finished runs and summarization: at most one thread is past
      the lock, the live history is a suffix of everything appended, and memory is flushed
      at most once for each compaction count, never before the first compaction. */
  lemma Interleavings(s: State, events: seq<Event>, setup: Setup)
    requires Initial(s)
    ensures var now := ExecAll(s, events, setup);
      && (forall i, j :: i in now.threads && j in now.threads && Critical(now.threads[i]) && Critical(now.threads[j]) ==> i == j)
      && IsSuffix(now.data.messages, now.appended)
      && FlushesOk(now)
  {
    InitialInv(s);
    ExecInv(s, events, setup);
  }

  lemma InitialInv(s: State)
    requires Initial(s)
    ensures Inv(s)
  {
    assert !SomeCritical(s.threads) && !SomeMarking(s.threads);
  }

  // ---- what stands behind a truncation ----

  lemma {:induction false} ExecSnoc(s: State, events: seq<Event>, e: Event, setup: Setup)
    ensures ExecAll(s, events + [e], setup) == Exec(ExecAll(s, events, setup), e, setup)
    decreases |events|
  {
    if events == [] {
      assert [] + [e] == [e] && [e][1..] == [];
    } else {
      assert (events + [e])[1..] == events[1..] + [e];
      ExecSnoc(Exec(s, events[0], setup), events[1..], e, setup);
    }
  }

  /** The state before event k. */
  ghost function Before(start: State, events: seq<Event>, k: nat, setup: Setup): State
    requires k <= |events|
  {
    ExecAll(start, events[..k], setup)
  }

  lemma BeforeSnoc(start: State, events: seq<Event>, e: Event, k: nat, setup: Setup)
    requires k <= |events|
    ensures Before(start, events + [e], k, setup) == Before(start, events, k, setup)
  {
    assert (events + [e])[..k] == events[..k];
  }

  /** At event k this thread's summarizing call answered with the text, on this snapshot; and
      the session's summary has been that text ever since. */
  ghost predicate AnsweredAt(start: State, events: seq<Event>, k: nat, id: nat, snapshot: seq<Message>, split: nat, setup: Setup) {
    && k < |events| && events[k].Advance? && events[k].id == id && events[k].choice.summary.Some?
    && id in Before(start, events, k, setup).threads
    && Before(start, events, k, setup).threads[id] == Summarizing(snapshot, split)
    && forall j: nat :: k < j <= |events| ==> Before(start, events, j, setup).data.summary == events[k].choice.summary.value
  }

  /** Events of other threads leave a critical thread and the summary alone. */
  lemma OthersLeave(s: State, id: nat, e: Event, setup: Setup)
    requires Inv(s) && id in s.threads && Critical(s.threads[id]) && e.id != id
    ensures var next := Exec(s, e, setup);
      id in next.threads && next.threads[id] == s.threads[id] && next.data.summary == s.data.summary
  {
    if e.Advance? && e.id in s.threads {
      OthersNotCritical(s, id);
    }
  }

  lemma AnsweredStays(start: State, events: seq<Event>, e: Event, k: nat, id: nat, snapshot: seq<Message>, split: nat, setup: Setup)
    requires AnsweredAt(start, events, k, id, snapshot, split, setup)
    requires ExecAll(start, events + [e], setup).data.summary == ExecAll(start, events, setup).data.summary
    ensures AnsweredAt(start, events + [e], k, id, snapshot, split, setup)
  {
    var all := events + [e];
    assert all[k] == events[k] && all[..|all|] == all && events[..|events|] == events;
    BeforeSnoc(start, events, e, k, setup);
    assert Before(start, events, |events|, setup).data.summary == events[k].choice.summary.value;
    forall j: nat | k < j <= |all| ensures Before(start, all, j, setup).data.summary == events[k].choice.summary.value {
      if j < |all| { BeforeSnoc(start, events, e, j, setup); }
    }
  }

  lemma AnsweredNow(start: State, events: seq<Event>, e: Event, setup: Setup)
    requires var s := ExecAll(start, events, setup);
      e.Advance? && e.choice.summary.Some? && e.id in s.threads && s.threads[e.id].Summarizing?
    requires ExecAll(start, events + [e], setup).data.summary == e.choice.summary.value
    ensures var pc := ExecAll(start, events, setup).threads[e.id];
      AnsweredAt(start, events + [e], |events|, e.id, pc.snapshot, pc.split, setup)
  {
    var all := events + [e];
    assert all[..|events|] == events && all[..|all|] == all && all[|events|] == e;
    var pc := ExecAll(start, events, setup).threads[e.id];
    assert pc == Summarizing(pc.snapshot, pc.split) && Before(start, all, |events|, setup) == ExecAll(start, events, setup);
    forall j: nat | |events| < j <= |all| ensures Before(start, all, j, setup) == ExecAll(start, all, setup) {
      assert j == |all|;
    }
  }

  /** Whether an event is a step of the thread. */
  predicate Moves(e: Event, id: nat, s: State) {
    e.id == id && !(e.Finish? && id in s.threads)
  }

  /** What a thread truncates was summarized: its own summarizing call has answered for that
      very snapshot, and the answer is the summary the session now has. */
  lemma {:induction false} SummaryBehind(start: State, events: seq<Event>, id: nat, setup: Setup) returns (k: nat)
    requires Initial(start)
    requires var s := ExecAll(start, events, setup); id in s.threads && s.threads[id].Truncating?
    ensures var pc := ExecAll(start, events, setup).threads[id];
      AnsweredAt(start, events, k, id, pc.snapshot, pc.split, setup)
    decreases |events|
  {
    k := 0;
    if events != [] {
      var init, e := Init(events), Last(events);
      var s := ExecAll(start, init, setup);
      InitLast(events);
      InitialInv(start);
      ExecInv(start, init, setup);
      ExecSnoc(start, init, e, setup);
      if Moves(e, id, s) {
        JustAnswered(s, e, setup);
        k := |init|;
        AnsweredNow(start, init, e, setup);
      } else {
        NotMoved(s, id, e, setup);
        k := SummaryBehind(start, init, id, setup);
        AnsweredStays(start, init, e, k, id, s.threads[id].snapshot, s.threads[id].split, setup);
      }
    }
  }

  lemma NotMoved(s: State, id: nat, e: Event, setup: Setup)
    requires Inv(s) && !Moves(e, id, s) && id in Exec(s, e, setup).threads && Critical(Exec(s, e, setup).threads[id])
    ensures id in s.threads && Exec(s, e, setup).threads[id] == s.threads[id] && Exec(s, e, setup).data.summary == s.data.summary
  {
    if e.id != id {
      ReachedBefore(s, id, e, setup);
      OthersLeave(s, id, e, setup);
    }
  }

  lemma ReachedBefore(s: State, id: nat, e: Event, setup: Setup)
    requires e.id != id && id in Exec(s, e, setup).threads
    ensures id in s.threads && Exec(s, e, setup).threads[id] == s.threads[id]
  {
  }

  /** Only an answered call leads to a truncation. */
  lemma JustAnswered(s: State, e: Event, setup: Setup)
    requires Moves(e, e.id, s) && e.id in Exec(s, e, setup).threads && Exec(s, e, setup).threads[e.id].Truncating?
    ensures e.Advance? && e.choice.summary.Some? && e.id in s.threads && s.threads[e.id].Summarizing?
    ensures var pc, now := s.threads[e.id], Exec(s, e, setup).threads[e.id]; pc.snapshot == now.snapshot && pc.split == now.split
    ensures Exec(s, e, setup).data.summary == e.choice.summary.value
  {
  }

  /** Only a truncation leads to counting. */
  lemma JustTruncated(s: State, e: Event, setup: Setup)
    requires Moves(e, e.id, s) && e.id in Exec(s, e, setup).threads && Exec(s, e, setup).threads[e.id].Counting?
    ensures e.Advance? && e.id in s.threads && s.threads[e.id].Truncating? && Exec(s, e, setup).data.summary == s.data.summary
  {
  }

  /** The same for what a thread counts as a compaction. */
  lemma {:induction false} SummaryBehindCount(start: State, events: seq<Event>, id: nat, setup: Setup)
      returns (k: nat, snapshot: seq<Message>, split: nat)
    requires Initial(start)
    requires var s := ExecAll(start, events, setup); id in s.threads && s.threads[id].Counting?
    ensures AnsweredAt(start, events, k, id, snapshot, split, setup)
    decreases |events|
  {
    k, snapshot, split := 0, [], 0;
    if events != [] {
      var init, e := Init(events), Last(events);
      var s := ExecAll(start, init, setup);
      InitLast(events);
      InitialInv(start);
      ExecInv(start, init, setup);
      ExecSnoc(start, init, e, setup);
      if Moves(e, id, s) {
        JustTruncated(s, e, setup);
        snapshot, split := s.threads[id].snapshot, s.threads[id].split;
        k := SummaryBehind(start, init, id, setup);
      } else {
        NotMoved(s, id, e, setup);
        k, snapshot, split := SummaryBehindCount(start, init, id, setup);
      }
      AnsweredStays(start, init, e, k, id, snapshot, split, setup);
    }
  }

  /** What an event may do to a session: nothing shortens its history but a truncation, and
      nothing counts a compaction but a thread that has truncated, one at a time. */
  lemma OnlyTruncation(s: State, e: Event, setup: Setup)
    ensures var next := Exec(s, e, setup);
      && (!(s.data.messages <= next.data.messages) ==> e.Advance? && e.id in s.threads && s.threads[e.id].Truncating?)
      && (next.data.compactionCount != s.data.compactionCount ==>
            e.Advance? && e.id in s.threads && s.threads[e.id].Counting? && next.data.compactionCount == s.data.compactionCount + 1)
  {
  }

  /** In every interleaving: whatever shortens the history or counts a compaction comes from a
      thread whose summarizing call has answered, and its answer is the session's summary. */
  lemma OnlyAnswered(start: State, events: seq<Event>, e: Event, setup: Setup) returns (k: nat, snapshot: seq<Message>, split: nat)
    requires Initial(start)
    requires var s, next := ExecAll(start, events, setup), ExecAll(start, events + [e], setup);
      !(s.data.messages <= next.data.messages) || next.data.compactionCount != s.data.compactionCount
    ensures AnsweredAt(start, events, k, e.id, snapshot, split, setup)
  {
    ExecSnoc(start, events, e, setup);
    var s := ExecAll(start, events, setup);
    OnlyTruncation(s, e, setup);
    if s.threads[e.id].Truncating? {
      snapshot, split := s.threads[e.id].snapshot, s.threads[e.id].split;
      k := SummaryBehind(start, events, e.id, setup);
    } else {
      k, snapshot, split := SummaryBehindCount(start, events, e.id, setup);
    }
  }

  // ---- memory is flushed first ----

  /** Past the flush and before the end of the compaction. */
  predicate PastFlush(pc: Pc) {
    pc.Snapshotting? || pc.Summarizing? || pc.Truncating? || pc.Counting?
  }

  /** The marker stands at a flush that was made, and at the current count for a thread past
      its flush. */
  ghost predicate Flushed(s: State, setup: Setup) {
    && (s.data.memoryFlushAt > 0 ==> s.data.memoryFlushAt in s.flushes)
    && (!setup.hasMemory ==> s.flushes == [] && forall id :: id in s.threads ==> !s.threads[id].Flushing? && !s.threads[id].Marking?)
    && (setup.hasMemory ==> forall id :: id in s.threads && PastFlush(s.threads[id]) ==> s.data.memoryFlushAt == s.data.compactionCount)
  }

  lemma CriticalFlushed(s: State, id: nat, c: Choice, setup: Setup)
    requires Inv(s) && Flushed(s, setup) && id in s.threads && Critical(s.threads[id])
    ensures Flushed(Step(s, id, c, setup), setup)
  {
    OthersNotCritical(s, id);
    FlushStep(s, id, Step(s, id, c, setup), s.threads[id], setup, c);
  }

  lemma FlushStep(s: State, id: nat, next: State, pc: Pc, setup: Setup, c: Choice)
    requires Flushed(s, setup) && id in s.threads && s.threads[id] == pc && Critical(pc) && FlushOk(s, pc) && next == Step(s, id, c, setup)
    requires s.data.memoryFlushAt <= s.data.compactionCount
    requires forall k :: k in s.threads && k != id ==> !Critical(s.threads[k])
    ensures Flushed(next, setup)
  {
    FlushMarks(s, id, next, pc, setup, c);
    assert forall k :: k in next.threads && k != id ==> next.threads[k] == s.threads[k];
  }

  lemma FlushMarks(s: State, id: nat, next: State, pc: Pc, setup: Setup, c: Choice)
    requires id in s.threads && s.threads[id] == pc && FlushOk(s, pc) && next == Step(s, id, c, setup)
    requires s.data.memoryFlushAt > 0 ==> s.data.memoryFlushAt in s.flushes
    ensures next.data.memoryFlushAt > 0 ==> next.data.memoryFlushAt in next.flushes
    ensures id in next.threads && (PastFlush(next.threads[id]) && !PastFlush(pc) ==>
              if pc.Marking? then next.data.memoryFlushAt == pc.count == next.data.compactionCount
              else !setup.hasMemory || next.data.memoryFlushAt >= next.data.compactionCount)
  {
    assert forall n :: n in s.flushes ==> n in next.flushes;
  }

  lemma FreeFlushed(s: State, id: nat, c: Choice, setup: Setup)
    requires Flushed(s, setup) && id in s.threads && !Critical(s.threads[id])
    ensures Flushed(Step(s, id, c, setup), setup)
  {
    var next := Step(s, id, c, setup);
    assert forall k :: k in next.threads && k != id ==> next.threads[k] == s.threads[k];
  }

  lemma {:induction false} ExecFlushed(s: State, events: seq<Event>, setup: Setup)
    requires Inv(s) && Flushed(s, setup)
    ensures Flushed(ExecAll(s, events, setup), setup)
    decreases |events|
  {
    if events != [] {
      var e := events[0];
      if e.Advance? && e.id in s.threads {
        if Critical(s.threads[e.id]) { CriticalFlushed(s, e.id, e.choice, setup); } else { FreeFlushed(s, e.id, e.choice, setup); }
      }
      ExecOneInv(s, e, setup);
      ExecFlushed(Exec(s, e, setup), events[1..], setup);
    }
  }

  /** In every interleaving, with memory: a thread past its flush has seen memory flushed at
      the current compaction count, unless there was no compaction yet. Without memory nothing
      is ever flushed. */
  lemma FlushedFirst(start: State, events: seq<Event>, id: nat, setup: Setup)
    requires Initial(start)
    requires id in ExecAll(start, events, setup).threads && PastFlush(ExecAll(start, events, setup).threads[id])
    ensures var s := ExecAll(start, events, setup);
      if setup.hasMemory then s.data.compactionCount > 0 ==> s.data.compactionCount in s.flushes
      else s.flushes == []
  {
    InitialInv(start);
    ExecFlushed(start, events, setup);
  }

  // ---- what a truncation cuts ----

  /** left is ms without the first split messages of the snapshot it extends, and without one
      more message for each message behind the snapshot. */
  ghost predicate CutsMore(ms: seq<Message>, snapshot: seq<Message>, split: nat, left: seq<Message>) {
    && snapshot <= ms && split <= |snapshot|
    && left == ms[split + |ms| - |snapshot|..]
  }

  lemma CutsAt(s: State, id: nat, c: Choice, setup: Setup)
    requires Inv(s) && id in s.threads && s.threads[id].Truncating?
    ensures CutsMore(s.data.messages, s.threads[id].snapshot, s.threads[id].split, Step(s, id, c, setup).data.messages)
  {
    var pc := s.threads[id];
    assert SnapshotOk(s, pc);
    assert pc.split < |pc.snapshot|;
  }

  /** In every interleaving a truncation cuts the summarized prefix and one more message for
      each message appended since the snapshot was taken. */
  lemma TruncationCuts(start: State, events: seq<Event>, id: nat, c: Choice, setup: Setup)
    requires Initial(start)
    requires var s := ExecAll(start, events, setup); id in s.threads && s.threads[id].Truncating?
    ensures var s := ExecAll(start, events, setup);
      CutsMore(s.data.messages, s.threads[id].snapshot, s.threads[id].split, Step(s, id, c, setup).data.messages)
  {
    InitialInv(start);
    ExecInv(start, events, setup);
    CutsAt(ExecAll(start, events, setup), id, c, setup);
  }

  /** Nothing is cut but the first split messages. */
  predicate CutsOnly(ms: seq<Message>, split: nat, left: seq<Message>) {
    split <= |ms| && left == ms[split..]
  }

  /** The history starts at a user message and holds as many turns as should be kept. */
  predicate LastTurns(left: seq<Message>) {
    left != [] && left[0].role == User && UserTurns(left) == 4
  }

  lemma ExactAt(s: State, id: nat, c: Choice, setup: Setup)
    requires Inv(s) && id in s.threads && s.threads[id].Truncating?
    ensures var pc, left := s.threads[id], Step(s, id, c, setup).data.messages;
      && (CutsOnly(s.data.messages, pc.split, left) <==> s.data.messages == pc.snapshot)
      && (s.data.messages == pc.snapshot ==> LastTurns(left))
  {
    var pc := s.threads[id];
    CutsAt(s, id, c, setup);
    var ms, since := s.data.messages, s.data.messages[|pc.snapshot|..];
    assert |ms[pc.split..]| == |ms| - pc.split;
    if since == [] {
      assert pc.snapshot + since == pc.snapshot;
    }
  }

  /** It cuts exactly what was summarized if and only if nothing was appended since the
      snapshot; the history then starts at a user message and holds the last turns. */
  lemma TruncationExact(start: State, events: seq<Event>, id: nat, c: Choice, setup: Setup)
    requires Initial(start)
    requires var s := ExecAll(start, events, setup); id in s.threads && s.threads[id].Truncating?
    ensures var s := ExecAll(start, events, setup);
      var pc, left := s.threads[id], Step(s, id, c, setup).data.messages;
      && (CutsOnly(s.data.messages, pc.split, left) <==> s.data.messages == pc.snapshot)
      && (s.data.messages == pc.snapshot ==> LastTurns(left))
  {
    InitialInv(start);
    ExecInv(start, events, setup);
    ExactAt(ExecAll(start, events, setup), id, c, setup);
  }

  // ---- an interleaving that loses a message ----

  lemma ExecCons(s: State, e: Event, rest: seq<Event>, setup: Setup)
    ensures ExecAll(s, [e] + rest, setup) == ExecAll(Exec(s, e, setup), rest, setup)
  {
    assert ([e] + rest)[1..] == rest;
  }

  function Go(setup: Setup): Event {
    Advance(0, Choice(setup.threshold + 1, Some("")))
  }

  /** Thread 0 from its snapshot on, with a lock to take first. */
  function FromLock(setup: Setup, rest: seq<Event>): seq<Event> {
    [Go(setup)] + ([Go(setup)] + ([Go(setup)] + ([Go(setup)] + rest)))
  }

  lemma TakesSnapshot(s: State, setup: Setup, split: nat, rest: seq<Event>)
    requires !s.locked && 0 in s.threads && s.threads[0] == Locking && s.data.memoryFlushAt >= s.data.compactionCount
    requires 0 < split <= |s.data.messages| && SplitOf(s.data.messages) == split
    ensures ExecAll(s, FromLock(setup, rest), setup)
         == ExecAll(s.(data := s.data.(summary := ""), locked := true,
                       threads := s.threads[0 := Truncating(s.data.messages, split)]), rest, setup)
  {
    var go, held := Go(setup), s.(locked := true);
    var two, three, four := Move(held, 0, FlushDue), Move(held, 0, Snapshotting), Move(held, 0, Summarizing(s.data.messages, split));
    ExecCons(s, go, [go] + ([go] + ([go] + rest)), setup);
    ExecCons(two, go, [go] + ([go] + rest), setup);
    ExecCons(three, go, [go] + rest, setup);
    ExecCons(four, go, rest, setup);
    assert Exec(s, go, setup) == two && Exec(two, go, setup) == three && Exec(three, go, setup) == four;
    assert four.threads[0 := Truncating(s.data.messages, split)] == s.threads[0 := Truncating(s.data.messages, split)];
  }

  /** Thread 0 up to its truncation. */
  function UpToTruncation(setup: Setup, rest: seq<Event>): seq<Event> {
    [Finish(0, [])] + ([Go(setup)] + ([Go(setup)] + FromLock(setup, rest)))
  }

  lemma ReachesTruncation(s: State, setup: Setup, split: nat, rest: seq<Event>)
    requires !s.locked && 0 !in s.threads && s.data.memoryFlushAt >= s.data.compactionCount
    requires 0 < split <= |s.data.messages| && SplitOf(s.data.messages) == split
    ensures ExecAll(s, UpToTruncation(setup, rest), setup)
         == ExecAll(s.(data := s.data.(summary := ""), locked := true,
                       threads := s.threads[0 := Truncating(s.data.messages, split)]), rest, setup)
  {
    var go := Go(setup);
    var one, two, three := Move(s, 0, Appending([])), Move(s, 0, Checking), Move(s, 0, Locking);
    ExecCons(s, Finish(0, []), [go] + ([go] + FromLock(setup, rest)), setup);
    ExecCons(one, go, [go] + FromLock(setup, rest), setup);
    ExecCons(two, go, FromLock(setup, rest), setup);
    assert Exec(s, Finish(0, []), setup) == one && Exec(one, go, setup) == two && Exec(two, go, setup) == three;
    TakesSnapshot(three, setup, split, rest);
    assert three.threads[0 := Truncating(s.data.messages, split)] == s.threads[0 := Truncating(s.data.messages, split)];
  }

  /** Five turns; the second run appends a message while the first one's summary is on its
      way. Only the first turn was summarized, but the truncation cuts the second as well. */
  lemma TruncationLoses(start: State, setup: Setup, said: seq<string>, m: Message)
    requires Initial(start) && start.data.compactionCount == 0 && |said| == 5
    requires start.data.messages == [Plain(User, said[0]), Plain(User, said[1]), Plain(User, said[2]), Plain(User, said[3]), Plain(User, said[4])]
    ensures var second := [Finish(1, [m])] + [Advance(1, Choice(0, None))];
      var s := ExecAll(start, UpToTruncation(setup, second), setup);
      && 0 in s.threads && s.threads[0] == Truncating(start.data.messages, 1)
      && s.data.messages == start.data.messages + [m]
      && Step(s, 0, Choice(0, None), setup).data.messages == s.data.messages[2..]
  {
    var ms := start.data.messages;
    FiveTurnsSplit(ms);
    var first, last := Finish(1, [m]), Advance(1, Choice(0, None));
    ReachesTruncation(start, setup, 1, [first] + [last]);
    var s0 := start.(data := start.data.(summary := ""), locked := true, threads := start.threads[0 := Truncating(ms, 1)]);
    var s1 := Move(s0, 1, Appending([m]));
    ExecCons(s0, first, [last], setup);
    assert Exec(s0, first, setup) == s1;
    assert [last] + [] == [last];
    ExecCons(s1, last, [], setup);
    assert [m][1..] == [];
    var s := Exec(s1, last, setup);
    assert s.threads[0] == Truncating(ms, 1) && s.data.messages == ms + [m];
    assert |s.data.messages| - 4 == 2;
  }

  lemma FiveTurnsSplit(ms: seq<Message>)
    requires |ms| == 5 && forall i :: 0 <= i < 5 ==> ms[i].role == User
    ensures SplitOf(ms) == 1
  {
    AllUsers(ms);
    AllUsers(ms[1..]);
    TurnStartUnique(ms, KEEP_TURNS, SplitOf(ms), 1);
  }

  lemma {:induction false} AllUsers(ms: seq<Message>)
    requires forall i :: 0 <= i < |ms| ==> ms[i].role == User
    ensures UserTurns(ms) == |ms|
  {
    if ms != [] { AllUsers(ms[1..]); }
  }

  // ---- a thread that is not interrupted ----

  /** n steps of one thread, with the same outside decisions. */
  ghost function Steps(s: State, id: nat, c: Choice, setup: Setup, n: nat): State
    requires id in s.threads
    decreases n
  {
    if n == 0 then s else Steps(Step(s, id, c, setup), id, c, setup, n - 1)
  }

  /** The thread is done and the lock is free; nothing but data and flushes is different. */
  function EndWith(s: State, id: nat, data: SessionData, flushes: seq<nat>): State {
    State(data, false, s.threads[id := Done], s.appended, flushes)
  }

  lemma EndMoved(s: State, next: State, id: nat, pc: Pc, data: SessionData, flushes: seq<nat>)
    requires next.threads == s.threads[id := pc] && next.appended == s.appended
    ensures EndWith(next, id, data, flushes) == EndWith(s, id, data, flushes)
  {
    assert s.threads[id := pc][id := Done] == s.threads[id := Done];
  }

  lemma {:induction false} DoneStays(s: State, id: nat, c: Choice, setup: Setup, n: nat)
    requires id in s.threads && s.threads[id] == Done
    ensures Steps(s, id, c, setup, n) == s
    decreases n
  {
    if n > 0 { DoneStays(s, id, c, setup, n - 1); }
  }

  lemma FromUnlocking(s: State, id: nat, c: Choice, setup: Setup, n: nat)
    requires id in s.threads && s.threads[id] == Unlocking && n >= 1
    ensures Steps(s, id, c, setup, n) == EndWith(s, id, s.data, s.flushes)
  {
    DoneStays(Step(s, id, c, setup), id, c, setup, n - 1);
  }

  /** From the truncation on. */
  lemma FromTruncating(s: State, id: nat, c: Choice, setup: Setup, n: nat, split: nat)
    requires id in s.threads && s.threads[id] == Truncating(s.data.messages, split) && 0 < split < |s.data.messages| && n >= 3
    ensures Steps(s, id, c, setup, n)
         == EndWith(s, id, s.data.(messages := s.data.messages[split..], compactionCount := s.data.compactionCount + 1), s.flushes)
  {
    var one := Step(s, id, c, setup);
    var two := Step(one, id, c, setup);
    assert Steps(s, id, c, setup, n) == Steps(one, id, c, setup, n - 1) == Steps(two, id, c, setup, n - 2);
    FromUnlocking(two, id, c, setup, n - 2);
    EndMoved(s, one, id, Counting, two.data, two.flushes);
    EndMoved(one, two, id, Unlocking, two.data, two.flushes);
  }

  /** What a compaction makes of the data: the last four turns stay, the summary is the answer. */
  ghost predicate Summed(was: SessionData, summary: Option<string>, now: SessionData) {
    if UserTurns(was.messages) <= 4 || summary.None? then now == was
    else
      && IsSuffix(now.messages, was.messages) && LastTurns(now.messages)
      && now == was.(summary := summary.value, messages := now.messages, compactionCount := was.compactionCount + 1)
  }

  lemma FromSnapshotting(s: State, id: nat, c: Choice, setup: Setup, n: nat) returns (data: SessionData)
    requires id in s.threads && s.threads[id] == Snapshotting && n >= 5
    ensures Summed(s.data, c.summary, data) && Steps(s, id, c, setup, n) == EndWith(s, id, data, s.flushes)
  {
    var split := SplitOf(s.data.messages);
    var one := Step(s, id, c, setup);
    SplitWhen(s.data.messages, split);
    data := s.data;
    if split == 0 {
      FromUnlocking(one, id, c, setup, n - 1);
      EndMoved(s, one, id, Unlocking, data, s.flushes);
    } else {
      data := FromSummarizing(one, id, c, setup, n - 1, split);
      EndMoved(s, one, id, Summarizing(s.data.messages, split), data, s.flushes);
    }
  }

  lemma FromSummarizing(s: State, id: nat, c: Choice, setup: Setup, n: nat, split: nat) returns (data: SessionData)
    requires id in s.threads && s.threads[id] == Summarizing(s.data.messages, split) && n >= 4
    requires 0 < split < |s.data.messages| && IsTurnStart(s.data.messages, KEEP_TURNS, split) && UserTurns(s.data.messages) > 4
    ensures Summed(s.data, c.summary, data) && Steps(s, id, c, setup, n) == EndWith(s, id, data, s.flushes)
  {
    var one := Step(s, id, c, setup);
    if c.summary.None? {
      data := s.data;
      FromUnlocking(one, id, c, setup, n - 1);
      EndMoved(s, one, id, Unlocking, data, s.flushes);
    } else {
      data := s.data.(summary := c.summary.value, messages := s.data.messages[split..], compactionCount := s.data.compactionCount + 1);
      FromTruncating(one, id, c, setup, n - 1, split);
      EndMoved(s, one, id, Truncating(s.data.messages, split), data, s.flushes);
    }
  }

  /** There is something to cut exactly when there are more than four turns. */
  lemma SplitWhen(ms: seq<Message>, split: nat)
    requires split <= |ms| && IsTurnStart(ms, KEEP_TURNS, split)
    ensures split > 0 <==> UserTurns(ms) > 4
    ensures split > 0 ==> split < |ms|
  {
  }

  /** From the flush on: memory is flushed and marked when it is due. */
  lemma FromFlushDue(s: State, id: nat, c: Choice, setup: Setup, n: nat) returns (data: SessionData)
    requires id in s.threads && s.threads[id] == FlushDue && n >= 8
    ensures var due := setup.hasMemory && s.data.memoryFlushAt < s.data.compactionCount;
      var was := if due then s.data.(memoryFlushAt := s.data.compactionCount) else s.data;
      && Summed(was, c.summary, data)
      && Steps(s, id, c, setup, n) == EndWith(s, id, data, if due then s.flushes + [s.data.compactionCount] else s.flushes)
  {
    var one := Step(s, id, c, setup);
    if setup.hasMemory && s.data.memoryFlushAt < s.data.compactionCount {
      var count := s.data.compactionCount;
      var two := Step(one, id, c, setup);
      var three := Step(two, id, c, setup);
      assert Steps(s, id, c, setup, n) == Steps(one, id, c, setup, n - 1) == Steps(two, id, c, setup, n - 2) == Steps(three, id, c, setup, n - 3);
      data := FromSnapshotting(three, id, c, setup, n - 3);
      EndMoved(s, one, id, Flushing(count), data, three.flushes);
      EndMoved(one, two, id, Marking(count), data, three.flushes);
      EndMoved(two, three, id, Snapshotting, data, three.flushes);
    } else {
      data := FromSnapshotting(one, id, c, setup, n - 1);
      EndMoved(s, one, id, Snapshotting, data, s.flushes);
    }
  }

  /** What the check, the flush and the compaction make of the data, one after the other. */
  ghost predicate Maintained(s: State, c: Choice, setup: Setup, data: SessionData, flushes: seq<nat>) {
    if |s.data.messages| <= 50 && c.tokenEstimate <= setup.threshold then data == s.data && flushes == s.flushes
    else
      var due := setup.hasMemory && s.data.memoryFlushAt < s.data.compactionCount;
      && Summed(if due then s.data.(memoryFlushAt := s.data.compactionCount) else s.data, c.summary, data)
      && flushes == if due then s.flushes + [s.data.compactionCount] else s.flushes
  }

  lemma FromChecking(s: State, id: nat, c: Choice, setup: Setup, n: nat) returns (data: SessionData, flushes: seq<nat>)
    requires id in s.threads && s.threads[id] == Checking && !s.locked && n >= 10
    ensures Maintained(s, c, setup, data, flushes) && Steps(s, id, c, setup, n) == EndWith(s, id, data, flushes)
  {
    var one := Step(s, id, c, setup);
    if |s.data.messages| <= MESSAGE_LIMIT && c.tokenEstimate <= setup.threshold {
      data, flushes := s.data, s.flushes;
      DoneStays(one, id, c, setup, n - 1);
    } else {
      var two := Step(one, id, c, setup);
      assert Steps(s, id, c, setup, n) == Steps(one, id, c, setup, n - 1) == Steps(two, id, c, setup, n - 2);
      data := FromFlushDue(two, id, c, setup, n - 2);
      flushes := if setup.hasMemory && s.data.memoryFlushAt < s.data.compactionCount then s.flushes + [s.data.compactionCount] else s.flushes;
      EndMoved(s, one, id, Locking, data, flushes);
      EndMoved(one, two, id, FlushDue, data, flushes);
    }
  }

  function Ten(e: Event): seq<Event> {
    seq(10, i => e)
  }

  lemma TenTimes(e: Event)
    ensures |Ten(e)| == 10 && forall i :: 0 <= i < |Ten(e)| ==> Ten(e)[i] == e
  {
  }

  lemma {:induction false} ExecSteps(s: State, id: nat, c: Choice, events: seq<Event>, setup: Setup)
    requires id in s.threads && forall i :: 0 <= i < |events| ==> events[i] == Advance(id, c)
    ensures ExecAll(s, events, setup) == Steps(s, id, c, setup, |events|)
    decreases |events|
  {
    if events != [] { ExecSteps(Step(s, id, c, setup), id, c, events[1..], setup); }
  }

  /** A thread that is not interrupted does what one goroutine would do alone: nothing when the
      history is neither long nor large; otherwise it flushes memory when that is due, and
      then, when there are more than four turns and the summarizing call answers, leaves the
      last four turns, the answer as summary, and one more compaction. */
  lemma Alone(s: State, id: nat, c: Choice, setup: Setup) returns (data: SessionData, flushes: seq<nat>)
    requires id in s.threads && s.threads[id] == Checking && !s.locked
    ensures Maintained(s, c, setup, data, flushes)
    ensures ExecAll(s, Ten(Advance(id, c)), setup) == EndWith(s, id, data, flushes)
  {
    TenTimes(Advance(id, c));
    ExecSteps(s, id, c, Ten(Advance(id, c)), setup);
    data, flushes := FromChecking(s, id, c, setup, 10);
  }
}
