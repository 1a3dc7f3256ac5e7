/** The detector of repeated tool calls: the same call with the same result, counted in a
    window of recent calls. Hashes are represented by the values they stand for. */
module ToolLoop {
  import opened JsonValues
  import opened Ordering
  import opened Wrappers

  const HISTORY_SIZE := 30
  const WARNING_THRESHOLD := 3
  const CRITICAL_THRESHOLD := 5

  datatype Pair = Pair(call: string, result: string)

  datatype Record = Record(toolName: string, argsHash: string, resultHash: Option<string>)

  datatype Level = Quiet | Warning | Critical

  function Recent<T>(log: seq<T>): seq<T> {
    if |log| <= HISTORY_SIZE then log else log[|log| - HISTORY_SIZE..]
  }

  function LevelOf(count: nat): Level {
    if count >= CRITICAL_THRESHOLD then Critical else if count >= WARNING_THRESHOLD then Warning else Quiet
  }

  /** How often the last pair of the log occurs in the window. */
  function RepeatCount(log: seq<Pair>): nat
    requires log != []
  {
    multiset(Recent(log))[log[|log| - 1]]
  }

  /** What the detector answers right after the last pair was recorded. */
  function Verdict(log: seq<Pair>): Level
    requires log != []
  {
    LevelOf(RepeatCount(log))
  }

  /** The verdict and the count on the last recorded pair, for any log. */
  function VerdictOf(log: seq<Pair>): Level {
    if log == [] then Quiet else Verdict(log)
  }

  function CountOf(log: seq<Pair>): nat {
    if log == [] then 0 else RepeatCount(log)
  }

  /** The records hold exactly these pairs, all with their results. */
  ghost predicate Holds(history: seq<Record>, pairs: seq<Pair>) {
    && |history| == |pairs|
    && forall i :: 0 <= i < |pairs| ==>
      history[i].argsHash == pairs[i].call && history[i].resultHash == Some(pairs[i].result)
  }

  lemma RecentSnoc<T>(s: seq<T>, x: T)
    ensures Recent(Recent(s) + [x]) == Recent(s + [x])
    ensures Recent(s + [x]) != [] && Recent(s + [x])[|Recent(s + [x])| - 1] == x
  {
  }

  lemma RecentUpdateLast<T>(s: seq<T>, x: T)
    requires s != []
    ensures Recent(s) != [] && Recent(s)[|Recent(s)| - 1 := x] == Recent(s[|s| - 1 := x])
  {
  }

  lemma RecentHolds(records: seq<Record>, log: seq<Pair>)
    requires Holds(records, log)
    ensures Holds(Recent(records), Recent(log))
  {
  }

  predicate AwaitsResult(r: Record, argsHash: string) {
    r.argsHash == argsHash && r.resultHash == None
  }

  /** The newest record of the call that has no result yet receives it. */
  function FillLast(h: seq<Record>, argsHash: string, resultHash: string): (r: seq<Record>)
    ensures |r| == |h|
  {
    if h == [] then []
    else
      var n := |h| - 1;
      if AwaitsResult(h[n], argsHash) then h[..n] + [h[n].(resultHash := Some(resultHash))]
      else FillLast(h[..n], argsHash, resultHash) + [h[n]]
  }

  class ToolLoopState {
    var history: seq<Record>
    /** Every record ever made; history keeps the recent ones. */
    ghost var records: seq<Record>
    /** Every completed call. */
    ghost var log: seq<Pair>
    const hashCall: (string, map<string, Json>) -> string
    const hashResult: string -> string
    /** The wording of a warning or a stop. */
    const phrase: (Level, string, nat) -> string

    ghost predicate Valid()
      reads this
    {
      history == Recent(records) && Holds(records, log)
    }

    /** A call was recorded and its result is still to come. */
    ghost predicate Awaiting(argsHash: string)
      reads this
    {
      && history == Recent(records)
      && |records| == |log| + 1
      && AwaitsResult(records[|log|], argsHash)
      && Holds(records[..|log|], log)
    }

    constructor (hashCall: (string, map<string, Json>) -> string, hashResult: string -> string, phrase: (Level, string, nat) -> string)
      ensures Valid() && log == []
      ensures this.hashCall == hashCall && this.hashResult == hashResult && this.phrase == phrase
    {
      this.history, this.records, this.log := [], [], [];
      this.hashCall, this.hashResult, this.phrase := hashCall, hashResult, phrase;
    }

    method RecordCall(toolName: string, args: map<string, Json>) returns (argsHash: string)
      requires Valid()
      modifies this
      ensures argsHash == hashCall(toolName, args) && Awaiting(argsHash) && log == old(log)
    {
      argsHash := hashCall(toolName, args);
      RecentSnoc(records, Record(toolName, argsHash, None));
      history := history + [Record(toolName, argsHash, None)];
      if |history| > HISTORY_SIZE {
        history := history[|history| - HISTORY_SIZE..];
      }
      records := records + [Record(toolName, argsHash, None)];
      assert records[..|log|] == old(records);
    }

    method RecordResult(argsHash: string, resultContent: string)
      modifies this
      ensures history == FillLast(old(history), argsHash, hashResult(resultContent))
      ensures old(Awaiting(argsHash)) ==> Valid() && log == old(log) + [Pair(argsHash, hashResult(resultContent))]
    {
      var resultHash := hashResult(resultContent);
      if Awaiting(argsHash) {
        RecentUpdateLast(records, records[|log|].(resultHash := Some(resultHash)));
        log := log + [Pair(argsHash, resultHash)];
        records := records[|records| - 1 := records[|records| - 1].(resultHash := Some(resultHash))];
      }
      history := FillNewest(history, argsHash, resultHash);
    }

    method Detect(toolName: string, argsHash: string) returns (level: Level, message: string)
      requires Valid()
      ensures level == LevelOf(CountFor(Recent(log), argsHash))
      ensures message == if level == Quiet then "" else phrase(level, toolName, CountFor(Recent(log), argsHash))
    {
      RecentHolds(records, log);
      if |history| < WARNING_THRESHOLD {
        CountForBound(Recent(log), argsHash);
        return Quiet, "";
      }
      var noProgressCount := CountRepeats(history, Recent(log), argsHash);
      level := LevelOf(noProgressCount);
      message := if level == Quiet then "" else phrase(level, toolName, noProgressCount);
    }
  }

  /** Walks back to the newest record of the call that still lacks a result. */
  method FillNewest(h: seq<Record>, argsHash: string, resultHash: string) returns (r: seq<Record>)
    ensures r == FillLast(h, argsHash, resultHash)
  {
    var i := |h| - 1;
    assert h[..i + 1] == h;
    while i >= 0
      invariant -1 <= i < |h|
      invariant FillLast(h, argsHash, resultHash) == FillLast(h[..i + 1], argsHash, resultHash) + h[i + 1..]
    {
      assert h[..i + 1][..i] == h[..i];
      if AwaitsResult(h[i], argsHash) {
        return h[i := h[i].(resultHash := Some(resultHash))];
      }
      assert h[i..] == [h[i]] + h[i + 1..];
      i := i - 1;
    }
    return h;
  }

  /** Counts, from the newest record back, how often the newest result of this call
      occurred for it. */
  method CountRepeats(h: seq<Record>, ghost pairs: seq<Pair>, argsHash: string) returns (count: nat)
    requires Holds(h, pairs)
    ensures count == CountFor(pairs, argsHash)
  {
    count := 0;
    var last: Option<string> := None;
    var i := |h| - 1;
    while i >= 0
      invariant -1 <= i < |h|
      invariant last == LastResult(pairs[i + 1..], argsHash)
      invariant count == CountFor(pairs[i + 1..], argsHash)
    {
      var rec := h[i];
      CountForStep(pairs, i, argsHash);
      if rec.argsHash == argsHash && rec.resultHash.Some? {
        if last == None {
          last := rec.resultHash;
        }
        if rec.resultHash == last {
          count := count + 1;
        }
      }
      i := i - 1;
    }
    assert pairs[0..] == pairs;
  }

  /** The newest result recorded for a call. */
  function LastResult(pairs: seq<Pair>, call: string): Option<string> {
    if pairs == [] then None
    else if pairs[|pairs| - 1].call == call then Some(pairs[|pairs| - 1].result)
    else LastResult(pairs[..|pairs| - 1], call)
  }

  function CountFor(pairs: seq<Pair>, call: string): nat {
    match LastResult(pairs, call)
    case None => 0
    case Some(r) => multiset(pairs)[Pair(call, r)]
  }

  lemma {:induction false} LastResultCons(p: Pair, pairs: seq<Pair>, call: string)
    ensures LastResult([p] + pairs, call) ==
      if LastResult(pairs, call).Some? then LastResult(pairs, call)
      else if p.call == call then Some(p.result) else None
  {
    if pairs == [] {
      assert [p] + pairs == [p] && [p][..0] == [];
    } else {
      assert ([p] + pairs)[..|pairs|] == [p] + pairs[..|pairs| - 1];
      LastResultCons(p, pairs[..|pairs| - 1], call);
    }
  }

  lemma {:induction false} NoResultNoCount(pairs: seq<Pair>, p: Pair)
    ensures LastResult(pairs, p.call) == None ==> multiset(pairs)[p] == 0
  {
    if pairs != [] {
      NoResultNoCount(pairs[..|pairs| - 1], p);
      assert pairs == pairs[..|pairs| - 1] + [pairs[|pairs| - 1]];
    }
  }

  lemma CountForStep(pairs: seq<Pair>, i: nat, call: string)
    requires i < |pairs|
    ensures LastResult(pairs[i..], call) ==
      if LastResult(pairs[i + 1..], call).Some? then LastResult(pairs[i + 1..], call)
      else if pairs[i].call == call then Some(pairs[i].result) else None
    ensures CountFor(pairs[i..], call) == CountFor(pairs[i + 1..], call)
      + if LastResult(pairs[i..], call) == Some(pairs[i].result) && pairs[i].call == call then 1 else 0
  {
    assert pairs[i..] == [pairs[i]] + pairs[i + 1..];
    LastResultCons(pairs[i], pairs[i + 1..], call);
    NoResultNoCount(pairs[i + 1..], Pair(call, pairs[i].result));
  }

  lemma CountForBound(pairs: seq<Pair>, call: string)
    ensures CountFor(pairs, call) <= |pairs|
  {
    match LastResult(pairs, call) {
      case None =>
      case Some(r) => assert multiset(pairs)[Pair(call, r)] <= |multiset(pairs)|;
    }
  }

  /** Right after a pair is recorded, the count is the number of times that pair occurs in
      the window: so Detect answers Verdict. */
  lemma DetectCountsPair(log: seq<Pair>)
    requires log != []
    ensures CountFor(Recent(log), log[|log| - 1].call) == RepeatCount(log)
  {
  }

  // ---- a run cannot go on for long with few distinct pairs ----

  lemma {:induction false} CountsFillUp(m: multiset<Pair>, keys: set<Pair>)
    requires forall p :: p in m ==> p in keys && m[p] < CRITICAL_THRESHOLD
    ensures |m| <= (CRITICAL_THRESHOLD - 1) * |keys|
    decreases keys
  {
    if keys == {} {
      assert m == multiset{};
    } else {
      var p :| p in keys;
      CountsFillUp(m[p := 0], keys - {p});
    }
  }

  lemma {:induction false} LastOccurrence(s: seq<Pair>, p: Pair) returns (j: nat)
    requires p in s
    ensures j < |s| && s[j] == p && multiset(s[..j + 1])[p] == multiset(s)[p]
  {
    var last := |s| - 1;
    assert s == s[..last] + [s[last]];
    if s[last] == p {
      j := last;
      assert s[..last + 1] == s;
    } else {
      j := LastOccurrence(s[..last], p);
      assert s[..last][..j + 1] == s[..j + 1];
    }
  }

  /** A detector with these verdicts was never critical, at any point of the log. */
  ghost predicate Harmless(verdict: seq<Pair> -> Level, log: seq<Pair>) {
    log != [] ==> verdict(log) != Critical && Harmless(verdict, log[..|log| - 1])
  }

  /** It was not critical before the last pair, as every run leaves the log. */
  ghost predicate NeverCriticalBefore(verdict: seq<Pair> -> Level, log: seq<Pair>) {
    log != [] ==> Harmless(verdict, log[..|log| - 1])
  }

  lemma {:induction false} HarmlessAt(verdict: seq<Pair> -> Level, log: seq<Pair>, p: seq<Pair>)
    requires Harmless(verdict, log) && p != [] && p <= log
    ensures verdict(p) != Critical
  {
    if |p| == |log| {
      assert p == log;
    } else {
      HarmlessAt(verdict, log[..|log| - 1], p);
    }
  }

  /** Some prefix of a long enough log with few distinct pairs is critical. */
  lemma CriticalPrefix(log: seq<Pair>) returns (p: seq<Pair>)
    requires (CRITICAL_THRESHOLD - 1) * |Elements(log)| < |log| <= HISTORY_SIZE
    ensures p != [] && p <= log && Verdict(p) == Critical
  {
    assert forall x :: x in multiset(log) ==> x in Elements(log);
    if x :| x in multiset(log) && multiset(log)[x] >= CRITICAL_THRESHOLD {
      var j := LastOccurrence(log, x);
      p := log[..j + 1];
    } else {
      CountsFillUp(multiset(log), Elements(log));
    }
  }

  /** With at most k distinct pairs, k at most 7, a run records at most 4k+1 calls. */
  lemma LoopBound(log: seq<Pair>, k: nat)
    requires NeverCriticalBefore(VerdictOf, log) && |Elements(log)| <= k <= 7
    ensures |log| <= (CRITICAL_THRESHOLD - 1) * k + 1
  {
    var size := (CRITICAL_THRESHOLD - 1) * k + 1;
    if |log| > size {
      var s := log[..size];
      assert Elements(s) <= Elements(log);
      SubsetSize(Elements(s), Elements(log));
      var p := CriticalPrefix(s);
      assert p <= log[..|log| - 1];
      HarmlessAt(VerdictOf, log[..|log| - 1], p);
    }
  }

  lemma {:induction false} SubsetSize<T>(a: set<T>, b: set<T>)
    requires a <= b
    ensures |a| <= |b|
    decreases a
  {
    if a != {} {
      var x :| x in a;
      SubsetSize(a - {x}, b - {x});
    }
  }
}
