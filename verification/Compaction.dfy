/** Compacting the messages of a running loop: a summary replaces everything before a
    boundary that never separates a tool result from its call. */
module Compaction {
  import opened Messages
  import opened Sequences
  import opened Wrappers

  /** A kept part may not start at a tool result, nor at a message that opens calls. */
  predicate AtPair(m: Message) {
    m.role == Tool || OpensCalls(m)
  }

  function KeepCount(n: nat): (k: nat)
    ensures n >= 6 ==> 4 <= k < n
  {
    if n * 3 / 10 > 4 then n * 3 / 10 else 4
  }

  /** The boundary: the last position at or before `limit` that is not at a pair, or 0. */
  ghost predicate IsBoundary(ms: seq<Message>, limit: nat, split: nat) {
    && split <= limit < |ms|
    && (split > 0 ==> !AtPair(ms[split]))
    && forall i :: split < i <= limit ==> AtPair(ms[i])
  }

  lemma BoundaryUnique(ms: seq<Message>, limit: nat, a: nat, b: nat)
    requires IsBoundary(ms, limit, a) && IsBoundary(ms, limit, b)
    ensures a == b
  {
  }

  /** summary is the answer of the summarizing call, with its prefix; None when it fails. */
  ghost predicate IsCompacted(ms: seq<Message>, summary: Option<string>, out: Option<seq<Message>>) {
    if |ms| < 6 then out == None
    else exists split: nat :: IsBoundary(ms, |ms| - KeepCount(|ms|), split) && out == CutAt(ms, summary, split)
  }

  function CutAt(ms: seq<Message>, summary: Option<string>, split: nat): Option<seq<Message>>
    requires split <= |ms|
  {
    if split <= 1 || summary.None? then None else Some([Plain(User, summary.value)] + ms[split..])
  }

  method CompactMessagesInPlace(messages: seq<Message>, summary: Option<string>) returns (out: Option<seq<Message>>)
    ensures IsCompacted(messages, summary, out)
  {
    if |messages| < 6 {
      return None;
    }
    var keepCount := 4;
    var minKeep := |messages| * 3 / 10;
    if minKeep > keepCount {
      keepCount := minKeep;
    }
    var splitIdx := |messages| - keepCount;
    ghost var limit := splitIdx;
    while splitIdx > 0
      invariant 0 <= splitIdx <= limit < |messages|
      invariant forall i :: splitIdx < i <= limit ==> AtPair(messages[i])
    {
      var m := messages[splitIdx];
      if m.role == Tool || (m.role == Assistant && |m.toolCalls| > 0) {
        splitIdx := splitIdx - 1;
      } else {
        break;
      }
    }
    assert IsBoundary(messages, limit, splitIdx);
    if splitIdx <= 1 || summary.None? {
      out := None;
    } else {
      out := Some([Plain(User, summary.value)] + messages[splitIdx..]);
    }
    assert out == CutAt(messages, summary, splitIdx);
  }

  /** The outcome is determined by the messages and the summary. */
  lemma CompactedUnique(ms: seq<Message>, summary: Option<string>, a: Option<seq<Message>>, b: Option<seq<Message>>)
    requires IsCompacted(ms, summary, a) && IsCompacted(ms, summary, b)
    ensures a == b
  {
    if |ms| >= 6 {
      var limit := |ms| - KeepCount(|ms|);
      var i: nat :| IsBoundary(ms, limit, i) && a == CutAt(ms, summary, i);
      var j: nat :| IsBoundary(ms, limit, j) && b == CutAt(ms, summary, j);
      BoundaryUnique(ms, limit, i, j);
    }
  }

  lemma {:induction false} BoundaryExists(ms: seq<Message>, limit: nat) returns (split: nat)
    requires limit < |ms|
    ensures IsBoundary(ms, limit, split)
  {
    if limit == 0 || !AtPair(ms[limit]) {
      split := limit;
    } else {
      split := BoundaryExists(ms, limit - 1);
    }
  }

  lemma CompactedExists(ms: seq<Message>, summary: Option<string>)
    ensures exists out :: IsCompacted(ms, summary, out)
  {
    if |ms| < 6 {
      assert IsCompacted(ms, summary, None);
    } else {
      var split := BoundaryExists(ms, |ms| - KeepCount(|ms|));
      assert IsCompacted(ms, summary, CutAt(ms, summary, split));
    }
  }

  /** Compaction as a function, for describing whole runs. */
  ghost function Compacted(ms: seq<Message>, summary: Option<string>): (out: Option<seq<Message>>)
    ensures IsCompacted(ms, summary, out)
  {
    CompactedExists(ms, summary);
    var out :| IsCompacted(ms, summary, out);
    out
  }

  /** Whether a list can be compacted: it is long enough, the summarizing call answers, and
      some message behind the first two and before the kept ones is not at a pair. */
  ghost predicate CanCut(ms: seq<Message>, summary: Option<string>) {
    |ms| >= 6 && summary.Some? && exists i :: 2 <= i <= |ms| - KeepCount(|ms|) && !AtPair(ms[i])
  }

  /** Compaction happens exactly then. */
  lemma CompactedWhen(ms: seq<Message>, summary: Option<string>, out: Option<seq<Message>>)
    requires IsCompacted(ms, summary, out)
    ensures out.Some? <==> CanCut(ms, summary)
  {
    if |ms| >= 6 {
      var limit := |ms| - KeepCount(|ms|);
      var split: nat :| IsBoundary(ms, limit, split) && out == CutAt(ms, summary, split);
      if split >= 2 {
        assert !AtPair(ms[split]);
      }
    }
  }

  /** A compacted list is one summary followed by a suffix of at least KeepCount messages;
      the first two messages, and so the system prompt, are always summarized away. Every
      pair in the kept part stays whole. CompactedWhen says when this happens. */
  lemma CompactedShape(ms: seq<Message>, summary: Option<string>, out: Option<seq<Message>>)
    requires IsCompacted(ms, summary, out) && out.Some?
    ensures summary.Some? && |ms| >= 6
    ensures out.value != [] && out.value[0] == Plain(User, summary.value)
    ensures IsSuffix(out.value[1..], ms) && KeepCount(|ms|) <= |out.value| - 1 <= |ms| - 2
    ensures WellPaired(ms) ==> WellPaired(out.value)
  {
    var split: nat :| IsBoundary(ms, |ms| - KeepCount(|ms|), split) && out == CutAt(ms, summary, split);
    var head, tail := [Plain(User, summary.value)], ms[split..];
    assert out.value == head + tail && out.value[1..] == tail;
    assert ms == ms[..split] + tail;
    WellPairedConcat(ms[..split], tail);
    WellPairedConcat(head, tail);
  }

  /** How many messages are to be kept, in numbers: four of up to sixteen, and then three in
      ten, rounded down. */
  predicate Share(n: nat, k: nat) {
    if n <= 16 then k == 4 else 10 * k <= 3 * n < 10 * k + 10
  }

  /** What a compacted list keeps: everything from the last message on that is followed by at
      least that share and neither is a tool result nor opens calls; so exactly that share when
      no pair stands at the boundary. */
  lemma CompactedShare(ms: seq<Message>, summary: Option<string>, out: Option<seq<Message>>, k: nat)
    requires IsCompacted(ms, summary, out) && |ms| >= 6 && summary.Some? && Share(|ms|, k)
    ensures 4 <= k <= |ms| - 2
    ensures out.Some? ==>
      var split := |ms| + 1 - |out.value|;
      && 2 <= split <= |ms| - k && out.value == [Message(User, summary.value, [], "")] + ms[split..]
      && !(ms[split].role == Tool || (ms[split].role == Assistant && ms[split].toolCalls != []))
      && forall i :: split < i <= |ms| - k ==> ms[i].role == Tool || (ms[i].role == Assistant && ms[i].toolCalls != [])
    ensures !AtPair(ms[|ms| - k]) ==> out.Some? && |out.value| == 1 + k
  {
    var limit := |ms| - KeepCount(|ms|);
    var split: nat :| IsBoundary(ms, limit, split) && out == CutAt(ms, summary, split);
    assert KeepCount(|ms|) == k;
    if !AtPair(ms[limit]) { BoundaryUnique(ms, limit, split, limit); }
  }
}
