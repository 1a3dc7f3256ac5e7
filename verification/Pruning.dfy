/** Shrinking old tool results so that stored history fits the context window: long
    results are trimmed to head and tail, then the oldest are cleared until the text is
    small enough. A string is a sequence of runes; its byte length is larger when it holds
    characters outside ASCII, and the code mixes the two measures. */
module Pruning {
  import opened Messages
  import opened Sequences
  import opened History
  import opened Strings

  const CHARS_PER_TOKEN := 4

  datatype Config = Config(
    keepLastAssistants: int,
    softTrimRatio: real,
    hardClearRatio: real,
    minPrunableToolChars: int,
    softTrimMaxChars: int,
    softTrimHeadChars: int,
    softTrimTailChars: int,
    hardClearEnabled: bool,
    hardClearPlaceholder: string,
    disabled: bool)

  // ---- measures ----

  /** The runes of all contents together. */
  function TotalRunes(ms: seq<Message>): nat {
    if ms == [] then 0 else |ms[0].content| + TotalRunes(ms[1..])
  }

  lemma {:induction false} TotalRunesUpdate(ms: seq<Message>, i: nat, m: Message)
    requires i < |ms|
    ensures TotalRunes(ms[i := m]) == TotalRunes(ms) - |ms[i].content| + |m.content|
  {
    if i == 0 {
      assert ms[i := m][1..] == ms[1..];
    } else {
      assert ms[i := m][1..] == ms[1..][i - 1 := m];
      TotalRunesUpdate(ms[1..], i - 1, m);
    }
  }

  lemma {:induction false} TotalRunesSnoc(ms: seq<Message>, m: Message)
    ensures TotalRunes(ms + [m]) == TotalRunes(ms) + |m.content|
  {
    if ms != [] {
      assert (ms + [m])[1..] == ms[1..] + [m];
      TotalRunesSnoc(ms[1..], m);
    }
  }

  function TakeHead(s: string, n: int): (r: string)
    ensures r <= s && |r| == if n <= 0 then 0 else if |s| <= n then |s| else n
  {
    if n <= 0 then "" else if |s| <= n then s else s[..n]
  }

  function TakeTail(s: string, n: int): (r: string)
    ensures IsSuffix(r, s) && |r| == if n <= 0 then 0 else if |s| <= n then |s| else n
  {
    if n <= 0 then "" else if |s| <= n then s else s[|s| - n..]
  }

  function Decimal(n: int): string {
    if n < 0 then "-" + Itoa(-n) else Itoa(n)
  }

  // ---- what is pruned ----

  /** Position of the keepLast-th assistant message from the end: len when nothing is
      protected, -1 when there are fewer assistant messages. */
  method FindAssistantCutoff(msgs: seq<Message>, keepLast: int) returns (cutoff: int)
    ensures IsCutoff(msgs, keepLast, cutoff)
  {
    if keepLast <= 0 {
      return |msgs|;
    }
    var remaining := keepLast;
    var i := |msgs| - 1;
    while i >= 0
      invariant -1 <= i < |msgs|
      invariant remaining == keepLast - Assistants(msgs[i + 1..]) > 0
    {
      assert msgs[i..][1..] == msgs[i + 1..];
      if msgs[i].role == Assistant {
        remaining := remaining - 1;
        if remaining == 0 {
          return i;
        }
      }
      i := i - 1;
    }
    assert msgs[0..] == msgs;
    return -1;
  }

  function Assistants(ms: seq<Message>): nat {
    if ms == [] then 0 else (if ms[0].role == Assistant then 1 else 0) + Assistants(ms[1..])
  }

  ghost predicate IsCutoff(ms: seq<Message>, keepLast: int, cutoff: int) {
    if keepLast <= 0 then cutoff == |ms|
    else if cutoff < 0 then cutoff == -1 && Assistants(ms) < keepLast
    else cutoff < |ms| && ms[cutoff].role == Assistant && Assistants(ms[cutoff..]) == keepLast
  }

  lemma {:induction false} AssistantsSuffix(ms: seq<Message>, i: nat, j: nat)
    requires i <= j <= |ms|
    ensures Assistants(ms[i..]) >= Assistants(ms[j..])
    ensures i < j && ms[i].role == Assistant ==> Assistants(ms[i..]) > Assistants(ms[j..])
    decreases j - i
  {
    if i < j {
      AssistantsSuffix(ms, i + 1, j);
      assert ms[i..][1..] == ms[i + 1..];
    }
  }

  lemma CutoffUnique(ms: seq<Message>, keepLast: int, a: int, b: int)
    requires IsCutoff(ms, keepLast, a) && IsCutoff(ms, keepLast, b)
    ensures a == b
  {
    assert ms[0..] == ms;
    if 0 <= a < |ms| { AssistantsSuffix(ms, 0, a); }
    if 0 <= b < |ms| { AssistantsSuffix(ms, 0, b); }
    if 0 <= a < |ms| && 0 <= b < |ms| {
      AssistantsSuffix(ms, if a < b then a else b, if a < b then b else a);
    }
  }

  predicate CanPrune(m: Message) {
    m.role == Tool && m.content != ""
  }

  /** Indexes of the prunable results from lo up to hi, in order. */
  function PrunableIndexes(ms: seq<Message>, lo: nat, hi: nat): (r: seq<nat>)
    requires hi <= |ms|
    ensures forall k :: 0 <= k < |r| ==> lo <= r[k] < hi && CanPrune(ms[r[k]])
    ensures forall j, k :: 0 <= j < k < |r| ==> r[j] < r[k]
    ensures forall i: nat :: lo <= i < hi && CanPrune(ms[i]) ==> i in r
    decreases hi
  {
    if hi <= lo then []
    else if CanPrune(ms[hi - 1]) then PrunableIndexes(ms, lo, hi - 1) + [hi - 1]
    else PrunableIndexes(ms, lo, hi - 1)
  }

  // ---- rewriting the listed messages one by one ----

  predicate Ordered(ms: seq<Message>, idxs: seq<nat>) {
    && (forall j :: 0 <= j < |idxs| ==> idxs[j] < |ms|)
    && (forall j, k :: 0 <= j < k < |idxs| ==> idxs[j] < idxs[k])
  }

  /** ms after the first k listed messages were rewritten by f. */
  function Rewrite(ms: seq<Message>, idxs: seq<nat>, k: nat, f: Message -> Message): (r: seq<Message>)
    requires k <= |idxs| && Ordered(ms, idxs)
    ensures |r| == |ms|
  {
    if k == 0 then ms else Rewrite(ms, idxs, k - 1, f)[idxs[k - 1] := f(ms[idxs[k - 1]])]
  }

  /** The running total that starts at `start` and adds cost(m) for each rewritten m. */
  function Tracked(ms: seq<Message>, idxs: seq<nat>, k: nat, start: int, cost: Message -> int): int
    requires k <= |idxs| && Ordered(ms, idxs)
  {
    if k == 0 then start else Tracked(ms, idxs, k - 1, start, cost) + cost(ms[idxs[k - 1]])
  }

  lemma {:induction false} RewriteAt(ms: seq<Message>, idxs: seq<nat>, k: nat, f: Message -> Message)
    requires k <= |idxs| && Ordered(ms, idxs)
    ensures forall j :: 0 <= j < |idxs| ==> Rewrite(ms, idxs, k, f)[idxs[j]] == if j < k then f(ms[idxs[j]]) else ms[idxs[j]]
    ensures forall i :: 0 <= i < |ms| && i !in idxs ==> Rewrite(ms, idxs, k, f)[i] == ms[i]
  {
    if k > 0 {
      RewriteAt(ms, idxs, k - 1, f);
    }
  }

  /** A running total that overstates every rewriting never falls below the true one. */
  lemma {:induction false} TrackedBounds(ms: seq<Message>, idxs: seq<nat>, k: nat, start: int, f: Message -> Message, cost: Message -> int)
    requires k <= |idxs| && Ordered(ms, idxs) && TotalRunes(ms) <= start
    requires forall m :: |f(m).content| - |m.content| <= cost(m)
    ensures TotalRunes(Rewrite(ms, idxs, k, f)) <= Tracked(ms, idxs, k, start, cost)
  {
    if k > 0 {
      TrackedBounds(ms, idxs, k - 1, start, f, cost);
      var i := idxs[k - 1];
      assert Rewrite(ms, idxs, k - 1, f)[i] == ms[i] by { RewriteAt(ms, idxs, k - 1, f); }
      TotalRunesUpdate(Rewrite(ms, idxs, k - 1, f), i, f(ms[i]));
    }
  }

  // ---- the two passes ----

  /** What a trimmed result says about itself. */
  function TrimNote(head: int, tail: int, size: nat): string {
    "\n\n[Tool result trimmed: kept first " + Decimal(head) + " chars and last " + Decimal(tail) + " chars of " + Decimal(size) + " chars.]"
  }

  function TrimmedText(content: string, cfg: Config): string {
    TakeHead(content, cfg.softTrimHeadChars) + "\n...\n" + TakeTail(content, cfg.softTrimTailChars)
    + TrimNote(cfg.softTrimHeadChars, cfg.softTrimTailChars, |content|)
  }

  function Trimming(cfg: Config): Message -> Message {
    (m: Message) =>
      if |m.content| <= cfg.softTrimMaxChars then m
      else Message(m.role, TrimmedText(m.content, cfg), [], m.toolCallId)
  }

  /** What the code adds to its total: bytes of the new text minus runes of the old. */
  function TrimmingCost(cfg: Config): Message -> int {
    (m: Message) =>
      if |m.content| <= cfg.softTrimMaxChars then 0
      else ByteLen(TrimmedText(m.content, cfg)) - |m.content|
  }

  function Clearing(cfg: Config): Message -> Message {
    (m: Message) => Message(m.role, cfg.hardClearPlaceholder, [], m.toolCallId)
  }

  function ClearingCost(cfg: Config): Message -> int {
    (m: Message) => ByteLen(cfg.hardClearPlaceholder) - |m.content|
  }

  lemma CostsOverstate(cfg: Config)
    ensures forall m :: |Trimming(cfg)(m).content| - |m.content| <= TrimmingCost(cfg)(m)
    ensures forall m :: |Clearing(cfg)(m).content| - |m.content| <= ClearingCost(cfg)(m)
  {
  }

  function Ratio(total: int, window: int): real
    requires window > 0
  {
    total as real / (window * CHARS_PER_TOKEN) as real
  }

  /** In numbers: four characters count as a token, so a ratio is reached from so many characters
      on. */
  lemma RatioReached(total: int, window: int, limit: real)
    requires window > 0
    ensures Ratio(total, window) >= limit <==> total as real >= limit * (4 * window) as real
  {
    var w, r := (window * CHARS_PER_TOKEN) as real, Ratio(total, window);
    assert r * w == total as real;
    if r >= limit { TimesPositive(limit, r, w); }
    if r < limit { TimesLess(r, limit, w); }
  }

  lemma TimesPositive(a: real, b: real, w: real)
    requires a <= b && w > 0.0
    ensures a * w <= b * w
  {
  }

  lemma TimesLess(a: real, b: real, w: real)
    requires a < b && w > 0.0
    ensures a * w < b * w
  {
  }

  /** The loop over the listed messages: rewrite a slot, adjust the running total. */
  method RewritePass(msgs: seq<Message>, idxs: seq<nat>, totalChars: int, f: Message -> Message, cost: Message -> int)
      returns (output: seq<Message>, total: int)
    requires Ordered(msgs, idxs)
    ensures output == Rewrite(msgs, idxs, |idxs|, f)
    ensures total == Tracked(msgs, idxs, |idxs|, totalChars, cost)
  {
    output, total := msgs, totalChars;
    var k := 0;
    while k < |idxs|
      invariant k <= |idxs| && output == Rewrite(msgs, idxs, k, f)
      invariant total == Tracked(msgs, idxs, k, totalChars, cost)
    {
      var msg := msgs[idxs[k]];
      output := output[idxs[k] := f(msg)];
      total := total + cost(msg);
      k := k + 1;
    }
  }

  method ClearPass(msgs: seq<Message>, idxs: seq<nat>, totalChars: int, window: int, cfg: Config) returns (output: seq<Message>, ghost k: nat)
    requires Ordered(msgs, idxs) && window > 0
    ensures k <= |idxs| && StopsAt(msgs, idxs, totalChars, k, window, cfg)
    ensures output == Rewrite(msgs, idxs, k, Clearing(cfg))
  {
    output := msgs;
    var total, ratio := totalChars, Ratio(totalChars, window);
    var n := 0;
    while n < |idxs|
      invariant n <= |idxs| && output == Rewrite(msgs, idxs, n, Clearing(cfg))
      invariant total == Tracked(msgs, idxs, n, totalChars, ClearingCost(cfg)) && ratio == Ratio(total, window)
      invariant forall j :: 0 <= j < n ==> Ratio(Tracked(msgs, idxs, j, totalChars, ClearingCost(cfg)), window) >= cfg.hardClearRatio
    {
      if ratio < cfg.hardClearRatio {
        break;
      }
      RewriteAt(msgs, idxs, n, Clearing(cfg));
      var msg := output[idxs[n]];
      output := output[idxs[n] := Message(msg.role, cfg.hardClearPlaceholder, [], msg.toolCallId)];
      total := total + (ByteLen(cfg.hardClearPlaceholder) - |msg.content|);
      ratio := Ratio(total, window);
      n := n + 1;
    }
    k := n;
  }

  // ---- the whole operation ----

  /** The history is large enough to be pruned, and enough assistant messages protect its end. */
  predicate Triggered(ms: seq<Message>, window: int, cfg: Config, cutoff: int) {
    && !cfg.disabled && window > 0 && ms != [] && cutoff >= 0
    && Ratio(TotalRunes(ms), window) >= cfg.softTrimRatio
  }

  function ListedRunes(ms: seq<Message>, idxs: seq<nat>, k: nat): int
    requires k <= |idxs| && Ordered(ms, idxs)
  {
    if k == 0 then 0 else ListedRunes(ms, idxs, k - 1) + |ms[idxs[k - 1]].content|
  }

  /** Clearing is allowed and worth it: the trimmed history is still too large and enough
      of it can be cleared. */
  predicate ClearingStarts(trimmed: seq<Message>, idxs: seq<nat>, total: int, window: int, cfg: Config)
    requires window > 0 && Ordered(trimmed, idxs)
  {
    && idxs != []
    && cfg.hardClearEnabled
    && Ratio(total, window) >= cfg.hardClearRatio
    && ListedRunes(trimmed, idxs, |idxs|) >= cfg.minPrunableToolChars
  }

  /** The first k messages cleared are exactly those met while the running ratio was still
      at or above the limit. */
  predicate StopsAt(trimmed: seq<Message>, idxs: seq<nat>, total: int, k: nat, window: int, cfg: Config)
    requires window > 0 && k <= |idxs| && Ordered(trimmed, idxs)
  {
    && (forall j :: 0 <= j < k ==> Ratio(Tracked(trimmed, idxs, j, total, ClearingCost(cfg)), window) >= cfg.hardClearRatio)
    && (k < |idxs| ==> Ratio(Tracked(trimmed, idxs, k, total, ClearingCost(cfg)), window) < cfg.hardClearRatio)
  }

  /** What is done to the listed results of a history that is large enough. */
  ghost predicate Shrunk(ms: seq<Message>, idxs: seq<nat>, window: int, cfg: Config, out: seq<Message>)
    requires window > 0 && Ordered(ms, idxs)
  {
    var trimmed := Rewrite(ms, idxs, |idxs|, Trimming(cfg));
    var total := Tracked(ms, idxs, |idxs|, TotalRunes(ms), TrimmingCost(cfg));
    if ClearingStarts(trimmed, idxs, total, window, cfg) then
      exists k: nat :: k <= |idxs| && StopsAt(trimmed, idxs, total, k, window, cfg)
        && out == Rewrite(trimmed, idxs, k, Clearing(cfg))
    else out == trimmed
  }

  ghost predicate PrunedAt(ms: seq<Message>, window: int, cfg: Config, cutoff: int, out: seq<Message>)
    requires cutoff <= |ms|
  {
    if Triggered(ms, window, cfg, cutoff) then Shrunk(ms, PrunableIndexes(ms, FirstUser(ms), cutoff), window, cfg, out)
    else out == ms
  }

  method Shrink(msgs: seq<Message>, idxs: seq<nat>, totalChars: int, window: int, cfg: Config) returns (output: seq<Message>)
    requires window > 0 && Ordered(msgs, idxs) && totalChars == TotalRunes(msgs)
    ensures Shrunk(msgs, idxs, window, cfg, output)
  {
    if |idxs| == 0 {
      return msgs;
    }
    var total;
    output, total := RewritePass(msgs, idxs, totalChars, Trimming(cfg), TrimmingCost(cfg));
    if Ratio(total, window) < cfg.hardClearRatio || !cfg.hardClearEnabled {
      return output;
    }
    var prunableChars := CountListed(output, idxs);
    if prunableChars < cfg.minPrunableToolChars {
      return output;
    }
    ghost var k;
    output, k := ClearPass(output, idxs, total, window, cfg);
  }

  method PruneContextMessages(msgs: seq<Message>, contextWindowTokens: int, cfg: Config) returns (output: seq<Message>, ghost cutoff: int)
    ensures IsCutoff(msgs, cfg.keepLastAssistants, cutoff) && PrunedAt(msgs, contextWindowTokens, cfg, cutoff, output)
  {
    var cutoffIndex := FindAssistantCutoff(msgs, cfg.keepLastAssistants);
    cutoff := cutoffIndex;
    if cfg.disabled {
      return msgs, cutoff;
    }
    if contextWindowTokens <= 0 || |msgs| == 0 {
      return msgs, cutoff;
    }
    if cutoffIndex < 0 {
      return msgs, cutoff;
    }
    var pruneStart := FindFirstUser(msgs);
    var totalChars := CountRunes(msgs);
    if Ratio(totalChars, contextWindowTokens) < cfg.softTrimRatio {
      return msgs, cutoff;
    }
    var idxs := CollectPrunable(msgs, pruneStart, cutoffIndex);
    output := Shrink(msgs, idxs, totalChars, contextWindowTokens, cfg);
  }

  method CountListed(msgs: seq<Message>, idxs: seq<nat>) returns (total: int)
    requires Ordered(msgs, idxs)
    ensures total == ListedRunes(msgs, idxs, |idxs|)
  {
    total := 0;
    var k := 0;
    while k < |idxs|
      invariant k <= |idxs| && total == ListedRunes(msgs, idxs, k)
    {
      total := total + |msgs[idxs[k]].content|;
      k := k + 1;
    }
  }

  method FindFirstUser(msgs: seq<Message>) returns (pruneStart: nat)
    ensures pruneStart == FirstUser(msgs)
  {
    pruneStart := |msgs|;
    var i := 0;
    while i < |msgs|
      invariant i <= |msgs| && pruneStart == |msgs| && FirstUser(msgs) >= i
    {
      if msgs[i].role == User {
        return i;
      }
      i := i + 1;
    }
  }

  method CountRunes(msgs: seq<Message>) returns (total: int)
    ensures total == TotalRunes(msgs)
  {
    total := 0;
    var i := 0;
    while i < |msgs|
      invariant i <= |msgs| && total == TotalRunes(msgs[..i])
    {
      TotalRunesSnoc(msgs[..i], msgs[i]);
      assert msgs[..i + 1] == msgs[..i] + [msgs[i]];
      total := total + |msgs[i].content|;
      i := i + 1;
    }
    assert msgs[..|msgs|] == msgs;
  }

  method CollectPrunable(msgs: seq<Message>, pruneStart: nat, cutoff: nat) returns (idxs: seq<nat>)
    requires cutoff <= |msgs|
    ensures idxs == PrunableIndexes(msgs, pruneStart, cutoff)
  {
    idxs := [];
    var i := pruneStart;
    while i < cutoff
      invariant pruneStart <= i
      invariant i <= cutoff ==> idxs == PrunableIndexes(msgs, pruneStart, i)
      invariant i > cutoff ==> i == pruneStart && idxs == []
    {
      if msgs[i].role == Tool && msgs[i].content != "" {
        idxs := idxs + [i];
      }
      i := i + 1;
    }
  }

  // ---- what pruning guarantees ----

  /** Part of a text that a limit leaves: nothing for a limit of 0 or less, all of a text that
      is not longer. */
  function Within(limit: int, size: nat): (n: nat)
    ensures n <= size
  {
    if limit <= 0 then 0 else if size <= limit then size else limit
  }

  const ELLIPSIS: string := "\n...\n"

  /** text starts with the first runes of content, then the ellipsis, then its last runes, and
      a note that says so. */
  ghost predicate KeepsEnds(content: string, head: int, tail: int, text: string) {
    var a, b := Within(head, |content|), Within(tail, |content|);
    && |text| >= a + 5 + b
    && text[..a] == content[..a]
    && text[a..a + 5] == "\n...\n"
    && text[a + 5..a + 5 + b] == content[|content| - b..]
    && text[a + 5 + b..] == "\n\n[Tool result trimmed: kept first " + Decimal(head) + " chars and last "
                           + Decimal(tail) + " chars of " + Decimal(|content|) + " chars.]"
  }

  /** A result that is not longer than allowed is unchanged; of a longer one head and tail are
      kept. */
  ghost predicate IsTrimmed(m: Message, cfg: Config, o: Message) {
    if |m.content| <= cfg.softTrimMaxChars then o == m
    else
      && o.role == m.role && o.toolCalls == [] && o.toolCallId == m.toolCallId
      && KeepsEnds(m.content, cfg.softTrimHeadChars, cfg.softTrimTailChars, o.content)
  }

  predicate IsCleared(m: Message, cfg: Config, o: Message) {
    o == Message(m.role, cfg.hardClearPlaceholder, [], m.toolCallId)
  }

  lemma Joined(a: string, b: string, c: string, d: string)
    ensures var text := a + b + c + d;
      && text[..|a|] == a && text[|a|..|a| + |b|] == b
      && text[|a| + |b|..|a| + |b| + |c|] == c && text[|a| + |b| + |c|..] == d
  {
  }

  lemma TrimmedEnds(content: string, cfg: Config)
    ensures KeepsEnds(content, cfg.softTrimHeadChars, cfg.softTrimTailChars, TrimmedText(content, cfg))
  {
    EndsJoined(content, cfg.softTrimHeadChars, cfg.softTrimTailChars, TrimNote(cfg.softTrimHeadChars, cfg.softTrimTailChars, |content|));
  }

  lemma EndsJoined(content: string, head: int, tail: int, note: string)
    ensures var a, b := Within(head, |content|), Within(tail, |content|);
      var text := TakeHead(content, head) + ELLIPSIS + TakeTail(content, tail) + note;
      && |text| >= a + 5 + b && text[..a] == content[..a] && text[a..a + 5] == ELLIPSIS
      && text[a + 5..a + 5 + b] == content[|content| - b..] && text[a + 5 + b..] == note
  {
    Joined(TakeHead(content, head), ELLIPSIS, TakeTail(content, tail), note);
  }

  lemma TrimmingTrims(m: Message, cfg: Config)
    ensures IsTrimmed(m, cfg, Trimming(cfg)(m)) && IsCleared(m, cfg, Clearing(cfg)(m))
  {
    TrimmedEnds(m.content, cfg);
  }

  /** The first k listed results are cleared and the others at most trimmed. */
  ghost predicate OldestCleared(ms: seq<Message>, idxs: seq<nat>, k: nat, cfg: Config, out: seq<Message>)
    requires Ordered(ms, idxs)
  {
    && |out| == |ms|
    && (forall j :: 0 <= j < k <= |idxs| ==> IsCleared(ms[idxs[j]], cfg, out[idxs[j]]))
    && (forall j :: k <= j < |idxs| ==> IsTrimmed(ms[idxs[j]], cfg, out[idxs[j]]))
  }

  lemma ClearedTrimmed(ms: seq<Message>, idxs: seq<nat>, k: nat, cfg: Config)
    requires k <= |idxs| && Ordered(ms, idxs)
    ensures OldestCleared(ms, idxs, k, cfg, Rewrite(Rewrite(ms, idxs, |idxs|, Trimming(cfg)), idxs, k, Clearing(cfg)))
  {
    var trimmed := Rewrite(ms, idxs, |idxs|, Trimming(cfg));
    RewriteAt(ms, idxs, |idxs|, Trimming(cfg));
    RewriteAt(trimmed, idxs, k, Clearing(cfg));
    forall j | 0 <= j < |idxs| ensures IsTrimmed(ms[idxs[j]], cfg, trimmed[idxs[j]]) && IsCleared(trimmed[idxs[j]], cfg, Clearing(cfg)(trimmed[idxs[j]])) {
      TrimmingTrims(ms[idxs[j]], cfg);
      TrimmingTrims(trimmed[idxs[j]], cfg);
    }
  }

  lemma RatioMonotone(a: int, b: int, window: int)
    requires window > 0 && a <= b
    ensures Ratio(a, window) <= Ratio(b, window)
  {
  }

  /** When clearing starts, it ends with the true text below the limit or with every
      prunable result cleared, and it clears the oldest ones. */
  lemma ClearingReachesLimit(ms: seq<Message>, idxs: seq<nat>, k: nat, window: int, cfg: Config)
    requires window > 0 && Ordered(ms, idxs) && k <= |idxs|
    requires var trimmed := Rewrite(ms, idxs, |idxs|, Trimming(cfg));
      var total := Tracked(ms, idxs, |idxs|, TotalRunes(ms), TrimmingCost(cfg));
      StopsAt(trimmed, idxs, total, k, window, cfg)
    ensures var out := Rewrite(Rewrite(ms, idxs, |idxs|, Trimming(cfg)), idxs, k, Clearing(cfg));
      OldestCleared(ms, idxs, k, cfg, out) && (k == |idxs| || Ratio(TotalRunes(out), window) < cfg.hardClearRatio)
  {
    var trimmed := Rewrite(ms, idxs, |idxs|, Trimming(cfg));
    var total := Tracked(ms, idxs, |idxs|, TotalRunes(ms), TrimmingCost(cfg));
    CostsOverstate(cfg);
    TrackedBounds(ms, idxs, |idxs|, TotalRunes(ms), Trimming(cfg), TrimmingCost(cfg));
    TrackedBounds(trimmed, idxs, k, total, Clearing(cfg), ClearingCost(cfg));
    RatioMonotone(TotalRunes(Rewrite(trimmed, idxs, k, Clearing(cfg))), Tracked(trimmed, idxs, k, total, ClearingCost(cfg)), window);
    ClearedTrimmed(ms, idxs, k, cfg);
  }

  /** The same for the whole operation. */
  lemma PruningReachesLimit(ms: seq<Message>, window: int, cfg: Config, cutoff: int, out: seq<Message>) returns (k: nat)
    requires IsCutoff(ms, cfg.keepLastAssistants, cutoff) && PrunedAt(ms, window, cfg, cutoff, out)
    requires Triggered(ms, window, cfg, cutoff)
    requires var idxs := PrunableIndexes(ms, FirstUser(ms), cutoff);
      ClearingStarts(Rewrite(ms, idxs, |idxs|, Trimming(cfg)), idxs,
                     Tracked(ms, idxs, |idxs|, TotalRunes(ms), TrimmingCost(cfg)), window, cfg)
    ensures var idxs := PrunableIndexes(ms, FirstUser(ms), cutoff);
      && k <= |idxs|
      && OldestCleared(ms, idxs, k, cfg, out)
      && (k == |idxs| || Ratio(TotalRunes(out), window) < cfg.hardClearRatio)
  {
    k := ShrinkingReachesLimit(ms, PrunableIndexes(ms, FirstUser(ms), cutoff), window, cfg, out);
  }

  lemma ShrinkingReachesLimit(ms: seq<Message>, idxs: seq<nat>, window: int, cfg: Config, out: seq<Message>) returns (k: nat)
    requires window > 0 && Ordered(ms, idxs) && Shrunk(ms, idxs, window, cfg, out)
    requires ClearingStarts(Rewrite(ms, idxs, |idxs|, Trimming(cfg)), idxs,
                            Tracked(ms, idxs, |idxs|, TotalRunes(ms), TrimmingCost(cfg)), window, cfg)
    ensures k <= |idxs| && OldestCleared(ms, idxs, k, cfg, out)
    ensures k == |idxs| || Ratio(TotalRunes(out), window) < cfg.hardClearRatio
  {
    var trimmed := Rewrite(ms, idxs, |idxs|, Trimming(cfg));
    var total := Tracked(ms, idxs, |idxs|, TotalRunes(ms), TrimmingCost(cfg));
    k :| k <= |idxs| && StopsAt(trimmed, idxs, total, k, window, cfg) && out == Rewrite(trimmed, idxs, k, Clearing(cfg));
    ClearingReachesLimit(ms, idxs, k, window, cfg);
  }

  lemma ShrunkRewrites(ms: seq<Message>, idxs: seq<nat>, window: int, cfg: Config, out: seq<Message>) returns (k: nat)
    requires window > 0 && Ordered(ms, idxs) && Shrunk(ms, idxs, window, cfg, out)
    ensures k <= |idxs| && out == Rewrite(Rewrite(ms, idxs, |idxs|, Trimming(cfg)), idxs, k, Clearing(cfg))
    ensures k > 0 ==> cfg.hardClearEnabled
                      && ListedRunes(Rewrite(ms, idxs, |idxs|, Trimming(cfg)), idxs, |idxs|) >= cfg.minPrunableToolChars
  {
    var trimmed := Rewrite(ms, idxs, |idxs|, Trimming(cfg));
    if out == trimmed {
      k := 0;
    } else {
      k :| k <= |idxs| && out == Rewrite(trimmed, idxs, k, Clearing(cfg));
    }
  }

  /** What becomes of the results between the first user message and the cutoff, whenever the
      operation is triggered: the oldest k cleared, the others kept whole or by their ends; none
      is cleared unless clearing starts. */
  lemma PrunedResults(ms: seq<Message>, window: int, cfg: Config, cutoff: int, out: seq<Message>) returns (k: nat)
    requires IsCutoff(ms, cfg.keepLastAssistants, cutoff) && PrunedAt(ms, window, cfg, cutoff, out)
    requires Triggered(ms, window, cfg, cutoff)
    ensures var idxs := PrunableIndexes(ms, FirstUser(ms), cutoff);
      && k <= |idxs| && OldestCleared(ms, idxs, k, cfg, out)
      && (k > 0 ==> cfg.hardClearEnabled
                    && ListedRunes(Rewrite(ms, idxs, |idxs|, Trimming(cfg)), idxs, |idxs|) >= cfg.minPrunableToolChars)
  {
    var idxs := PrunableIndexes(ms, FirstUser(ms), cutoff);
    k := ShrunkRewrites(ms, idxs, window, cfg, out);
    ClearedTrimmed(ms, idxs, k, cfg);
  }

  lemma ShrunkShape(ms: seq<Message>, idxs: seq<nat>, window: int, cfg: Config, out: seq<Message>)
    requires window > 0 && Ordered(ms, idxs) && Shrunk(ms, idxs, window, cfg, out)
    requires forall j :: 0 <= j < |idxs| ==> ms[idxs[j]].role == Tool
    ensures SameShape(ms, out)
    ensures forall i :: 0 <= i < |ms| && i !in idxs ==> out[i] == ms[i]
  {
    var k := ShrunkRewrites(ms, idxs, window, cfg, out);
    RewriteShape(ms, idxs, |idxs|, Trimming(cfg));
    RewriteShape(Rewrite(ms, idxs, |idxs|, Trimming(cfg)), idxs, k, Clearing(cfg));
  }

  /** Nothing outside the results between the first user message and the cutoff changes,
      and roles and call ids never do. */
  lemma PrunedShape(ms: seq<Message>, window: int, cfg: Config, cutoff: int, out: seq<Message>)
    requires IsCutoff(ms, cfg.keepLastAssistants, cutoff) && PrunedAt(ms, window, cfg, cutoff, out)
    ensures SameShape(ms, out)
    ensures forall i :: 0 <= i < |ms| && !(FirstUser(ms) <= i < cutoff && CanPrune(ms[i])) ==> out[i] == ms[i]
  {
    if Triggered(ms, window, cfg, cutoff) {
      ShrunkShape(ms, PrunableIndexes(ms, FirstUser(ms), cutoff), window, cfg, out);
    }
  }

  lemma RewriteShape(ms: seq<Message>, idxs: seq<nat>, k: nat, f: Message -> Message)
    requires k <= |idxs| && Ordered(ms, idxs)
    requires forall j :: 0 <= j < |idxs| ==> ms[idxs[j]].role == Tool
    requires forall m :: f(m).role == m.role && f(m).toolCallId == m.toolCallId
    ensures SameShape(ms, Rewrite(ms, idxs, k, f))
    ensures forall i :: 0 <= i < |ms| && i !in idxs ==> Rewrite(ms, idxs, k, f)[i] == ms[i]
  {
    RewriteAt(ms, idxs, k, f);
    var out := Rewrite(ms, idxs, k, f);
    forall i | 0 <= i < |ms| && i in idxs
      ensures out[i].role == ms[i].role == Tool && out[i].toolCallId == ms[i].toolCallId
    {
      var j :| 0 <= j < |idxs| && idxs[j] == i;
      assert out[idxs[j]] == f(ms[i]) || out[idxs[j]] == ms[i];
    }
  }

  /** Same roles, same ids, and the same messages except for tool results. */
  predicate SameShape(ms: seq<Message>, out: seq<Message>) {
    && |out| == |ms|
    && forall i :: 0 <= i < |ms| ==>
      && out[i].role == ms[i].role
      && out[i].toolCallId == ms[i].toolCallId
      && (ms[i].role != Tool ==> out[i] == ms[i])
  }

  lemma {:induction false} SameShapeNonTools(ms: seq<Message>, out: seq<Message>)
    requires SameShape(ms, out)
    ensures NonTools(out) == NonTools(ms) && UserTurns(out) == UserTurns(ms)
  {
    if ms != [] {
      SameShapeNonTools(ms[1..], out[1..]);
    }
  }

  lemma {:induction false} SameShapeLeadingTools(ms: seq<Message>, out: seq<Message>)
    requires SameShape(ms, out)
    ensures LeadingTools(out) == LeadingTools(ms)
  {
    if ms != [] {
      SameShapeLeadingTools(ms[1..], out[1..]);
    }
  }

  /** Pruning keeps a well-paired history well paired. */
  lemma {:induction false} SameShapeWellPaired(ms: seq<Message>, out: seq<Message>)
    requires SameShape(ms, out) && WellPaired(ms)
    ensures WellPaired(out)
    decreases |ms|
  {
    if ms == [] {
    } else if OpensCalls(ms[0]) {
      SameShapeLeadingTools(ms[1..], out[1..]);
      var n := LeadingTools(ms[1..]);
      assert ResultIds(out[1..1 + n]) == ResultIds(ms[1..1 + n]);
      SameShapeWellPaired(ms[1 + n..], out[1 + n..]);
    } else {
      SameShapeWellPaired(ms[1..], out[1..]);
    }
  }

  // ---- what clearing does to the total ----

  /** A running total that counts every rewriting exactly is the true one. */
  lemma {:induction false} TrackedExactly(ms: seq<Message>, idxs: seq<nat>, k: nat, f: Message -> Message, growth: Message -> int)
    requires k <= |idxs| && Ordered(ms, idxs)
    requires forall j :: 0 <= j < k ==> growth(ms[idxs[j]]) == |f(ms[idxs[j]]).content| - |ms[idxs[j]].content|
    ensures TotalRunes(Rewrite(ms, idxs, k, f)) == Tracked(ms, idxs, k, TotalRunes(ms), growth)
  {
    if k > 0 {
      TrackedExactly(ms, idxs, k - 1, f, growth);
      var i, before := idxs[k - 1], Rewrite(ms, idxs, k - 1, f);
      assert before[i] == ms[i] by { RewriteAt(ms, idxs, k - 1, f); }
      TotalRunesUpdate(before, i, f(ms[i]));
    }
  }

  /** The tracked total of the trimming is the true one when no trimmed result holds a
      character of more than one byte. */
  lemma TrackedTrimming(ms: seq<Message>, idxs: seq<nat>, k: nat, cfg: Config)
    requires k <= |idxs| && Ordered(ms, idxs)
    requires forall j :: 0 <= j < k ==> var text := TrimmedText(ms[idxs[j]].content, cfg); ByteLen(text) == |text|
    ensures Tracked(ms, idxs, k, TotalRunes(ms), TrimmingCost(cfg)) == TotalRunes(Rewrite(ms, idxs, k, Trimming(cfg)))
  {
    TrackedExactly(ms, idxs, k, Trimming(cfg), TrimmingCost(cfg));
  }

  lemma {:induction false} TrackedSum(ms: seq<Message>, idxs: seq<nat>, k: nat, start: int, size: nat, growth: Message -> int)
    requires k <= |idxs| && Ordered(ms, idxs)
    requires forall m: Message :: growth(m) == size - |m.content|
    ensures Tracked(ms, idxs, k, start, growth) == start + k * size - ListedRunes(ms, idxs, k)
  {
    if k > 0 {
      TrackedSum(ms, idxs, k - 1, start, size, growth);
      assert k * size == (k - 1) * size + size;
    }
  }

  lemma ClearedTotal(ms: seq<Message>, idxs: seq<nat>, k: nat, cfg: Config)
    requires k <= |idxs| && Ordered(ms, idxs)
    ensures TotalRunes(Rewrite(ms, idxs, k, Clearing(cfg)))
      == TotalRunes(ms) + k * |cfg.hardClearPlaceholder| - ListedRunes(ms, idxs, k)
  {
    var growth: Message -> int := (m: Message) => |cfg.hardClearPlaceholder| - |m.content|;
    TrackedExactly(ms, idxs, k, Clearing(cfg), growth);
    TrackedSum(ms, idxs, k, TotalRunes(ms), |cfg.hardClearPlaceholder|, growth);
  }

  /** What clearing the first k results leaves: the total changes by k times the placeholder
      minus what they held, so it falls exactly when they held more than that. */
  ghost predicate LeftByClearing(ms: seq<Message>, trimmed: seq<Message>, idxs: seq<nat>, k: nat, cfg: Config, out: seq<Message>)
    requires Ordered(ms, idxs) && Ordered(trimmed, idxs) && k <= |idxs|
  {
    && OldestCleared(ms, idxs, k, cfg, out)
    && TotalRunes(out) == TotalRunes(trimmed) + k * |cfg.hardClearPlaceholder| - ListedRunes(trimmed, idxs, k)
    && (TotalRunes(out) < TotalRunes(trimmed) <==> ListedRunes(trimmed, idxs, k) > k * |cfg.hardClearPlaceholder|)
  }

  lemma ShrunkClears(ms: seq<Message>, idxs: seq<nat>, window: int, cfg: Config, out: seq<Message>) returns (k: nat)
    requires window > 0 && Ordered(ms, idxs) && Shrunk(ms, idxs, window, cfg, out)
    requires ClearingStarts(Rewrite(ms, idxs, |idxs|, Trimming(cfg)), idxs,
                            Tracked(ms, idxs, |idxs|, TotalRunes(ms), TrimmingCost(cfg)), window, cfg)
    ensures 0 < k <= |idxs| && LeftByClearing(ms, Rewrite(ms, idxs, |idxs|, Trimming(cfg)), idxs, k, cfg, out)
  {
    var trimmed := Rewrite(ms, idxs, |idxs|, Trimming(cfg));
    var total := Tracked(ms, idxs, |idxs|, TotalRunes(ms), TrimmingCost(cfg));
    k :| k <= |idxs| && StopsAt(trimmed, idxs, total, k, window, cfg) && out == Rewrite(trimmed, idxs, k, Clearing(cfg));
    ClearedTotal(trimmed, idxs, k, cfg);
    ClearedTrimmed(ms, idxs, k, cfg);
  }

  /** Whenever clearing starts, some result is cleared, and this is what is left. */
  lemma ClearingLowers(ms: seq<Message>, window: int, cfg: Config, cutoff: int, out: seq<Message>) returns (k: nat)
    requires IsCutoff(ms, cfg.keepLastAssistants, cutoff) && PrunedAt(ms, window, cfg, cutoff, out)
    requires Triggered(ms, window, cfg, cutoff)
    requires var idxs := PrunableIndexes(ms, FirstUser(ms), cutoff);
      ClearingStarts(Rewrite(ms, idxs, |idxs|, Trimming(cfg)), idxs,
                     Tracked(ms, idxs, |idxs|, TotalRunes(ms), TrimmingCost(cfg)), window, cfg)
    ensures var idxs := PrunableIndexes(ms, FirstUser(ms), cutoff);
      0 < k <= |idxs| && LeftByClearing(ms, Rewrite(ms, idxs, |idxs|, Trimming(cfg)), idxs, k, cfg, out)
  {
    k := ShrunkClears(ms, PrunableIndexes(ms, FirstUser(ms), cutoff), window, cfg, out);
  }

  /** The defaults, except that any amount of results may be cleared. */
  const EAGER := Config(3, 0.3, 0.5, 0, 4000, 1500, 1500, true, "[Old tool result content cleared]", false)

  /** One call with a result of two characters, then three more answers. */
  function ShortResult(call: ToolCall, said: string): seq<Message> {
    [Plain(User, said), Message(Assistant, "", [call], ""), ToolResult(call.id, "ok")] + Silences()
  }

  function Silences(): seq<Message> {
    [Plain(Assistant, ""), Plain(Assistant, ""), Plain(Assistant, "")]
  }

  /** A history that grows: its one short result is replaced by the longer placeholder. */
  lemma PruningLengthens(call: ToolCall, said: string, cutoff: int, out: seq<Message>)
    requires IsCutoff(ShortResult(call, said), 3, cutoff)
    requires PrunedAt(ShortResult(call, said), 1, EAGER, cutoff, out)
    ensures TotalRunes(out) == TotalRunes(ShortResult(call, said)) + |EAGER.hardClearPlaceholder| - 2
  {
    var ms := ShortResult(call, said);
    ShortListed(call, said, cutoff);
    ShortTotal(call, said);
    AboveRatios(TotalRunes(ms));
    assert Shrunk(ms, [2], 1, EAGER, out);
    OnlyResult(ms, out);
  }

  lemma OnlyResult(ms: seq<Message>, out: seq<Message>)
    requires Ordered(ms, [2]) && Shrunk(ms, [2], 1, EAGER, out) && ms[2].content == "ok"
    requires Ratio(TotalRunes(ms), 1) >= EAGER.hardClearRatio
    ensures TotalRunes(out) == TotalRunes(ms) + |EAGER.hardClearPlaceholder| - 2
  {
    var idxs: seq<nat> := [2];
    var trimmed := Rewrite(ms, idxs, 1, Trimming(EAGER));
    assert Trimming(EAGER)(ms[2]) == ms[2] && TrimmingCost(EAGER)(ms[2]) == 0;
    assert Rewrite(ms, idxs, 0, Trimming(EAGER)) == ms && trimmed == ms[2 := ms[2]] == ms;
    assert Tracked(ms, idxs, 0, TotalRunes(ms), TrimmingCost(EAGER)) == TotalRunes(ms);
    assert ListedRunes(ms, idxs, 0) == 0 && ListedRunes(ms, idxs, 1) == 2;
    var k := ShrunkClears(ms, idxs, 1, EAGER, out);
  }

  lemma AboveRatios(total: int)
    requires total >= 2
    ensures Ratio(total, 1) >= EAGER.softTrimRatio && Ratio(total, 1) >= EAGER.hardClearRatio
  {
  }

  lemma ShortListed(call: ToolCall, said: string, cutoff: int)
    requires IsCutoff(ShortResult(call, said), 3, cutoff)
    ensures cutoff == 3 && PrunableIndexes(ShortResult(call, said), FirstUser(ShortResult(call, said)), cutoff) == [2]
  {
    var ms := ShortResult(call, said);
    SilencesCount();
    assert ms[3..] == Silences();
    CutoffUnique(ms, 3, cutoff, 3);
    assert FirstUser(ms) == 0;
    assert PrunableIndexes(ms, 0, 2) == [];
  }

  lemma SilencesCount()
    ensures Assistants(Silences()) == 3 && TotalRunes(Silences()) == 0
  {
    assert Silences()[1..] == [Plain(Assistant, ""), Plain(Assistant, "")];
    assert Silences()[1..][1..] == [Plain(Assistant, "")];
  }

  lemma ShortTotal(call: ToolCall, said: string)
    ensures TotalRunes(ShortResult(call, said)) == |said| + 2
  {
    var ms := ShortResult(call, said);
    SilencesCount();
    assert ms[0].content == said && ms[1].content == "" && ms[2].content == "ok";
    assert ms[1..][1..][1..] == Silences();
    assert TotalRunes(ms[1..][1..]) == 2;
    assert TotalRunes(ms[1..]) == 2;
  }
}
