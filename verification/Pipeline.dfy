/** Building the request for a run: system prompt, summary and recalled memory, the stored
    history after limit, prune and repair, and the user's message. */
module Pipeline {
  import opened Messages
  import opened Sequences
  import opened History
  import opened Pruning

  /** out is a possible result of limit, then prune, then repair. */
  ghost predicate Prepared(history: seq<Message>, limit: int, window: int, cfg: Config, out: seq<Message>) {
    exists kept: seq<Message>, cutoff: int, pruned: seq<Message> ::
      PreparedBy(history, limit, window, cfg, kept, cutoff, pruned, out)
  }

  ghost predicate PreparedBy(history: seq<Message>, limit: int, window: int, cfg: Config,
      kept: seq<Message>, cutoff: int, pruned: seq<Message>, out: seq<Message>) {
    && IsLimited(history, limit, kept)
    && IsCutoff(kept, cfg.keepLastAssistants, cutoff)
    && PrunedAt(kept, window, cfg, cutoff, pruned)
    && Repairs(pruned, out)
  }

  method PrepareHistory(history: seq<Message>, limit: int, window: int, cfg: Config) returns (out: seq<Message>)
    ensures Prepared(history, limit, window, cfg, out)
    ensures WellPaired(out)
  {
    var kept := LimitHistoryTurns(history, limit);
    var pruned;
    ghost var cutoff;
    pruned, cutoff := PruneContextMessages(kept, window, cfg);
    out := SanitizeHistory(pruned);
    assert PreparedBy(history, limit, window, cfg, kept, cutoff, pruned, out);
    RepairWellPaired(pruned, out);
  }

  /** For every stored history: the result is well paired, it keeps every message of the
      kept turns other than tool results, unchanged and in order, and the kept turns are
      the last `limit` ones (all of them when there is no positive limit). */
  lemma PreparedHistory(history: seq<Message>, limit: int, window: int, cfg: Config, out: seq<Message>) returns (kept: seq<Message>)
    requires Prepared(history, limit, window, cfg, out)
    ensures WellPaired(out)
    ensures IsSuffix(kept, history) && NonTools(out) == NonTools(kept)
    ensures UserTurns(kept) == if 0 < limit < UserTurns(history) then limit else UserTurns(history)
    ensures kept != history ==> kept != [] && kept[0].role == User
  {
    var cutoff, pruned;
    kept, cutoff, pruned :| PreparedBy(history, limit, window, cfg, kept, cutoff, pruned, out);
    LimitedTurns(history, limit, kept);
    PrunedShape(kept, window, cfg, cutoff, pruned);
    SameShapeNonTools(kept, pruned);
    RepairWellPaired(pruned, out);
    RepairKeepsNonTools(pruned, out);
  }

  /** A well-paired history loses no tool result and gets no placeholder: the result is the
      kept turns pruned, and only texts of results from the first user message up to the
      cutoff differ. */
  lemma PreparedWellPaired(history: seq<Message>, limit: int, window: int, cfg: Config, out: seq<Message>)
      returns (kept: seq<Message>, cutoff: int)
    requires Prepared(history, limit, window, cfg, out) && WellPaired(history)
    ensures IsSuffix(kept, history) && IsLimited(history, limit, kept)
    ensures IsCutoff(kept, cfg.keepLastAssistants, cutoff) && PrunedAt(kept, window, cfg, cutoff, out)
    ensures WellPaired(kept) && SameShape(kept, out)
    ensures forall i :: 0 <= i < |kept| && !(FirstUser(kept) <= i < cutoff && CanPrune(kept[i])) ==> out[i] == kept[i]
  {
    var pruned;
    kept, cutoff, pruned :| PreparedBy(history, limit, window, cfg, kept, cutoff, pruned, out);
    LimitedTurns(history, limit, kept);
    var cut := history[..|history| - |kept|];
    assert history == cut + kept;
    if cut != [] {
      WellPairedConcat(cut, kept);
    } else {
      assert history == kept;
    }
    PrunedShape(kept, window, cfg, cutoff, pruned);
    SameShapeWellPaired(kept, pruned);
    RepairIdentity(pruned, out);
  }

  /** The two messages that carry a background text, or nothing when there is none. */
  function Background(text: string, reply: string): (r: seq<Message>)
    ensures WellPaired(r)
  {
    if text == "" then [] else
    WellPairedConcat([Plain(User, text)], [Plain(Assistant, reply)]);
    assert [Plain(User, text), Plain(Assistant, reply)] == [Plain(User, text)] + [Plain(Assistant, reply)];
    [Plain(User, text), Plain(Assistant, reply)]
  }

  /** The request: background texts, the prepared history, and the user's message last. */
  function Assembled(systemPrompt: string, summaryText: string, memoryText: string, prepared: seq<Message>, userMessage: string): seq<Message> {
    [Plain(System, systemPrompt)]
    + Background(summaryText, "I understand the context from our previous conversation. How can I help you?")
    + Background(memoryText, "Noted the recalled memory context.")
    + prepared + [Plain(User, userMessage)]
  }

  method BuildMessages(history: seq<Message>, systemPrompt: string, summaryText: string, memoryText: string,
      userMessage: string, limit: int, window: int, cfg: Config)
      returns (messages: seq<Message>, ghost prepared: seq<Message>)
    ensures Prepared(history, limit, window, cfg, prepared)
    ensures messages == Assembled(systemPrompt, summaryText, memoryText, prepared, userMessage)
    ensures Ordered(systemPrompt, summaryText, memoryText, prepared, userMessage, messages)
    ensures WellPaired(messages)
  {
    messages := [Plain(System, systemPrompt)];
    var recap := Background(summaryText, "I understand the context from our previous conversation. How can I help you?");
    WellPairedConcat(messages, recap);
    messages := messages + recap;
    var recall := Background(memoryText, "Noted the recalled memory context.");
    WellPairedConcat(messages, recall);
    messages := messages + recall;
    var out := PrepareHistory(history, limit, window, cfg);
    prepared := out;
    WellPairedNoTool(out);
    WellPairedConcat(messages, out);
    messages := messages + out;
    WellPairedConcat(messages, [Plain(User, userMessage)]);
    messages := messages + [Plain(User, userMessage)];
    AssembledOrder(systemPrompt, summaryText, memoryText, out, userMessage);
  }

  /** The parts of a request by their places: the system prompt, a summary and a recalled memory
      if there are any, each with a reply, the prepared history, and the user's message. */
  predicate Ordered(systemPrompt: string, summaryText: string, memoryText: string, prepared: seq<Message>, userMessage: string, messages: seq<Message>) {
    var a, b := if summaryText == "" then 0 else 2, if memoryText == "" then 0 else 2;
    && |messages| == 1 + a + b + |prepared| + 1
    && messages[0] == Message(System, systemPrompt, [], "")
    && (a > 0 ==> messages[1] == Message(User, summaryText, [], "") && messages[2].role == Assistant && messages[2].toolCalls == [])
    && (b > 0 ==> messages[1 + a] == Message(User, memoryText, [], "") && messages[2 + a].role == Assistant && messages[2 + a].toolCalls == [])
    && messages[1 + a + b..|messages| - 1] == prepared
    && messages[|messages| - 1] == Message(User, userMessage, [], "")
  }

  lemma AssembledOrder(systemPrompt: string, summaryText: string, memoryText: string, prepared: seq<Message>, userMessage: string)
    ensures Ordered(systemPrompt, summaryText, memoryText, prepared, userMessage,
                    Assembled(systemPrompt, summaryText, memoryText, prepared, userMessage))
  {
  }

  lemma WellPairedNoTool(ms: seq<Message>)
    requires WellPaired(ms)
    ensures !StartsWithTool(ms)
  {
  }
}
