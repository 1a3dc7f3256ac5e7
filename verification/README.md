# Verification of the agent server

A Dafny model of the parts of the agent server and its user interface that keep state or
transform sequences, and proofs of what they promise. `dafny verify dfyconfig.toml` checks
everything. Methods, loops and classes stand where the program has them; each is proved
against a function or a predicate, and the properties that matter are proved about that.

**The conversation engine.** `Messages`, `History`, `Pruning`, `Pipeline` and `Compaction`
describe what is done to a list of messages between two requests to the model, `ToolLoop`
the detector of repeated calls, `StableJson` and `CallHash` the text it hashes, `AgentLoop`
and `Conversation` the run itself, `Transcript` what a run says, stores and sends, told by the
script of answers alone, `RunEnds` how a run ends, `Sessions` the session cache, and
`Summarizer` finished runs and background summarization interleaved on one session. The model
and the tools are an arbitrary script of answers. The main results: whatever is stored, every request of a run is
well paired (each tool call answered once, directly behind its assistant message) exactly
when every batch of calls that another request follows has distinct ids and no loop warning
between its results; and whatever compaction does to the requests, a completed run stores
everything that was said and answers what the script of answers determines.

**Memory chunking.** `LineChunks`, `OverlapChunks` and `SourceLines`: the line index agrees
with the document; the overlapping chunks conserve the text within a size bound; and when
the lines they record are those of the text. `ByteTrimming`: white space of UTF-8 texts.

**Streaming.** `Sse`: the browser's reader undoes the server's writer however the text is
cut, behind a bounded channel that may drop. `OpenAIStream`: a streamed answer is put
together to what the whole answer parses to.

**Reports.** `ReportTree`: flattening a component tree with fresh ids and reading it back.
`Fences`: cutting a message at its fenced blocks.

**Tools.** `Registry`, `FunctionStore` and `McpManager`: the in-memory registry agrees with
the stored function rows after any sequence of operations. `McpEffects`: what each operation
does to rows and servers. `NameDiscipline`: exactly when registry and rows agree.

**Skills and knowledge.** `Frontmatter` and `SkillText`: building and parsing SKILL.md.
`Ranking`, `SkillIndex`, `Bm25`, `SearchResults` and `KnowledgeSearch`: stable ranking, BM25
search and merging of the best.

`Strings`, `Trimming`, `TextChunks`, `Quoting`, `JsonValues`, `Ordering`, `Sequences` and
`Wrappers` hold what these share.

## Statements that do not hold, and when they do

- In-run pairing fails when the detector warns inside a batch of several calls
  (internal/agent/loop.go:506-517). `AgentLoop.WarningBreaksPairing` gives a batch for which it does,
  `AgentLoop.BatchPaired` and `AgentLoop.RequestsPaired` say exactly when pairing holds. The next run's
  pipeline repairs what was stored (`Pipeline.PreparedHistory`).
- Compaction inside a run does not keep the system message, although the messages are sent on
  without it (internal/agent/compact.go:79-85). `Transcript.PromptLost` gives a run that loses it,
  `Transcript.PromptKept` says for every request of every run exactly when it is still there, and
  `Compaction.CompactedWhen` exactly when compaction happens.
- A truncation counts from the end (internal/store/mysql/sessions.go:225-236) and so cuts messages
  that were not summarized when some were appended since the snapshot: `Summarizer.TruncationCuts`,
  and exactly then: `Summarizer.TruncationExact`. `Summarizer.TruncationLoses` is an interleaving.
- Clearing old results may make a history longer, since the placeholder may be longer than what it
  replaces: `Pruning.PruningLengthens`. `Pruning.ClearingLowers` says by how much the total changes
  and exactly when it falls.
- The line numbers of overlapping chunks need not be source lines (internal/memory/chunking.go:39-43):
  `SourceLines.LinesAreNotSourceLines`. `SourceLines.FirstChunkLines` says exactly when those of the
  first chunk are, for every text, size and overlap; `SourceLines.LaterChunksBefore` that without
  overlap and cut paragraphs those of later chunks never are.
- A stream whose tool-call indices are not 0 .. n-1 makes the reader dereference nil:
  `OpenAIStream.ChatStream` says exactly when, `OpenAIStream.IndexFromOneFails` gives one. An answer
  without finish reason and tool calls gets "stop" when streamed and "" when not:
  `OpenAIStream.StreamedIsWhole`.
- Two servers of a workspace that offer the same function share a registry key. From any
  well-formed state in which two servers have rows of the same name registry and rows can get out of step
  (`NameDiscipline.SharedNameBreaks`), so they always agree exactly when no two servers of a workspace
  may offer the same name (`NameDiscipline.DisciplineExact`). `NameDiscipline.SharedNameGone` shows
  what a user sees.
- Enabling a function of a loaded server whose rows cannot be read back leaves the registry behind
  the rows: `McpManager.HalfDoneDisagrees` says exactly when, `NameDiscipline.HalfDoneExample` gives
  a case. Setting a flag a row already has is reported as "not found", since the driver counts
  changed rows only (`FunctionStore.Store.SetFunctionEnabled`).
- Before the first compaction memory is never flushed, because marker and count both start at 0
  (internal/agent/memoryflush.go:41-47): `Summarizer.Interleavings`.

## Model

| member | source | states |
|---|---|---|
| History.HistoryTurnStartIndex | internal/agent/history.go:160-183 | the index found is where the last `keepTurns` user turns start |
| History.TurnStartUnique | internal/agent/history.go:160-183 | there is only one such index |
| History.LimitHistoryTurns | internal/agent/history.go:186-191 | the limited history is a suffix from such an index, everything for a limit of 0 or less |
| History.LimitedTurns | internal/agent/history.go:186-191 | the kept suffix has exactly min(limit, all) user turns and starts at a user message whenever something was dropped |
| History.SanitizeHistory | internal/agent/history.go:194-254 | the result is a repair of the input: after each assistant message with calls the first real answer of each call, then a placeholder for each call left unanswered, other tool results dropped, nothing else changed |
| History.RepairWellPaired | internal/agent/history.go:194-254 | every repair is well paired: each call answered once, directly behind its assistant message |
| History.BlockTold | internal/agent/history.go:212-244 | the block behind a calling message after the repair: the first stored result for each call, in their order, then one placeholder with the program's text for each call without one |
| History.RepairKeepsNonTools | internal/agent/history.go:194-254 | a repair keeps every message that is not a tool result, unchanged and in order |
| History.RepairIdentity | internal/agent/history.go:194-254 | repairing a well-paired list changes nothing |
| Messages.WellPairedAnswers | internal/agent/history.go:194-254 | in a well-paired list every tool result answers a call of an assistant message before it, with nothing but results between |
| Pruning.FindAssistantCutoff | internal/agent/pruning.go:183-198 | the cutoff is the position of the n-th assistant message from the end, -1 or 0 in the boundary cases of the code |
| Pruning.CutoffUnique | internal/agent/pruning.go:183-198 | there is only one such position |
| Pruning.TakeHead | internal/agent/pruning.go:206-216 | the first n runes of a text |
| Pruning.TakeTail | internal/agent/pruning.go:218-227 | the last n runes of a text |
| Pruning.PruneContextMessages | internal/agent/pruning.go:58-179 | the pruned list is the list with its prunable results trimmed, and then the oldest cleared exactly while the tracked total is at or above the limit; PrunedResults says what is left of each |
| Pruning.PrunedResults | internal/agent/pruning.go:92-176 | whenever pruning is triggered: the oldest k prunable results are the placeholder, each other one is unchanged if not too long and otherwise its first characters, the ellipsis, its last characters and a note with both counts; none is cleared unless clearing is enabled and there is enough to clear |
| Pruning.RatioReached | internal/agent/pruning.go:63-90 | in numbers: a ratio is reached from so many characters on, four for a token |
| Pruning.TrackedTrimming | internal/agent/pruning.go:98-126 | the tracked total is the true one when no trimmed result holds a character of more than one byte |
| Pruning.TrackedBounds | internal/agent/pruning.go:101-176 | the tracked total, which mixes bytes and runes, never falls below the true rune total |
| Pruning.ClearingReachesLimit | internal/agent/pruning.go:146-176 | clearing ends with the true total below the limit or with every prunable result cleared, oldest first; the others are whole or keep their head and tail |
| Pruning.PruningReachesLimit | internal/agent/pruning.go:66-179 | the same for the whole operation, whenever it is triggered and clearing starts |
| Pruning.PrunedShape | internal/agent/pruning.go:66-179 | nothing outside the results between the first user message and the cutoff changes, roles and ids never do |
| Pruning.SameShapeWellPaired | internal/agent/pruning.go:58-179 | pruning keeps a well-paired list well paired |
| Pruning.ClearingLowers | internal/agent/pruning.go:146-176 | whenever clearing starts some result is cleared, and the total of the trimmed list then changes by exactly the placeholders minus the contents cleared; so it falls if and only if those held more than the placeholders do |
| Pruning.PruningLengthens | internal/agent/pruning.go:162-176 | a history that pruning makes longer: its one short result is replaced by the placeholder |
| Pipeline.PrepareHistory | internal/agent/history.go:75-77 | limit, prune and repair in that order give a well-paired list |
| Pipeline.PreparedHistory | internal/agent/history.go:75-77 | for every stored history, limit, window and configuration: the result is well paired and keeps every non-tool message of the kept turns, unchanged and in order |
| Pipeline.PreparedWellPaired | internal/agent/history.go:75-77 | a well-paired history loses no result and gets no placeholder: what comes out are the kept turns pruned, so that only texts of results between the first user message and the cutoff can differ, and these may get shorter or longer |
| Pipeline.BuildMessages | internal/agent/history.go:16-95 | the request is, by places, the system prompt, a summary and recalled memory if there are any, the prepared history and the user message, and is well paired |
| Compaction.CompactMessagesInPlace | internal/agent/compact.go:17-94 | the messages before the last boundary that separates no pair are replaced by one summary; nothing happens for short lists or a failed summary |
| Compaction.CompactedUnique | internal/agent/compact.go:17-94 | there is only one such result |
| Compaction.CompactedWhen | internal/agent/compact.go:17-94 | compaction happens exactly for at least six messages, a summary, and a position between 2 and the messages to keep that separates no pair |
| Compaction.CompactedShape | internal/agent/compact.go:41-94 | a compacted list is one summary and a suffix of at least the number of messages to keep; the first two messages, and so the system prompt, are always gone; pairing is kept |
| Compaction.CompactedShare | internal/agent/compact.go:17-45 | in numbers: at least four messages of up to sixteen, or three in ten, are kept, exactly that many when no pair stands at the boundary, and otherwise as few more as it takes to start outside a pair |
| ToolLoop.ToolLoopState.RecordCall | internal/agent/toolloop.go:31-41 | one more call in the history of the last 30 |
| ToolLoop.ToolLoopState.RecordResult | internal/agent/toolloop.go:44-54 | the newest record of the call that waits for a result gets it |
| ToolLoop.ToolLoopState.Detect | internal/agent/toolloop.go:57-95 | critical from 5 equal (call, result) pairs among the last 30, warning from 3 |
| ToolLoop.FillNewest | internal/agent/toolloop.go:44-54 | only the newest waiting record of the call changes |
| ToolLoop.CountRepeats | internal/agent/toolloop.go:62-80 | the counter loop counts the records equal to the newest one |
| ToolLoop.DetectCountsPair | internal/agent/toolloop.go:57-95 | what the detector counts is the multiplicity of the newest (call, result) pair |
| ToolLoop.CriticalPrefix | internal/agent/toolloop.go:57-95 | a log of 4k+1 pairs over k distinct ones, k at most 7, has a prefix on which the detector is critical |
| ToolLoop.LoopBound | internal/agent/toolloop.go:57-95 | a log over k <= 7 distinct pairs on which the detector was never critical before the end has at most 4k+1 entries |
| Ordering.SortCollected | internal/agent/toolloop.go:114-119 | sorting the keys gives the same list in whatever order the map yields them |
| StableJson.PrintUnique | internal/agent/toolloop.go:108-131 | a printed value followed by a delimiter is read in one way only |
| StableJson.Canonical | internal/agent/toolloop.go:108-131 | two values print alike exactly when they are equal, objects as unordered maps |
| CallHash.NoProperSuffix | internal/agent/toolloop.go:97-101 | no printed object ends in a colon and another printed object |
| CallHash.HashInputUnique | internal/agent/toolloop.go:97-101 | two tool calls give the same hash input exactly when name and arguments agree, for all names, colons included |
| AgentLoop.BatchPaired | internal/agent/loop.go:375-430 | the messages of one batch are well paired exactly when its ids are distinct and the detector is silent before the last call |
| RunEnds.BatchTold | internal/agent/loop.go:375-520 | every batch runs its calls in order, answers each under its id, warns from three and stops at five repeats of a (call, result) pair among the last thirty, and runs no call behind a stop |
| AgentLoop.WarningBreaksPairing | internal/agent/loop.go:506-517 | a batch of four equal calls with equal results is not well paired: the warning lands between two results |
| AgentLoop.RequestsPaired | internal/agent/loop.go:248-522 | in every run all requests are well paired, also after compaction, exactly when every batch followed by another request is clean |
| Transcript.RunTold | internal/agent/loop.go:248-522 | the state of every run is the one that the script of answers tells turn by turn: messages, pending buffer, call log and requests |
| RunEnds.TranscriptTold | internal/agent/loop.go:248-522 | what is said and logged before each turn, told turn by turn and call by call |
| RunEnds.EveryRunEnds | internal/agent/loop.go:285-522 | every run goes on exactly through the answers that ask for tools and stop at no critical call, and ends failed, with the content of the answer, or with the notice on the first critical call, as the last one says; it is left running only when its iterations are used up |
| RunEnds.EndUnique | internal/agent/loop.go:285-522 | the script determines after how many turns a run ends, and how, whatever the history |
| Transcript.PendingCovers | internal/agent/loop.go:277-522 | in every run the pending buffer is exactly the user message and everything said in the turns taken, in order; compaction cuts nothing from it |
| Transcript.PendingGrows | internal/agent/loop.go:277-522 | with more iterations the pending buffer only grows |
| Transcript.RequestsCover | internal/agent/loop.go:288-372 | request k of every run is the initial request and everything said before turn k, or, once an earlier turn has compacted, its summary and a suffix of that which holds everything said since and at least the messages to keep |
| Transcript.PromptKept | internal/agent/loop.go:345-372 | request k still starts with the system prompt if and only if no earlier turn has compacted |
| Transcript.PromptLost | internal/agent/loop.go:345-372 | a run whose second request has lost the system prompt |
| AgentLoop.PendingPaired | internal/agent/loop.go:277-522 | what a run leaves to be stored is well paired exactly when the detector never spoke up before the last call of a batch |
| AgentLoop.UsageAddsUp | internal/agent/loop.go:284-345 | the token totals are, count by count, the sums over the answers that reported their usage, at most one for each iteration |
| AgentLoop.FillsWhen | internal/agent/loop.go:345-349 | in numbers: when an answer fills its share of the context window |
| AgentLoop.FewPairsShortRun | internal/agent/loop.go:386-424 | a run with at most k <= 7 distinct (call, result) pairs records at most 4k+1 calls, however many iterations it may take |
| AgentLoop.Observe | internal/agent/loop.go:386-390 | recording a call and asking the detector gives the verdict on the extended log |
| AgentLoop.ExecuteCall | internal/agent/loop.go:386-430 | one call of a batch adds its result, and a warning or a stop if the detector asks for one |
| AgentLoop.ExecuteBatch | internal/agent/loop.go:375-521 | the loop over a batch appends results and warnings and stops at a critical verdict, as the batch function says |
| Conversation.CompactWhenDue | internal/agent/loop.go:345-372 | compaction happens at most once, at the first answer whose prompt fills its share of the window |
| Conversation.TakeTurn | internal/agent/loop.go:288-521 | one iteration of the loop is one step of the run; an answer that reports its usage recalibrates the token estimate with its prompt size and the number of messages sent |
| Conversation.RunLoop | internal/agent/loop.go:277-522 | the loop follows the run function for at most maxIterations turns; the calibration it hands back is that of the last answer that reported its usage |
| Conversation.LastReportIs | internal/agent/loop.go:336-343 | the calibration is that of the last turn that reported its usage: its prompt size and the number of messages sent |
| Conversation.FinalContentIs | internal/agent/loop.go:524-533 | the stored answer is the cleaned content, or three dots in place of an empty one |
| Conversation.RunWent | internal/agent/loop.go:248-522 | every run from a well-paired request stores and sends what the transcript says, ends as the script says, and sends well-paired requests exactly when its batches are clean |
| Conversation.StoreRun | internal/agent/loop.go:535-546 | the session gets the pending messages and the answer in order, and the token counts; other sessions are untouched |
| Conversation.BuildRequest | internal/agent/loop.go:272-275 | the request is built from the stored history and summary and is well paired |
| Conversation.RunOnce | internal/agent/loop.go:248-560 | a whole run, from the script of answers alone: it fails exactly when the last call failed; otherwise its answer is the cleaned content of the last answer, which asked for no tools, or the notice on the first critical call, or three dots when that is empty or the iterations are used up; a failed run stores no message, a completed one appends the user message, everything said in all turns and the answer; token counts and calibration are exactly those reported; nothing else of the session and no other session changes; its requests are all well paired exactly when every batch followed by another request is clean |
| Sessions.CacheKeyInjective | internal/store/mysql/sessions.go:30-32 | two sessions never share a cache entry, for workspace ids without NUL |
| Sessions.KeepLast | internal/store/mysql/sessions.go:225-236 | what truncation leaves: a suffix of the given length, nothing for 0 or less |
| Sessions.SessionStore.AddMessage | internal/store/mysql/sessions.go:107-114 | the message goes to the end of its session, other sessions are untouched |
| Sessions.SessionStore.GetHistory | internal/store/mysql/sessions.go:134-163 | the history of the session, read from its database row when it is not cached, and empty when there is no row; a session read is cached |
| Sessions.SessionStore.SetSummary | internal/store/mysql/sessions.go:174-181 | only the summary of the session changes |
| Sessions.SessionStore.TruncateHistory | internal/store/mysql/sessions.go:225-236 | only the last messages of the session stay |
| Sessions.SessionStore.IncrementCompaction | internal/store/mysql/sessions.go:208-214 | only the compaction count of the session changes |
| Sessions.SessionStore.SetMemoryFlushAt | internal/store/mysql/sessions.go:370-376 | only the flush marker of the session changes |
| Sessions.SessionStore.SetLastPromptTokens | internal/store/mysql/sessions.go:343-350 | only the calibration of the token estimate changes |
| Sessions.SessionStore.AccumulateTokens | internal/store/mysql/sessions.go:199-206 | only the token counters change |
| Summarizer.StepInv | internal/agent/loop.go:595-689 | every atomic step of appending, locking, flushing, summarizing and truncating keeps the invariant |
| Summarizer.Interleavings | internal/agent/loop.go:595-689 | in every interleaving of finished runs and summarization: at most one thread is past the lock, the live history is a suffix of everything appended, memory is flushed at most once per compaction count |
| Summarizer.SummaryBehind | internal/agent/loop.go:639-666 | in every interleaving a thread that is about to truncate has had its own summarizing call answered for that very snapshot, and the answer is the session's summary ever since |
| Summarizer.OnlyAnswered | internal/agent/loop.go:639-668 | in every interleaving whatever shortens the history or counts a compaction comes from a thread whose summarizing call has answered |
| Summarizer.FlushedFirst | internal/agent/memoryflush.go:35-53 | in every interleaving a thread past its flush has seen memory flushed at the current compaction count, unless there was no compaction yet; without memory nothing is flushed |
| Summarizer.Alone | internal/agent/loop.go:595-689 | a thread that is not interrupted does what the function does alone: nothing below fifty-one messages and the threshold; otherwise it flushes memory when that is due, and, when there are more than four turns and the call answers, leaves the last four turns, the answer as summary and one more compaction |
| Summarizer.FlushingStep | internal/agent/memoryflush.go:35-53 | starting a flush keeps the invariant: the compaction counts flushed at increase strictly and never exceed the current count |
| Summarizer.TruncationCuts | internal/agent/loop.go:620-671 | in every interleaving a truncation cuts the summarized prefix and one more message for each message appended since the snapshot |
| Summarizer.TruncationExact | internal/agent/loop.go:620-671 | in every interleaving it cuts exactly what was summarized if and only if nothing was appended since the snapshot; then the history starts at a user message and holds the last turns |
| Summarizer.TruncationLoses | internal/agent/loop.go:620-671 | an interleaving of five turns in which the second turn is cut although only the first was summarized |
| LineChunks.ChunkText | internal/memory/chunking.go:108-159 | the chunks describe the document: disjoint increasing line ranges, each chunk the trimmed text of its range, every non-blank line covered; and each ends before a blank line at half of the size, or at the size, or at the end, and goes on wherever neither is reached |
| LineChunks.ChunkLines | internal/memory/chunking.go:115-158 | the same for the loop over the lines, for any trimming |
| LineChunks.Chunker.Flush | internal/memory/chunking.go:121-134 | a flush adds the trimmed text, unless it is blank, and starts the next range |
| LineChunks.Chunker.TakeLine | internal/memory/chunking.go:136-154 | the loop body: a blank line ends a chunk that is half full, a full chunk is flushed |
| LineChunks.TakeAt | internal/memory/chunking.go:136-154 | a line taken keeps the agreement with the document |
| LineChunks.ReadBack | internal/memory/manager.go:487-507 | reading a chunk's line range back from the document and trimming gives the chunk's text |
| LineChunks.ExactlyOne | internal/memory/chunking.go:108-159 | every non-blank line lies in exactly one chunk |
| OverlapChunks.JoinParagraphs | internal/memory/chunking.go:24 | joining the paragraphs gives back the text |
| OverlapChunks.CutConserves | internal/memory/chunking.go:75-85 | cutting a long paragraph loses nothing |
| OverlapChunks.CutSizes | internal/memory/chunking.go:75-85 | every piece but the last has the full size, and each stands where the one before ends |
| OverlapChunks.TailIsLongest | internal/memory/chunking.go:49-58 | what is carried over is the longest tail totalling at most the overlap |
| OverlapChunks.Carry | internal/memory/chunking.go:49-58 | the loop from the end computes that tail |
| OverlapChunks.TextWithin | internal/memory/chunking.go:31-48 | a chunk's text is not longer than its pieces joined, blank ones in front not counted |
| OverlapChunks.Chunker.Flush | internal/memory/chunking.go:31-63 | the flush closure: the trimmed text becomes a chunk, unless it is blank, and the longest tail that the overlap allows is carried over |
| OverlapChunks.Chunker.ForceSplit | internal/memory/chunking.go:71-88 | a long paragraph is cut, with a flush before it and between its pieces |
| OverlapChunks.Chunker.AddWhole | internal/memory/chunking.go:90-101 | a short paragraph joins the current pieces, or those left by a flush when the size would be passed |
| OverlapChunks.Chunker.CutPiece | internal/memory/chunking.go:75-85 | one piece is cut off and laid, and flushed unless it is the last |
| OverlapChunks.FlushKeeps | internal/memory/chunking.go:31-63 | a flush keeps everything laid so far and leaves room for one more piece |
| OverlapChunks.LongKeeps | internal/memory/chunking.go:71-88 | so do the pieces of a long paragraph, with a flush behind each but the last |
| OverlapChunks.WholeKeeps | internal/memory/chunking.go:90-101 | so does a short paragraph, with a flush before it when the size asks for one |
| OverlapChunks.AllLaid | internal/memory/chunking.go:24-104 | so does the whole loop with its last flush, for any trimming that has the laws used |
| OverlapChunks.ChunkTextWithOverlap | internal/memory/chunking.go:16-104 | each chunk is the longest tail of the one before that the overlap allows, and new pieces; the new pieces in order are exactly the pieces of the text; no chunk exceeds chunkSize + 3*overlap bytes; a piece joins a chunk only while the size has room, and a chunk ends only where the next piece would pass the size or belongs to a long paragraph |
| ByteTrimming.TrimEncoded | internal/memory/chunking.go:66 | trimming works on bytes; on the UTF-8 encoding of a text it gives the encoding of the text trimmed of all white space characters |
| ByteTrimming.BytesValue | internal/memory/chunking.go:66 | the encoding is that of UTF-8: its bytes determine the character |
| ByteTrimming.TrimStands | internal/memory/chunking.go:66 | trimming takes off white space and leaves none at either end, for any bytes, valid or not |
| SourceLines.FirstChunkLines | internal/memory/chunking.go:39-43 | the first chunk records the line on which it starts if and only if no line break precedes the first character that is not white space, and the line on which it ends if and only if besides no more than a double line break lies between any two of its paragraphs |
| SourceLines.LaterChunksBefore | internal/memory/chunking.go:39-61 | without overlap and long paragraphs chunk i is recorded at least i lines before the line on which it starts; its recorded start is right if and only if it is the first chunk and no line break precedes it |
| SourceLines.LinesAreNotSourceLines | internal/memory/chunking.go:39-43 | a text whose chunk is recorded on the wrong line: a line behind two empty ones is recorded as line 1 |
| Sse.StreamSSE | ui/web/src/lib/sse.ts:16-52 | the events delivered depend only on the concatenation of the network chunks |
| Sse.ReadLines | ui/web/src/lib/sse.ts:30-51 | the loop over the lines of a chunk |
| Sse.SplitConcat | ui/web/src/lib/sse.ts:26-28 | later text only continues the last line |
| Sse.BlockDelivers | ui/web/src/lib/sse.ts:30-51 | a block up to an empty line delivers at most one event, made of its last event field and its last data field |
| Sse.DeliveredGrows | ui/web/src/lib/sse.ts:16-52 | events delivered for a prefix stay delivered |
| Sse.RoundTrip | internal/transport/http/handler/agent.go:131-141 | for every list of events and every cutting of the written text the reader delivers exactly the events that can be marshalled, in order |
| Sse.ChannelKeeps | internal/transport/http/handler/agent.go:116-128 | in every interleaving the writer gets a subsequence of the emitted events, all of them exactly when none found the buffer of 64 full |
| Sse.ChannelHolds | internal/transport/http/handler/agent.go:116-128 | in every interleaving the writer gets, in order, exactly the events that found fewer than 64 in the buffer |
| Sse.EndToEnd | internal/transport/http/handler/agent.go:116-149 | what the browser delivers is a subsequence of what the run emitted, in every interleaving and for every cutting |
| OpenAIStream.ParseResponse | internal/providers/openai.go:345-378 | the whole answer as a value |
| OpenAIStream.Accumulate | internal/providers/openai.go:178-190 | after each fragment the table holds for every index the first id, the last non-empty name and all arguments |
| OpenAIStream.TakeChunk | internal/providers/openai.go:152-194 | one chunk: usage, content, fragments and finish reason |
| OpenAIStream.ChatStream | internal/providers/openai.go:131-219 | the streamed answer: it is put together exactly when the call indices are 0 .. n-1, and otherwise a nil accumulator is dereferenced; the contents passed on concatenate to the content |
| OpenAIStream.IndexFromOneFails | internal/providers/openai.go:200-206 | a stream whose indices are not 0 .. n-1: one fragment of index 1 |
| OpenAIStream.StreamedIsWhole | internal/providers/openai.go:131-218 | for every fragmentation and interleaving the streamed answer equals the parsed whole one, the finish reason included exactly when it is given or there are tool calls |
| OpenAIStream.LinesDecode | internal/providers/openai.go:138-151 | the chunks of a stream are those of its data lines, with a space behind the prefix or without, whatever stands between them and behind the end mark |
| OpenAIStream.LinesRead | internal/providers/openai.go:131-219 | from the lines of a stream to the answer, field by field, however the data is spaced, the answer cut and its calls interleaved |
| ReportTree.Flattener.AddNode | ui/web/src/lib/report-spec.ts:140-189 | addNode follows the store function, ids given in preorder |
| ReportTree.AddGrows | ui/web/src/lib/report-spec.ts:140-189 | adding a node keeps every invariant of the table and adds exactly its normalised subtree |
| ReportTree.NodeCloses | ui/web/src/lib/report-spec.ts:176-189 | with its children added the node itself completes the subtree |
| ReportTree.OneMoreKid | ui/web/src/lib/report-spec.ts:162-174 | a child that has grown is pushed to its parent |
| ReportTree.Flattens | ui/web/src/lib/report-spec.ts:136-196 | for every input: ids are exactly root and node_1 .. node_n, references form a tree, reading back from the root gives the normalised input without invalid nodes |
| ReportTree.NormalMeans | ui/web/src/lib/report-spec.ts:140-207 | the tree that is flattened is what the input means: texts, components by name, properties key by key with those under "props" overridden, and the children that are components, in order |
| ReportTree.ReadBackUnique | ui/web/src/lib/report-spec.ts:136-196 | the table reads as one tree only |
| ReportTree.ParentUnique | ui/web/src/lib/report-spec.ts:136-196 | no element has two parents or two places, none refers to the root |
| ReportTree.NodeNames | ui/web/src/lib/report-spec.ts:142 | the ids differ from each other and from the root |
| ReportTree.ParseTreeSpec | ui/web/src/lib/report-spec.ts:136-196 | the spec built, or none for an input that is not a component |
| Fences.FenceText | ui/web/src/lib/report-spec.ts:22 | a match is ticks, language, at most one line break, content without ticks, and ticks; no match stands before it, and of those that start with it its language is the longest and its end the first; without one there is no match at all |
| Fences.PushMarkdown | ui/web/src/lib/report-spec.ts:755-763 | text is appended to a markdown segment at the end, or becomes a new one |
| Fences.Cut | ui/web/src/lib/report-spec.ts:24-48 | the loop over the matches: the blocks are exactly the matches of the scan that convert, in order; nothing is lost, no two markdown segments are neighbours and none is empty |
| Fences.ConvertedWhen | ui/web/src/lib/report-spec.ts:24-48 | a block becomes a segment of its own exactly when it parses as a report or is labelled as html |
| Fences.ParseReportMessageContent | ui/web/src/lib/report-spec.ts:24-48 | the segments that are not markdown are, in order, exactly the matches that convert when the message is scanned match by match, each the report its block parses to or the trimmed html; joining the markdown segments with the original text of these blocks gives back the message |
| Registry.RegKeyInjective | internal/tools/registry.go:62-67 | registry keys of workspaces differ for different workspaces or names |
| Registry.Registry.RegisterForWorkspace | internal/tools/registry.go:91-95 | one entry under the workspace key |
| Registry.Registry.UnregisterForWorkspace | internal/tools/registry.go:109-118 | that entry goes, the answer tells whether it was there |
| Registry.Registry.GetForWorkspace | internal/tools/registry.go:157-165 | the workspace's tool of a name, or else the global one |
| Registry.Registry.ProviderDefs | internal/tools/registry.go:205-217 | the listing offered to the model: each visible entry once, in whatever order the map yields them |
| FunctionStore.Store.SyncFunctions | internal/store/mysql/mcp_servers.go:234-294 | rows not found are deleted, the others inserted or refreshed one by one |
| FunctionStore.SyncedRow | internal/store/mysql/mcp_servers.go:230-294 | after a sync exactly the functions found have rows, with the description and schema found last, "{}" for an empty schema; a row that was there is enabled if and only if it was, a new one is enabled |
| FunctionStore.Store.SetFunctionEnabled | internal/store/mysql/mcp_servers.go:296-308 | the flag of one row; an error when no row changes, also when it already had the flag |
| FunctionStore.ChangesWhen | internal/store/mysql/mcp_servers.go:296-308 | a row changes exactly when one of the name has another flag |
| McpManager.RegisterAllAt | internal/mcp/manager.go:85-94 | registering a list touches exactly the entries of its enabled rows that clash with no platform name |
| McpManager.BlockedIsPlatform | internal/mcp/manager.go:187-198 | registration is refused exactly for names of platform tools |
| McpManager.RemovedAgrees | internal/mcp/manager.go:236-253 | removing a server keeps registry and rows in agreement |
| McpManager.LoadAgrees | internal/mcp/manager.go:76-103 | so does loading one from its rows |
| McpManager.SyncAgrees | internal/mcp/manager.go:108-136 | so does a sync |
| McpManager.ToggleAgrees | internal/mcp/manager.go:141-182 | so does switching a function on or off |
| McpManager.CloseAgrees | internal/mcp/manager.go:256-272 | so does closing all |
| McpManager.HalfDoneDisagrees | internal/mcp/manager.go:156-172 | if reading the rows back fails while enabling a loaded function, registry and rows agree afterwards if and only if a platform tool has the name |
| McpManager.RunAgrees | internal/mcp/manager.go:76-272 | after any sequence of operations registry and rows agree, when each name that no platform tool has belongs to one server of its workspace |
| McpManager.StartAgrees | internal/tools/registry.go:83-87 | with the platform tools registered and no server loaded, registry and rows agree |
| McpManager.VisibleIsDue | internal/tools/registry.go:135-170 | the tools visible in a workspace are exactly the platform's and, with their descriptions and schemas, those of the enabled rows of its loaded servers that clash with no platform name |
| McpManager.VisibleUnique | internal/tools/registry.go:205-217 | every such listing holds exactly the due tools, and no two of its places hold tools of the same name |
| McpManager.OthersUntouched | internal/mcp/manager.go:76-182 | an operation on one workspace changes nothing another one sees |
| McpEffects.RowAfter | internal/mcp/manager.go:76-253 | what each operation does to the row of every name: a sync as SyncedRow says, switching sets the flag of a row that is there, nothing else changes a row |
| McpEffects.LoadedAfter | internal/mcp/manager.go:76-272 | which servers each operation leaves loaded, also when rows cannot be listed or the server cannot be asked |
| McpEffects.StaysOff | internal/store/mysql/mcp_servers.go:230-294 | a disabled function stays disabled and invisible through any operations whose syncs of its server list it and that do not switch it on |
| NameDiscipline.SharedNameBreaks | internal/mcp/manager.go:76-200 | from any state with a well-formed registry in which two servers of a workspace have rows of the same name, not a platform tool's: after switching both on and loading both servers the visible tools are not the due ones |
| NameDiscipline.DisciplineExact | internal/mcp/manager.go:76-272 | for any rows at the start, what is visible is what is due after every sequence of operations if and only if no two servers of a workspace may offer the same name, names of platform tools apart |
| NameDiscipline.SharedNameGone | internal/mcp/manager.go:187-198 | two servers of a workspace with the same function: removing one takes away the tool of the other |
| NameDiscipline.HalfDoneExample | internal/mcp/manager.go:156-172 | a loaded server with one disabled row, enabled while the rows cannot be read back: its row is enabled and its tool is not visible |
| McpManager.ProgramKeysOk | internal/mcp/manager.go:37-39 | names without NUL make registry and server keys unambiguous |
| McpManager.Manager.TryRegister | internal/mcp/manager.go:187-198 | registers unless a platform tool owns the name |
| McpManager.Manager.RemoveServer | internal/mcp/manager.go:236-253 | unregisters the names the server remembers |
| McpManager.Manager.LoadFromCache | internal/mcp/manager.go:76-103 | removes, then registers the enabled rows and remembers their names |
| McpManager.Manager.SyncServer | internal/mcp/manager.go:108-136 | stores what was found, then loads |
| McpManager.Manager.SetFunctionEnabled | internal/mcp/manager.go:141-182 | updates the row, then the registry and the remembered names |
| McpManager.Manager.CloseAll | internal/mcp/manager.go:256-272 | unregisters the names of every server, in any order |
| Frontmatter.IndexClosingFence | internal/skills/frontmatter.go:178-200 | offset of the closing fence, -1 if there is none |
| Frontmatter.ClosingFenceFirst | internal/skills/frontmatter.go:176-200 | it is the first line that starts with the fence |
| Frontmatter.ParseSimpleYaml | internal/skills/frontmatter.go:205-226 | the fields of the lines without indentation |
| Frontmatter.FrontmatterFields | internal/skills/frontmatter.go:37-60 | fields and body, none without a leading block |
| Frontmatter.OneLineIsLine | internal/skills/frontmatter.go:170-174 | the description becomes one trimmed line |
| Frontmatter.ScalarReads | internal/skills/frontmatter.go:103-143 | the scalar written is read back as the same text, quoted or plain |
| Frontmatter.WriterWrites | internal/skills/frontmatter.go:103-143 | what the program writes its own reader reads back: every description scalar and every valid name, and a one-line description stays as it is |
| Frontmatter.RoundTrip | internal/skills/frontmatter.go:103-125 | for every valid name, any description and any body, parsing what was built gives the name, the one-line description, and one line break with the body without its leading ones |
| Frontmatter.RebuildIdentical | internal/skills/frontmatter.go:118-124 | building again from the parse gives the identical file |
| SkillText.BuiltText | internal/skills/frontmatter.go:103-125 | the file built, line by line; of the body only the line breaks in front are missing |
| SkillText.OneLineIs | internal/skills/frontmatter.go:170-174 | a description on one line: each line break, with the carriage return before it, becomes a space |
| SkillText.WrittenPlain | internal/skills/frontmatter.go:127-143 | exactly the descriptions that need no quotes are written plain |
| SkillText.FieldTold | internal/skills/frontmatter.go:205-226 | the fields of any frontmatter are those that a line without indentation and comment declares, each with the value of the last such line |
| SkillText.BodyTold | internal/skills/frontmatter.go:47-60 | the body starts behind the line of the closing fence, with or without a carriage return |
| SkillText.SingleQuoted | internal/skills/frontmatter.go:228-241 | a single-quoted value is read as what it quotes |
| Quoting.UnquoteQuote | internal/skills/frontmatter.go:111-112 | unquoting undoes quoting |
| Quoting.HexCase | internal/skills/frontmatter.go:228-236 | hexadecimal digits of an escape are read in either case |
| SkillIndex.Index.Build | internal/skills/search.go:53-86 | the table counts for every token the documents that contain it; the average is that of the lengths |
| SkillIndex.CountDocument | internal/skills/search.go:72-79 | each token of a document is counted once |
| SkillIndex.ScorePositive | internal/skills/search.go:108-136 | a document scores above zero exactly when it shares a token with the query |
| SkillIndex.MatchesShare | internal/skills/search.go:108-139 | the matches are exactly the documents that share a token with the query |
| SkillIndex.MoveDown | internal/skills/search.go:142-150 | one round of the insertion sort |
| SkillIndex.InsertionSort | internal/skills/search.go:142-150 | the array becomes its stable ranking |
| SkillIndex.Index.Search | internal/skills/search.go:90-166 | the best maxResults matches in descending score, ties in corpus order |
| SkillIndex.SearchIsBest | internal/skills/search.go:142-154 | nothing left out scores more than a result |
| SearchResults.SearchTold | internal/skills/search.go:90-166 | what a search answers, by positions: at most maxResults (five if not given) skills that share a token with the query, with names, descriptions and scores, best first, equal scores in corpus order, and none left out that belongs before one of them |
| Bm25.TermOrder | internal/skills/search.go:108-136 | a token adds more when it is rarer, more when it occurs more often, and less in a longer document |
| Bm25.TermWeighs | internal/skills/search.go:120-136 | what a token adds, in numbers: nothing if it does not occur, else 2.2 times its rarity times tf / (tf + 1.2 (0.25 + 0.75 dl/avg)) |
| Bm25.IdfIs | internal/skills/search.go:125-128 | its rarity is the logarithm of (N + 1) / (df + 0.5) |
| Bm25.ScoreAdds | internal/skills/search.go:118-136 | a score is the sum over the query's tokens, repeated ones counted each time |
| Bm25.FrequencyCounts | internal/skills/search.go:112-117 | the term frequency is the number of occurrences |
| Bm25.ContainingCounts | internal/skills/search.go:72-79 | the document frequency is the number of documents that contain the token |
| Bm25.DocsAre | internal/skills/search.go:53-70 | every skill is indexed by the tokens of its name and description |
| Ranking.RankIsRanking | internal/skills/search.go:142-150 | the ranking is in descending order and keeps the order among equal scores |
| Ranking.RankingUnique | internal/skills/search.go:142-150 | there is only one such ranking |
| KnowledgeSearch.Search | internal/tools/knowledge/search_knowledge.go:127-147 | the answers of the distinct collections are merged, ranked stably and cut |
| KnowledgeSearch.CollectionsOrder | internal/tools/knowledge/search_knowledge.go:124-134 | collections are asked in the order of their first mention |
| KnowledgeSearch.MergeIsBest | internal/tools/knowledge/search_knowledge.go:127-147 | if each collection answers with its own k best in order, the result is the k best of everything in all collections that answered |

## Left out

- I/O of every kind: HTTP, MySQL, Qdrant, gRPC, Temporal, CAS, OAuth, Jira, Resend, OpenSearch; rows are maps, remote answers are parameters.
- The model, the tools, JSON parsing and SHA-256: arbitrary values and functions; hashing and the cleanup of answers are parameters, the latter only assumed to answer trimmed text.
- The wording of prompts, warnings and summaries: parameters of the run.
- The cutting of oversized user messages, prompt-injection checks, events, titles, metadata, tracing and saving around a run.
- Scheduling of the goroutines that run a batch of tools: their results are used in call order.
- Strings are sequences of Unicode scalar values; invalid UTF-8, surrogates and names with NUL are not modelled. In OverlapChunks and SourceLines a text is a sequence of bytes, valid UTF-8 or not.
- MySQL's collation: names are compared exactly and listed by code point.
- Integer width, floating-point rounding, timeouts and cancellation, scanner line limits.
- Conversation.RunLoop: the token calibration is stored once after the loop, with the last value, instead of after every answer.
- Summarizer.Interleavings: the flush marker counts within one process, since it is not stored in the database; session metadata and the text sent to the summarizing call are not modelled, and a session's reset or deletion is no event.
- SessionStore: the rows of the database are what reading them answers and stay as they are; Save, GetOrCreate, SetMessages, Reset, Delete and List are left out.
- Pruning.PruneContextMessages: the lazy copy of the slice; a value is rewritten instead.
- The periodic capture of memory (internal/agent/memoryflush.go:59-86) and the flush conversation (88-185): conversations without history of their own.
- SourceLines.LaterChunksBefore: says nothing for a positive overlap, where the lines carried over are counted twice, nor for pieces of paragraphs that were cut.
- OpenAIStream.ChatStream: the connection phase with its retries, and the final Done chunk.
- The reader of streamed chat completions in the browser (ui/web/src/lib/sse.ts:54-108): a second reader of the same form.
- Sse.StreamSSE: TextDecoder is taken to decode chunk by chunk as it would decode the whole; exceptions thrown by the callback are not modelled.
- ReportTree.ParseTreeSpec: the tables of component aliases and the rules for properties are parameters; the normalised form of a specification that is already flat is not modelled, nor property order and names such as __proto__.
- Fences.ParseReportMessageContent: label tests and the report parser are parameters; parseHtmlMessageContent adds an unfinished block at the end.
- McpManager.RunAgrees: one operation at a time, the locks of manager and registry are not modelled; connections, authentication, and the blank workspace, whose keys would be those of platform tools.
- Frontmatter.RoundTrip: the length limits and reserved words of ValidateMetadata are not needed, so not assumed; which characters count as printable is a parameter.
- SkillIndex.Index.Search: the tokenizer and the logarithm are parameters, scores are real numbers.
- KnowledgeSearch.Search: the fallback without a knowledge store, and the texts printed for the results.
- RBAC, routines, schedules, sanitizing by regular expressions, and the user interface apart from the two libraries above.
