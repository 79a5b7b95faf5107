# Harnas, modelled and proved in Dafny

Harnas drives a language model through a session log. Every message, tool call, tool result, compaction and error is
an event of an append-only log; what a provider sees is a projection of the *effective stream*, in which compactions
and their reverts have been resolved. This project models that system and proves what it keeps. `dafny verify
dfyconfig.toml` checks all of it.

The project has six parts.

* **The session log** (`Events`, `Mutations`, `Sorting`, `Compaction`, `Strategies`, `LogHistory`, `LogLaws`,
  `TailFixpoint`, `CapLaws`, `TokenLaws`). Compact and revert events are resolved into the effective stream;
  MarkerTail, TokenMarkerTail and ToolOutputCap append compacts computed from it. `LogHistory` is a state machine over
  every append a session can make: calls with new ids, one answer a call, the three strategies, reverts at any time.
  Its invariant gives the laws of every reachable log: tool pairs stay whole, an open call is never hidden, no summary
  is lost.
* **The agent loop** (`AgentHistory`, `SessionState`, `Hooks`, `RetryPolicies`, `ToolRunner`, `Approvals`,
  `LoopSpecs`, `DispatchLaws`, `Progress`, `ToolRunLaws`, `AgentLoops`, `AgentRuns`). Hooks, provider and tools are
  oracles indexed by occasion, gathered in a `Script`; the loop is a class that appends to the log. Each method says
  that the session moved along possible acts (`Reached`) and what exactly it logged or ran; `AgentRuns.Drive`
  interleaves runs, approvals, denials and outside events and gets exactly-once over the whole history.
* **The streaming stack** (`Utf8`, `SseFraming`, `SseRoundTrip`, `StreamEvents`, `AnthropicStreams`, `AnthropicLaws`,
  `AnthropicIngestion`, `OpenAIStreams`, `OpenAILaws`, `OpenAIIngestion`, `GeminiStreams`, `GeminiLaws`, `GeminiIds`,
  `StreamReplies`, `StreamedBytes`, `OpenAITurns`, `AnthropicTurns`). Bytes are decoded incrementally (section 3 of
  RFC 3629), cut into events (sections 9.2.5 and 9.2.6 of the WHATWG HTML Living Standard) and fed to three protocol
  machines. Each machine is a class proved equal to a step function on every frame sequence; the laws are about the
  step function.
* **Canonical JSON** (`JsonValues`, `CanonicalJson`, `CanonicalJsonLaws`, `CanonicalJsonForm`, `CanonicalJsonText`,
  `SurrogateEscapes`), after sections 3.2.2.2 and 3.2.3 of RFC 8785 and section 7 of RFC 8259.
* **Projections** (`PythonText`, `Projections`, `ProjectionLaws`, `ProjectionShapes`): the three requests made of one
  effective stream.
* **Delegation and tool guards** (`Delegation`, `DelegationLaws`, `DelegationCounts`, `DelegationTree`,
  `DelegationStatus`, `DelegationGrowth`, `RateLimits`, `StaleReads`).

What the theorems about histories and runs suppose, because the code needs it: call ids are distinct across a log, and
they are strings and not empty (`Proper`, `Possible`, `FreshIds`), although a log can hold numbers too; each run uses
a new loop object (`Drained` holds for one); handlers of hooks log notes, compacts and reverts, while calls and
results are the loop's own (`Quiet`). `Hooks.Invoke` itself supposes nothing of what handlers log.

Where the code does not do what one would expect, the project says exactly when it does:

* A tail strategy with something to hide repeats itself when a revert already names the sequence number its compact
  will get (`TailFixpoint.MarkerTailFixpoint`; a reachable log in `MarkerTailRepeats`).
* Two tools begun under one Anthropic block index leave one of them out (`AnthropicLaws.NoToolLostIff`; a stream in
  `ReusedIndexLosesTool`).
* A stream fails without a stop reason and at a tool without an id or a name, where the ingestors keep what there is
  (the two `StreamingMatchesIngestion`; `NamelessToolFailsTheStream`, `NamelessCallFailsTheStream`).
* A streamed Anthropic tool whose argument JSON comes as one empty piece fails the whole turn, while no piece at all
  is no arguments; and a numeric id is streamed as its digits (`AnthropicIngestion.StreamingMatchesIngestion`;
  `EmptyPieceFailsTheTurn`, `NumberIdIsPrinted`).
* Streamed OpenAI arguments that are no JSON object fail the turn, where the ingestor forgives them
  (`OpenAIIngestion.StreamingMatchesIngestion`; `BadArgumentsFailTheStream`).
* The ids of streamed Gemini calls start again at zero in every response, so they stay distinct exactly when at most
  one response makes calls (`GeminiIds.IdsStayDistinctIff`; `TwoCallsCollide`).
* A streamed Gemini response never stops with `tool_use`, so the loop closes its calls instead of running them. The
  buffered stop reason is `tool_use` as soon as a part carries the key `functionCall`, even with an empty value that
  is no call (`GeminiLaws.StopsAgreeIff`; `StreamedCallStopsWithEndTurn`, `EmptyCallStopsDiffer`).
* A payload with a line boundary of `splitlines`, U+2028 for one, does not survive event framing
  (`SseRoundTrip.LonePayloadComesBack`; `SeparatorInPayloadIsLost`).
* An output that is no string, without an error text, is printed in two of the three requests and sent as it is in the
  third: null as the word None, a number in digits. False arguments that are no dictionary, null for one, are an empty
  object in two and sent as they are in the third (`ProjectionLaws.ThreeRequestsOneMeaning`; `NullAndNumberDiffer`,
  `NullArgumentsDiffer`).
* A loop object that is run again after an approval pause passes over the whole batch it paused for
  (`AgentRuns.DispatchTwice`; `ReusedLoopMissesHeldCall`).
* An answered call is found pending by every later scan when its id is empty or a number
  (`AgentRuns.AnsweredCallRepeatsIff`; `AnsweredCallIsFoundAgain`), and an open call is passed over when a number with
  the digits of its id is answered (`AgentRuns.OpenCallIsPassedOverIff`).
* A pause holds up the whole batch, and resolving its requests answers the held calls only: the others are still open
  at the next provider call (`LoopSpecs.PauseLeavesOthersOpen`; `AgentRuns.MixedBatchLeavesCallOpen`).

## Model

| member | source | states |
|---|---|---|
| `Events.Log.Append` | src/harnas/log.py:37-51 | appending numbers the event by the length of the log and changes nothing before it |
| `Mutations.Analyze` | src/harnas/mutations.py:22-33 | the hidden set and the summary map of the compacts that no revert names; it raises exactly when one of them hides nothing |
| `Mutations.ApplyLog` | src/harnas/mutations.py:17-56 | the effective stream: hidden events gone, each summary at the lowest number its compact hides, mutations themselves never shown |
| `Mutations.ApplyIdempotent` | src/harnas/mutations.py:17-56 | resolving an effective stream again changes nothing |
| `Mutations.CompactThenRevertIsNeutral` | src/harnas/mutations.py:22-47 | for any log, a compact followed by its revert gives back the same effective stream |
| `Compaction.ToolPairs` | src/harnas/compaction/helpers.py:51-62 | the numbers of each id's call and result |
| `Compaction.ToolPairSafeRange` | src/harnas/compaction/helpers.py:23-39 | the candidates without any half of a pair whose other half is missing or not a candidate, ascending |
| `Compaction.EstimateTokens` | src/harnas/compaction/helpers.py:42-48 | a quarter of the characters, rounded up |
| `Strategies.MarkerTail.OnPreProjection` | src/harnas/strategies/compaction/marker_tail.py:52-74 | the hook appends the marker compact of its range, or nothing, and raises only when the log cannot be resolved |
| `Strategies.TokenMarkerTail.OnPreProjection` | src/harnas/strategies/compaction/token_marker_tail.py:52-83 | the same range, taken only above the token threshold |
| `Strategies.ToolOutputCap.OnPreProjection` | src/harnas/strategies/compaction/tool_output_cap.py:47-93 | one compact for each visible result above the byte limit, with its call, summarised by a UTF-8 prefix |
| `LogHistory.StepKeepsInv` | src/harnas/compaction/helpers.py:23-62 | every step of a session keeps the invariant: one answer a call, after it; no compact hides an open call or half a pair; compacts in force are disjoint |
| `LogHistory.CapKeepsInv` | src/harnas/strategies/compaction/tool_output_cap.py:55-74 | walking one effective stream, computed before the first append, caps each pair at most once and never a pair that is hidden already |
| `LogLaws.ReachablePairsStayWhole` | src/harnas/mutations.py:22-47 | in every reachable log a call is in the effective stream exactly when its result is, and a call without a result is never hidden |
| `LogLaws.OneSummaryPerCompact` | src/harnas/mutations.py:36-56 | each compact in force shows one summary event, with its number and its text, exactly where its lowest hidden event stood |
| `LogLaws.SummaryShownInPlace` | src/harnas/mutations.py:36-56 | in every reachable log the summary of an unrevoked compact stands at exactly one place, after the events numbered below its lowest hidden one and before all others |
| `LogLaws.ShownExactly` | src/harnas/mutations.py:17-47 | in every reachable log the events shown besides summaries are exactly those of the log that are no compact or revert and that no unrevoked compact names |
| `LogLaws.CompactsInForceAreDisjoint` | src/harnas/actions/compact.py:11-15 | no two compacts in force hide a common event |
| `LogLaws.ReachableKeepsOrder` | src/harnas/mutations.py:36-47 | without its summaries the effective stream is the unhidden part of the log, in order |
| `TailFixpoint.MarkerTailFixpoint` | src/harnas/strategies/compaction/marker_tail.py:60-74 | running MarkerTail again at once appends nothing, exactly when it is not triggered, has nothing safe to hide, or no revert already names the number of its compact |
| `TailFixpoint.TokenMarkerTailFixpoint` | src/harnas/strategies/compaction/token_marker_tail.py:60-83 | the same for TokenMarkerTail under its token trigger |
| `TailFixpoint.MarkerTailRepeats` | src/harnas/strategies/compaction/marker_tail.py:60-74 | a reachable log, two messages and the revert of a later number, on which MarkerTail appends a second time |
| `TailFixpoint.TokenMarkerTailRepeats` | src/harnas/strategies/compaction/token_marker_tail.py:60-83 | on the same log TokenMarkerTail repeats too |
| `TailFixpoint.TailKeepsRecentAndOpenCalls` | src/harnas/compaction/helpers.py:23-39 | a tail compaction keeps the last messages, and every older message still visible is a call whose result is missing or in that tail |
| `CapLaws.CapsExactly` | src/harnas/strategies/compaction/tool_output_cap.py:55-93 | a visible pair whose output takes more bytes than the limit gets one compact, whose summary has the tool's name, both byte counts and the longest prefix that fits in place of its marks; no compact names any other pair |
| `CapLaws.FirstReplaced` | src/harnas/strategies/compaction/tool_output_cap.py:80-93 | replacing a mark replaces its first occurrence and then those in the rest; a text without it stays |
| `TokenLaws.CharsAdd` | src/harnas/compaction/helpers.py:42-48 | an event adds the characters of its texts to the estimate, and nothing for other values |
| `TokenLaws.TriggeredAbove` | src/harnas/strategies/compaction/token_marker_tail.py:52-70 | TokenMarkerTail acts exactly when the estimate is above the product of its limit and threshold |
| `TokenLaws.SummaryMarks` | src/harnas/strategies/compaction/token_marker_tail.py:60-83 | the marks of the summary stand for the number of hidden events, the estimate and the threshold |
| `AgentHistory.NothingTwice` | src/harnas/agent_loop.py:242-305 | over every history whose call ids are strings, not empty and distinct, no call has two results and no call is executed twice, and whatever ran was called and is answered |
| `AgentHistory.HistoryLogIsReachable` | src/harnas/agent_loop.py:63-96 | the log of every history is a reachable log, so the laws of the effective stream hold in it |
| `Hooks.Invoke` | src/harnas/hooks.py:46-108 | whatever handlers log: their effects in registration order up to the first that raises and was registered to fail the turn, then a terminal runtime error; the decisions of the others, a raising handler skipped; and handlers that leave calls and results alone move the session along its history |
| `RetryPolicies.DefaultSleepBound` | src/harnas/providers/retry_policy.py:30-35 | under the default backoff the pauses of a turn sum to at most 250 * (2^(max_attempts - 1) - 1) ms |
| `RetryPolicies.DefaultPolicySleep` | src/harnas/providers/retry_policy.py:18-35 | with the default policy a turn pauses at most 750 ms |
| `RetryPolicies.DefaultDecisions` | src/harnas/providers/retry_policy.py:10-45 | by default a call is repeated twice, after 250 and 500 ms, on six statuses or a transient error |
| `LoopSpecs.LastCallIsFirstToStop` | src/harnas/agent_loop.py:146-173 | provider calls are repeated exactly while they fail with a status the policy names, or without one transiently, and attempts remain |
| `AgentLoops.AgentLoop.CallProviderWithRetry` | src/harnas/agent_loop.py:146-190 | at most max_attempts calls, all with the same request; one provider_error per failed attempt, numbered from 1, only the last of a failed turn terminal; the events of the answer last; the exact time slept |
| `AgentLoops.AgentLoop.PendingToolUses` | src/harnas/agent_loop.py:345-374 | the incremental scan keeps its cache equal to the log's results, and returns the full scan's pending list when no call before its index is open |
| `LoopSpecs.FullScanIsOpenCalls` | src/harnas/agent_loop.py:345-355 | the full scan finds exactly the calls without a result, each once |
| `AgentLoops.AgentLoop.CloseIncompleteToolBatch` | src/harnas/agent_loop.py:122-144 | a batch whose turn did not stop in tool_use is closed: one error result for each of its calls, and no other event |
| `LoopSpecs.ClosedResults` | src/harnas/agent_loop.py:127-143 | the results that close a batch name the tool and the stop reason |
| `AgentLoops.AgentLoop.RunTurn` | src/harnas/agent_loop.py:98-120 | a turn calls the provider only after two hook points and the projection succeed; unless it stops in tool_use it leaves an answered log answered; after a terminal runtime error it never calls the provider |
| `AgentLoops.AgentLoop.PrepareTurn` | src/harnas/agent_loop.py:98-110 | the request is made of the effective stream the first hook point leaves; a raising hook, a terminal error or a mismatch ends the turn before the provider |
| `LoopSpecs.AnsweredStreamIsWhole` | src/harnas/mutations.py:17-56 | where every call of a possible history is answered, its effective stream shows each call with its result, and each result after its call |
| `AgentLoops.AgentLoop.AskProvider` | src/harnas/agent_loop.py:110-144 | the log and the stop reason of a turn as a function of the provider's answers: failed, closed as incomplete, or the last message's stop reason |
| `LoopSpecs.RequestsExact` | src/harnas/agent_loop.py:308-323 | exactly one approval request for each held call that is not refused, and none for any other |
| `DispatchLaws.HooksDecided` | src/harnas/agent_loop.py:242-305 | the loop waits exactly when some call is held and not refused, and otherwise treats each call of the batch as its handlers decided |
| `DispatchLaws.DispatchedMeans` | src/harnas/agent_loop.py:267-296 | a call some handler refuses gets no run, and its result is the denial with the reason of the first that refuses; any other that is dispatched and registered runs, with the first dictionary a handler returned or else its own arguments |
| `DispatchLaws.RequestsMean` | src/harnas/agent_loop.py:306-323 | a call is asked for exactly when some handler that did not raise holds it and none refuses it |
| `LoopSpecs.PauseLeavesOthersOpen` | src/harnas/agent_loop.py:242-266 | once the held calls of a paused batch are answered, exactly its other calls are still open; the log is answered exactly when every call of the batch was held |
| `AgentLoops.AgentLoop.AnswerCall` | src/harnas/agent_loop.py:268-296 | one call's outcome, and no other change: the denial of a refused call, or one run of any other |
| `AgentLoops.AgentLoop.DispatchPendingTools` | src/harnas/agent_loop.py:242-305 | two passes: a fatal hook or a held call and nothing of the batch runs, the log ending in the requests; otherwise the calls are answered and run in order, each as its handlers decided, up to the hook that abandons the turn |
| `AgentLoops.AgentLoop.Run` | src/harnas/agent_loop.py:63-96 | at most max_turns * max_attempts provider calls; in a new loop's run from an answered log with a runner, the effective stream at every provider call holds each call with its result after it, and five of the endings leave every call answered. Each ending has its cause: out of turns only after exactly max_turns of them, no_pending_tools only on an empty batch after batches that were not and without a terminal error, end_turn only on a last message with another stop. And if the first n settled replies ask for tools and the next one ends its turn, with nothing held or fatal, the run ends with that reply as end_turn |
| `AgentLoops.AgentLoop.TakeTurn` | src/harnas/agent_loop.py:66-94 | one turn: it goes on only after a reply that asks for tools, with a batch that was not empty and no terminal error |
| `AgentRuns.AnswerAfterTool` | src/harnas/agent_loop.py:63-96 | a call in the first reply and a plain answer in the second: end_turn after two provider calls |
| `AgentRuns.Drive` | src/harnas/agent_loop.py:63-96 | any interleaving of runs, approvals, denials and outside events, with any hook decisions, tool failures and abandoned turns, answers and executes no call twice, and its log is reachable, when call ids are strings, not empty and new |
| `AgentRuns.ScanIsFullExactlyWhenDrained` | src/harnas/agent_loop.py:345-367 | a scan from an index is the full scan exactly when every call before the index is answered |
| `AgentRuns.DispatchTwice` | src/harnas/agent_loop.py:242-305 | a dispatch with one loop object pauses exactly when no hook abandons the turn and some call is held; dispatched again it finds nothing, while the full scan still finds the whole batch |
| `AgentRuns.ReusedLoopMissesHeldCall` | src/harnas/agent_loop.py:345-367 | a loop object over one call that a hook holds: the first dispatch pauses for it, the second finds nothing, a new loop finds the call |
| `AgentRuns.AnsweredCallRepeatsIff` | src/harnas/agent_loop.py:345-374 | an answered call is found pending again, in any log, exactly when its id is empty or no string |
| `AgentRuns.OpenCallIsPassedOverIff` | src/harnas/agent_loop.py:345-374 | an open call with a proper id is not found exactly when a number whose digits are that id is answered |
| `AgentRuns.SevenIsMistaken` | src/harnas/agent_loop.py:345-374 | with a call of id "7" and an answered call of id 7, the scan finds the answered one only |
| `AgentRuns.AnsweredCallIsFoundAgain` | src/harnas/agent_loop.py:345-374 | a log of one call and its result: a new loop finds the call pending when its id is empty or a number, 7 for one, and nothing otherwise |
| `AgentRuns.Resolve` | src/harnas/approval.py:19-48 | approving or denying open calls, each once and in any order, answers exactly those calls |
| `AgentRuns.MixedBatchLeavesCallOpen` | src/harnas/agent_loop.py:242-266 | a batch of two calls, the first held: after its denial the second is pending |
| `AgentRuns.WrittenResultsHaveContent` | src/harnas/agent_loop.py:122-144 | every result written by the loop, the runner or a denial has an error text or an output |
| `ToolRunner.Runner.Run` | src/harnas/tools/runner.py:23-47 | whatever the tool does, its own notes and then one result, last; the handler runs exactly when the tool is registered |
| `ToolRunner.Runner.RunSpawnAgent` | src/harnas/tools/runner.py:49-109 | a spawn logs the spawn and its receipt and stores a child that starts with the task and whose chain, root and parent come from the session; without a task that counts as true only an error result |
| `ToolRunLaws.HandlerAnswers` | src/harnas/tools/runner.py:23-47 | the output of a handler is its result, an exception its class and message, an unknown tool a KeyError |
| `ToolRunLaws.HandlerArguments` | src/harnas/tools/runner.py:23-30 | a handler gets the call's arguments, or an empty dictionary for those that count as false |
| `ToolRunLaws.TaskSpawns` | src/harnas/tools/runner.py:49-109 | with a task, the spawn and the receipt with both ids are logged, and the child starts with that task and names its parent |
| `ToolRunLaws.NoTaskIsRefused` | src/harnas/tools/runner.py:49-54 | without a task that counts as true, or with arguments that are no dictionary, the call only gets its error |
| `ToolRunner.SpawningGrows` | src/harnas/tools/runner.py:49-109 | the log and the child of a run that spawns are one step of a growing forest, so with fresh ids the forest stays grown |
| `Approvals.UnresolvedToolUse` | src/harnas/approval.py:51-64 | the call with this id, refused exactly when it has a result or does not exist |
| `Approvals.Approve` | src/harnas/approval.py:19-28 | with a runner and an open call: the resolution, then one run with the call's own arguments; otherwise nothing changes |
| `Approvals.Deny` | src/harnas/approval.py:31-48 | an open call gets its resolution and one denial and nothing runs; otherwise nothing changes |
| `Utf8.DecodeConcat` | src/harnas/providers/http.py:71-84 | decoding incrementally is decoding the concatenation, with the unfinished character carried over |
| `Utf8.WholeIffEncoding` | src/harnas/providers/http.py:89-92 | a byte sequence decodes to a text exactly when it is the text's encoding |
| `Utf8.CutKeepsLongestPrefix` | src/harnas/strategies/compaction/tool_output_cap.py:76-87 | cutting an encoding at a byte limit and dropping the broken end keeps the longest prefix that fits |
| `SseFraming.DispatchBlock` | src/harnas/providers/http.py:98-110 | the joined data lines of a block, or nothing when they are absent or empty |
| `SseFraming.ReadSseLines` | src/harnas/providers/http.py:70-95 | the reading loops compute the chunk-by-chunk framing and fail exactly when the decoder does |
| `SseFraming.FramingIgnoresChunks` | src/harnas/providers/http.py:70-95 | for every split into non-empty chunks the dispatched data is the framing of the whole decoded text |
| `SseRoundTrip.PrintedEventsSurviveChunking` | src/harnas/providers/http.py:70-110 | payloads without line boundaries, printed as events and cut into any chunks, come back in order |
| `SseRoundTrip.LonePayloadComesBack` | src/harnas/providers/http.py:85-110 | a printed payload comes back exactly when it is not empty and holds no line boundary of splitlines |
| `SseRoundTrip.SeparatorInPayloadIsLost` | src/harnas/providers/http.py:85-110 | a payload with U+2028 and no line feed is lost |
| `SseRoundTrip.BreaksAre` | src/harnas/providers/http.py:85-95 | the ten characters at which splitlines ends a line |
| `SseRoundTrip.SeparatorsAre` | src/harnas/providers/http.py:85-90 | a block ends at an empty line, with or without carriage returns before its two line feeds |
| `SseRoundTrip.SplitAtCrLf` | src/harnas/providers/http.py:85-97 | a carriage return and a line feed end one line |
| `SseRoundTrip.DataLinesAreJoined` | src/harnas/providers/http.py:98-110 | the data lines of an event are joined by line feeds, one leading space dropped, and lines of other fields passed over |
| `AnthropicStreams.AnthropicStream.Data` | src/harnas/providers/streaming.py:78-191 | each frame changes the state, emits and raises as the step function says |
| `AnthropicStreams.AnthropicStream.RunStream` | src/harnas/providers/streaming.py:405-419 | the whole stream: a failure anywhere, of the connection included, ends it in one failure event |
| `AnthropicLaws.EveryStreamIsWellShaped` | src/harnas/providers/streaming.py:35-57 | for every frame sequence: started, deltas, then either completed, one message with the joined text deltas and the same stop reason, and uses, or a single failure |
| `AnthropicLaws.UsesAreTheirDeltas` | src/harnas/providers/streaming.py:102-206 | with fresh block indexes and ids each use was begun once, ended once, and carries the parse of its argument deltas; and every tool begun is used |
| `AnthropicLaws.NoToolLostIff` | src/harnas/providers/streaming.py:102-130 | a stream ends with as many uses as tools begun exactly when no two tools were begun under one block index |
| `AnthropicLaws.ReusedIndexLosesTool` | src/harnas/providers/streaming.py:102-130 | a stream that succeeds, announces two tools and keeps a call of the second only |
| `AnthropicIngestion.Ingest` | src/harnas/ingestors/anthropic.py:26-87 | one message with the joined texts and the mapped stop reason, then the tool uses in order |
| `AnthropicIngestion.StreamingMatchesIngestion` | src/harnas/providers/streaming.py:78-206 | a response cut into any chunks streams successfully exactly when it has a stop reason and every tool an id, a name, and no piece of arguments or pieces that make up a JSON object; then the log keeps the same events as for the whole response exactly when the ids are strings |
| `AnthropicIngestion.EmptyPieceFailsTheTurn` | src/harnas/providers/streaming.py:142-143 | a tool without arguments is kept when cut into no pieces and fails the turn when cut into one empty piece |
| `AnthropicIngestion.NamelessToolFailsTheStream` | src/harnas/providers/streaming.py:113-117 | a tool without an id or a name fails the stream and is kept by the ingestor |
| `AnthropicIngestion.NumberIdIsPrinted` | src/harnas/ingestors/anthropic.py:112-120 | a tool with a numeric id: the stream succeeds and keeps the digits, the ingestor keeps the number |
| `AnthropicTurns.StreamedStop` | src/harnas/providers/streaming.py:448-455 | a streamed message is kept with one of five stop reasons or other |
| `AnthropicTurns.StreamedTurn` | src/harnas/agent_loop.py:122-144 | a streamed message that stopped in tool_use leaves its calls open to be run; any other with calls is closed as incomplete |
| `AnthropicTurns.IngestedTurn` | src/harnas/ingestors/anthropic.py:16-35 | a whole message is logged with one of five stop reasons or other, and its calls stay open exactly when that is tool_use |
| `OpenAIStreams.OpenAIStream.Data` | src/harnas/providers/streaming.py:228-312 | each frame changes the state, emits and raises as the step function says |
| `OpenAIStreams.OpenAIStream.RunStream` | src/harnas/providers/streaming.py:405-419 | the whole stream: a failure anywhere ends it in one failure event |
| `OpenAILaws.EveryStreamIsWellShaped` | src/harnas/providers/streaming.py:228-325 | the same shape for every OpenAI frame sequence |
| `OpenAILaws.UsesAreTheirDeltas` | src/harnas/providers/streaming.py:266-325 | when an index keeps its id and name and ids differ between indexes, each use was begun once, ended once, and carries the parse of its argument deltas |
| `OpenAIIngestion.Ingest` | src/harnas/ingestors/openai.py:26-100 | it raises exactly without choices; otherwise one message and one use a call, with arguments that are no object forgiven |
| `OpenAIIngestion.StreamingMatchesIngestion` | src/harnas/providers/streaming.py:228-325 | a completion cut into any pieces streams successfully exactly when it has a finish reason and every call an id, a name, and arguments that are absent or a JSON object; then the log keeps the same events as for the whole completion |
| `OpenAIIngestion.BadArgumentsFailTheStream` | src/harnas/ingestors/openai.py:93-100 | an argument text that is no JSON object fails the streamed turn and is ingested as no arguments |
| `OpenAIIngestion.NamelessCallFailsTheStream` | src/harnas/providers/streaming.py:266-304 | a call without an id or a name fails the stream and is kept by the ingestor |
| `OpenAITurns.StreamedStop` | src/harnas/providers/streaming.py:458-465 | the stop reason of a streamed completion for each finish reason |
| `OpenAITurns.StreamedTurn` | src/harnas/agent_loop.py:122-144 | a streamed completion finished with tool_calls or function_call ends its turn with tool_use and its calls open; any other with calls is closed as incomplete |
| `OpenAITurns.IngestedTurn` | src/harnas/ingestors/openai.py:17-23 | a whole completion finished with tool_calls or function_call leaves its calls open; the other finish reasons give end_turn, max_tokens, refusal or other |
| `GeminiStreams.GeminiStream.RunStream` | src/harnas/providers/streaming.py:334-419 | the whole stream as the step function says |
| `GeminiLaws.EveryStreamIsWellShaped` | src/harnas/providers/streaming.py:334-402 | the same shape for every Gemini frame sequence |
| `GeminiLaws.StreamKeepsItsParts` | src/harnas/providers/streaming.py:346-402 | a successful stream keeps the joined text and every function call in order, numbered from zero |
| `GeminiLaws.CallsAnnouncedOnce` | src/harnas/providers/streaming.py:350-382 | every call is begun once and ended once under its own number, with its own name and arguments |
| `GeminiLaws.UsesAre` | src/harnas/providers/streaming.py:359-372 | each kept call has the id gemini_fc_ with its number, its name, and its arguments where they are an object |
| `GeminiLaws.StopsAgreeIff` | src/harnas/ingestors/gemini.py:128-131 | streamed and buffered stop reasons agree exactly on responses in which no part carries the key functionCall |
| `GeminiLaws.StopsOf` | src/harnas/providers/streaming.py:468-475 | the stop reason of a streamed response for each finish reason, and of the same response buffered |
| `GeminiLaws.EmptyCallStopsDiffer` | src/harnas/ingestors/gemini.py:128-131 | a text and an empty functionCall: no call on either side, end_turn streamed and tool_use buffered |
| `GeminiLaws.StreamedCallStopsWithEndTurn` | src/harnas/providers/streaming.py:346-402 | a streamed response with one call that keeps the call and stops with end_turn, where the buffered stop is tool_use |
| `GeminiLaws.StreamedCallsAreClosed` | src/harnas/agent_loop.py:122-144 | the loop closes the turn of a streamed response as incomplete exactly when it made calls |
| `GeminiIds.IdsStayDistinctIff` | src/harnas/providers/streaming.py:359-363 | from a log with distinct ids and none of these, whatever else is logged in between, the call ids of any streamed responses stay distinct exactly when at most one of them makes calls |
| `GeminiIds.TwoCallsCollide` | src/harnas/providers/streaming.py:359-363 | two responses of one call each leave a log in which two calls share an id |
| `StreamReplies.StreamedReply` | src/harnas/agent_loop.py:223-231 | a failed stream appends nothing to the log; a successful one its message first and then its calls |
| `StreamReplies.LoggedTurn` | src/harnas/agent_loop.py:112-118 | after a streamed turn the log's last stop reason is the turn's own, and the turn has calls exactly when uses were kept |
| `StreamReplies.LoggedAs` | src/harnas/agent_loop.py:223-231 | the log gets the kept message with its text and stop reason, and each kept use as a call with its id, name and arguments |
| `StreamedBytes.RunAnthropic` | src/harnas/providers/streaming.py:405-419 | a stream run from byte chunks emits what the frames of the decoded text do, however the bytes are cut; bytes that are not UTF-8 fail it and nothing is kept |
| `StreamedBytes.RunOpenAI` | src/harnas/providers/streaming.py:405-419 | the same for OpenAI |
| `StreamedBytes.RunGemini` | src/harnas/providers/streaming.py:405-419 | the same for Gemini |
| `StreamedBytes.AnthropicBytesMatchIngestion` | src/harnas/providers/streaming.py:405-419 | for any parse of payloads, the bytes of a cut response, themselves cut into any chunks, leave in the log what the ingestor does, under the same conditions |
| `StreamedBytes.OpenAIBytesMatchIngestion` | src/harnas/providers/streaming.py:405-419 | the same for a cut OpenAI completion |
| `CanonicalJson.StringLiteral` | src/harnas/jcs.py:50-73 | the loop prints the escaped string literal |
| `CanonicalJsonLaws.StringIsUnambiguous` | src/harnas/jcs.py:50-73 | a printed string followed by anything can be read back in only one way |
| `CanonicalJsonLaws.KeyOrderIsStrictTotal` | src/harnas/jcs.py:114-116 | the order by UTF-16 units is a strict total order of keys |
| `CanonicalJsonForm.CanonicalFormIsUnambiguous` | src/harnas/jcs.py:29-47 | two values print to the same text exactly when they are equal as JSON values, whatever the insertion order of keys |
| `CanonicalJsonForm.CanonicalTextsDoNotOverlap` | src/harnas/jcs.py:29-47 | before a delimiter, texts and rests determine each other |
| `CanonicalJsonText.KeysPrintedInOrder` | src/harnas/jcs.py:44-46 | a dictionary is printed with each entry once, its keys ascending by their UTF-16 code units |
| `CanonicalJsonText.Utf16OfChar` | src/harnas/jcs.py:114-116 | a character's code units: its own code, or the surrogate pair that decodes to it |
| `CanonicalJsonText.LiteralOfChar` | src/harnas/jcs.py:50-73 | each character in quotes: seven short escapes, four hexadecimal digits for other controls, else itself |
| `CanonicalJsonText.DigitsOfNat` | src/harnas/jcs.py:38-39 | a number is printed in the decimal digits that stand for it, without a leading zero |
| `CanonicalJsonText.PlainValues` | src/harnas/jcs.py:29-44 | the texts of null, booleans, numbers and lists |
| `SurrogateEscapes.ValidateSurrogateEscapes` | src/harnas/jcs.py:119-150 | the index loop terminates and gives the verdict of the scan on every text whose escapes are four hexadecimal digits |
| `SurrogateEscapes.ScanAcceptsExactlyPairs` | src/harnas/jcs.py:119-150 | a JSON text is accepted exactly when each surrogate escape in a string literal is part of a high-then-low pair, however backslashes and quotes are escaped |
| `SurrogateEscapes.CodesAre` | src/harnas/jcs.py:137-147 | an escape is the number its hexadecimal digits stand for, and the two surrogate ranges are D800 to DBFF and DC00 to DFFF |
| `Projections.GroupMessages` | src/harnas/projections/anthropic.py:63-85 | blocks grouped by role in one pass |
| `Projections.BuildMessages` | src/harnas/projections/openai.py:55-101 | chat messages, each call merged into the assistant message before it |
| `Projections.GeminiProjection.BuildContents` | src/harnas/projections/gemini.py:64-111 | contents, each call merged into the model entry before it, and the names of the calls seen |
| `ProjectionLaws.AnthropicRolesAlternate` | src/harnas/projections/anthropic.py:63-85 | neighbouring messages have different roles |
| `ProjectionLaws.ThreeRequestsOneMeaning` | src/harnas/projections/openai.py:61-101 | read back, the Anthropic request says what the stream says; the other two say the same as each other, and the same as the stream exactly when every result has an error text, a string as its output or none, and no call has false arguments that are no dictionary |
| `ProjectionLaws.NullArgumentsDiffer` | src/harnas/projections/openai.py:84-94 | null arguments are null in the Anthropic request and an empty object in the other two |
| `ProjectionLaws.OtherOutputDiffers` | src/harnas/projections/anthropic.py:110-120 | an output that is no string is sent as it is in the Anthropic request and printed in the other two |
| `ProjectionLaws.NullAndNumberDiffer` | src/harnas/projections/openai.py:73-79 | null is the word None and 5 the text 5 where outputs are printed |
| `ProjectionLaws.ResultsCarryTheirCallsName` | src/harnas/projections/gemini.py:156-173 | in a reachable log every shown result carries its call's name, never its id |
| `ProjectionShapes.AnthropicForm` | src/harnas/projections/anthropic.py:63-122 | each block is some event's, calls on the assistant's side and results on the user's, errors marked; a lone text is a plain string |
| `ProjectionShapes.OpenAIForm` | src/harnas/projections/openai.py:55-101 | each message is some event's; one with calls never has an empty text, and results are printed |
| `ProjectionShapes.GeminiForm` | src/harnas/projections/gemini.py:64-173 | each part is some event's, calls on the model's side and responses on the user's, printed and marked as errors, and no text is empty |
| `Delegation.CollectDescendants` | src/harnas/projection.py:84-94 | the walk with a shared visiting set terminates on every session map, computes the depth-first list, and restores the set |
| `DelegationLaws.CollectSucceedsIff` | src/harnas/projection.py:84-113 | it returns normally exactly when all reachable sessions exist, all reachable links are reciprocal and no cycle is reachable |
| `DelegationLaws.LinkedMeans` | src/harnas/projection.py:97-113 | a link is reciprocal when the child exists and its header names the parent and the spawn |
| `DelegationLaws.ReachableCyclesPassTheRoot` | src/harnas/projection.py:84-113 | every reachable cycle of reciprocal links passes through the root |
| `DelegationLaws.RootWithoutParent` | src/harnas/projection.py:84-113 | from a session without a parent only a missing session or a broken link stops the walk |
| `DelegationCounts.WalkListsReachableOnce` | src/harnas/projection.py:84-94 | with distinct spawn ids it lists exactly the reachable sessions, each once |
| `DelegationTree.DescendantUsage` | src/harnas/projection.py:44-50 | the sum of the usage in the listed sessions' messages, or the walk's error |
| `DelegationTree.UsageCountsEachSessionOnce` | src/harnas/projection.py:44-50 | the sum is that of any enumeration of the reachable sessions without repetition |
| `DelegationStatus.UsageOfLog` | src/harnas/projection.py:44-50 | messages and agent results add their counts, an absent total being their sum |
| `DelegationTree.BuildMatchesWalk` | src/harnas/projection.py:53-81 | the tree is built exactly when the walk succeeds and no reachable session has a spawn with two results, and its preorder is the walk's list |
| `DelegationStatus.ResultStatus` | src/harnas/projection.py:61-67 | a branch has the status of its one result, if that has any |
| `DelegationStatus.ReportedStatus` | src/harnas/projection.py:61-67 | without a result a branch has the last reported status, or is open |
| `DelegationStatus.BranchesAre` | src/harnas/projection.py:53-81 | a branch for each spawn in order, with its id, status and subtree |
| `DelegationGrowth.GrownForestBuilds` | src/harnas/tools/runner.py:49-109 | in every forest grown by spawns with fresh ids, tree and walk succeed from every session, and list no session twice |
| `DelegationGrowth.GrownChainsAreAncestorPaths` | src/harnas/tools/runner.py:62-90 | the delegation chain of every grown session is its ancestor path, and its root id starts that path |
| `RateLimits.RateLimiter.Admit` | src/harnas/tools/middleware.py:117-122 | a call is admitted exactly when the closed minute up to now holds fewer than per_minute admissions, although older timestamps are dropped |
| `RateLimits.Serve` | src/harnas/tools/middleware.py:103-122 | for any calls at times that never go back, a call is admitted exactly when the closed minute up to it holds fewer than per_minute admissions, and every closed minute of the whole history holds at most per_minute |
| `StaleReads.StaleReadGuard.LastHashFor` | src/harnas/tools/middleware.py:153-163 | the last recorded digest of a path |
| `StaleReads.StaleReadGuard.Mutate` | src/harnas/tools/middleware.py:168-214 | a mutation is refused exactly when the guard finds the path stale, and then disk and log are unchanged; a completed one records the content it left |
| `StaleReads.Interleave` | src/harnas/tools/middleware.py:129-214 | over any interleaving with outside changes, a strict guard that requires reads runs a mutation exactly when the file is as the session last saw it, or absent and never seen |

## Left out

- Float printing in canonical JSON: it rests on Python's `repr`; only null, booleans, integers, strings, lists and objects are values here.
- Strings with lone surrogates: Dafny strings hold Unicode scalar values only, so `_string`'s refusal of them is not reachable in the model.
- `SurrogateEscapes.ValidateSurrogateEscapes`: an escape that is not four hexadecimal digits is refused here, while Python's `int` in base 16 also takes signs, a prefix `0x`, underscores and spaces around the digits.
- `SurrogateEscapes.ScanAcceptsExactlyPairs`: states the verdict on well-formed JSON texts; on other texts Python's `int` reads some escapes that are not four hexadecimal digits, and the verdict is not characterised.
- HTTP, sockets, threads, clocks and file systems: a response is a list of byte chunks, a broken connection an error after some frames, the clock an input, the disk a map.
- JSON parsing: frames are given by the fields the machines read, and argument texts are parsed by an arbitrary function from text to value.
- Invalid UTF-8: when the decoder fails, how many events were dispatched before is not stated, because it depends on the chunks.
- Token usage in streams, model names and provider names: payload fields that no property reads.
- Event ids, timestamps, observation subscribers and stream callbacks.
- Multimodal blocks, attachments, reasoning and provider carriers: projections and ingestors are modelled for text, calls and results.
- `Projections.BuildMessages`: the arguments of a call are held as a value, not as the JSON text OpenAI gets.
- `Projections.GeminiProjection.BuildContents`: thought signatures, read from a following annotation, are not modelled.
- `Compaction.EstimateTokens`: counts the characters of the payload fields the model has.
- `Strategies.TokenMarkerTail.OnPreProjection`: the threshold is a real number, not a float.
- SummaryTail: its range is MarkerTail's; its summary comes from a provider.
- `ToolRunner.Runner.Run`: what a handler logs itself are plain notes; a handler that logs calls, results or compacts is not represented.
- `ToolRunner.Runner.RunSpawnAgent`: label, role, tool overrides and join policy are left out, and the session is always given.
- `Hooks.Invoke`: handlers are given by what they log and return; the exact text of the runtime error they cause is not kept.
- Absent arguments of a call are the empty object; error texts, tool names and the texts of assistant messages are strings.
- Call ids are strings or integers; null, other values and absent ids are not held in a log, and an Anthropic block without the key `id` is not modelled.
- Printing a value with `str`: characters beyond ASCII that Python escapes in a quoted string are printed as they are.
- `StreamedBytes.RunAnthropic`, `StreamedBytes.RunOpenAI` and `StreamedBytes.RunGemini`: the frames are handed to the machine after the response is read, and not while it is.
- `functionCall` values of a Gemini part that are neither objects nor empty.
- `OpenAILaws.UsesAreTheirDeltas`: sufficient, not necessary: a call whose id changes and changes back also keeps its deltas.
- `AnthropicLaws.UsesAreTheirDeltas`: sufficient; the exact condition is given for lost tools only.
- `DelegationTree.BuildMatchesWalk`: the tree is modelled as a function, its nodes by session id; a child's task, join policy, metadata and result are left out.
- Error messages: failures are told apart by their reason codes.
- Manifests, the CLI, transcripts, skills, storage adapters, sandbox and credential strategies, and the tool wrappers `timed`, `logged` and `retried`.
