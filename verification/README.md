# Rollout proxy: recording, lifecycle and parsing, verified

The proxy sits between agents that speak the OpenAI chat protocol and an inference engine that samples tokens. It
promises *strict token-in-token-out*: every prompt sent to the engine is the agent's own sampled tokens plus rendered
additions, and what is recorded is exactly what was sampled. This project models how that promise is kept and proves
what follows from it.

- **Recording.** `TokenStream` (the manager's authoritative streams), `Recorder` (per-agent delta records, duplicate
  rules, failure marker, tombstones), `Lossless` and `Recording` (why storing only deltas, chosen from counts alone,
  loses nothing, in any run of asks, replays, commits, losses, retries, evictions and deletions), `RecordingFailure`
  (what a failure marker blocks and what alone clears it), `HandlerRuns` (runs that show where that ends), `Deletions`
  (what a tombstone keeps out and how long it stands), `Retention` (LRU, replays, gaps), `Templates` (incremental prompts
  are full renders), `Routing` and `Coverage` (routed-experts captures: nothing in them is wrong, and nothing is missing).
- **Training.** `Training`, `TrainingStreams`, `TrainingChecks`, `TrainingRecords` and `Conversion` model the record check
  and the conversion to streams and prove exactly which records convert; `RunRecords`, `Collection` and `Answers` join this to
  `Recording`: what a run records passes the checks, and the streams are the committed conversations, with the logprobs and
  metadata the engine answered.
- **Lifecycle.** `Lifecycle` and `LifecycleSafety` are one session's life as a transition system whose steps are the code
  between awaits; `TurnSerialization`, `LapseConverse` and `LifecycleLapse` say what tombstones must outlive; `Registry`
  is the single-flight bundle load.
- **Scanners.** Tool calls: `Sections`, `ToolBlocks`, `ToolTurns`, `QwenCalls`, `QwenClosers`, `GlmCalls`, `GlmClosers`.
  Harmony: `Harmony`, `HarmonyRoundTrip`. Reasoning: `Pairing`, `CodeSpans`, `Fences`, `ProseQuotes` and `Quotes` (the table
  of quoted examples), `ReasoningTokens`, `ReasoningMarks` and `ReasoningScan` (the scanner), `ReasoningScopes` (what it leaves
  alone), `VisibleCalls`, `VisibleJson`, `JsonCalls` and `MentionedCalls` (how it passes actual and mentioned calls), `Think`
  (spans and stripping) and `ReasonedTurns` (what stays visible of whole turns).

`Wrappers`, `Text`, `Markup`, `Messages` and `Capture` hold what these share. The two objects whose methods change fields
(`SessionRecorder`, `TokenStreamManager`) are classes; each method is proved equal to a function on the abstract state,
and the theorems are about those functions. Loops of the source are loops here, with their specification beside them.

## Reading the main results

| Question | Where |
|---|---|
| Does the delta record always rebuild the engine's stream? | `Recording.LosslessRecording` |
| Do the training streams equal what was committed? | `Collection.TrainingStreamsAreCommittedConversations` |
| Do the streams carry the engine's logprobs, weight versions and finish reasons? | `Answers.TrainingStreamsCarryTheAnswers` |
| Is a capture complete when every turn delivered one? | `Coverage.AnsweredConversationIsWhole` |
| Exactly which records convert? | `Conversion.ConvertsExactlyWhenSound`, for collected records `RunRecords.CollectedRecordConverts` |
| When does a recording failure stop blocking? | `RecordingFailure.StepPending`, `BlockedUntilExactRetry`, `PassedForGood`, `ReopensExactlyWhenUncovered` |
| Is a finalized record frozen? Is a deleted session gone? | `LifecycleSafety.FinalizedRecordIsFrozen`, `DeletedSessionStaysGone` |
| Can a late delivery bring a deleted session back? | `Deletions.DeletedStaysDeleted`, `Deletions.OnlyTheOldestIsForgotten` |
| When may a tombstone lapse? | `LapseConverse.SerializedExactlyWhenSafe` |
| Exactly which requests get a prompt? | `TokenStream.AcceptedExactly` |
| Does every prompt continue the sampled tokens? | `Retention.ContinuationsStartWithTheTurn` |
| Are incremental prompts the template's own? | `Templates.IncrementalPromptIsFullRender` |
| Exactly which tool calls survive printing and parsing? | `QwenClosers.CallsRoundTripExactly`, `GlmClosers.CallsRoundTripExactly` |
| Do calls whose arguments hold reasoning tags survive the removal of reasoning? | `ReasonedTurns.CallsStayVisible`, `TruncatedCallStaysVisible`, `CallsSurviveReasoning`, `JsonCallsSurviveReasoning` |
| Are the fast scanners right, and linear? | `Sections.SplitSections`, `ToolBlocks.Parse`, `Quotes.QuotedSpanEnds` |

## What turned out not to hold

- *A second lost turn need not be covered.* The marker keeps an agent's first unresolved failure. When a later turn of the
  same agent is lost while the first is pending, repairing the first can reopen collection although the second is missing:
  `HandlerRuns.SecondLostTurnIsNotCovered` is such a run of the completion handler.
  `RecordingFailure.ReopensExactlyWhenUncovered` says exactly when: marking a failed turn leaves a way to reopen collection
  without deleting the session or delivering that turn if and only if the agent's pending failure is another turn and every
  pending failure of the session, of whichever agent, is still at its marked position. Other agents' failures may be pending
  too, as long as each can still be repaired; one that was passed keeps the session closed for good.
- *A tombstone that lapses too early.* The lifecycle guarantees need a tombstone to outlive the cleanup it stands for and
  the worker threads that cleanup abandoned (`Lifecycle.Timely`; before a session's first DELETE this asks nothing). The
  source bounds tombstones by 3600 seconds and 8192 ids, so a cleanup that hangs for longer, or 8192 other deletions
  meanwhile, voids them. `LifecycleLapse.LapseDuringCleanupBreaksSerialization` is a run in which two turns of one stream
  then run at once. In general: one turn per stream survives a lapse exactly when the cleanup is over or a finalization
  barrier still refuses admission (`LapseConverse.SerializedExactlyWhenSafe`); with a recorder thread left over, the
  finalized record of the next session of that name can change, and with a finalization thread left over that session is
  finalized while its request is open (`LeftoverChangesFinalizedRecord`, `LeftoverFinalizesOpenSession`); and any thread
  about to write brings the deleted session back (`LapseLetsThreadsWrite`). The two statements about the next session ask
  that no barrier stands: while one does, admission stays refused whatever the tombstone does, until a cleanup removes
  it. A leftover thread that only marks a failure breaks neither of them; it keeps the next session from being collected.
- *A repeated opening after eviction.* An opening that is committed again with the same messages, prompt and sampled tokens
  as the agent's latest turn is recorded once; `HandlerRuns.RepeatedOpeningIsRecordedOnce` is such a run.
  `Collection.LogAfter` counts such a pair as one conversation.
- *A closed value is not always detected.* The Qwen parser's description says that a value containing a closing marker
  leaves text stranded and is therefore reported. It does not when the rest of the value spells out further parameters:
  two different calls are then printed as the same text, and the parser returns the first value cut short and an argument
  the model never named (`QwenClosers.SpelledParameterIsRead`; for GLM `GlmClosers.SpelledArgumentIsRead`).
  `QwenClosers.ClosedValueExactly` and `GlmClosers.ClosedValueExactly` say exactly when such a value is reported and what
  it is read as otherwise. A value that closes its function before any parameter is always reported
  (`QwenClosers.ClosedFunctionIsDamaged`).

Conversion of collected records is stated for runs whose engine reports honest captures; a run whose engine reports none is
one of them, for any engine. It also asks that the profile never renders a request to no tokens, which a nonempty
generation header is enough for (`RunRecords.HeaderPrompts`).

## Model

| member | source | states |
|---|---|---|
| `Recorder.ConversationExtent` | proxyserver/recorder.py:66-81 | the backward scan returns the message and token counts of the agent's current conversation, that is of what its deltas rebuild to |
| `Recorder.SessionRecorder.constructor` | proxyserver/recorder.py:141-158 | a new recorder holds no session, failure or tombstone |
| `Recorder.SessionRecorder.Classify` | proxyserver/recorder.py:225-271 | the duplicate, full and delta branches, decided by message and token counts only |
| `Recorder.RecordedTurnIsDelivered` | proxyserver/recorder.py:278-292 | a delivery that is recorded adds one turn whose tokens, logprobs, text, finish reason, weight version and sampling are those delivered |
| `Recorder.SessionRecorder.RecordCompletion` | proxyserver/recorder.py:172-297 | one delivery changes the recorder exactly as the per-agent specification says, tombstones and exact retries included |
| `Recorder.SessionRecorder.DropExpiredTombstones` | proxyserver/recorder.py:389-397 | tombstones older than the lifetime are dropped from the front |
| `Recorder.SessionRecorder.BoundTombstones` | proxyserver/recorder.py:398-399 | the oldest tombstones above the bound are dropped |
| `Deletions.DeletedStaysDeleted` | proxyserver/recorder.py:368-399 | after any calls and a deletion, while fewer other ids than the bound are deleted and less than the lifetime passes, no call brings back a record or failure of the id, and every delivery for it is dropped |
| `Deletions.OnlyTheOldestIsForgotten` | proxyserver/recorder.py:368-399 | a deletion forgets another live tombstone if and only if the bound forces it out as the oldest |
| `Recorder.UpdateView` | proxyserver/recorder.py:206-297 | what a delivery does to one agent's turns, capture and marker is invisible to every other agent and session |
| `Recorder.RecordView` | proxyserver/recorder.py:206-297 | recording changes exactly the delivering agent's view, by the per-agent rule |
| `Recorder.ClearFailureView` | proxyserver/recorder.py:361-366 | clearing a marker leaves every other marker of every agent and session as it was |
| `TokenStream.TokenStreamManager.TurnGap` | proxyserver/token_stream.py:608-625 | the loop finds the missing end tokens, none when a complete ending is present |
| `TokenStream.TokenStreamManager.OmitSampledHeader` | proxyserver/token_stream.py:582-604 | a continuation header the model already sampled is cut from the delta once, and a delta without it is refused |
| `TokenStream.TokenStreamManager.GetPrefix` | proxyserver/token_stream.py:652-666 | the measured prefix is cached and never changes |
| `TokenStream.TokenStreamManager.DeltaIds` | proxyserver/token_stream.py:516-606 | new messages become gap, stripped delta and generation header, or the refusal the source raises |
| `TokenStream.TokenStreamManager.MakePrompt` | proxyserver/token_stream.py:288-361 | the prompt is a full render for an opening and stream plus delta for a continuation of the held history |
| `TokenStream.TokenStreamManager.ServeCached` | proxyserver/token_stream.py:370-417 | a repeat of the last turn is served from the stream and counted, or refused before it is counted |
| `TokenStream.TokenStreamManager.EvictOne` | proxyserver/token_stream.py:475-483 | the least recently used stream goes and its id is remembered in a bounded list |
| `TokenStream.TokenStreamManager.CommitTurn` | proxyserver/token_stream.py:430-483 | a commit installs prompt plus completion as the stream, newest, and evicts down to the bound |
| `TokenStream.TokenStreamManager.DropStream` | proxyserver/token_stream.py:485-489 | dropping forgets the stream and that it was evicted |
| `TokenStream.AcceptedContinuation` | proxyserver/token_stream.py:309-361 | an accepted continuation agrees with the held history, appends messages behind one assistant echo, and its prompt starts with the held stream |
| `TokenStream.InstallHolds` | proxyserver/token_stream.py:464-483 | after a commit the stream is held unchanged or not at all, and other streams are only ever evicted |
| `TokenStream.AcceptedExactly` | proxyserver/token_stream.py:288-361 | a continuation gets a prompt if and only if its stream is held, tools and effort are unchanged, it agrees with the held history, appends an assistant echo and messages that may follow one, and their delta fits; an opening if and only if it renders and does not extend the held history |
| `Messages.PartsAreJoinedByNewlines` | proxyserver/token_stream.py:110-125 | the normalized text of a list of text parts is its parts in order with one newline between neighbours, a single part itself and no part nothing |
| `Messages.OtherContentIsKept` | proxyserver/token_stream.py:91-131 | normalizing keeps every role, and all content but lists of parts |
| `Messages.RefusedExactlyWhenUnsupported` | proxyserver/token_stream.py:91-131 | messages are refused if and only if one has an unsupported role or a part that is not text |
| `Messages.GistsDecideNonAssistant` | proxyserver/token_stream.py:152-171 | histories that agree message by message in role and content have the same agent-side messages |
| `Lossless.OpeningInStep` | proxyserver/recorder.py:225-238 | for an opening, the record ends with this turn exactly when its last turn is this very opening |
| `Lossless.JudgeOpening` | proxyserver/recorder.py:225-242 | an opening is a duplicate exactly when the record already ends with it, otherwise stored in full |
| `Lossless.JudgeContinuation` | proxyserver/recorder.py:243-271 | comparing lengths and counts only, a turn that fits the record is recognized when repeated and otherwise cut into exactly its delta |
| `Lossless.RecordKeepsStep` | proxyserver/recorder.py:206-297 | delivering a turn that fits leaves the record ending with exactly that turn |
| `Lossless.ContinuationGists` | proxyserver/token_stream.py:320-347 | a continuation the manager accepts extends the held agent-side messages by at least one |
| `Lossless.AcceptedFollows` | proxyserver/token_stream.py:309-361 | a prompt accepted against a stream the record is in step with continues the record |
| `Lossless.RecordKeepsSound` | proxyserver/service.py:475-495 | recording, with or without a pending failure, keeps record, stream and marker consistent |
| `Lossless.FailAfterKeepsSound` | proxyserver/service.py:496-512 | so does a failure after the turn was appended |
| `Lossless.OtherDeliveryKeepsRepairable` | proxyserver/recorder.py:212-220 | other deliveries leave a failed turn repairable or move the record past it |
| `Lossless.MoveKeepsSound` | proxyserver/service.py:407-512 | no step of a turn breaks the invariant between manager, record and marker |
| `Recording.StreamIdInjective` | proxyserver/service.py:37-43 | two agents of valid ids never share a stream id |
| `Recording.RecordsOfOthers` | proxyserver/recorder.py:206-359 | a step of one agent never changes another agent's record |
| `Recording.StepMoves` | proxyserver/service.py:407-512 | every step of the whole system is, to every agent, one of the per-agent moves |
| `Recording.RunKeepsSound` | proxyserver/service.py:467-512 | the invariant holds in every reachable state of many sessions and agents |
| `Recording.LosslessRecording` | proxyserver/recorder.py:243-271 | with no failure pending and no turn in flight, the deltas since the last new conversation join to exactly the manager's stream, and the stored messages to its history |
| `Recording.RetryRecordsNothingTwice` | proxyserver/recorder.py:229-260 | a repeated delivery of the held turn is skipped and changes nothing |
| `RecordingFailure.RefusedWhilePending` | proxyserver/recorder.py:304-332 | dump and finalize refuse while any agent's failure is pending |
| `RecordingFailure.StepPending` | proxyserver/recorder.py:212-241 | a pending failure survives a step exactly unless it is a deletion of the session or the exact retry at the marked position |
| `RecordingFailure.BlockedUntilExactRetry` | proxyserver/recorder.py:212-366 | over any run, collection stays refused until a deletion or an exact retry with no turn of the agent recorded in between |
| `RecordingFailure.PassedForGood` | proxyserver/recorder.py:258-297 | once the agent recorded another turn, no delivery ever clears the marker, only deletion |
| `RecordingFailure.RepairIsPerAgent` | proxyserver/recorder.py:361-366 | no delivery of another agent clears a marker |
| `RecordingFailure.FirstModelStays` | proxyserver/recorder.py:160-170 | the first model a session is stamped with stays through any calls until the session is deleted |
| `RecordingFailure.CollectableIffNothingPending` | proxyserver/recorder.py:304-332 | after any calls of the handler a session can be dumped, and finalized, if and only if it exists and no agent of it has a failure pending |
| `RecordingFailure.CompleteExactlyWhenFinalized` | proxyserver/recorder.py:319-332 | after any calls a session is complete if and only if a finalization succeeded since it was last deleted |
| `RecordingFailure.CoveredStaysClosed` | proxyserver/recorder.py:334-359 | a failed turn that is marked itself, or marked while some failure was passed, keeps collection closed until it is delivered or the session deleted |
| `RecordingFailure.ReopensExactlyWhenUncovered` | proxyserver/recorder.py:334-366 | marking a failed turn leaves a way to reopen collection without it if and only if the agent has another turn pending and every pending failure of the session is still in place |
| `HandlerRuns.SecondLostTurnIsNotCovered` | proxyserver/service.py:496-512 | a run of the handler in which a repaired first loss reopens collection with a second turn missing |
| `HandlerRuns.RepeatedOpeningIsRecordedOnce` | proxyserver/recorder.py:229-238 | a run in which an opening is committed twice, with the stream evicted in between, and recorded once |
| `Retention.RunWell` | proxyserver/token_stream.py:464-489 | over any operations held and evicted ids stay distinct, disjoint and within the bound |
| `Retention.KeptWhileFewOthersTouched` | proxyserver/token_stream.py:464-483 | a stream keeps its exact tokens while fewer than the bound of other streams were touched |
| `Retention.EvictedExactlyWhenOldestOfFull` | proxyserver/token_stream.py:475-483 | a commit evicts another stream exactly when the table is full and that stream is the oldest |
| `Retention.ReplaysAreBoundedAndExact` | proxyserver/token_stream.py:370-417 | between two commits a turn is served again at most the allowed number of times, always with its exact prompt and completion |
| `Retention.CommittedTurnReplays` | proxyserver/token_stream.py:370-468 | from its commit on, what is replayed is exactly what was committed |
| `Retention.ReplaysAreCountedExactly` | proxyserver/token_stream.py:370-417 | over any operations but a commit of its own, a turn stays as committed and its replay counter grows by exactly the requests answered from it; refusals spend nothing |
| `Retention.ContinuationsStartWithTheTurn` | proxyserver/token_stream.py:309-361 | until the stream commits again, every continuation accepted starts with the prompt sent and the completion sampled |
| `Retention.PreparedAgainstServed` | proxyserver/token_stream.py:562-606 | messages behind a served response are prepared against that response, and the prompt is the stream and their delta |
| `Retention.EchoDecidesNothing` | proxyserver/token_stream.py:516-606 | two clients that echo a served response differently get the same prompt |
| `Retention.FirstParseIsServed` | proxyserver/token_stream.py:419-428 | the response cached for later tool results is the first one parsed from the committed completion, whatever is parsed later or for other tokens |
| `Retention.GapIsShortestClosing` | proxyserver/token_stream.py:608-625 | the gap is the shortest suffix of the turn ending that closes the stream, empty when a complete ending does |
| `Templates.MeasuredPrefixIsThePrefix` | proxyserver/token_stream.py:668-716 | for a template that renders a fixed prefix and one block per message the two probes measure exactly that prefix |
| `Templates.StripUsesSampledHeader` | proxyserver/token_stream.py:582-604 | a sampled continuation header appears once |
| `Templates.IncrementalPromptIsFullRender` | proxyserver/token_stream.py:288-483 | after any number of turns built and committed by the manager, delta preparation included when it leaves what messages render to, the prompt is the full render of the history plus the header |
| `Coverage.FilledCaptureIsWhole` | proxyserver/recorder.py:107-119 | an honest answer from row 0 or from the stored rows leaves a capture of exactly one row per token but the last |
| `Coverage.DeltaAndFullRangeStoreAlike` | proxyserver/recorder.py:107-119 | a delta answer and a full-range answer to the same turn leave the same stored capture |
| `Coverage.FilledConversationIsWhole` | proxyserver/recorder.py:272-277 | over honest runs, when every turn of the current conversation delivered such an answer and no failure is pending, the capture has a row per token of the conversation but the last |
| `Coverage.AnsweredConversationIsWhole` | proxyserver/service.py:418-428 | the engine makes this so by answering every turn in full or from the rows stored when the turn was asked |
| `Routing.CaptureIsTheEnginesSelection` | proxyserver/recorder.py:272-277 | in every run with an honest engine and no pending failure the stored capture starts at row 0, holds rows times columns bytes, and row k is the engine's selection for token k |
| `Routing.RowsNeverShrink` | proxyserver/recorder.py:84-130 | within a conversation the stored rows never shrink |
| `Routing.FlatDeltaAndFullRangePackAlike` | proxyserver/rollout_sglang.py:123-172 | a delta answer and a full-range answer to the same turn pack to the same blob |
| `Routing.TableDeltaAndFullRangePackAlike` | proxyserver/rollout_vllm.py:55-104 | the same for answers given row by row |
| `Training.CheckTurn` | proxyserver/record_validation.py:25-43 | a turn passes exactly when its logprobs align and sampled tokens have a prompt somewhere before them in their conversation |
| `Training.CheckBlobs` | proxyserver/record_validation.py:51-69 | captures pass exactly when their agent exists, they start at row 0, fit the last conversation and hold rows times columns bytes |
| `Training.CheckCoverage` | proxyserver/record_validation.py:70-79 | required coverage passes exactly when every agent with tokens never reset and is captured up to its last token |
| `Training.ValidateRecord` | proxyserver/record_validation.py:7-79 | the one-pass check with running tallies accepts exactly the structurally sound records |
| `TrainingStreams.OneStreamPerConversation` | proxyserver/training.py:142-156 | for any interleaving of agents and resets an agent's streams are its conversations, in order |
| `TrainingChecks.Validate` | proxyserver/training.py:69-114 | the cursor loop accepts exactly the streams whose spans tile them, with masks and placeholder logprobs in place and complete captures |
| `TrainingChecks.CutGivesTurnsBack` | proxyserver/training.py:82-103 | cutting a conversation's stream at completion boundaries gives back each turn's prompt, completion and logprobs, with the mask 1 at exactly the sampled positions |
| `TrainingRecords.RecordToStreams` | proxyserver/training.py:117-168 | conversion returns the assembled streams or the source's first error |
| `TrainingRecords.TakeTurns` | proxyserver/training.py:142-164 | the loop reports the first turn that cannot be converted, or has assembled one stream per conversation |
| `TrainingRecords.TakeTurn` | proxyserver/training.py:142-164 | one turn is refused for an unregistered agent or a forbidden reset, or extends exactly its agent's current stream |
| `TrainingRecords.CheckStreams` | proxyserver/training.py:165-168 | captures are attached and every stream must validate |
| `TrainingRecords.ConversationValid` | proxyserver/training.py:69-114 | a conversation's stream validates exactly when its names are well formed and any attached or required capture is complete |
| `Conversion.LastConversationIsRebuilt` | proxyserver/record_validation.py:33-38 | the conversation the record check measures last is the one the deltas rebuild to |
| `Conversion.ConversationsAreSound` | proxyserver/record_validation.py:25-43 | in a record that passed, no conversation starts with sampled tokens and all logprobs align |
| `Conversion.CapturedAgentHasOneConversation` | proxyserver/training.py:146-149 | an agent with a capture was never reset in a record that converts |
| `Conversion.ConvertsExactlyWhenSound` | proxyserver/training.py:117-168 | a record converts if and only if it is sound, registered, resets only where allowed, and its names and captures are complete; masks and boundaries never cause a rejection |
| `Conversion.ConversionIsExact` | proxyserver/training.py:142-168 | each conversation becomes one stream with its tokens, cut by its own boundaries into its turns |
| `RunRecords.RecordedTurnsPass` | proxyserver/record_validation.py:25-43 | every turn any run records passes the turn check, whatever was lost, retried, evicted or deleted |
| `RunRecords.CollectedRecordPasses` | proxyserver/record_validation.py:7-79 | a record that can be collected after a run with an honest engine passes the record check, captures included |
| `RunRecords.CollectedRecordConverts` | proxyserver/training.py:117-168 | such a record converts if and only if its agents are registered, its resets allowed, its names well formed and its attached or required captures complete |
| `Collection.DeliveryIsRecorded` | proxyserver/recorder.py:225-293 | delivering the turn the record waits for, or repeating it, leaves the record matching the commits |
| `Collection.MoveKeepsCollected` | proxyserver/service.py:467-512 | every step of a disciplined agent keeps record and commits matched, failures before and after append included |
| `Collection.CollectedConversations` | proxyserver/service.py:467-512 | after any disciplined run that ends quietly the record's conversations are the committed ones |
| `Collection.TrainingStreamsAreCommittedConversations` | proxyserver/training.py:117-168 | converting a record collected after a disciplined run with an honest engine, as the caller allows, succeeds and yields per committed conversation a stream of its final engine prompt plus completion |
| `Answers.RecordedAsAnswered` | proxyserver/service.py:467-495 | after any disciplined run that ends quietly each recorded turn carries the engine's answer to it: tokens, logprobs, weight version, sampling and finish reason |
| `Answers.TrainingStreamsCarryTheAnswers` | proxyserver/training.py:142-168 | converting such a record yields streams with the answered logprobs at exactly the sampled positions, and spans with the answered weight versions, sampling and finish reasons |
| `LifecycleSafety.AdmitKeepsRest` | proxyserver/service.py:265-271 | admission keeps the invariant because tombstone, barrier and registration are checked without an await between |
| `LifecycleSafety.UnwindKeeps` | proxyserver/service.py:717-738 | a cancelled turn leaves at most a worker thread, and only under a tombstone |
| `LifecycleSafety.LeftoverRecordsNothing` | proxyserver/recorder.py:197-205 | a recorder thread that outlived its cancelled turn finds the tombstone and changes nothing |
| `LifecycleSafety.StepKeeps` | proxyserver/service.py:663-851 | no step of any client, turn, worker, barrier or cleanup breaks the invariant |
| `LifecycleSafety.TurnsOfAStreamAreSerialized` | proxyserver/service.py:701-722 | two turns of one stream never overlap |
| `LifecycleSafety.NoWakeupIsLost` | proxyserver/service.py:674-699 | a barrier waiting with its event clear has a tracked task left, and whatever ends one sets the event |
| `LifecycleSafety.FinalizedRecordIsFrozen` | proxyserver/service.py:760-804 | after a successful finalization no accepted work runs and the record never changes before DELETE |
| `LifecycleSafety.FailureBlocksFinalization` | proxyserver/service.py:760-804 | a session with a failure marked is never finalized, and a finalization that runs then reports failure |
| `LifecycleSafety.CleanupLeavesNothing` | proxyserver/service.py:826-851 | a cleanup without error leaves no stream, pin, lock, record or tracked stream |
| `LifecycleSafety.DeletedSessionStaysGone` | proxyserver/service.py:806-851 | and while the tombstone stands nothing queued, detached or in a worker thread brings one back |
| `LifecycleSafety.FailedCleanupCanBeRetried` | proxyserver/service.py:839-849 | a failed cleanup still remembers every stream that holds anything, and a repeated DELETE releases them all |
| `LifecycleLapse.LapseDuringCleanupBreaksSerialization` | proxyserver/recorder.py:384-399 | a concrete run in which a tombstone lapses during its cleanup and two turns of a stream then run at once |
| `TurnSerialization.GuardedRunsAreSerialized` | proxyserver/service.py:701-722 | turns of a stream are serialized in every run whose tombstones lapse only after cleanup or behind a barrier |
| `LapseConverse.SerializedExactlyWhenSafe` | proxyserver/recorder.py:384-399 | a tombstone may lapse without two turns of a stream ever overlapping if and only if the cleanup is over or a barrier stands |
| `LapseConverse.EarlyLapseBreaksSerialization` | proxyserver/service.py:806-851 | from every reachable state where a tombstone lapses during cleanup with no barrier standing, and for every stream, some continuation that lapses ends with two live turns of that stream |
| `LapseConverse.LeftoverChangesFinalizedRecord` | proxyserver/recorder.py:197-205 | a recorder thread that outlives its tombstone changes the finalized record of the next session of that name |
| `LapseConverse.LeftoverFinalizesOpenSession` | proxyserver/service.py:760-804 | a finalization thread that outlives its tombstone finalizes the next session while its request is open |
| `LapseConverse.LapseLetsThreadsWrite` | proxyserver/recorder.py:197-205 | a thread about to write changes nothing behind the tombstone and brings the deleted session back without it |
| `Registry.StepKeeps` | proxyserver/model_registry.py:243-271 | no interleaving of asks, loads, settlements and wake-ups breaks the invariant |
| `Registry.OneLoadPerProfile` | proxyserver/model_registry.py:247-254 | at most one load per profile is in progress, and only while no bundle is cached |
| `Registry.EveryoneGetsTheSameBundle` | proxyserver/model_registry.py:247-271 | whoever receives a bundle for a profile, whenever, receives the same one |
| `Registry.WaitersGetTheOwnersOutcome` | proxyserver/model_registry.py:255-271 | threads that share a load share its result or its error |
| `Registry.NoWaiterIsForgotten` | proxyserver/model_registry.py:255-271 | a waiting thread's future is set or still owed by a running thread |
| `Registry.FailedLoadLeavesNothing` | proxyserver/model_registry.py:258-266 | after a failed load the next request loads again |
| `Sections.ReadSection` | proxyserver/tokenization/tool_parser.py:99-122 | with the remembered '>' and the newline skip, one opener is decided as the scan of every position would, within its share of examined characters |
| `Sections.SplitSections` | proxyserver/tokenization/tool_parser.py:76-125 | the sections and the flag are those of the scan that tries every position, and the searches examine at most four times the text |
| `Sections.NewlineSpoils` | proxyserver/tokenization/tool_parser.py:100-110 | a newline in a name spoils every opener up to it |
| `Sections.BlankSpoils` | proxyserver/tokenization/tool_parser.py:111-114 | a blank name spoils every opener up to its end |
| `Sections.NothingAhead` | proxyserver/tokenization/tool_parser.py:105-120 | without a later '>' or closer no later opener is complete |
| `Sections.SpansAreOrdered` | proxyserver/tokenization/tool_parser.py:88-125 | what is found are complete sections of the text, in order and without overlap |
| `ToolBlocks.PickBlock` | proxyserver/tokenization/tool_parser.py:226-243 | a block is parsed once, and once more from its innermost opener when it held no call |
| `ToolBlocks.OpenerFirst` | proxyserver/tokenization/tool_parser.py:217-226 | scanning opener by opener visits the blocks of a scan by close markers |
| `ToolBlocks.Parse` | proxyserver/tokenization/tool_parser.py:202-267 | content parts and consumed blocks interleave to the text, a block is consumed only for its calls, and the block parser sees at most twice the text |
| `ToolTurns.TurnIsRead` | proxyserver/tokenization/tool_parser.py:202-267 | when every printed block is read back, so is the whole turn with text around its calls |
| `ToolTurns.CallComesFrom` | proxyserver/tokenization/tool_parser.py:217-243 | whatever the text, every call was parsed from a block that holds no closing marker |
| `ToolTurns.InnerCallIsRecovered` | proxyserver/tokenization/tool_parser.py:226-243 | a call behind a stray opener is recovered from the innermost opener, and what comes before it stays content |
| `QwenCalls.FunctionCall` | proxyserver/tokenization/tool_parser.py:422-431 | one function section gives its arguments, or is damaged when text is stranded |
| `QwenCalls.BlockCalls` | proxyserver/tokenization/tool_parser.py:417-432 | a block gives its calls, or none at all when any part is damaged |
| `QwenCalls.ParametersAreRead` | proxyserver/tokenization/tool_parser.py:422-430 | every printed parameter is found with its value, mentions of markup included |
| `QwenCalls.BlockIsRead` | proxyserver/tokenization/tool_parser.py:417-432 | parsing a printed block gives back the call |
| `QwenCalls.PrintedCallsRoundTrip` | proxyserver/tokenization/tool_parser.py:390-432 | printing calls and parsing the turn gives back the same names, keys and values in order |
| `QwenCalls.ClosedValueIsDamaged` | proxyserver/tokenization/tool_parser.py:398-412 | a value that contains its own closing marker is reported as damaged when nothing behind that marker opens a parameter |
| `QwenClosers.SplitBehind` | proxyserver/tokenization/tool_parser.py:76-125 | behind sections already read, the scan finds what it finds in the rest alone |
| `QwenClosers.BlockIsReadExactly` | proxyserver/tokenization/tool_parser.py:417-432 | a printed call is parsed back if and only if none of its values contains the closer of a parameter or a function |
| `QwenClosers.CallsRoundTripExactly` | proxyserver/tokenization/tool_parser.py:390-432 | a printed turn is parsed back to its calls if and only if none of their values contains a closing marker |
| `QwenClosers.ClosedValueExactly` | proxyserver/tokenization/tool_parser.py:398-432 | a value that closes its parameter is reported as damaged unless what stands behind is nothing but complete parameters, which are then read as arguments of their own |
| `QwenClosers.SpelledParameterIsRead` | proxyserver/tokenization/tool_parser.py:398-432 | a value that spells out another parameter is cut short and read as that additional argument |
| `QwenClosers.ClosedFunctionExactly` | proxyserver/tokenization/tool_parser.py:417-432 | a block is read up to the first closer of a function and damaged unless complete functions follow |
| `QwenClosers.ClosedFunctionIsDamaged` | proxyserver/tokenization/tool_parser.py:398-432 | a value that closes its function before any parameter is always reported as damaged |
| `GlmCalls.BlockCalls` | proxyserver/tokenization/tool_parser.py:480-505 | the partition loop accepts exactly the well-formed blocks and returns their arguments in order |
| `GlmCalls.BlockIsRead` | proxyserver/tokenization/tool_parser.py:480-505 | parsing a printed block gives back the call |
| `GlmCalls.PrintedCallsRoundTrip` | proxyserver/tokenization/tool_parser.py:467-505 | printing calls and parsing the turn gives back the same names, keys and values in order |
| `GlmCalls.ClosedValueIsDamaged` | proxyserver/tokenization/tool_parser.py:489-504 | a value that contains its own closing marker damages the block when something other than a key follows that marker |
| `GlmClosers.BlockIsReadExactly` | proxyserver/tokenization/tool_parser.py:480-505 | a printed call is parsed back if and only if none of its values contains the closer of a value |
| `GlmClosers.CallsRoundTripExactly` | proxyserver/tokenization/tool_parser.py:467-505 | a printed turn is parsed back to its calls if and only if none of their values contains a closing marker |
| `GlmClosers.ClosedValueExactly` | proxyserver/tokenization/tool_parser.py:480-505 | a value that closes itself damages the block unless another key follows, and is otherwise cut there with reading going on at that key |
| `GlmClosers.SpelledArgumentIsRead` | proxyserver/tokenization/tool_parser.py:480-505 | a value that spells out another argument is cut short and read as that additional argument |
| `Harmony.ReadHeader` | proxyserver/tokenization/harmony.py:43-60 | a header's text and channel up to the body marker, and whether a boundary interrupted it |
| `Harmony.ReadBody` | proxyserver/tokenization/harmony.py:66-70 | a body is everything up to the next boundary, other markers spelled out |
| `Harmony.AssistantMessages` | proxyserver/tokenization/harmony.py:37-79 | the cursor loop reads exactly the messages the parts say |
| `Harmony.PartsFromTokens` | proxyserver/tokenization/harmony.py:82-94 | every token is in exactly one part, markers alone and the stretches between them whole |
| `HarmonyRoundTrip.HeaderWords` | proxyserver/tokenization/harmony.py:55-64 | a written header names its channel and recipient, before or after the channel |
| `HarmonyRoundTrip.WrittenMessagesRoundTrip` | proxyserver/tokenization/harmony.py:37-79 | reading any written list of messages gives back channels, recipients, bodies and endings |
| `HarmonyRoundTrip.SampledMessagesRoundTrip` | proxyserver/tokenization/harmony.py:39-40 | so does reading a completion sampled behind a header the prompt opened |
| `HarmonyRoundTrip.InterruptedHeaderEndsReading` | proxyserver/tokenization/harmony.py:48-52 | a header interrupted by a boundary yields no message and ends the reading |
| `CodeSpans.PairRuns` | proxyserver/tokenization/base.py:60-66 | the dictionary of previous runs gives every run the end of the next run of its size |
| `Fences.PairFences` | proxyserver/tokenization/base.py:68-84 | the queues give every fence the first later fence of its kind, at least as long and without info text |
| `Fences.FenceIsClosing` | proxyserver/tokenization/base.py:79-83 | what a fence takes off its queue is exactly what it closes |
| `ProseQuotes.PairQuotes` | proxyserver/tokenization/base.py:86-99 | the lists per closing character give every quote its first closer |
| `ProseQuotes.QuoteIsClosing` | proxyserver/tokenization/base.py:94-97 | the openers listed for a quote are exactly the unclosed ones it closes |
| `Quotes.QuotedSpanEnds` | proxyserver/tokenization/base.py:52-100 | the table is quotes where nothing else, over code spans overridden by fences, each paired as the quadratic search would |
| `Quotes.FencesOverrideCodeSpans` | proxyserver/tokenization/base.py:79-84 | a closed fence decides its position even where its backticks also open a code span |
| `Quotes.PairingIsUnique` | proxyserver/tokenization/base.py:52-100 | the pairing determines the table |
| `JsonCalls.HeaderEnds` | proxyserver/tokenization/base.py:103-116 | a key or name without escapes ends at its closing quote |
| `MentionedCalls.HeaderStopsAtTag` | proxyserver/tokenization/base.py:106-116 | a key or name that is never closed ends at the first reasoning tag |
| `MentionedCalls.RecoversAtClose` | proxyserver/tokenization/base.py:119-143 | a mentioned value ends at a closing tag of reasoning that a new call or the end of the text follows before any closing marker |
| `ReasoningTokens.ReasoningEndsNoLater` | proxyserver/tokenization/base.py:119-143 | a mentioned value never reaches past the marker that would close it in an actual call, and ends there when no closing tag of reasoning comes before |
| `ReasoningScan.ReasoningTags` | proxyserver/tokenization/base.py:146-270 | each round goes on where and in the state the one before it ended, up to the end of the text; the tags are exactly the reasoning tags found, real, in order and disjoint |
| `ReasoningScopes.NoTagInsideAValue` | proxyserver/tokenization/base.py:186-270 | no reported tag overlaps a named parameter's value, from its header to where the value search ends it, or a string among JSON arguments |
| `ReasoningScopes.ExampleBoundsItsRounds` | proxyserver/tokenization/base.py:167-221 | while a quoted example lasts every round's limit is its end; the scanner reaches exactly that end and restores the scopes in which the example was opened |
| `ReasoningScopes.ExampleIsTransparent` | proxyserver/tokenization/base.py:167-270 | a closed example without actual reasoning tags is passed as if it were not there, whatever calls, headers, brackets or quotes it holds |
| `ReasoningScopes.TagEndsEverything` | proxyserver/tokenization/base.py:222-229 | an actual reasoning tag ends every quoted example and every call mentioned before it |
| `ReasoningScopes.QuotedJsonOwnsItsQuotes` | proxyserver/tokenization/base.py:240-247 | a JSON call between straight double quotes is not ended by the quotes of JSON itself |
| `ReasoningScopes.QuotedJsonEndsExactly` | proxyserver/tokenization/base.py:206-214 | such an example ends exactly behind a double quote outside the object or a string that JSON does not go on behind, and there the saved scopes are restored |
| `VisibleCalls.PassesTurn` | proxyserver/tokenization/base.py:230-270 | from the first actual call on, a turn of printed calls reports no tag, whatever tags, quotes and openers the values hold |
| `MentionedCalls.PassesMention` | proxyserver/tokenization/base.py:263-265 | a parameter header mentioned in reasoning leads to the end of that reasoning, not to a closing marker of a later call |
| `MentionedCalls.PassesUnfinished` | proxyserver/tokenization/base.py:191-192 | a JSON call that breaks off inside a key does not hide where the reasoning ends |
| `VisibleJson.PassesJson` | proxyserver/tokenization/base.py:186-257 | a printed JSON value among the arguments is passed in the same scope, whatever its strings and keys hold |
| `JsonCalls.PassesJsonTurn` | proxyserver/tokenization/base.py:186-257 | a turn of printed JSON calls reports no tag |
| `ReasonedTurns.CallsStayVisible` | proxyserver/tokenization/base.py:332-344 | a completion of printed calls whose values hold any reasoning tags is left unchanged |
| `ReasonedTurns.TruncatedCallStaysVisible` | proxyserver/tokenization/base.py:266-270 | so is one that is cut short inside a value |
| `ReasonedTurns.ReasoningIsRemoved` | proxyserver/tokenization/base.py:325-344 | of reasoning and a turn exactly the turn is shown and exactly the reasoning extracted, whatever calls the reasoning quotes or mentions at its end, and with or without its opening tag |
| `ReasonedTurns.CallsSurviveReasoning` | proxyserver/tokenization/tool_parser.py:198-243 | behind reasoning, parsing what is shown gives back exactly the calls that were printed |
| `ReasonedTurns.JsonCallsStayVisible` | proxyserver/tokenization/base.py:332-344 | a completion of JSON calls whose argument strings hold any reasoning tags is left unchanged |
| `ReasonedTurns.JsonCallsSurviveReasoning` | proxyserver/tokenization/base.py:325-344 | so is a turn of JSON calls behind reasoning |
| `Think.ThinkSpans` | proxyserver/tokenization/base.py:273-295 | one span per closing tag that opening tags precede or that comes first of all, from the first of those opening tags, and one to the end of the text for tags never closed; ordered and disjoint |
| `Think.SeparatorStopsBeforeSpan` | proxyserver/tokenization/base.py:335-343 | the newlines dropped behind a span never reach the next one |
| `Think.Strip` | proxyserver/tokenization/base.py:332-344 | the visible text is every character outside the spans and their separator newlines, once and in order |

## Left out

- HTTP, streaming, configuration, command line and client helpers: they only carry these operations.
- Real tokenizers and templates: decoding and rendering are functions given to the model, and template compositionality is a stated hypothesis where it is needed.
- Text encodings and the outside form of captures: a capture that cannot be decoded is one value that merging drops.
- JSON argument typing: a coercion is a function given to the parsers, and the round trips are for arguments declared as text.
- The Hermes and Llama parsers: library JSON behaviour.
- Sampling ranges, temperature floors, budgets and finish reasons: flat conditionals.
- Disk snapshots, error logs and fingerprints; a failing disk write is a recording failure after append.
- Rejected-request notes and routing headers of the transports.
- Results batches of `proxyserver/training.py:172-299`: allocation bookkeeping over streams already proved valid.
- Several loaded profiles: one manager is modelled, since a session is pinned to one model.
- An exception between merging a capture and appending its turn: recording fails before it changes the record or after it appended.
- `Recorder.SessionRecorder.RecordCompletion`: the lock is not modelled; each call is one step, as the source's critical section is.
- `Fences.PairFences`: the heap is a queue kept sorted by length, so the array layout of the heap is not modelled.
- `TrainingRecords.RecordToStreams`: streams are values in the result list, found by position, where the source mutates shared objects.
- `LapseConverse.LeftoverChangesFinalizedRecord`: asks that no barrier stands, since one refuses the admission that opens the next session.
- `QwenClosers.ClosedValueExactly`: a value that contains the marker that closes a whole block is covered by `CallsRoundTripExactly` only as not being read back; which other calls it is read as is not stated.
- `LifecycleSafety.StepKeeps`: prompt building, replay lookup and decoding inside a turn are one step, since they add no per-stream state; a cleanup that pops a barrier while it still runs is only possible when a tombstone lapsed early.
- `Sections.SplitSections`: a search is charged the characters up to the end of its match; the cost of the search algorithm inside the library, and of slicing and stripping, is not.
- `ReasoningScan.ReasoningTags`: three things are given: the table of quoted examples (modelled in `Quotes`), which characters are letters or digits, and what a quoted JSON key decodes to; the theorems about JSON calls ask that the keys of a call decode to themselves.
- `ReasonedTurns.ReasoningIsRemoved`: the texts around the calls hold none of the marks the scanner looks for; inside the reasoning, calls stand in quoted examples, but for one mention without quotes at its end.
- `Answers.RecordedAsAnswered`: asks that a completion and reply always parse to the same response, as the parsers of a loaded profile do.
- `Quotes.QuotedSpanEnds`: the delimiters come as the lists the regular expressions find, in order of position.
- `HarmonyRoundTrip.WrittenMessagesRoundTrip`: bodies are single text parts; a body that contains other markers is read with their spellings.
