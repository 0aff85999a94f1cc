# A model of the chat client hub

A Dafny 4.11 model of the stateful parts of the A2A client hub, with proofs of what they keep over
every interleaving and every run. `dafny verify dfyconfig.toml` checks all of it.

**The chat stream runtime and its transports.** `ChatTurn` states the effect of each closure of one turn
on its variables, the history of its conversation and its session; the block reducers are parameters, so
every result holds for all of them. `ChatRuntime` is the turn as the source writes it, a class over the
shared session record and the shared history cache, each method proved equal to `ChatTurn`.
`ChatRuns` is the conversation over whole chains of sends, retries and resumes: a step for each event a
transport, a timer, a response or the user can cause, with the transports bound by the callback contract of
`Transport`. `ChatTheorems`, `ChatRefinement` and `QueueTheorems` state what holds in every interleaving,
`ChatOutcomes` what each ending leaves to the user and which reports lead to it, `ChatStarts` how runs begin and
which transport they try, `ChatArrivals` what one datum does at once,
`ChatLedger` and `ChatAccounts` where every accepted chunk ends up, `Buffering` and `TurnFacts` the steps
towards it. `WsTransport` models the WebSocket promise handler by
handler and proves that it keeps the contract. `ChatStore` has the store actions that start runs and write the
interrupt queue, `Sessions` the queue with all its writers, `CancelDebounce` the debounce of remote cancels.

**The message history.** `HistoryCache` has normalisation (stable sort, then a map in which an id keeps its
first place and takes its last value), the page cache and its operations; `MessageMerge` and `HistoryMerge`
the merge of fetched messages. `Messages`, `StableSort`, `Text` and `Prelude` hold what they share.

**Session bookkeeping.** `Metadata` has the readers and writers of the four sections under `shared`,
`MetadataLenses` their laws; `SessionPlans` and `SessionPlanFacts` the cleanup plan and the list for storage.

**The schedule backfill.** `Backfill` is the drain of legacy running state as a function of the two tables,
`ScheduleDatabase` the script's statements and loop, proved equal to it; `BackfillFacts` and
`BackfillTheorems` relate the result to the guard and the check constraints of the migrations.

**Smaller cores.** `Allowlist` (the cache with double-checked locking, as interleaved tasks), `Composer`
(the command parser), `ErrorSanitizer` and `ErrorTokens` (upstream errors).

What the model assumes of the surroundings: a closed socket never fires `open` (section 7.1.7 of RFC 6455)
and messages come only from an open one; a WebSocket datum may make `onData` throw, but then before it had an
effect, and the SSE parser swallows such an exception; one run per conversation and no other writer
beside it; message ids are trimmed and not blank, new message ids and run ids are unused; the SSE
attempt delivers data and at most one error after data and then returns true, or makes no callback and
returns false or raises an authentication failure. Times are integers, an arbitrary input unless a lemma asks
for a clock that does not go back.

Where the code does not do what one would expect, the model follows the code:

- The alias map keeps pointing at a message after an upstream id has taken it over, whether the alias was a
  made-up id or an upstream id of its own. With upstream ids in the order A, B, A the message of A becomes that
  of B, and the later chunks of A, like any chunk under a stale alias, are counted for the cursor and then
  dropped with the next flush. All results include these chunks.
- Within one flush window a dropped chunk can come back: a stale alias makes the vanished message the active
  one, and a chunk that names its id then makes it anew, with the chunks that waited for it. Here alone buffering
  differs from immediate application, and the refinement results exclude exactly this.
- A datum that makes `onData` throw, such as the JSON text `null`, rejects the WebSocket promise even after data
  was delivered, and the turn is then tried again over SSE. This is the one case in which SSE follows data.
- One normalisation pass can leave messages unsorted; two cannot.
- The readers of the stream and session sections follow a nested `metadata` record that the writers do not.
- A prompt keeps a carriage return before a line break when the input had two.
- A failed refresh of the allowlist does not move the refresh time, so the next unforced caller queries again.

## Model

| member | source | states |
|---|---|---|
| `ChatRefinement.BufferedConversationRefinesImmediate` | frontend/store/chatRuntime.ts:450-603 | over every interleaving of sends, retries, resumes, data, errors, returns, backfills and flush timers, stale chunks included, in which no chunk gives a new message the chunks that wait for an old one of its id, the conversation with its buffer applied equals the one of a reference machine that applies each accepted chunk on arrival and has no timer |
| `ChatRefinement.ReturnedConversationIsImmediate` | frontend/store/chatRuntime.ts:130-145 | once such a run has returned, messages, session and requests are exactly those of immediate application |
| `ChatRefinement.StepCommutes` | frontend/store/chatRuntime.ts:619-685 | each single event without such a revival commutes with applying the buffer; a timer matches no event at all |
| `Buffering.BufferingRefinesImmediate` | frontend/store/chatRuntime.ts:568-603 | for any schedule of arrivals and flushes without revivals the buffered turn stands for the turn in which the accepted chunks were delivered one by one |
| `Buffering.RefinedExactlyWithoutRevival` | frontend/store/chatRuntime.ts:480-566 | buffering one chunk refines applying it at once, for all reducers, if and only if it is a duplicate or revives nothing |
| `Buffering.StaleChunkIsRevived` | frontend/store/chatRuntime.ts:503-550 | revivals occur: a stale chunk waits for the placeholder that is gone, and a chunk that names the placeholder makes it anew before the flush |
| `Buffering.AcceptedOncePerEvent` | frontend/store/chatRuntime.ts:568-599 | a chunk with a strong event id is accepted at most once, weak ids always, in arrival order |
| `Buffering.ChunkLandsUnlessStale` | frontend/store/chatRuntime.ts:503-556 | whatever waits in the buffer, an accepted chunk extends its message alone if and only if its id is not an alias of a message that was rekeyed away; otherwise no message changes |
| `Buffering.ChunksStayTogether` | frontend/store/chatRuntime.ts:503-551 | whatever comes between them, chunks of one message id go to one message for the whole run |
| `Buffering.RekeyMakesAliasStale` | frontend/store/chatRuntime.ts:520-550 | a made-up id mapped to the placeholder is stale after an upstream id took the placeholder over, since the map keeps the old id |
| `Buffering.UpstreamIdGoesStale` | frontend/store/chatRuntime.ts:515-548 | upstream ids in the order A, B, A: B takes over the message of A, and the later chunks of A are stale |
| `ChatTheorems.NeverDeliveredTwice` | frontend/store/chatRuntime.ts:906-950 | SSE follows a WebSocket that made a data callback if and only if a WebSocket datum made onData throw; the JSON request is sent only if no chunk was ever queued, and after a data callback only in that case |
| `ChatTheorems.ThrowLeadsToSse` | frontend/services/chatTransportWs.ts:166-172 | such a datum does lead to SSE, whatever the WebSocket had delivered and whatever chunks were queued |
| `ChatTheorems.EveryRunEndsOnce` | frontend/store/chatRuntime.ts:115-178 | in every interleaving at most one ending takes effect, buffer and timer are empty when it has, and a returned run with its backfill leaves the session idle, recoverable or failed |
| `ChatTheorems.EndingIsFinal` | frontend/store/chatRuntime.ts:687-695 | no later event of the run adds an ending |
| `ChatTheorems.CompletionClosesEveryMessage` | frontend/store/chatRuntime.ts:329-362 | after a finished completion the message of the run and every one that received a chunk has status done, if it is still there |
| `ChatTheorems.StoredCursorIsGreatest` | frontend/store/chatRuntime.ts:605-617 | the stored cursor is the greatest positive sequence number of all accepted chunks and status events since the last send or retry, and absent exactly if there was none |
| `ChatTheorems.MaxCursorIsGreatest` | frontend/store/chatRuntime.ts:605-617 | folding the advance rule gives an upper bound that is itself one of the positive numbers |
| `ChatTheorems.CursorNeverDecreases` | frontend/store/chatRuntime.ts:605-617 | no event other than a send or a retry lowers the stored cursor |
| `ChatTheorems.ResumeSendsCursor` | frontend/store/chat.ts:416-471 | a resume sends exactly the stored cursor, the greatest number counted, and goes on counting from it |
| `ChatTheorems.SendRestartsCursor` | frontend/store/chat.ts:587-603 | a send or a retry sends no cursor and starts counting anew |
| `ChatTheorems.CallbacksAreTaken` | frontend/services/chatTransportCommon.ts:20-27 | every callback that the transport contract allows is an event that the run takes, and both agree on how far the attempt is |
| `ChatTheorems.RunCanEnd` | frontend/store/chatRuntime.ts:906-950 | from every moment of every conversation the run can come to its end: no state is stuck |
| `ChatOutcomes.ReportOutcome` | frontend/store/chatRuntime.ts:742-757 | an error report, over a transport or as an error event, interrupts the run if its trimmed code is timeout, stream_closed, stream_error or session_not_found, and fails it for good otherwise |
| `ChatOutcomes.WsErrorCanBeResumed` | frontend/services/chatTransportWs.ts:116-209 | in every interleaving of a WebSocket attempt: an error that it reports interrupts the run, which can be resumed once the attempt has returned if the session names its messages |
| `ChatOutcomes.InterruptionOutcome` | frontend/store/chatRuntime.ts:123-151 | the active message is interrupted with its content, blocks and every other message as flushed; the session is recoverable with the text shown, its queue, cursor and references kept |
| `ChatOutcomes.FailureOutcome` | frontend/store/chatRuntime.ts:687-727 | the active message is in error with all details; the session is failed, with nothing pending |
| `ChatOutcomes.ReturnOutcome` | frontend/store/chatRuntime.ts:169-178 | a stream that returns too early interrupts the run, with one text if a final status was seen and another if not |
| `ChatOutcomes.EventsAreNoted` | frontend/store/chatRuntime.ts:619-684 | a payload counts as an event if and only if it has a chunk, a status or session data, and a final status is remembered |
| `ChatOutcomes.NewRunsSawNothing` | frontend/store/chatRuntime.ts:90-91 | a new run has seen no event and no final status |
| `ChatOutcomes.CompletionOutcome` | frontend/store/chatRuntime.ts:759-792 | a persisted completion finalises and closes exactly the messages of the run and idles the session, unless an event was seen and none of them shows text or a block: then it waits for the history page |
| `ChatOutcomes.BackfillOutcome` | frontend/store/chatRuntime.ts:390-448 | the page is merged in unless it is empty, and the completion then closes the same messages |
| `ChatOutcomes.PageDecidesText` | frontend/store/chatRuntime.ts:364-412 | the last copy of a message on the page decides its text, whatever had been streamed |
| `ChatOutcomes.ErrorBlockOutcome` | frontend/store/chatRuntime.ts:329-362 | closing with an error text adds one block with the text behind the finalised ones and touches no other message |
| `ChatOutcomes.AuthOutcome` | frontend/store/chatRuntime.ts:923-941 | an authentication failure flushes, shows its message in the active one alone and leaves a failed session with nothing pending |
| `ChatOutcomes.JsonOutcome` | frontend/store/chatRuntime.ts:877-883 | a JSON answer is the content of the active message alone and leaves an idle session with nothing pending |
| `ChatOutcomes.JsonFailureOutcome` | frontend/store/chatRuntime.ts:861-875 | a failed JSON request fails the run whatever its code |
| `ChatOutcomes.ShownText` | frontend/store/chatRuntimeShared.ts:101-124 | missing parameters are shown first, the upstream text only in place of one of the two generic texts, else the text itself |
| `ChatOutcomes.NamesAreListed` | frontend/store/chatRuntimeShared.ts:84-91 | the names of missing parameters are joined with a comma and a space |
| `Text.NonBlankMeans` | frontend/store/chatRuntimeShared.ts:78-79 | an error code is there unless it is blank, and then trimmed |
| `ChatStarts.SendOutcome` | frontend/store/chat.ts:549-603 | a send adds the trimmed text and an empty streaming answer, keeps every other message, and starts with nothing pending, no error and no cursor |
| `ChatStarts.RetryOutcome` | frontend/store/chat.ts:650-690 | a retry empties the answer or adds an empty one, keeps every other message, and starts with nothing pending and no cursor |
| `ChatStarts.ResumeOutcome` | frontend/store/chat.ts:416-453 | a resume is possible if and only if the session is recoverable and names its messages, and changes only stream state and error |
| `ChatStarts.NextRunContinues` | frontend/store/chatRuntime.ts:309-315 | in every conversation a retry or a resume repeats the user message of the last request and goes on with the answer under the id that it has by then, however often it was rekeyed |
| `ChatStarts.FirstTransport` | frontend/store/chatRuntime.ts:906-922 | the WebSocket is tried first if healthy, else SSE, else JSON; only the transport of the session changes |
| `ChatStarts.NextTransport` | frontend/store/chatRuntime.ts:915-950 | after a refusal SSE follows the WebSocket if healthy; else the run is interrupted if it has seen an event, and else sends the JSON request |
| `ChatArrivals.ShownAtOnceExactly` | frontend/store/chatRuntime.ts:480-566 | an accepted chunk is shown at once if and only if it is not text and goes to an agent message without blocks for which nothing waits; otherwise it waits behind the others and the timer is set |
| `ChatArrivals.WaitingIsArmed` | frontend/store/chatRuntime.ts:563-565 | in every interleaving a timer is set while a chunk waits, and its firing empties the buffer |
| `ChatArrivals.InterruptComesLast` | frontend/store/chatRuntime.ts:641-649 | everything received before an interrupt is shown before its block |
| `ChatArrivals.InterruptIds` | frontend/lib/api/chatStreamBlocks.ts:420-440 | two interrupt blocks have one event id if and only if they report the same phase of the same request |
| `ChatArrivals.DatumWritesSession` | frontend/store/chatRuntime.ts:651-678 | after a datum the session has its status, transport and interrupt queue, the active message and the cursor of the run, and nothing else changed |
| `ChatAccounts.MessagesHoldTheirChunks` | frontend/store/chatRuntime.ts:450-603 | in every interleaving, across interruptions and resumes, the message of every landed chunk is in the history, and each message holds, with the waiting chunks applied, the blocks it started with and then exactly the chunks that landed in it, in order; after a finished completion the same, finalised where the run closed it and up to what a recovered page replaced |
| `ChatAccounts.MissingExactlyWhenStale` | frontend/store/chatRuntime.ts:123-151 | whenever an ending has taken effect or the run has returned, finished completions included: an accepted chunk is missing if and only if its alias was stale on arrival and its message was not made anew before the flush; every other one landed in a message that is in the history, and the messages hold exactly the landed chunks |
| `ChatAccounts.LostExactlyWhenStale` | frontend/store/chatRuntime.ts:504-507 | in runs without revivals the same with: missing if and only if its alias was stale on arrival |
| `ChatAccounts.CountedAreRecorded` | frontend/store/chatRuntime.ts:601-617 | a number counts for the cursor if and only if a status event or a recorded chunk carried it |
| `ChatAccounts.StepKeepsBook` | frontend/store/chatRuntime.ts:450-603 | each event keeps the account of every message and every chunk |
| `ChatLedger.EnqueueAccounts` | frontend/store/chatRuntime.ts:480-603 | so does accepting one chunk: new messages, takeovers, stale aliases and flushes |
| `ChatRuns.StepKeepsInv` | frontend/store/chatRuntime.ts:906-950 | every enabled event keeps the invariant that ties stage, endings, cursor, fallbacks and touched messages |
| `ChatRuns.RunKeepsInv` | frontend/store/chatRuntime.ts:906-950 | hence every run does |
| `QueueTheorems.QueueOkInEveryRun` | frontend/store/chatRuntime.ts:192-241 | in every interleaving of a conversation the pending request ids are distinct and the pending interrupt is the first |
| `QueueTheorems.StepKeepsQueue` | frontend/store/chatRuntime.ts:192-241 | every single event keeps that |
| `ChatRuntime.Runtime.constructor` | frontend/store/chatRuntime.ts:85-93 | a run starts with its placeholder active, empty sets, and the cursor of the session |
| `ChatRuntime.Runtime.FlushChunkBuffer` | frontend/store/chatRuntime.ts:453-478 | every buffered message gets its chunks folded in order by the reducers, and buffer and timer end empty |
| `ChatRuntime.Runtime.ResolveChunkMessageId` | frontend/store/chatRuntime.ts:503-551 | alias, exact match, placeholder, takeover with a flush before it, or a new message: the state and target of the specification |
| `ChatRuntime.Runtime.ShouldFlushImmediately` | frontend/store/chatRuntime.ts:481-501 | only a non-text chunk for an agent message without blocks and at most one waiting chunk |
| `ChatRuntime.Runtime.AppendStreamChunk` | frontend/store/chatRuntime.ts:480-566 | buffers behind the target and flushes at once or arms the timer |
| `ChatRuntime.Runtime.QueueIncomingChunk` | frontend/store/chatRuntime.ts:568-603 | duplicates change nothing; others are marked, counted and appended |
| `ChatRuntime.Runtime.AdvanceResumeCursor` | frontend/store/chatRuntime.ts:605-617 | only a greater positive number moves the cursor, in the run and in the session |
| `ChatRuntime.Runtime.ApplyIncomingStreamData` | frontend/store/chatRuntime.ts:619-685 | chunk, interrupt block, session data and completion in that order; the answer is true exactly for a persisted completion |
| `ChatRuntime.Runtime.UpdateSessionMeta` | frontend/store/chatRuntime.ts:192-306 | the patch of the differing fields, built step by step, gives the session of the specification |
| `ChatRuntime.MetaPatchOf` | frontend/store/chatRuntime.ts:196-247 | status, interrupt and transport enter the patch only where they differ, with the effect of the specification |
| `ChatRuntime.WithAsked` | frontend/store/chatRuntime.ts:204-214 | the search for the request id and the replacement or appending compute the queue of the specification |
| `ChatRuntime.WithoutRequest` | frontend/store/chatRuntime.ts:233-236 | the filter keeps the other requests in order |
| `ChatRuntime.ArePendingInterruptQueuesEqual` | frontend/store/chatRuntimeShared.ts:41-54 | true exactly if the queues agree in length, request ids, types and details |
| `ChatRuntime.GetPendingInterruptQueue` | frontend/lib/chat-utils.ts:105-122 | the queue, or the single pending interrupt when there is none |
| `ChatRuntime.ApplyStreamBlockUpdates` | frontend/store/chatRuntime.ts:465-468 | the loop of the reducer over the chunks is the fold of the specification |
| `ChatRuntime.HasRenderableAgentContent` | frontend/store/chatRuntime.ts:380-388 | an agent message with text or with blocks |
| `ChatRuntime.Runtime.PatchSession` | frontend/store/chatRuntime.ts:95-113 | the given fields are overwritten, and nothing happens without a session or a change |
| `ChatRuntime.Runtime.OnBufferTimeout` | frontend/store/chatRuntime.ts:563-565 | the timer does what a flush does |
| `ChatRuntime.Runtime.MarkRecoverableInterruption` | frontend/store/chatRuntime.ts:123-167 | ignored after an ending; otherwise flush, interrupted message, recoverable session with the message built from text and details |
| `ChatRuntime.Runtime.FinalizeStreamingFailure` | frontend/store/chatRuntime.ts:687-740 | ignored after an ending; otherwise flush, failed message with all error details, failed session with an empty queue |
| `ChatRuntime.Runtime.AppendError` | frontend/store/chatRuntime.ts:742-757 | the four interruption codes are recoverable, all others final |
| `ChatRuntime.Runtime.ResolveExistingTargetMessageIds` | frontend/store/chatRuntime.ts:317-327 | the active ids that still exist, or the placeholder when none does |
| `ChatRuntime.Runtime.CloseStreamingMessages` | frontend/store/chatRuntime.ts:329-362 | all targets are finalised and done, with a block for the error text if there is one; the active set is emptied |
| `ChatRuntime.Runtime.CompleteStreamingMessage` | frontend/store/chatRuntime.ts:759-792 | ignored after an ending; otherwise closes at once or defers to the backfill when nothing is renderable |
| `ChatRuntime.Runtime.BackfillHistory` | frontend/store/chatRuntime.ts:390-448 | the recovered page is merged into the history and the deferred completion finishes, also when the request failed |
| `ChatRuntime.Runtime.OnWebSocketData` | frontend/store/chatRuntime.ts:801-831 | error events end the run, the end marker answers whether it has ended, payloads are applied |
| `ChatRuntime.Runtime.OnStreamReturned` | frontend/store/chatRuntime.ts:908-912 | a transport that returned without an ending makes the session recoverable, with the message for the status seen |
| `ChatRuntime.Runtime.OnAuthFailure` | frontend/store/chatRuntime.ts:923-941 | the buffer is flushed and the session fails with the message shown in the placeholder |
| `ChatRuntime.Runtime.OnTransportsExhausted` | frontend/store/chatRuntime.ts:943-950 | true exactly when the JSON request is to be sent; otherwise the session is recoverable |
| `ChatRuntime.Runtime.OnJsonSuccess` | frontend/store/chatRuntime.ts:877-883 | the whole answer is the content of the placeholder and the session is idle |
| `ChatStore.Store.SendMessage` | frontend/store/chat.ts:549-625 | refused while streaming, ignored when blank; otherwise two messages, the answer last in the list, a streaming session without cursor, and the run of the model; other conversations untouched |
| `ChatStore.Store.ResumeMessage` | frontend/store/chat.ts:416-471 | launches exactly when the session is recoverable with both ids and a known user message, with the stored cursor; missing ids fail the session |
| `ChatStore.Store.RetryMessage` | frontend/store/chat.ts:626-712 | launches exactly when the model allows a retry; an agent message of the stored id is emptied, otherwise one is added, which counts unless a later message has that id; no cursor; otherwise nothing changes |
| `ChatStore.Store.ClearPendingInterrupt` | frontend/store/chat.ts:328-356 | the queue becomes that of the clear writer |
| `ChatStore.Store.ReplaceRecoveredInterrupts` | frontend/store/chat.ts:357-404 | the queue becomes that of the recovery writer |
| `WsTransport.EveryInterleaving` | frontend/services/chatTransportWs.ts:76-215 | before settling only non-stopping data was delivered; afterwards the callbacks have one of five endings, no timer is live and the socket is unregistered |
| `WsTransport.PromiseContract` | frontend/services/chatTransportWs.ts:98-209 | settles at most once; at most one stream error, only after data and uncancelled; a rejected attempt delivered data if and only if onData threw |
| `WsTransport.ThrowAfterDataRejects` | frontend/services/chatTransportWs.ts:160-172 | a datum that makes onData throw, such as the text null, rejects the promise after data was delivered |
| `WsTransport.SettledIsFinal` | frontend/services/chatTransportWs.ts:116-214 | after settling no event makes a callback or starts a timer |
| `WsTransport.AttemptConforms` | frontend/services/chatTransportWs.ts:76-215 | every interleaving keeps the callback contract on which the runs of the chat rely |
| `WsTransport.CallbacksAreReplies` | frontend/services/chatTransportWs.ts:76-215 | in every interleaving the callbacks are those of a machine that remembers only the callbacks so far and whether it was cancelled: what each event leads to, with its code |
| `WsTransport.ErrorNamesItsCause` | frontend/services/chatTransportWs.ts:116-209 | every reported error names an event that happened, and none is reported after a cancellation |
| `WsTransport.CancelIsQuiet` | frontend/services/chatTransportWs.ts:121-124 | once cancelled an attempt reports no error, and it resolves however its socket breaks |
| `WsTransport.AttemptAnswers` | frontend/services/chatTransportWs.ts:216-223 | true exactly if the promise resolved; a rejection adds one failure, and data clears the count |
| `WsTransport.ClosesOnce` | frontend/services/chatTransportWs.ts:98-114 | the attempt closes its socket when it is cancelled or settles, but not a socket that closed by itself |
| `WsTransport.UnsettledHasLiveTimer` | frontend/services/chatTransportWs.ts:116-136 | while unsettled a timer is live and its firing settles: the attempt cannot hang |
| `WsTransport.LateOpenWouldLeakTimer` | frontend/services/chatTransportWs.ts:138-145 | without the assumption that a closed socket never opens, an idle timer would outlive the promise |
| `WsTransport.WsAttempt.FinalizeAttempt` | frontend/services/chatTransportWs.ts:98-114 | the first call settles, closes the socket, clears both timers and unregisters; later calls do nothing |
| `WsTransport.WsAttempt.OnIdleTimeout` | frontend/services/chatTransportWs.ts:116-136 | resolves when cancelled, reports a timeout after data, rejects before data |
| `WsTransport.WsAttempt.OnTextResolved` | frontend/services/chatTransportWs.ts:151-173 | a late text of a settled attempt is dropped; JSON is delivered, and settles by its answer or by its exception |
| `WsTransport.WsAttempt.OnOpen` | frontend/services/chatTransportWs.ts:138-145 | the connect timer is cleared and the idle timer armed |
| `WsTransport.WsAttempt.OnMessage` | frontend/services/chatTransportWs.ts:147-151 | an unsettled attempt rearms the idle timer, records a success and waits for the text |
| `WsTransport.WsAttempt.CancelSocket` | frontend/services/chatConnectionService.ts:55-64 | the socket is marked, closed and unregistered |
| `WsTransport.WsAttempt.OnError` | frontend/services/chatTransportWs.ts:175-189 | as the idle timeout, with its own code |
| `WsTransport.WsAttempt.OnClose` | frontend/services/chatTransportWs.ts:191-209 | as the idle timeout, with its own code, and no second close |
| `WsTransport.WsAttempt.OnConnectTimeout` | frontend/services/chatTransportWs.ts:211-214 | rejects an unsettled attempt |
| `HistoryCache.NormalizeKeepsLatest` | frontend/lib/chatHistoryCache.ts:14-25 | the kept copy of an id is the one with the greatest time, the later one among equals |
| `HistoryCache.LatestIsGreatest` | frontend/lib/chatHistoryCache.ts:14-25 | that copy stands at an input position that no matching copy beats by time, then position |
| `HistoryCache.NormalizeIsUnique` | frontend/lib/chatHistoryCache.ts:18-24 | ids are unique, trimmed and not blank after one pass |
| `HistoryCache.OnePassMayBeUnsorted` | frontend/lib/chatHistoryCache.ts:14-25 | one pass may leave the result unsorted: an id keeps its first place with its last value |
| `HistoryCache.TwoPassesReachNormalForm` | frontend/lib/chatHistoryCache.ts:14-25 | two passes give unique ids sorted by time |
| `HistoryCache.FixedExactlyOnNormalForm` | frontend/lib/chatHistoryCache.ts:14-25 | normalising leaves a list as it is if and only if it is in normal form |
| `HistoryCache.ThreePassesEqualTwo` | frontend/lib/chatHistoryCache.ts:14-25 | a third pass changes nothing |
| `HistoryCache.EqualTimesKeepOrder` | frontend/lib/chatHistoryCache.ts:15-17 | the sort is stable: messages of one time with different ids keep their order |
| `HistoryCache.PagesAreRead` | frontend/lib/chatHistoryCache.ts:32-33 | over any number of overlapping pages: a message is read if and only if some page holds a copy of it, and the copy read is beaten by none in time, page and place |
| `HistoryCache.WriteKeepsCursor` | frontend/lib/chatHistoryCache.ts:35-60 | a write leaves one page, with the cursor given or else that of the last page |
| `HistoryCache.ReadAfterWrite` | frontend/lib/chatHistoryCache.ts:32-70 | every read after a write is sorted and duplicate-free |
| `HistoryCache.WriteBackIsNeutral` | frontend/lib/chatHistoryCache.ts:35-70 | writing back what was read does not change what is read |
| `HistoryCache.UpdateKeepsPlaces` | frontend/lib/chatHistoryCache.ts:95-132 | an update that keeps the time keeps every position and every other message |
| `HistoryCache.RekeyKeepsPlaces` | frontend/lib/chatHistoryCache.ts:134-151 | a rekey to an unused id keeps every position |
| `HistoryCache.AddAppends` | frontend/lib/chatHistoryCache.ts:87-93 | a new message not older than the others goes to the end |
| `HistoryCache.UpdateView` | frontend/lib/chatHistoryCache.ts:120-132 | an update changes one entry of the view by id |
| `HistoryCache.RekeyView` | frontend/lib/chatHistoryCache.ts:134-151 | a rekey to an unused id moves one entry of the view |
| `HistoryCache.AddView` | frontend/lib/chatHistoryCache.ts:87-93 | an added message is the one its id has in the view, unless a later copy is there |
| `HistoryCache.MergeView` | frontend/lib/chatHistoryCache.ts:79-85 | after merging a list in, the copy of each id that no other of those read and added beats |
| `HistoryCache.RekeyGuards` | frontend/lib/chatHistoryCache.ts:139-146 | blank, equal or unknown ids change nothing |
| `HistoryCache.RekeyOntoUsed` | frontend/lib/chatHistoryCache.ts:147-150 | a rekey onto a used id leaves the later of the two messages, and every other message |
| `HistoryCache.RemoveView` | frontend/lib/chatHistoryCache.ts:109-118 | a removal takes one entry out of the view and no other |
| `HistoryCache.RemoveKeepsPlaces` | frontend/lib/chatHistoryCache.ts:109-118 | the others keep their order, and the last page its cursor |
| `Messages.PatchDecides` | frontend/lib/chatHistoryCache.ts:127-130 | a patch decides the fields it gives; the id and every other field stay |
| `HistoryCache.HistoryStore.NormalizeMessages` | frontend/lib/chatHistoryCache.ts:14-25 | the loop over the sorted copies computes the specification |
| `HistoryCache.HistoryStore.WriteMessages` | frontend/lib/chatHistoryCache.ts:35-60 | one page with the normalised list, the cursor kept; other conversations untouched |
| `HistoryCache.HistoryStore.UpdateConversationMessageWithUpdater` | frontend/lib/chatHistoryCache.ts:120-132 | only messages of the trimmed id change, through a write |
| `HistoryCache.HistoryStore.RekeyConversationMessage` | frontend/lib/chatHistoryCache.ts:134-151 | blank, equal or unknown ids change nothing |
| `HistoryCache.HistoryStore.MergeConversationMessages` | frontend/lib/chatHistoryCache.ts:79-85 | the messages go behind those that are read, through a write |
| `HistoryCache.HistoryStore.RemoveConversationMessage` | frontend/lib/chatHistoryCache.ts:109-118 | only messages of the trimmed id disappear, through a write |
| `HistoryCache.HistoryStore.RemoveConversationMessages` | frontend/lib/chatHistoryCache.ts:153-158 | the conversation has no entry, the others are untouched |
| `HistoryMerge.MergedView` | frontend/store/chatRuntime.ts:364-378 | merging a page and writing it back has, by id, the effect of the canonical merge |
| `MessageMerge.MergeChatMessagesByCanonicalId` | frontend/lib/messageMerge.ts:11-40 | the two loops over the map compute the specification |
| `MessageMerge.MergedIds` | frontend/lib/messageMerge.ts:11-40 | the ids are those of the current messages and the trimmed non-blank incoming ones, each once, sorted by time |
| `MessageMerge.MergedFinds` | frontend/lib/messageMerge.ts:18-35 | each id holds the current copy with the incoming ones laid over it in order |
| `MessageMerge.StreamingMessageIsKept` | frontend/lib/messageMerge.ts:27-29 | a message streaming locally is untouched while the stream is active |
| `MessageMerge.LastIncomingWins` | frontend/lib/messageMerge.ts:27-34 | one more incoming copy decides field by field, and optional fields that it lacks stay, unless the message streams while the stream is active |
| `MessageMerge.OtherIdsAreKept` | frontend/lib/messageMerge.ts:22-25 | it touches no message of another id, and a blank id touches none |
| `MessageMerge.MergeTwiceIsMergeOnce` | frontend/lib/messageMerge.ts:11-40 | merging the same list again is the identity, with duplicates and partial overlays |
| `Sessions.QueueOkForEveryHistory` | frontend/lib/chat-utils.ts:137-142 | whatever writers run in whatever order, request ids stay distinct and the head stays pending |
| `Sessions.WriterKeepsQueueOk` | frontend/store/chatRuntime.ts:203-241 | each writer keeps that |
| `Sessions.AskedKeepsOrder` | frontend/store/chatRuntime.ts:203-217 | asking replaces in place or appends what was asked; every other request stays as and where it is |
| `Sessions.ResolveAndClearKeepOrder` | frontend/store/chat.ts:338-342 | resolving or clearing a request removes it alone and keeps the order of the rest; the resolution is recorded; clearing without a request empties the queue |
| `Sessions.RecoveryKeepsOthers` | frontend/store/chat.ts:363-388 | recovery without replace-all keeps every other interrupt in order |
| `Sessions.RecoveryFillsTheQueue` | frontend/store/chat.ts:363-388 | after a recovery the queue is what survived, in order, and then the first recovered interrupt of each request id among these not yet there, in order; every recovered request is in it, and a recovery that replaces all keeps nothing else |
| `Sessions.RecoveryTwiceIsOnce` | frontend/store/chat.ts:363-388 | recovering the same interrupts of the target session again changes nothing |
| `CancelDebounce.PruningIsInvisible` | frontend/store/chat.ts:50-75 | with a clock that never goes back the pruned map decides as the full history, in every run |
| `CancelDebounce.ClockGoingBackIsSeen` | frontend/store/chat.ts:50-75 | with a clock that goes back it does not |
| `CancelDebounce.CancelsAreSpaced` | frontend/store/chat.ts:58-92 | two cancels of one conversation are at least 500 ms apart and do not overlap |
| `CancelDebounce.CancelIssuedExactly` | frontend/store/chat.ts:58-76 | in every run with a clock that never goes back a request issues a cancel if and only if its id is not blank, every cancel issued for the conversation has finished and the last was at least 500 ms ago |
| `CancelDebounce.OnlyYoungEntriesStay` | frontend/store/chat.ts:50-56 | after a lookup no entry is older than two seconds and no younger one is lost |
| `CancelDebounce.CancelRequests.PruneRecentCancelRequestAt` | frontend/store/chat.ts:50-56 | exactly the entries older than the time to live are deleted |
| `CancelDebounce.CancelRequests.RequestSessionCancel` | frontend/store/chat.ts:58-92 | blank, pending or too recent requests issue nothing |
| `CancelDebounce.CancelRequests.OnCancelSettled` | frontend/store/chat.ts:88-90 | the conversation is no longer pending |
| `SessionPlans.BuildSessionCleanupPlan` | frontend/lib/chat-utils.ts:335-376 | the loops that delete from the copy and push ids compute the specification |
| `SessionPlanFacts.PlanParts` | frontend/lib/chat-utils.ts:345-362 | kept, expired and trimmed part the sessions; expired means older than the deadline; kept entries keep place and content |
| `SessionPlanFacts.PlanMeetsLimit` | frontend/lib/chat-utils.ts:356-362 | a positive limit bounds the kept sessions, and only the excess is trimmed |
| `SessionPlanFacts.PlanKeepsTheRecent` | frontend/lib/chat-utils.ts:355-362 | each kept session is at least as recent as each dropped one |
| `SessionPlanFacts.OrphanedExactly` | frontend/lib/chat-utils.ts:364-366 | the orphaned histories are those without a kept session |
| `SessionPlanFacts.PlanReportsChange` | frontend/lib/chat-utils.ts:364-370 | the plan drops exactly the histories without a kept session, and reports a change if and only if it drops a session or a history |
| `SessionPlanFacts.ReplanChangesNothing` | frontend/lib/chat-utils.ts:335-376 | a plan for what a plan left behind reports no change |
| `SessionPlanFacts.PersistTwice` | frontend/lib/chat-utils.ts:313-333 | persisting what was persisted changes nothing |
| `SessionPlanFacts.PersistKeepsTheRecent` | frontend/lib/chat-utils.ts:317-324 | as many sessions as the limit admits, and none left out is more recent than one written |
| `SessionPlanFacts.PersistedExactly` | frontend/lib/chat-utils.ts:313-333 | a limit that is not positive admits none; whatever is written is a session in its storage form |
| `SessionPlanFacts.ForStorageTwice` | frontend/lib/chat-utils.ts:256-311 | normalising a session for storage is idempotent |
| `SessionPlanFacts.StorageKeepsWhatIsRead` | frontend/lib/chat-utils.ts:256-290 | storage keeps the model section, the stream identity and the invoke bindings as their readers see them |
| `SessionPlanFacts.OnlyThreeSectionsStored` | frontend/lib/chat-utils.ts:259-289 | nothing else of the metadata is stored, and no empty record |
| `SessionPlanFacts.StoredSessionIsAtRest` | frontend/lib/chat-utils.ts:291-310 | a stored session keeps its agent, times and directory, and is one from which a conversation can begin: idle, nothing pending, no cursor |
| `Metadata.WithSharedStreamIdentity` | frontend/lib/sharedMetadata.ts:65-107 | copying and deleting keys step by step gives the put of the stream section |
| `Metadata.WithoutSharedSessionBinding` | frontend/lib/sharedMetadata.ts:109-135 | the session section, the two old keys and, unless kept, the stream section are gone |
| `Metadata.WithSharedSessionBinding` | frontend/lib/sharedMetadata.ts:137-177 | the put of the session section, nothing of an earlier binding remaining |
| `Metadata.WithSharedModelSelection` | frontend/lib/chat-utils.ts:164-187 | the put of the model section, or its removal |
| `Metadata.WithInvokeMetadataBindings` | frontend/lib/invokeMetadata.ts:37-80 | the put of the invoke section with the reduced bindings |
| `MetadataLenses.OtherSectionsKept` | frontend/lib/sharedMetadata.ts:65-177 | a writer changes its own section and no other |
| `MetadataLenses.OtherKeysKept` | frontend/lib/sharedMetadata.ts:65-177 | a writer changes no other key of the metadata but the two of the older format |
| `MetadataLenses.OtherFieldsKept` | frontend/lib/sharedMetadata.ts:65-177 | within its section a writer keeps the fields that are not its own; the session section is written anew |
| `MetadataLenses.NoEmptyRecordLeft` | frontend/lib/sharedMetadata.ts:92-106 | no section and no record of sections is left empty |
| `MetadataLenses.UnboundSections` | frontend/lib/sharedMetadata.ts:109-135 | removing the binding removes one section, or two, and keeps the others |
| `MetadataLenses.WritersCommute` | frontend/lib/sharedMetadata.ts:65-177 | the four writers commute pairwise |
| `MetadataLenses.SecondWriteOverrides` | frontend/lib/sharedMetadata.ts:65-177 | of two writes of one section the second alone counts |
| `MetadataLenses.SectionAfterAll` | frontend/lib/sharedMetadata.ts:65-177 | after any list of writes each section is what its last write made of the first state |
| `MetadataLenses.StreamReadBackExactly` | frontend/lib/sharedMetadata.ts:20-34 | the stream identity is read back trimmed, for every identity, if and only if no nested metadata record hides it |
| `MetadataLenses.StreamReadBack` | frontend/lib/sharedMetadata.ts:55-107 | with such a record the write is not seen at all |
| `MetadataLenses.SessionReadBackExactly` | frontend/lib/sharedMetadata.ts:20-34 | the same for the session binding |
| `MetadataLenses.SessionReadBack` | frontend/lib/sharedMetadata.ts:137-187 | with such a record the write is not seen at all |
| `MetadataLenses.ModelReadBack` | frontend/lib/chat-utils.ts:149-187 | the trimmed selection, or none if a part is blank, also beside a nested record |
| `MetadataLenses.BindingsReadBack` | frontend/lib/invokeMetadata.ts:14-80 | the reduced bindings are read back |
| `MetadataLenses.LastEntryWins` | frontend/lib/invokeMetadata.ts:49-60 | the value of a key is that of its last entry with a value |
| `MetadataLenses.BoundKeyHasEntry` | frontend/lib/invokeMetadata.ts:49-60 | a bound key comes from such an entry |
| `Composer.OneInputPerMessage` | frontend/lib/sessionCommand.ts:13-37 | each text is read from exactly one input, its escaped form |
| `Composer.ParsedIsWellFormed` | frontend/lib/sessionCommand.ts:39-54 | a parsed command has one word after a single slash, trimmed arguments on one line and a trimmed prompt |
| `Composer.EveryCommandHasInput` | frontend/lib/sessionCommand.ts:39-54 | every such command is the reading of some input |
| `Composer.NothingButSpaceIsLost` | frontend/lib/sessionCommand.ts:39-54 | command, arguments and prompt hold every character of the input that is not white space, in order |
| `Composer.PrintRoundTrip` | frontend/lib/sessionCommand.ts:39-54 | printing and parsing gives a command back if and only if its prompt has no two-character line break |
| `Composer.TypedCommandRoundTrip` | frontend/lib/sessionCommand.ts:26-55 | which holds of every input without carriage returns |
| `Composer.BreakCanRemain` | frontend/lib/sessionCommand.ts:40-42 | a parsed command for which it fails |
| `ScheduleDatabase.TaskProjectionAfterTerminal` | backend/scripts/backfill_schedule_execution_running_truth.py:205-256 | the reassigned locals give the projection of the specification; None exactly for the status that raises |
| `ScheduleDatabase.Connection.ApplyTaskProjection` | backend/scripts/backfill_schedule_execution_running_truth.py:259-285 | only the rows of the id change: projected columns written, running columns cleared |
| `ScheduleDatabase.Connection.FailExistingExecution` | backend/scripts/backfill_schedule_execution_running_truth.py:288-317 | the execution fails, an existing start and conversation are kept |
| `ScheduleDatabase.Connection.InsertFailedExecution` | backend/scripts/backfill_schedule_execution_running_truth.py:320-375 | a row with the same key is left alone |
| `ScheduleDatabase.Connection.ProcessOneTask` | backend/scripts/backfill_schedule_execution_running_truth.py:378-451 | both tables become those of one step, or stay when dry; the totals are those of its verdict |
| `ScheduleDatabase.Connection.Drain` | backend/scripts/backfill_schedule_execution_running_truth.py:495-535 | the loop computes the run of the specification with a threshold of at least one |
| `Backfill.LegacyRowsFacts` | backend/scripts/backfill_schedule_execution_running_truth.py:134-172 | the scan selects distinct legacy rows, all of them or as many as the limit allows |
| `Backfill.LegacyRowsOrdered` | backend/scripts/backfill_schedule_execution_running_truth.py:164-166 | oldest update first, ties by id |
| `BackfillFacts.GuardIsTheSelection` | backend/alembic/versions/20260312_1400_4b6c6e0d8a2f_shift_schedule_running_truth_to_execution.py:24-44 | a row is selected if and only if the migration guard counts it |
| `BackfillFacts.IntervalBounds` | backend/scripts/backfill_schedule_execution_running_truth.py:102-108 | an interval is between 5 and 1440 minutes, whatever the time point holds |
| `BackfillFacts.IntervalIsNearest` | backend/scripts/backfill_schedule_execution_running_truth.py:102-108 | it is the admissible number of minutes nearest to the configured one, taken from minutes before interval_minutes |
| `BackfillFacts.IntervalDefault` | backend/scripts/backfill_schedule_execution_running_truth.py:102-108 | five minutes when no whole number is configured |
| `BackfillFacts.ProjectionIsDrained` | backend/scripts/backfill_schedule_execution_running_truth.py:205-285 | every written row satisfies both check constraints and the rules for deletion, enabling, failures and next run |
| `BackfillFacts.TaskDrained` | backend/scripts/backfill_schedule_execution_running_truth.py:515-527 | a row is projected from the execution that stood before the run, whatever was processed before it |
| `BackfillFacts.ExecutionDrained` | backend/scripts/backfill_schedule_execution_running_truth.py:515-527 | its execution likewise |
| `BackfillFacts.StepSettles` | backend/scripts/backfill_schedule_execution_running_truth.py:410-440 | a drained run has one terminal execution with the outcome of the task; an ended one is not changed |
| `BackfillTheorems.GuardDischarged` | backend/alembic/versions/20260312_1400_4b6c6e0d8a2f_shift_schedule_running_truth_to_execution.py:46-52 | an applied run lowers the count of the guard by the rows it scans: without a limit to zero |
| `BackfillTheorems.RerunScansNothing` | backend/scripts/backfill_schedule_execution_running_truth.py:495-535 | a second run after an unlimited one scans and writes nothing |
| `BackfillTheorems.LimitedRunsTerminate` | backend/scripts/backfill_schedule_execution_running_truth.py:134-172 | repeated limited runs reach zero exactly when limit times rounds covers the legacy rows |
| `BackfillTheorems.EveryRowOutcome` | backend/alembic/versions/20260303_1200_r202603031200_schedule_delete_request_and_running_consistency.py:51-64 | over whole runs: no task becomes enabled, no delete request survives on a written row, deleted tasks are disabled without next run, enabled failed tasks are below the threshold, sequential ones run 300 to 86400 s after the finish, and both check constraints hold |
| `BackfillTheorems.ScannedRowsAreDrained` | backend/scripts/backfill_schedule_execution_running_truth.py:408-450 | every scanned row ends with the status, finish time and conversation of the execution that the table held for its run, or failed at its tick; the next sequential run and a new deletion are measured from that time |
| `BackfillTheorems.OtherRowsAreKept` | backend/scripts/backfill_schedule_execution_running_truth.py:280-282 | every other row stays |
| `BackfillTheorems.ScannedRunsAreSettled` | backend/scripts/backfill_schedule_execution_running_truth.py:378-440 | every scanned run ends with one terminal execution: an ended one untouched, one that had not ended failed at the tick with what it had kept, a missing one inserted from the row |
| `BackfillTheorems.OtherRunsAreKept` | backend/scripts/backfill_schedule_execution_running_truth.py:288-375 | ended executions and those of other runs are untouched and none is lost |
| `BackfillTheorems.DryRunPredicts` | backend/scripts/backfill_schedule_execution_running_truth.py:410-451 | a dry run writes nothing, and its totals are those of the applied run: as many reused and failed as the scanned rows have ended and unended executions |
| `BackfillTheorems.TotalsBalance` | backend/scripts/backfill_schedule_execution_running_truth.py:57-76 | scanned equals updated equals inserted plus failed plus reused |
| `BackfillTheorems.InsertionsCounted` | backend/scripts/backfill_schedule_execution_running_truth.py:434-440 | the reported insertions are the growth of the execution table |
| `Allowlist.ReturnedList` | backend/app/runtime/a2a_proxy_service.py:40-66 | after the first query has ended every returned list is duplicate-free and equals the de-duplicated settings and hosts of the most recent success |
| `Allowlist.StoredList` | backend/app/runtime/a2a_proxy_service.py:77-97 | the stored list, its time and the flag are functions of what the queries gave, in every interleaving |
| `Allowlist.DedupeMembers` | backend/app/runtime/a2a_proxy_service.py:30-32 | the same hosts, each once |
| `Allowlist.DedupeKeepsOrder` | backend/app/runtime/a2a_proxy_service.py:30-32 | in the order of first occurrence |
| `Allowlist.RunIsExclusive` | backend/app/runtime/a2a_proxy_service.py:60-63 | at most one task is at the database, the holder of the lock |
| `Allowlist.FailureChangesNothing` | backend/app/runtime/a2a_proxy_service.py:87-93 | a failed refresh after initialisation changes neither list nor time |
| `Allowlist.AnsweredWithoutQueryExactly` | backend/app/runtime/a2a_proxy_service.py:56-66 | in every run a task is answered without a query if and only if it was not forced and a list was stored at most 60 seconds ago |
| `Allowlist.ForcedTasksQuery` | backend/app/runtime/a2a_proxy_service.py:56-75 | a forced task receives a list only when its own query ends, and then the new one |
| `Allowlist.QueriesAreDue` | backend/app/runtime/a2a_proxy_service.py:60-63 | while a task that was not forced is at the database the stored list is missing or older than the time to live |
| `Allowlist.UnforcedRefreshesAreApart` | backend/app/runtime/a2a_proxy_service.py:35-37 | an unforced refresh ends more than the time to live after the stored refresh |
| `Allowlist.A2AProxyService.GetEffectiveAllowedHosts` | backend/app/runtime/a2a_proxy_service.py:50-66 | answers at once or waits for the lock |
| `Allowlist.A2AProxyService.GetEffectiveAllowedHostsSync` | backend/app/runtime/a2a_proxy_service.py:40-47 | the stored list, or the settings before the first query |
| `Allowlist.A2AProxyService.OnLockGranted` | backend/app/runtime/a2a_proxy_service.py:60-63 | checks again inside the lock, with a new clock reading |
| `Allowlist.A2AProxyService.RefreshCacheLocked` | backend/app/runtime/a2a_proxy_service.py:77-97 | success replaces list and time; failure does so only on first use, with the settings |
| `Allowlist.A2AProxyService.OnQueryFinished` | backend/app/runtime/a2a_proxy_service.py:68-75 | the query takes effect, the lock is free and the new list is returned |
| `Allowlist.A2AProxyService.OnCancelled` | backend/app/runtime/a2a_proxy_service.py:60-63 | a cancelled task leaves list and time alone and releases the lock it held |
| `ErrorSanitizer.SanitizedIsClean` | backend/app/integrations/a2a_error_contract.py:334-353 | safe keys only, no container below the limit, no empty container, nothing absent inside one |
| `ErrorSanitizer.CleanMeansTidyAndShallow` | backend/app/integrations/a2a_error_contract.py:334-353 | which means: safe keys only, nothing absent or empty inside, and at most four levels of containers |
| `ErrorSanitizer.FixedExactlyWhenClean` | backend/app/integrations/a2a_error_contract.py:334-353 | a value is unchanged if and only if it is clean; sanitising twice is sanitising once |
| `ErrorSanitizer.LeavesAreKept` | backend/app/integrations/a2a_error_contract.py:334-353 | every scalar that safe keys lead to within the limit is kept, in order, on its path |
| `ErrorSanitizer.NothingLeft` | backend/app/integrations/a2a_error_contract.py:334-353 | nothing is let through exactly when there is no such scalar |
| `ErrorTokens.NormalizeErrorToken` | backend/app/integrations/a2a_error_contract.py:115-129 | the loop with the pending separator joins the alphanumeric runs |
| `ErrorTokens.TokenShape` | backend/app/integrations/a2a_error_contract.py:115-129 | a token is a list of non-empty alphanumeric runs with single underscores between them |
| `ErrorTokens.NoWords` | backend/app/integrations/a2a_error_contract.py:119-129 | there are no runs exactly when there is no alphanumeric character |
| `ErrorTokens.JoinedGrows` | backend/app/integrations/a2a_error_contract.py:119-129 | one more character extends the last run, begins a new one behind a single underscore, or adds nothing |
| `ErrorTokens.TokenIsFixed` | backend/app/integrations/a2a_error_contract.py:115-129 | a token that lower-casing leaves alone is its own token |
| `ErrorTokens.TokenCharacters` | backend/app/integrations/a2a_error_contract.py:119-129 | for every input and class of characters with the underscore: the token is of that class if and only if the alphanumeric characters of the lowered text are |
| `ErrorTokens.TokenIsAsciiExactly` | backend/app/integrations/a2a_error_contract.py:119-129 | a token is ASCII if and only if those characters are |
| `ErrorTokens.AsciiTokens` | backend/app/integrations/a2a_error_contract.py:115-129 | on ASCII a token has lower-case letters, digits and underscores only, and normalising is idempotent |

## Left out

- ChatRuntime.Runtime.UpdateSessionMeta: provider and external session id, task id, input and output modes and the stream identity of a session are not modelled; they affect no other field. Their metadata writer is in `Metadata`.
- ChatRuntime.Runtime.MarkRecoverableInterruption: the throttled warnings and the query invalidation are not modelled.
- ChatRuntime.Runtime.BackfillHistory: the fetched page is an input, an empty one standing for a failed request; the check that only decides about a warning is not modelled.
- ChatStore.Store.SendMessage: the invoke payload, `lastActiveAt` and the run itself beyond its first state are not part of the method; the run is a sequence of calls of the runtime's methods.
- ChatStore.Store.ResumeMessage: the cancellation of a connection that is still active is not modelled, as one conversation has one run.
- ChatRuns.StepKeepsInv: `cancelMessage`, `resetSession` and `clearAll` during a run, and overlapping runs on one conversation, are not events of the model.
- WsTransport.PromiseContract: fetching the ticket and building the socket happen before the promise and may fail without a callback.
- ChatTheorems.NeverDeliveredTwice: a datum that makes `onData` throw is taken to do so before it had any effect, as the text `null` does; an exception of a block reducer half way through a datum is not modelled.
- ChatAccounts.MessagesHoldTheirChunks: for the ids that a recovered page replaced it says nothing; there the merge decides (`MessageMerge`).
- WsTransport.UnsettledHasLiveTimer: says that a live timer settles the attempt when it fires, not when; durations of timers are not modelled.
- HistoryCache.ReadAfterWrite: time stamps are integers in place of ISO strings compared by locale; on time stamps of one format the orders agree.
- Sessions.AskedKeepsOrder: the details of an interrupt are compared as their JSON text, and the filter on the shape of stored interrupts is the type here.
- CancelDebounce.CancelsAreSpaced: `clearAll`, which empties both maps, is not an event of the model.
- SessionPlans.BuildSessionCleanupPlan: the record is a list of entries in enumeration order; JavaScript's numeric order of integer-like keys is not modelled.
- SessionPlanFacts.PersistTwice: a session whose `lastActiveAt` is not a string is not modelled.
- Metadata.WithSharedStreamIdentity: absent metadata is the empty record; the order of keys in a record is not modelled.
- ScheduleDatabase.Connection.Drain: the check for dropped columns, the summary and the SQL text are not modelled; `uuid4` and the clock are inputs, and the scan's locks are the assumption that a row read is the row in the table.
- BackfillTheorems.ScannedRunsAreSettled: for a task without a run id it asks that the new id is unused; on a conflict the insert does nothing.
- Allowlist.ReturnedList: the settings do not change, and one event loop uses the service.
- ErrorTokens.NormalizeErrorToken: a value that is not a string gives no token; Python's character classes are a parameter.
- ErrorSanitizer.SanitizedIsClean: keys of a mapping are strings.
- The extraction of chunks, status events and session data from stream payloads, the block reducers' own code, the fetching and parsing of SSE, transport health, storage, catalog and form code.
- The HTTP routers, authentication, dispatching of schedules and every other backend service.
- `buildInvokePayload` beyond the cursor and the two ids: copies of fields.
