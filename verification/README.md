# llm-provider: a Dafny model of the gateway's stateful machines

The gateway translates between chat protocols. Its difficult logic is a handful of
small machines that keep state between calls: a turn that parks server callbacks, a
cache that decides which conversation thread to continue, adapters that turn one
event stream into another, a credential store shared by processes, a hand-over
between gateway generations, and two protocols at the wire. This project models
those machines and proves what they keep over every run.

`dafny verify dfyconfig.toml` checks everything.

| files | what they model |
|---|---|
| `delegated_turn`, `turn_state`, `turn_history`, `turn_theorems`, `turn_chunks`, `turn_wakeup` | a Codex turn: queued chunks, delegated tool callbacks, resumes, the wake channel |
| `lineage`, `lineage_registry`, `conversation_stream` | choosing a thread for a request: continue, fork or rebuild; saving checkpoints |
| `lineage_requests` | what one request does to threads, cache and counters, told over the request |
| `lineage_theorems`, `lineage_limits` | thread choice against replaying the whole history, and exactly where they part |
| `lineage_open`, `lineage_sessions`, `lineage_replay`, `lineage_drain` | the same while turns stay open, wait for tool results and are still being read |
| `lru_cache`, `lru_usage`, `memory_cache` | the bounded conversation cache: a map and a list of entries changed together, and exactly when it still has a key |
| `lineage_cache`, `lineage_bounded` | thread choice on the bounded cache, with its eviction, expiry and clock |
| `response_stream`, `response_adapter`, `response_theorems`, `response_content`, `response_document`, `ascending` | chat chunks to Responses events, and the output of a response that is not streamed |
| `plan_output`, `plan_output_theorems`, `plan_output_limits`, `plan_output_repeat` | merging streamed and terminal output of a ChatGPT plan response, once and a second time |
| `plan_stream`, `plan_stream_theorems`, `plan_answer` | streaming and non-streaming chat over the same plan events, and what an answer holds |
| `plan_request`, `plan_request_theorems`, `plan_request_fields` | rewriting a request for the plan endpoint |
| `credentials`, `credential_protocol`, `credential_identity`, `credential_tokens`, `credential_access` | sign-in, renewal, selection and sign-out over one shared credential file |
| `generations`, `generation_protocol` | requests, reloads and close over gateway generations |
| `sse`, `sse_theorems`, `sse_fields` | printing and reading server-sent events |
| `rpc`, `rpc_protocol` | the table of pending JSON-RPC calls |
| `wrappers` | optional and fallible values, and a fold that stops at the first failure |

An object whose methods update its fields is a class here, and each of its methods is
proved equal to a function of the old state; protocols with several threads or
processes are transition systems over those same functions, in which an event that
is not enabled changes nothing. The theorems quantify over every list of events.

Inputs that the code cannot see become parameters: network answers, write failures,
save outcomes, clock readings, fresh identifiers and the choice of which thread moves
next. JSON appears as decoded values; text appears as characters where the SSE
format is concerned.

## What the proofs found

- Acknowledging a callback after its turn has finished, in sequential mode and with
  another callback pending, queues a chunk on a stream that had already ended
  (`EndedUnlessNextExposed` says exactly when, `FinishedTurnCanReopen` exhibits it).
- Thread choice agrees with replaying the history exactly when the checkpoint that is
  found was found by history and its thread is forked, or has not grown since the
  checkpoint was saved (`ReplaysExactlyIf`). Two things put a request outside this.
  A session can resolve a request whose history nobody answered; the thread it then
  gets never replays that history unless it had to be rebuilt
  (`SessionReplaysExactlyIf`, `SessionReuseIgnoresHistory`). And a thread can have gone
  on without its head entry telling so (`AgreesExactlyIf`), in one of two ways.
- A completed turn with no answer text is recorded by the server but not checkpointed.
  If it added input to a checkpoint's own thread, the same request sent again is put on
  that thread, which no longer is its history (`EmptyAnswerKeepsAgreementExactlyIf`).
- A turn that has completed is no longer busy, and its checkpoint is saved only when its
  caller has read the stream to the end. A request that branches off an earlier turn of
  that thread in between is put on the thread though it has gone on
  (`UndrainedTurnIsContinued`); with no request coming at such a time, turns may stay
  open as long as they like (`OpenRefinesReplay`, `OpenAgreesExactlyIf`).
- A head entry can be lost while an older lineage entry of its thread stays
  (`ForgettingKeepsAgreementExactlyIf`, `LostHeadContinuesAdvancedThread`). The cache
  keeps a lineage entry's head at hand through whole lookups and saves, with any bound
  and lifetime (`LineageKeepsItsHead`), so that runs of new turns on it agree with
  replay (`BoundedCacheRefinesReplay`). It does not when a lookup for tool results, or
  one of a busy thread, reads the lineage entry without its head
  (`PeekedLineageOutlivesItsHead`), when another stream saves between the two reads of
  a lookup (`SaveBetweenReadsLosesHead`), or when the head expires between them;
  `HeadFoundExactlyIf` says for every interleaving when the head is found.
- Merging plan output again is not always harmless. With nothing in the terminal list an
  unnamed item at a place that was not streamed is duplicated
  (`EmptyTerminalIsStableExactlyIf`, `GapsBreakStability`). With every item named the
  order can change: items streamed at 0 and 5 and two terminal ones come back as
  streamed, second, streamed, first, and then in another order
  (`NamedMergeIsStableExactlyIf`, `NamedGapsBreakStability`).
- An unnamed terminal item can be lost though nothing was streamed at its index, because
  renamed items reach it (`UnnamedItemKeptExactlyIf`, `UnnamedItemCanBeLost`).
- A refresh token is shown to the server again if and only if it was used up while the
  credential file could not be rewritten, or revoked by a login whose commit had in
  fact reached the file (`RefreshTokensAreUsedOnce`, `LostSaveShowsTokenAgain`).
- On Unix the replacement of the credential file can succeed and still report an
  error, when the directory cannot be synced afterwards. A login then revokes a token
  it has stored; this is the only case in which a login's token is both stored and
  revoked (`LoginTokensAreCommittedOrRevoked`).
- A reply that has reached its channel can lose to the end of the connection, since the
  caller may pick either; it must be received exactly while the connection has not ended
  (`ArrivedReplyIsReceivedExactlyIf`, `ArrivedReplyMayBeMissed`).
- In a Responses stream, parts of a tool name and a changed call ID that arrive after
  the first fragment reach the client only with the done event
  (`DeltasCarryTheContent` states what the deltas alone do carry).

## Model

| member | source | states |
|---|---|---|
| TurnObject.TurnState.QueueDelegatedTools | providers/codex/stream.go:72-104 | the loop over parked callbacks flags and queues every hidden one in parallel mode, and only the first one, when none is exposed, in sequential mode |
| TurnObject.TurnState.AddDelegatedTool | providers/codex/stream.go:48-68 | a callback is refused once the turn is done or closed; otherwise it gets its index, joins the list unexposed, sets the pause flag and may be queued at once |
| TurnObject.TurnState.MarkDelegatedToolDelivered | providers/codex/stream.go:269-282 | for each call of a received chunk the first callback with that ID becomes delivered |
| TurnObject.TurnState.TryReceive | providers/codex/stream.go:235-259 | one pass of receiving: a queued chunk, else the error once, else the end, else wait |
| TurnObject.TurnState.EnqueueChunk | providers/codex/stream.go:209-216 | a chunk joins the queue unless the turn is done or closed |
| TurnObject.TurnState.FinishTurn | providers/codex/stream.go:218-226 | the first finish decides the error, later ones change nothing |
| TurnObject.TurnState.CloseStream | providers/codex/stream.go:284-303 | closing a paused turn or a closed one does nothing; otherwise it closes and tells whether to interrupt |
| TurnObject.TurnState.MatchDelegatedToolResults | providers/codex/stream.go:125-152 | matching changes nothing and pairs the delivered callbacks, in order, with the caller's last result for each ID, or names the first one without a result |
| TurnObject.TurnState.AcknowledgeDelegatedTool | providers/codex/stream.go:154-173 | the first entry with that ID and request goes, the pause flag and index counter follow, and the next callback is exposed |
| TurnObject.TurnState.ResumeDelegatedTurn | providers/codex/provider.go:369-394 | a resume answers a prefix of its plan in order and acknowledges exactly what it answered; it stops at the first write that fails |
| TurnTheorems.DelegatedCallsConserved | providers/codex/stream.go:48-104 | in both modes and every interleaving, the added calls are the delivered ones followed by the undelivered entries, the queue carries exactly the queued entries in order, and no call is delivered twice |
| TurnTheorems.ExposureDiscipline | providers/codex/stream.go:54-104 | the pause flag holds exactly when callbacks are parked; sequential mode exposes exactly entry 0; in parallel mode all are exposed, the delivered ones are a prefix, and live indexes increase strictly below the counter |
| TurnTheorems.RequestsAnsweredOnce | providers/codex/provider.go:380-392 | the callback requests received are, as a multiset, those answered plus those still unanswered, so none is answered twice |
| TurnTheorems.ResumePlansEveryDelivered | providers/codex/stream.go:125-152 | a resume begins exactly when the turn waits, something was delivered and every delivered call has a result; its plan is every delivered callback in arrival order with the last result for it |
| TurnTheorems.ResultIsTheLast | providers/codex/stream.go:126-131 | the result for a call is the text of the last tool message that names it, told by positions, and there is none exactly if no such message names it |
| TurnTheorems.MatchesExactlyIf | providers/codex/stream.go:125-152 | results are matched exactly when the turn is not done, waits, and each delivered callback has one |
| TurnTheorems.FirstMissingIsNamed | providers/codex/stream.go:143-146 | the error names the first delivered callback without a result |
| TurnTheorems.ResumeAnswersWholePlan | providers/codex/provider.go:380-393 | the resume ends with an acknowledgement exactly when the answers written since it began are its whole plan with its results, in order |
| TurnTheorems.FailedWriteKeepsTheRest | providers/codex/provider.go:380-388 | after a write fails, exactly the planned callbacks not answered yet are still pending |
| TurnTheorems.FinishedTurnDrains | providers/codex/stream.go:235-254 | after the turn is done, receiving yields the queued chunks, then the error once, then the end for ever |
| TurnTheorems.EndedUnlessNextExposed | providers/codex/stream.go:154-173 | an ended stream stays ended through a step if and only if the step is not an acknowledgement in sequential mode with another callback pending |
| TurnTheorems.FinishedTurnCanReopen | providers/codex/stream.go:160-169 | a concrete run in which an ended stream has a chunk again |
| TurnChunks.ChunksConserved | providers/codex/stream.go:209-246 | over every run and in both modes, the chunks received and then the queue are exactly the accepted ones, in order: text that came while the turn was neither done nor closed, and the chunk of each callback when it is shown |
| TurnChunks.ReceiveYields | providers/codex/stream.go:235-259 | after every run a receive yields the oldest accepted chunk not received; with none left, the error of the first finish if not raised yet, the end if the turn is done, closed or waiting, and else it waits |
| TurnChunks.TurnEndsAsFirstFinished | providers/codex/stream.go:218-226 | over every run the turn is done, and its error is, as the first finish says; it is closed exactly if a close came while it was done or had no callback pending; at most one error is raised, the first finish's |
| TurnChunks.CloseSparesWaitingTurns | providers/codex/stream.go:284-303 | over every run, closing a turn with callbacks pending and not done changes nothing at all; closing any other marks it closed and nothing else |
| TurnChunks.CallbacksAreNumberedPerBatch | providers/codex/stream.go:48-68 | over every run in parallel mode, the index of the next callback is the number of callbacks that came since none was pending |
| TurnWakeUp.ParkedReceiverIsWoken | providers/codex/stream.go:209-267 | with one receiver and any producers between unlock and signal, a parked receiver with something to receive has a token or a signal still owed |
| TurnWakeUp.WokenReceiverReturns | providers/codex/stream.go:259-266 | once that signal comes, waking and checking returns to the caller |
| Lineage.ConversationParent | providers/codex/conversation_registry.go:158-176 | the history a request extends: without its trailing tool results, or without its last user message; and whether it was answered before |
| ConversationRegistry.HistoryItems | providers/codex/provider.go:700-722 | the items injected for a history are those of each message in order, instructions left out |
| ConversationRegistry.Conversations.StartThread | providers/codex/provider.go:438-456 | a new thread carries the request's instructions and, if injection succeeds, exactly the items of its history |
| ConversationRegistry.Conversations.InferConversation | providers/codex/conversation_registry.go:39-64 | a request that names a conversation, or without a cache, looks up nothing; one with an answered history looks up its lineage, one with only a session looks up the session |
| ConversationRegistry.Conversations.ResolveInferredThread | providers/codex/conversation_registry.go:66-104 | for tool results the checkpoint's thread is taken as it is and no head is read; otherwise it is continued unless it is busy or its head moved on, and then forked at the saved turn or given up |
| ConversationRegistry.Conversations.PrepareThread | providers/codex/provider.go:396-457 | a tool catalog error stops it; a loaded thread is used, another is resumed; one that was inferred and fails is given up for a new one, one that was named is an error |
| ConversationRegistry.Conversations.SaveConversationCheckpoint | providers/codex/conversation_registry.go:106-127 | an assistant message with text or tool calls is saved under its extended history, as the head of its thread and for its session; without a cache, or with neither, nothing is |
| ConversationRegistry.Conversations.ChatStream | providers/codex/provider.go:244-366 | every request, from the checks on its messages to the saved checkpoint: rejected, handed to a waiting turn, or a turn on a chosen thread, with every failure leaving what it left |
| LineageRequests.WaitingTurnTakesResults | providers/codex/provider.go:271-284 | tool results whose thread, named or looked up, has a turn waiting for them leave every thread, the cache and the counters as they were; the turn stops waiting exactly if it took them and no other call is pending |
| LineageRequests.OtherResultsAreRebuilt | providers/codex/provider.go:285-313 | all other tool results run on a thread of their own that begins with the items of the whole history, and no thread that existed changes |
| LineageRequests.RefusedRequestChangesNothing | providers/codex/provider.go:250-255 | a request that ends with no user message and brings no results changes nothing |
| LineageRequests.ItemsTellTheMessages | providers/codex/provider.go:700-722 | what is injected for a history is, message by message and in order, each tool result under its call ID, each text under its role, and each call |
| LineageRequests.InstructionsTellTheMessages | providers/codex/provider.go:1174-1182 | a thread's instructions are the system and developer messages of its history, in order |
| LineageRequests.KeysAreApart | providers/codex/conversation_registry.go:141-195 | two histories share a lineage entry if and only if session, model, directory, messages and tools are the same, where the session is the session ID, else the header, else the user |
| LineageOpen.ServeIsBeginCompleteDrain | providers/codex/provider.go:244-366 | a request whose turn completes and is drained at once, among any other open turns, is a request of the sequential model |
| LineageOpen.BusyThreadKeepsItsTurn | providers/codex/provider.go:321-327 | over every run with turns open, waiting and undrained, a request changes neither the transcript of a busy thread nor the turn on it; it can only take over the stream of one that waits for its results, and what it starts is on an idle thread |
| LineageOpen.NewTurnsNeverMeet | providers/codex/provider.go:267-327 | over every run, a new turn that names no conversation gets an idle thread if the server answers; one that names a busy thread changes nothing |
| LineageOpen.BusyCheckpointIsForkedOrRebuilt | providers/codex/conversation_registry.go:75-104 | over every run, a new turn whose history is cached for a busy thread runs on a thread of its own: that thread up to the end of the saved turn if the server forks it and recorded that end, else one built from the whole history; no other thread changes |
| LineageOpen.HandedCallsComeBack | providers/codex/provider.go:369-394 | over every run, the request that brings the results of calls a turn has handed out goes to that turn, which streams on to it when it takes them; no thread, cache entry or counter changes |
| LineageSessions.ThreadsStayInTheirSession | providers/codex/conversation_registry.go:141-195 | over every run in which no request names a conversation, the thread a request finds, and the one its turn runs on, was started for its own session, for ever |
| LineageTheorems.ReplaysExactlyIf | providers/codex/conversation_registry.go:39-104 | over every run of requests that keep, with cache entries forgotten in any order, the thread chosen for a plain request holds what replaying its history on a fresh thread would if and only if nothing was found, or what was found could not be used, or it was found by history and is forked or still as saved; existing threads are untouched, and an advanced thread is never the one chosen |
| LineageTheorems.ServedTurnReplaysExactlyIf | providers/codex/provider.go:285-366 | after the turn that thread holds the replay of the extended history under the same condition, and no other thread changed |
| LineageTheorems.LineageRefinesReplay | providers/codex/conversation_registry.go:39-104 | over every run of requests that no session entry decides, first turns of a session among them, answered with text, with heads forgotten only where the lineage entries left are still their whole thread: the thread chosen replays the history |
| LineageTheorems.RunKeepsInv | providers/codex/conversation_registry.go:106-127 | over every run of requests that keep, whatever is forgotten, each checkpoint tells the truth for ever: its thread begins with the history it was saved under, and its turn ends there |
| LineageLimits.AgreesExactlyIf | providers/codex/conversation_registry.go:79-83 | in every world such a run reaches, all requests that no session decides replay, whatever the server answers, if and only if each lineage entry has a head entry that tells of a later turn or a thread that has not grown since |
| LineageLimits.ForgettingKeepsAgreementExactlyIf | providers/codex/conversation_registry.go:79-83 | forgetting cache entries keeps that agreement if and only if each lineage entry whose head goes and that stays is still its thread's whole transcript |
| LineageLimits.LostHeadContinuesAdvancedThread | providers/codex/conversation_registry.go:80-86 | a run of two turns from the start, the loss of the head, and a third request, which is put on the advanced thread |
| LineageLimits.EmptyAnswerKeepsAgreementExactlyIf | providers/codex/conversation_registry.go:107-109 | after a completed turn without answer text the agreement stays if and only if the turn did not add input to a checkpoint's own thread, told by what was found, whether its thread moved on and could be used; otherwise the same request sent again is put on that thread and does not replay |
| LineageLimits.SessionReplaysExactlyIf | providers/codex/conversation_registry.go:53-54 | in every such world, a new turn whose history nobody answered replays it if and only if the session gave no usable thread, and then its thread is rebuilt |
| LineageLimits.SessionReuseIgnoresHistory | providers/codex/conversation_registry.go:53-54 | a run in which the second greeting of a session continues the first |
| LineageReplay.OpenReplaysExactlyIf | providers/codex/conversation_registry.go:66-104 | over every run in which turns stay open, drain in any order, break or lose their thread: the thread chosen for a plain request is idle, and replays the history if and only if the request keeps |
| LineageReplay.OpenAgreesExactlyIf | providers/codex/conversation_registry.go:75-83 | in every such world all requests that no session decides replay if and only if each lineage entry is on a busy thread, or has a head entry that tells of another turn, or is still its thread's whole transcript |
| LineageDrain.OpenRefinesReplay | providers/codex/conversation_registry.go:66-127 | over every run of such requests whose turns stay open as long as they like, none coming for a thread whose completed turn is still being read: the thread chosen is idle and replays the history |
| LineageDrain.UndrainedTurnIsContinued | providers/codex/provider.go:1106-1107 | a run in which a turn has completed and its stream is not read to the end, and a third request is put on its thread though that has gone on |
| LineageCache.LineageKeepsItsHead | providers/codex/conversation_registry.go:59-127 | over every history of whole lookups and saves on the bounded cache, with any bound and lifetime, a lineage entry that is found and was not read without its head since it was last saved has its thread's head beside it, and reading that head finds it unless it expired in between |
| LineageCache.HeadFoundExactlyIf | providers/codex/conversation_registry.go:79-83 | over every interleaving of single reads and writes, once a lineage entry is found its head is found if and only if it was used, not removed since, never had maxEntries other cached entries used after it, and has not expired |
| LineageCache.PeekedLineageOutlivesItsHead | providers/codex/conversation_registry.go:71-73 | a history in a cache of three in which a lookup for tool results lets the head go before the lineage entry |
| LineageCache.SaveBetweenReadsLosesHead | providers/codex/conversation_registry.go:122-123 | a history in a cache of two in which a save between the two reads of a lookup pushes the head out |
| LineageBounded.BoundedRunIsTraced | providers/codex/conversation_registry.go:59-127 | every run on the bounded cache, with its reads, writes, clock, eviction and expiry, is a run on the map with entries forgotten before and after each request |
| LineageBounded.BoundedReplaysExactlyIf | providers/codex/conversation_registry.go:39-104 | so the thread chosen on the bounded cache replays the history if and only if the request keeps in what its own reads see |
| LineageBounded.BoundedCacheRefinesReplay | providers/codex/conversation_registry.go:39-104 | over every run on the bounded cache of requests that no session decides, answered with text, where no lookup for tool results finds an entry and no head expires between the two reads of one lookup: the thread chosen replays the history |
| ConversationStreams.ConversationStream.Observe | providers/codex/conversation_registry.go:224-249 | what the saving stream gathers from each chunk, and that the end of the stream saves it, once |
| ConversationStreams.ConversationStream.Close | providers/codex/conversation_registry.go:251-256 | closing saves a turn whose finish reason was seen, if it was not saved before |
| ConversationStreams.Chat | providers/codex/provider.go:189-242 | the non-streaming answer: the final answer when there is one and all text otherwise, with all calls and the last finish reason |
| ConversationStreams.ChatMatchesCheckpoint | providers/codex/provider.go:189-242 | the non-streaming answer is exactly the message under which the drained stream saved the turn |
| ConversationStreams.ReplyTellsTheChunks | providers/codex/conversation_registry.go:224-268 | the message saved is the text of the final answer if there is any and all text otherwise, with all calls in order; its turn is the first one named; it counts as complete exactly if a chunk gave a finish reason |
| MemoryCache.MemoryConversationCache.Get | providers/codex/conversation_cache.go:56-73 | map and list stay one entry per key within the bound; an expired entry goes, a hit moves to the front and yields its value |
| MemoryCache.MemoryConversationCache.Set | providers/codex/conversation_cache.go:75-98 | the key's value and expiry are replaced at the front, and the least recently used entries beyond the bound go |
| MemoryCache.MemoryConversationCache.Delete | providers/codex/conversation_cache.go:100-110 | the key is gone from map and list, nothing else moves |
| MemoryCache.MemoryConversationCache.Evict | providers/codex/conversation_cache.go:94-96 | entries leave from the back of the list, and from the map with it, until the bound holds |
| MemoryCache.MemoryConversationCache.Close | providers/codex/conversation_cache.go:112-119 | a closed cache is empty and answers with an error |
| LruCache.HitsAreLastWrites | providers/codex/conversation_cache.go:56-98 | over every history, with eviction and expiry, a hit is the value last set under the key, not deleted since and not past its expiry |
| LruUsage.FoundExactlyIf | providers/codex/conversation_cache.go:56-128 | over every history a key is found if and only if the cache is open, the key was used and not removed since, never had maxEntries other cached keys used after it, and has not expired; told without the list |
| LruCache.RunKeeps | providers/codex/conversation_cache.go:56-128 | over any operations the keys stay distinct and at most maxEntries |
| LruCache.RecentlyUsedKeysSurvive | providers/codex/conversation_cache.go:56-98 | after any history a key just set keeps its last value while it is not deleted, read expired or closed away, and fewer than maxEntries distinct other keys are set or hit between its own uses |
| LruCache.FullTurnoverEvicts | providers/codex/conversation_cache.go:92-96 | the bound is exact: maxEntries distinct other keys set in a row push any key out |
| LruCache.UnboundedCacheIsAMap | providers/codex/conversation_cache.go:56-110 | while the keys fit and nothing expires, the cache agrees with a map of the last writes |
| LruCache.EntryLivesItsTime | providers/codex/conversation_cache.go:65-84 | after every history an open cache yields what was just set until its lifetime has passed, and for ever if the lifetime is not positive |
| LruCache.ClosedStaysClosed | providers/codex/conversation_cache.go:112-119 | a closed cache answers with an error after any further operations |
| ResponseAdapters.ResponseAdapter.AddText | gateway/responses.go:485-499 | text claims an output index when it first comes, with its added events, and each delta extends it |
| ResponseAdapters.ResponseAdapter.AddChunk | gateway/responses.go:479-532 | a chunk's usage replaces the last one, and its choices are taken in order, text before tool fragments |
| ResponseAdapters.ResponseAdapter.AddFragment | gateway/responses.go:500-531 | a fragment of a new tool index claims the next output index and mints what IDs are missing; later fragments extend the same call |
| ResponseAdapters.ResponseAdapter.Complete | gateway/responses.go:534-563 | the output array is filled slot by slot with none left empty, and the done events come text first, then calls by tool index |
| ResponseAdapters.StreamAdaptedResponse | gateway/responses.go:431-564 | everything written for a chunk list and its ending is the reference transcript, numbered 0, 1, 2 and so on |
| ResponseTheorems.EventsReplayToDocument | gateway/responses.go:463-563 | for every chunk list that ends well, a client folding the events by output index holds exactly the output array of the completed response, and each index is added once, extended, and done once with exactly the text or arguments its deltas spelled |
| ResponseTheorems.DeltasCarryTheContent | gateway/responses.go:485-531 | added and delta events alone give every item its ID and its whole content, and a beginning of its tool name |
| ResponseTheorems.ErrorEndsTheStream | gateway/responses.go:474-477 | an upstream error is reported once, last, and nothing is declared done or completed |
| ResponseDocuments.ResponseOutput | gateway/responses.go:360-382 | for each choice its text as one message if there is any, then its calls in order, with missing call IDs and all item IDs minted |
| ResponseDocuments.StreamedOutputIsDocumentOutput | gateway/responses.go:360-563 | if text begins before any call and tool indexes first appear in ascending order, the output of the completed event equals that of the folded stream as an answer not streamed, up to the numbers of minted IDs |
| ResponseContent.CompletedTellsTheChunks | gateway/responses.go:479-561 | for every chunk list that ends well the completed response has one item for the text, if any came, and one per tool index, in the order they first appeared, each with everything sent for it and an ID of its own; its usage is that of the last chunk carrying one, else zero |
| ResponseContent.EachAppearsOnce | gateway/responses.go:489-513 | the items so listed are the text, if any came, and every tool index, each once |
| ResponseContent.EveryItemIsToldDone | gateway/responses.go:534-559 | for every chunk list that ends well each item of the completed response is told done in full under its own index and ID, the text before all calls and calls by tool index |
| PlanOutput.CollectResponseOutput | providers/chatgpt/provider.go:276-349 | the merge computed in any map order is the reference merge, with its errors for a missing body or unreadable items |
| PlanOutput.ReadStreamed | providers/chatgpt/provider.go:293-308 | in whatever order the map is read, the IDs gathered are those of the streamed items and the next index is one past the highest |
| PlanOutput.PlaceTerminal | providers/chatgpt/provider.go:309-333 | each terminal item is dropped, placed at its own index or moved past the end, as the reference placing says |
| PlanOutput.ListByIndex | providers/chatgpt/provider.go:334-342 | the items in ascending order of their indexes |
| PlanOutputTheorems.MergeKeepsEveryItemAndID | providers/chatgpt/provider.go:309-333 | every streamed item is in the result unchanged and in index order, every terminal ID is in it, all of it comes from the two sources, and an ID repeats only if it was streamed twice |
| PlanOutputTheorems.FirstWithItsIDIsKept | providers/chatgpt/provider.go:309-333 | a terminal item with an ID that was neither streamed nor used by a terminal item before it is in the result |
| PlanAnswers.MergeChangesOnlyTheOutput | providers/chatgpt/provider.go:276-349 | merging changes the output list and no other part of the response; it is refused exactly when there is something to merge and the response or an item cannot be read |
| PlanOutputTheorems.ContiguousMergeAppends | providers/chatgpt/provider.go:309-342 | with streamed indexes 0..k-1 the result is the streamed items followed by the surviving terminal items in their own order |
| PlanOutputTheorems.ContiguousMergeIsStable | providers/chatgpt/provider.go:276-349 | with streamed indexes 0..k-1, merging the result again with the same streamed items returns it unchanged |
| PlanOutputLimits.EmptyTerminalIsStableExactlyIf | providers/chatgpt/provider.go:293-326 | with an empty terminal list, merging the result again changes nothing if and only if each unnamed item stands at a place whose number was streamed |
| PlanOutputLimits.GapsBreakStability | providers/chatgpt/provider.go:319-326 | an input that fails: an unnamed item streamed at 1 alone is duplicated |
| PlanOutputRepeat.NamedMergeIsStableExactlyIf | providers/chatgpt/provider.go:309-342 | with every item named, merging the result again changes nothing if and only if, for each place i of an item that was not streamed, the streamed indexes before it are below i and those after it above, or i was streamed and no streamed item follows |
| PlanOutputRepeat.NamedGapsBreakStability | providers/chatgpt/provider.go:309-342 | an input that fails: items streamed at 0 and 5 with two terminal ones |
| PlanOutputLimits.UnnamedItemKeptExactlyIf | providers/chatgpt/provider.go:315-332 | an unnamed terminal item is kept at its index if and only if nothing was streamed there and the items with a new ID before it that stand at a streamed index or past all of them do not reach it |
| PlanOutputLimits.UnnamedItemKeptAfterContiguous | providers/chatgpt/provider.go:315-332 | with streamed indexes 0..k-1 it is kept if and only if it stands at k plus the number of new IDs before it, or later |
| PlanOutputLimits.UnnamedItemCanBeLost | providers/chatgpt/provider.go:319-325 | an input that loses one: a renamed item is moved to its index |
| PlanStreams.ResponseStream.Recv | providers/chatgpt/provider.go:368-427 | the guarded stream ends only after a terminal event, which is handed on when completed and raised otherwise; a connection that ends earlier is an error |
| PlanStreams.CreateResponse | providers/chatgpt/provider.go:233-271 | the events are read up to the terminal one, reported items kept by index, and the two merged |
| PlanStreams.Chat | providers/chatgpt/provider.go:596-611 | the non-streaming answer: the collected response read as one message, or the first error |
| PlanStreams.ResponseChat | providers/chatgpt/provider.go:543-594 | calls numbered in order, the text of messages that are not commentary, and the finish reason |
| PlanStreams.ChatStream.Recv | providers/chatgpt/provider.go:640-708 | one receive of the chat stream: silent events are taken in, text is handed on with its phase, and the terminal event yields the rest of the answer or an error |
| PlanStreamTheorems.StreamingEqualsNonStreaming | providers/chatgpt/provider.go:640-708 | for every event list the stream ends without error if and only if the whole answer can be had, every delta is text, every announced item has a readable phase, and the text streamed outside commentary is a beginning of the answer; and then text, calls, native output and finish reason are those of the whole answer |
| PlanStreamTheorems.EndOnlyAfterTerminal | providers/chatgpt/provider.go:368-427 | however often a caller receives, an end is reported only after an earlier receive read a terminal event and handed on the last chunk or an error |
| PlanAnswers.CollectedTellsTheEvents | providers/chatgpt/provider.go:233-271 | the response collected is the one of the first event that does not leave the stream open, if it completes it, merged with the item reported last at each index before it; otherwise there is an error, and which one if the events just end |
| PlanAnswers.AnswerTellsTheItems | providers/chatgpt/provider.go:543-594 | the answer has the texts and refusals of its items in order without commentary, its calls in order and numbered from zero, its items as they came, and the finish reason for calls exactly if there is one; it can be had exactly if every part is readable |
| PlanAnswers.ChunksAreTheDeltas | providers/chatgpt/provider.go:640-708 | for every event list the chunks handed on are the text and refusal deltas before the first event that stops the stream, in order, each with the phase announced last for its item, and then at most the last chunk, exactly if the stream ends without error |
| PlanRequest.Normalize | providers/chatgpt/provider.go:88-191 | the rewriting, step by step, with the first error in the order the code meets it |
| PlanRequest.StripUnsupported | providers/chatgpt/provider.go:93-98 | the first unsupported field that is not null is an error, null ones are dropped |
| PlanRequest.RewriteInput | providers/chatgpt/provider.go:99-114 | text becomes one user message, system messages become developer messages, anything else is an error |
| PlanRequest.SplitTools | providers/chatgpt/provider.go:123-151 | loose tools and native entries are told apart in order, up to the first tool that is not supported |
| PlanRequest.GroupTools | providers/chatgpt/provider.go:115-169 | loose tools move into one namespace after the native entries, unless that name is taken, and the tool choice follows them |
| PlanRequest.AskForReasoning | providers/chatgpt/provider.go:170-189 | storing is off, streaming is on, and the opaque reasoning state is appended to what is asked for if it was not there |
| PlanRequestTheorems.NormalizeIsIdempotent | providers/chatgpt/provider.go:88-191 | rewriting an accepted body again changes nothing |
| PlanRequestTheorems.ToolsAreConserved | providers/chatgpt/provider.go:115-168 | opening the namespaces before and after gives the same tools as a multiset, native entries keep their order, and loose tools keep theirs inside the one namespace placed after them |
| PlanRequestTheorems.OtherFieldsAreKept | providers/chatgpt/provider.go:93-98 | only six fields can differ, a dropped field was null, and the tool choice differs only where loose tools were grouped and it named a function without a namespace |
| PlanRequestTheorems.NormalizeAccepts | providers/chatgpt/provider.go:89-179 | a body is rewritten if and only if it meets conditions stated without the rewriting |
| PlanRequestFields.NormalizedFields | providers/chatgpt/provider.go:99-189 | told over the body before and after: text input is one user message with that text; listed input keeps every item and field, but a system role becomes developer; tools, tool choice, what is asked for, storing and streaming, each in full |
| PlanRequestFields.AcceptedExactlyIf | providers/chatgpt/provider.go:88-179 | a body is rewritten if and only if it is an object, no unsupported field is set, input is text or a list of objects, every tool is of a known kind, none takes the reserved namespace beside loose tools, and include is a list |
| PlanRequestFields.FirstUnsupportedIsNamed | providers/chatgpt/provider.go:93-98 | the error names the first unsupported field, in their order, that is set |
| Credentials.CredentialStore.Load | providers/chatgpt/storage.go:42-103 | a missing store is created once with a host ID, one of another version or application is refused, an own one is loaded, and a lock that cannot be had changes nothing |
| Credentials.CredentialStore.Select | providers/chatgpt/auth.go:126-137 | only a verified account can be selected, and not while a sign-in is pending |
| Credentials.CredentialStore.StartLogin | providers/chatgpt/auth.go:270-285 | an attempt reserves the pending slot and the profile and client it goes on with |
| Credentials.CredentialStore.Register | providers/chatgpt/auth.go:372-382 | the pending attempt, and no other, writes the issued client |
| Credentials.CredentialStore.Commit | providers/chatgpt/auth.go:412-429 | the pending attempt stores its tokens for its own client and subject only, and makes the profile active |
| Credentials.CredentialStore.Clean | providers/chatgpt/auth.go:357-366 | the attempt gives the pending slot back if it still has it |
| Credentials.CredentialStore.AccessToken | providers/chatgpt/auth.go:191-247 | when the held token is handed out, when the refresh token is presented, and what is saved for each answer |
| Credentials.CredentialStore.Disconnect | providers/chatgpt/auth.go:452-471 | the renewable session is revoked before it is forgotten; identity stays |
| CredentialIdentity.IdentityNeverChanges | providers/chatgpt/auth.go:371-430 | over all interleavings of logins, renewals, selections, sign-outs and crashes, the store's owner and host ID, a profile's client ID and its subject never change once set, and an active profile is a verified one |
| CredentialIdentity.CodeExchangedOnlyAfterClientIsDurable | providers/chatgpt/auth.go:372-387 | whenever a code can be exchanged, the client it is exchanged for is in the file under the attempt's profile |
| CredentialIdentity.PlaceholderIsNeverIssued | providers/chatgpt/auth.go:311-323 | over every run the client name that only asks for one to be issued is never taken for an issued one, by a sign-in or in the file |
| CredentialIdentity.SupersededAttemptNeverWrites | providers/chatgpt/auth.go:357-415 | over every run, an attempt that once lost the pending slot never changes the file again |
| CredentialTokens.RefreshTokensAreUsedOnce | providers/chatgpt/auth.go:191-247 | over all interleavings, a refresh token shown for renewal or sign-out was used up before if and only if it went stale in a save that did not do what it reported |
| CredentialTokens.SavedTokensAreUsedOnce | providers/chatgpt/storage.go:105-136 | if every renewal and sign-out save reached the file and no commit save was in doubt, no used-up token is ever shown again, by any process |
| CredentialTokens.LostSaveShowsTokenAgain | providers/chatgpt/auth.go:232-239 | a run from the first start through a sign-in and a renewal whose save is lost, after which the next renewal shows the used-up token |
| CredentialTokens.LoginTokensAreCommittedOrRevoked | providers/chatgpt/auth.go:387-429 | a login's refresh token is in the login's hands until clean-up, and then in the store or revoked, both if and only if the save that stored it still reported an error |
| CredentialTokens.CommittedWasStored | providers/chatgpt/auth.go:412-429 | over every run, a token counted as committed was in the file right after the commit of the login that got it |
| CredentialTokens.RevokedByItsLogin | providers/chatgpt/auth.go:389-397 | over every run, a token counted as revoked was presented for revocation by the login that got it |
| CredentialAccess.FileTellsTheHistory | providers/chatgpt/auth.go:126-471 | over every run, each account in the file holds the access token, lifetime, refresh token and plan scope last granted to it by a login or renewal whose save reached the file, or nothing once signed out; active and last profile and the pending attempt are the last ones the history tells of |
| CredentialAccess.HandedOutExactlyIf | providers/chatgpt/auth.go:191-216 | over every run, a held access token is handed out if and only if it was last granted to the active account, its granted lifetime has more than a minute left or has not run out while renewal is not permitted yet, and the plan scope last granted allows it; and exactly when a renewal is asked for |
| CredentialAccess.HeldTokenWasGrantedLast | providers/chatgpt/auth.go:191-247 | for a token so handed out there is an event of the run that granted it, no later one speaks of its account, and the lifetime granted then has not run out |
| Generations.GatewayRuntime.Admit | cmd/llm-provider/runtime.go:38-47 | a request is counted on the generation it starts on, or turned away once the runtime is closed |
| Generations.GatewayRuntime.Leave | cmd/llm-provider/runtime.go:48-49 | a request that ends is taken off the count of the generation it started on |
| Generations.GatewayRuntime.Publish | cmd/llm-provider/runtime.go:59-67 | a reload swaps the current generation and takes the previous one to retire, unless the runtime is closed |
| Generations.GatewayRuntime.Shut | cmd/llm-provider/runtime.go:77-86 | close takes the current generation to retire, the first time only |
| GenerationProtocol.NoHandlerOnClosedGeneration | cmd/llm-provider/runtime.go:38-103 | in every interleaving nothing is served on a closed generation, none is closed twice, one thread at most has it in hand, and while the runtime is open it has a current generation that is not closed |
| GenerationProtocol.ClosedStaysIdle | cmd/llm-provider/runtime.go:97-103 | a closed generation stays closed and its in-flight count never rises again |
| GenerationProtocol.RetiredOnce | cmd/llm-provider/runtime.go:65-90 | a generation leaves service in one step of the thread that then has it in hand, only that thread closes it, and it is idle then |
| GenerationProtocol.OnlyDrainingWaits | cmd/llm-provider/runtime.go:69-74 | a thread that cannot go on waits for a request that is being served; a reload always finds a previous generation |
| GenerationProtocol.NothingIsLeftOpen | cmd/llm-provider/runtime.go:52-103 | once all threads have finished, every generation built and not current has been closed exactly once |
| GenerationProtocol.GuardedTellsTheHistory | cmd/llm-provider/runtime.go:59-86 | over every run the runtime is closed exactly once a close has taken the lock, and until then its current generation is the one published last |
| GenerationProtocol.OpenRuntimeServes | cmd/llm-provider/runtime.go:38-50 | over every run a request that comes to the lock is counted and served on the generation published last, unless a close came before; then it is turned away |
| GenerationProtocol.ReloadTakesOver | cmd/llm-provider/runtime.go:59-67 | over every run a reload that comes to the lock serves from then on and retires the generation published before it; after a close it closes what it built and changes nothing else |
| Sse.Writer.WriteEvent | gateway/responses.go:566-571 | a name line unless the name is empty, a data line and a blank line |
| Sse.Stream.ReadEvent | providers/openai/provider.go:474-503 | lines up to a blank one or the end: the last name trimmed, the data lines joined, with the endings the code accepts |
| Sse.Stream.Recv | providers/openai/provider.go:396-419 | blocks without data are skipped, the end marker ends the stream, and so does the end of the body |
| SseTheorems.PrintedEventsComeBack | providers/openai/provider.go:396-419 | every list of events with plain names and plain data, printed in a row, is read back as exactly that list and then the end |
| SseTheorems.EventComesBackIfPlain | gateway/responses.go:566-571 | one event comes back as it was printed if and only if its name is one line without outer white space and its data is one non-empty line that does not end in a carriage return and is not the end marker |
| SseFields.BlockIsRead | providers/openai/provider.go:474-503 | whatever lines stand before a blank one, with either line end: the block has the name given last without the white space around it, and the data lines, each without one space after the colon, with a newline between each two |
| SseFields.LastBlockIsRead | providers/openai/provider.go:474-503 | a body that ends without a blank line yields a last block exactly if it was closed and there is a data line |
| SseFields.BodyIsReceived | providers/openai/provider.go:396-419 | what is received from any body of such lines is the events of its blocks with data, in order, up to the end marker or the end of the body |
| Rpc.Multiplexer.Register | providers/codex/provider.go:804-813 | a call gets a fresh ID and an empty channel of its own |
| Rpc.Multiplexer.Forget | providers/codex/provider.go:814-827 | a call whose write failed or that was cancelled is no longer pending, and no other call is touched |
| Rpc.Multiplexer.Deliver | providers/codex/provider.go:866-881 | a reply goes to the channel pending under its ID, which is then no longer pending; unknown and repeated IDs change nothing |
| Rpc.Multiplexer.FailConnection | providers/codex/provider.go:1129-1145 | every pending call is told of the failure exactly once, nothing stays pending, and later waits see the end |
| RpcProtocol.SendsNeverBlock | providers/codex/provider.go:870-881 | in every interleaving each channel gets at most one value, and neither the reader nor a failing connection ever waits for room |
| RpcProtocol.CallersAreToldTheirOwn | providers/codex/provider.go:820-830 | what a caller is told is the one value sent on its channel, and a reply carries its own ID |
| RpcProtocol.NoCallIsForgotten | providers/codex/provider.go:820-830 | a waiting call is pending, or its reply is in the reader's hands or in its channel, or the connection has been failed; and then it sees the end |
| RpcProtocol.FailureReachesEveryPendingCall | providers/codex/provider.go:1129-1135 | once a failed connection has been dealt with, every call it left pending has been told so, exactly once |
| RpcProtocol.FirstReplyWins | providers/codex/provider.go:871-881 | the first reply read for a pending call is the only value its caller can ever be told |
| RpcProtocol.ReplyReachesItsCaller | providers/codex/provider.go:866-881 | in every interleaving a reply read for a pending call is put into that call's channel by the reader's next step, and the waiting caller then receives exactly it |
| RpcProtocol.UnknownReplyIsDropped | providers/codex/provider.go:871-876 | in every interleaving a reply to a call that is not pending changes nothing |
| RpcProtocol.ArrivedReplyIsReceivedExactlyIf | providers/codex/provider.go:820-830 | in every interleaving, a caller with a value in its channel is told that value by any step of its own short of giving up, if and only if the connection has not ended |
| RpcProtocol.ArrivedReplyMayBeMissed | providers/codex/provider.go:820-830 | a run in which a reply has reached the channel before the connection fails, and the caller may see either |

## Left out

- HTTP handlers, header copying, process spawning, the Redis cache, file watching, file permissions, OS credential protection and browser or OpenID verification: input and output, or libraries whose code is elsewhere.
- JSON encoding and decoding: values are decoded already. Numbers are integers, so the precision a JSON number loses as a float is not modelled, and neither are duplicate object keys.
- SHA-256, state, nonce and PKCE: a digest is the data it is taken over; random identifiers come from a fresh supply, so two of them never clash.
- Usage snapshots and thread, model and usage fields of Codex chunks, and content parts of messages: copied along without a decision depending on them.
- TurnHistory: the turn's own ID is fixed from the start; the code sets it when the server first names it.
- TurnTheorems: the server is taken never to reuse a call ID within a turn; with a reused ID the first entry would be flagged.
- TurnWakeUp: one receiver at a time; with several, one token may wake the wrong one.
- Concurrent resumes of one turn: a resume runs to its end before the next one begins, as the lock around thread selection makes it.
- LineageReplay: turns that hand tool calls to the caller, carry tool calls on the user message or name a conversation explicitly are outside the agreement with replay, since what the server records while a turn waits is its own; LineageOpen has them otherwise. Tool choice is not part of the history hash and not modelled.
- ConversationRegistry.HistoryItems: content parts of a message, and the error of one that cannot be converted, which would fail the injection.
- ConversationRegistry.Conversations.PrepareThread: failing to list the configured servers counts as the resume or the start failing.
- ConversationRegistry.Conversations.ChatStream: how a waiting turn matches and answers results is left to the turn model, which has the resume; the request is told whether it took them. Here a turn completes and is drained at once; LineageOpen takes these steps apart. The text the gateway prompts a continuation with is not part of the transcript the caller knows.
- LineageBounded.BoundedCacheRefinesReplay: does not cover runs in which a lookup for tool results finds an entry, another stream saves between two reads, or a head expires between them, because agreement fails there.
- MemoryCache.MemoryConversationCache.Get: that the bytes returned are a fresh copy, and that Set reuses the old buffer, because values are immutable here.
- ResponseDocuments.StreamedOutputIsDocumentOutput: all choices of a stream are one answer, as the adapter takes them; content parts are left out.
- ResponseTheorems: stability of a call ID when later fragments carry another one is not promised by the code and not stated.
- PlanOutputRepeat: when a second merge is stable is stated for an empty terminal list and for items that all have IDs; where both unnamed and terminal items occur, equal unnamed items can stand in for each other, and only the contiguous case is stated.
- PlanStreams: the wording of a failed response, built from its code, message and reason, is one text here; response headers are left out.
- PlanRequest: the rendering of an unsupported tool's type in the error text.
- CredentialProtocol: an answer of the token endpoint that cannot be used, such as one without an expiry, does not count as using the refresh token up, since the code keeps the token after it; liveness of the lock, the e-mail label and the login error text are left out.
- GenerationProtocol: a panic inside a handler, and the outcome of waiting for authentication, which changes nothing here.
- RpcProtocol: server requests and notifications, and finishing the active turns of a failed connection, which touch no pending call.
- Model metadata, routing, prompt cache fields, reasoning options and configuration: branch by branch, they would add only easy members.
