# notagent, modelled

A Dafny model of the parts of notagent whose correctness depends on state kept over many steps, with proofs about
every run, every interleaving or every input. One module per component:

| files | what they model |
|---|---|
| `CallKeys`, `RepeatBreaker` | the keys of tool calls, and the breaker that ends runs of repeated calls |
| `AgentTypes`, `AgentTrace` | messages and events, the well-formed traces of a run, and the state reducer |
| `ToolBatch`, `ParallelBatch` | the tool calls of one response: refused, in sequence, or as background tasks |
| `AssistantStream`, `MessageQueues`, `AgentRecord`, `AgentLoop`, `AgentRun`, `AgentLifecycle` | one response, the queues, the record of a run, the loop of turns, whole runs, and the agent around them |
| `Framing`, `FrameDecoder`, `Codec` | length-prefixed frames, the incremental decoder, and messages over it |
| `ClientRequests`, `ClientLeases`, `Connection` | the client: requests and responses, session leases, and the connection lifecycle |
| `CatalogRefresh` | concurrent catalog refreshes fenced by generations |
| `IndexCache`, `TreeWalks`, `CodeTokens` | the incremental index, the explicit-stack walks, and the identifier splitter |
| `TranscriptSearch`, `SearchAgreement` | the streaming transcript search, the batch search, and when they agree |
| `Results` | options, results and concatenation |

`dafny verify dfyconfig.toml` checks everything.

## How the environment appears

- A run is driven by a finite script: for each turn the provider's events and result, what the hooks around the turn
  make of the context they are given, and for each call whether its tool exists, its arguments are valid, a hook blocks
  it, what it leaves, and whether a background task running it would die. Whether the run is cancelled by the next
  sample of its token, which background task moves next and when it dies, and what was queued since the last poll are
  arbitrary choices inside the methods that ask, as is what a listener calls back. A contract therefore holds for
  every such behaviour. A cancelled token stays cancelled, and once it is, a tool may leave anything.
- A run is unfinished only when the whole script has been played; it then stands at the head of the inner loop, so what
  `RunLoop` says of that point holds at every loop head of every run.
- A provider begins a message at most once per response. `ShownWellFormedIff` shows that the trace is well formed
  exactly under that condition.
- Hashing, parsing, JSON text, character classes, lowercasing and the wording of reminders and tool errors are
  parameters, with the properties a statement needs among its conditions.
- State machines with interleaving (`CatalogRefresh`, `ClientLeases`) are lists of atomic steps; the statements are
  about every list.
- Ghost fields record what happened: the trace, the messages that ended, what a queue was given and gave, the order of
  state changes.

## Findings

- Giving back a lease after its session was invalidated and leased again makes the count wrong and lets an exclusive
  lease be granted beside a shared one. `StepExactIff` has the exact condition, `DueIff` puts
  it in terms of what a caller knows of its leases, `StaleGiveBackBreaksExclusion` and `StaleLeaseReachable` are the
  example.
- `UpdateFile` drops a file that no longer parses from the index but keeps its cached entry; and when the full-text
  index does not take a file, its new symbols are in the index while the cache keeps the old entry. If the content is
  then put back, the next scan skips the file as unchanged and its symbols stay missing (`EditAndPutBack`); a scan puts a
  file right exactly when it re-indexes it or finds it gone. An incremental refresh keeps the old entry of a file that
  became unreadable or stopped parsing, where a rebuild has none: `RefreshIsRebuildIff`.
- The two transcript searches can disagree when some character has a longer lowercase form: `HitsPartIff` has the exact
  condition at every start, `SearchesAgreeIff` the one on the lists, `LongNeedleLists` what the lists are when the needle
  itself has such a character, and `LongLowercaseDisagrees` a transcript.
- A disconnect ends only the handles of sessions that still have a count (`DisconnectEndsHandleIff`). A handle opened
  on a lease that was invalidated while its attach was in flight can survive one: `SurvivesDisconnect`.
  `DisconnectEndsHandles` says which handles of a run do.
- Listeners hear of a result after its request has left the table and before it is settled. If one disposes of the
  client or tears the connection down there, that request is still open when the call returns, and may succeed later:
  `DisposeFromListener`. `Dispose` and `Fail` have the exact condition, and once the outermost call has returned without
  a connection no request is open (`OnResponse`).
- Only the first call of a batch can ever earn a reminder: `Observe`.

## Model

| member | source | states |
|---|---|---|
| AgentTrace.AgentState.ProcessEvent | crates/notagent-agent/src/agent.rs:724-758 | After any event the visible messages are the history followed by every message that ended so far, the stage is the automaton's, and while the trace is well formed the streaming message is the open one and only unended executions are pending (none at all outside a turn). |
| AgentTrace.AgentState.EmitMessage | crates/notagent-agent/src/agent_loop.rs:125-135 | A message emitted whole is opened and ended once and joins both the turn and the visible messages. |
| AgentTrace.AgentState.EndRun | crates/notagent-agent/src/agent.rs:694-702 | Closing a run leaves nothing streaming or pending and every message on record. |
| AgentTrace.StillMirrors | crates/notagent-agent/src/agent.rs:724-758 | From any stage, an event that keeps the trace well formed keeps the reducer's streaming message and pending set in step with it. |
| AgentTrace.StartFirstEndLast | crates/notagent-agent/src/agent_loop.rs:124-125 | In a well-formed trace `AgentStart` is exactly the first event, and an `AgentEnd` is the last one. |
| AgentTrace.TurnsAlternate | crates/notagent-agent/src/agent_loop.rs:216-221 | In a well-formed trace the next turn boundary after a `TurnStart` is a `TurnEnd`, and the other way round. |
| AgentTrace.StartedEndsInTurn | crates/notagent-agent/src/agent_loop.rs:897-901 | From any point of a turn to its `TurnEnd`, every tool execution id is ended at least as often as it is started. |
| AgentTrace.StartIsEnded | crates/notagent-agent/src/agent_loop.rs:897-901 | Every tool execution that starts is followed by an end of its id before the turn ends. |
| AgentTrace.EndHasStart | crates/notagent-agent/src/agent_loop.rs:675-697 | Every `MessageEnd` closes the message of its own `MessageStart`, with nothing but updates in between. |
| CallKeys.CanonicalIffSameValue | crates/notagent-agent/src/repeat_breaker.rs:154-170 | Two argument trees become identical exactly when they are equal as nested unordered objects, at every depth and for every key order. |
| CallKeys.CanonicalKeepsValue | crates/notagent-agent/src/repeat_breaker.rs:154-170 | The canonical tree is well formed and still the same unordered value. |
| CallKeys.CanonicalIdempotent | crates/notagent-agent/src/repeat_breaker.rs:154-170 | Canonicalising twice changes nothing more. |
| CallKeys.CanonicalFieldsAre | crates/notagent-agent/src/repeat_breaker.rs:156-165 | The canonical fields are exactly the canonical forms of the fields, in strictly ascending key order. |
| CallKeys.SortedUnique | crates/notagent-agent/src/repeat_breaker.rs:157-158 | Two strictly sorted field lists with the same members are one list. |
| CallKeys.SplitAtLastNul | crates/notagent-agent/src/repeat_breaker.rs:151 | A NUL followed by NUL-free text can be taken apart in one way only, whatever stands before it. |
| CallKeys.SameKeyIffSameCall | crates/notagent-agent/src/repeat_breaker.rs:147-152 | Two calls get one key exactly when they have the same name and the same unordered arguments, given JSON text that is injective and free of NUL; names may be any text. |
| RepeatBreaking.ApplyOnlyAppends | crates/notagent-agent/src/repeat_breaker.rs:77-93 | A reminder comes last, every block that was there stays in its place and is only extended if it is the last text, and nothing else of the result changes. |
| RepeatBreaking.StreakIsLongest | crates/notagent-agent/src/repeat_breaker.rs:99-130 | The streak is the length of the longest suffix of equal keys: a suffix of n keys is constant exactly when n is at most the streak. |
| RepeatBreaking.NextInBatch | crates/notagent-agent/src/repeat_breaker.rs:112-125 | An adjacent copy in a batch changes nothing; any other call after the first starts a streak of one. |
| RepeatBreaking.RepeatBreaker.Observe | crates/notagent-agent/src/repeat_breaker.rs:112-135 | The deduplicated keys of the batch join those counted; only the first call of a batch can be nudged, by the streak it completes; and the handoff is armed exactly when it was, or when that nudge stops the run. |
| RepeatBreaking.RepeatBreaker.Count | crates/notagent-agent/src/repeat_breaker.rs:121-131 | Counting a key leaves the streak the longest constant suffix of what was counted, and yields the nudge of that streak. |
| RepeatBreaking.RepeatBreaker.TakeHandoff | crates/notagent-agent/src/repeat_breaker.rs:137-145 | Reports and clears a pending handoff; taking one forgets all keys, otherwise they stay. |
| RepeatBreaking.BatchBound | crates/notagent-agent/src/repeat_breaker.rs:112-135 | A batch observed while no handoff is pending leaves the streak at most at the stop threshold. |
| RepeatBreaking.StreakNeverExceedsStop | crates/notagent-agent/src/repeat_breaker.rs:99-145 | In no run of batches and user inputs, with the handoff taken before each batch, does a streak exceed the stop threshold. |
| ToolBatches.RejectToolCalls | crates/notagent-agent/src/agent_loop.rs:797-825 | Every call is answered by one error result with the given reason, in order, each announced by the end of an execution that was started, with nothing left running; the batch terminates as told. |
| ToolBatches.PrepareToolCall | crates/notagent-agent/src/agent_loop.rs:1100-1180 | Once the run is cancelled no call is prepared, and whatever is settled at once is an error; uncancelled, exactly a call whose tool exists, whose arguments are valid and which no hook blocks is prepared. |
| ToolBatches.RunToEnd | crates/notagent-agent/src/agent_loop.rs:903-940 | A started call is ended once, after all its updates, with its reminder at the end of the result and that very result announced; uncancelled, the result is what the tool and the hook after it leave, or the error of its preparation. |
| ToolBatches.ExecuteSequential | crates/notagent-agent/src/agent_loop.rs:883-951 | One result per call, with its id and name, in source order, each announced before it is reported; uncancelled, each is what its call is due; nothing left running; and the batch terminates exactly when it is not empty and every result asks for it. |
| ToolBatches.ExecutedIsDue | crates/notagent-agent/src/agent_loop.rs:883-951 | Uncancelled, there is one batch a list of calls can come to: their fates decide every result and whether the batch terminates. |
| ParallelBatches.Preflight | crates/notagent-agent/src/agent_loop.rs:966-1028 | Starting a call, and settling it at once or spawning its task, while earlier tasks run before and after, keeps the books: calls not marked ended are the only ones owed an end, every outcome held was announced and is what its call is due, and a call without task and entry is one whose task died. |
| ParallelBatches.StepTask | crates/notagent-agent/src/agent_loop.rs:1003-1025 | Any step of any background task (update, end, return, or death before or after its end) keeps the books. |
| ParallelBatches.JoinToolCalls | crates/notagent-agent/src/agent_loop.rs:1076-1085 | Joining in any order leaves no task, an entry for every task that returned, at most one per call, and none exactly where the task died. |
| ParallelBatches.FillIn | crates/notagent-agent/src/agent_loop.rs:1032-1055 | A call no task answered, because its task died, is ended with an error and gets an entry; one that has an entry is left alone. |
| ParallelBatches.AtOwnIndex | crates/notagent-agent/src/agent_loop.rs:1056-1057 | Entries in ascending order that hold every index below n, and no other, are at their own index. |
| ParallelBatches.SortedOutcomes | crates/notagent-agent/src/agent_loop.rs:1030-1063 | After the sort by index, entry i is the announced outcome of call i, for every completion order and every set of dead tasks. |
| ParallelBatches.ExecuteParallel | crates/notagent-agent/src/agent_loop.rs:953-1074 | Whatever order the tasks end in, and whichever of them die, there is exactly one result per call with its id and name, in source order, each announced by the end of its execution with its reminder in place, and nothing is left running; uncancelled, a call whose task returned reports what the tool left, and only one whose task died gets the error instead. |
| ParallelBatches.ExecuteToolCalls | crates/notagent-agent/src/agent_loop.rs:840-881 | The same on either path: one result per call in source order, what the call is due unless the run is cancelled, reminders applied before the results are announced. |
| AssistantStream.FinishAssistantMessage | crates/notagent-agent/src/agent_loop.rs:675-697 | The final message replaces the streamed one or is added, and ends exactly once either way; the context gains one message. |
| AssistantStream.FinishCancelledResponse | crates/notagent-agent/src/agent_loop.rs:519-533 | A cancelled response ends as an aborted message that keeps what was streamed. |
| AssistantStream.StreamAssistantResponse | crates/notagent-agent/src/agent_loop.rs:536-673 | Exactly one assistant message is started and ended, and it follows the context, or what the preparation hook made of it; an already cancelled run aborts; and a run still not cancelled gets the hook's context and the provider's final message, or the error of a failed hook. |
| AssistantStream.Receive | crates/notagent-agent/src/agent_loop.rs:612-673 | Whatever the provider streams and whenever the run is cancelled, the context gains exactly the final message. |
| AssistantStream.ShownWellFormedIff | crates/notagent-agent/src/agent_loop.rs:631-661 | What a provider's events show is well formed exactly when they begin the message at most once. |
| MessageQueues.PendingMessageQueue.Enqueue | crates/notagent-agent/src/agent.rs:69-71 | The message goes to the end of what was ever queued. |
| MessageQueues.PendingMessageQueue.Drain | crates/notagent-agent/src/agent.rs:77-88 | Draining takes everything, or the first message, by mode, and what was queued is what was delivered followed by what is left, in order. |
| AgentLoop.FinishCancelledTurn | crates/notagent-agent/src/agent_loop.rs:499-517 | The abort is recorded as one more message and the run is closed by an `AgentEnd` that carries all new messages. |
| AgentLoop.FinishCancelledAfterTurn | crates/notagent-agent/src/agent_loop.rs:450-463 | Either the run was not cancelled and nothing happens, or it gets an aborted turn of its own and is closed. |
| AgentLoop.Inject | crates/notagent-agent/src/agent_loop.rs:228-242 | Queued messages are emitted and join context and new messages in order, and any of them makes the streak forgotten. |
| AgentLoop.RunCalls | crates/notagent-agent/src/agent_loop.rs:278-313 | The handoff is taken for every response; after a forced stop the calls are refused and the tool loop ends, calls of a truncated response are refused and it goes on, and any others are executed with the reminders the streak earns; uncancelled, the batch is the one the calls are due; each call is answered in order, and the streak stays bounded. |
| AgentLoop.FinishTurn | crates/notagent-agent/src/agent_loop.rs:278-327 | The results follow the assistant message one for one in context and new messages, the turn ends with nothing open or running, and uncancelled its results, and whether the loop goes on, are what its calls are due. |
| AgentLoop.AfterTurn | crates/notagent-agent/src/agent_loop.rs:329-418 | The run goes on, uncancelled, with what steering delivered and with what the hook made of the context, unless a hook asks to stop; then it is closed with nothing drained; a cancellation closes it with an aborted message. Going on with nothing delivered means the steering queue is empty. |
| AgentLoop.OneTurn | crates/notagent-agent/src/agent_loop.rs:216-418 | One round leads from the head of the inner loop to its head again, with the turn the script has next: its message is what the response comes to in this context, its results are what its calls are due, and the context is what the hooks made of both. Otherwise the run ends, without a cancellation only because that turn failed or a hook asked to stop; the new messages are what ended, and only a cancelled run may drop what the queues delivered. |
| AgentLoop.InnerLoop | crates/notagent-agent/src/agent_loop.rs:216-419 | The head condition holds at every head of the inner loop. It is left for follow-ups only after a turn with no further tool calls and with an empty steering queue; without an end only when every response of the script has been played; and with an end only by a cancellation, a failed turn or a hook that asked to stop. |
| AgentLoop.FollowUp | crates/notagent-agent/src/agent_loop.rs:421-447 | Follow-ups are drained only then; they start another round, and without them the run is closed, uncancelled only with both queues empty. |
| AgentLoop.RunLoop | crates/notagent-agent/src/agent_loop.rs:194-448 | At every loop head of every run the turns are exactly those the script plays out, message by message and result by result, and the context is what the hooks made of them; the new messages are the prompts and the transcript and equal the messages that ended. A run ends only because its last turn failed, a hook asked to stop, nothing is left in calls or queues, or it was cancelled, and then only its last turn is cut short; otherwise it goes on until the script is used up. Queues lose nothing unless the run is cancelled; and the streak never exceeds the stop threshold. |
| AgentRecord.EveryTurn | crates/notagent-agent/src/agent_loop.rs:281-313 | In a good record each assistant message that did not fail is answered call by call, follow-ups follow only turns without more to do, and calls are refused exactly when the calls up to the turn before reached the stop threshold and the user did not speak in between. |
| AgentRecord.RunIsDetermined | crates/notagent-agent/src/agent_loop.rs:194-448 | Two uncancelled runs given the same, to whose turns the queues delivered the same, have the same turns: message by message, result by result, whatever order background tasks ended in. |
| AgentRecord.KeptContext | crates/notagent-agent/src/agent_loop.rs:329-376 | When no hook changes the messages, the context after every turn is history, prompts and transcript. |
| AgentRun.Run | crates/notagent-agent/src/agent_loop.rs:104-187 | A run is unfinished only when its whole script has been played out. A finished one leaves a complete trace: well formed, closed by one last `AgentEnd` that carries exactly the messages that ended; not cancelled, its turns are exactly those the script plays out, it has used what both queues delivered, in order, and unless its last turn ended it on the spot both are empty. Without a stream function the turn stays open and nothing was played. |
| AgentRun.RunAgentLoop | crates/notagent-agent/src/agent_loop.rs:104-153 | The same for a prompted run, given the context as history, whose new messages begin with the prompts; the visible messages become history and new messages. |
| AgentRun.RunAgentLoopContinue | crates/notagent-agent/src/agent_loop.rs:155-187 | A continued run starts exactly when the context is not empty and does not end in an assistant message, and then the same holds of it; otherwise nothing at all happens. |
| AgentLifecycle.Agent.HandleRunFailure | crates/notagent-agent/src/agent.rs:652-692 | A failure is put on record as one assistant message, in whatever state the trace is. |
| AgentLifecycle.Agent.CloseRun | crates/notagent-agent/src/agent.rs:629-722 | The agent is at rest afterwards; a cancelled run has an aborted message among its own; and one is added exactly when it was missing. |
| AgentLifecycle.Agent.AbortRecorded | crates/notagent-agent/src/agent.rs:629-642 | Says whether the messages of this run hold an aborted assistant message. |
| AgentLifecycle.Agent.RunWithLifecycle | crates/notagent-agent/src/agent.rs:597-650 | Refused, with nothing changed, exactly when a run is active. Otherwise what happened is a run as above, given the messages so far, or a failure to start one. The signal reported is the one given, or a cancellation of it, except that recording an abort reports one. A run stays unfinished only with its script used up; finished, the agent is at rest, earlier messages are kept, a cancelled run has an aborted message on record, and a run not cancelled adds exactly its new messages, or one failure message. |
| AgentLifecycle.Agent.ChooseContinuation | crates/notagent-agent/src/agent.rs:433-461 | After an assistant message queued steering becomes the prompt before follow-ups; it fails exactly when there is nothing to go on with, and then drains nothing. |
| Framing.LengthRoundTrip | crates/notagent-protocol/src/framing.rs:60-77 | Reading the four big-endian header bytes of any length below 2^32 gives that length back. |
| Framing.HeaderRoundTrip | crates/notagent-protocol/src/framing.rs:72-77 | Writing the length read from any four header bytes gives those bytes back. |
| Framing.CompleteFrameIff | crates/notagent-protocol/src/framing.rs:79-102 | A byte string is accepted as one complete frame exactly when it is the encoding of a payload within the limit. |
| Framing.ParseAppend | crates/notagent-protocol/src/framing.rs:136-212 | Parsing a stream after more bytes arrive is parsing its remainder with those bytes. |
| Framing.ParseSound | crates/notagent-protocol/src/framing.rs:136-212 | The stream is the encodings of the parsed frames followed by the remainder, and the remainder holds no whole frame. |
| Framing.ParseEncoded | crates/notagent-protocol/src/framing.rs:60-70 | Encoded payloads within the limit parse back to themselves, with nothing left over. |
| FrameDecoding.FrameDecoder.New | crates/notagent-protocol/src/framing.rs:124-134 | A decoder is refused exactly when its configured limit is, and starts with nothing held. |
| FrameDecoding.FrameDecoder.Push | crates/notagent-protocol/src/framing.rs:136-212 | The block-buffered decoder does to every chunk, in every state, what the five-line stream parser says, failures included. |
| FrameDecoding.FrameDecoder.StepPayload | crates/notagent-protocol/src/framing.rs:174-210 | Payload bytes taken into blocks of 65536 and a frame handed out when whole are what the stream parser makes of the same bytes. |
| FrameDecoding.FrameDecoder.TakePayload | crates/notagent-protocol/src/framing.rs:177-196 | Every block but the last stays full, no byte beyond the frame or the chunk is taken, and the blocks hold exactly the bytes taken. |
| FrameDecoding.FrameDecoder.End | crates/notagent-protocol/src/framing.rs:215-226 | Ends exactly as the stream view says, and is refused while bytes are held. |
| FrameDecoding.RunRefinesParser | crates/notagent-protocol/src/framing.rs:136-212 | For every way of cutting a stream into chunks, the frames delivered are those of the whole stream, and what is held is its remainder. |
| FrameDecoding.PushFailsIff | crates/notagent-protocol/src/framing.rs:157-166 | A push fails exactly when the stream up to it holds an oversized header: the one that completes it for the limit, every later one because the decoder has failed. |
| FrameDecoding.DecodingInvertsEncoding | crates/notagent-protocol/src/framing.rs:60-226 | However the encodings of payloads within the limit are cut into chunks, empty ones included, exactly those payloads come out and the decoder may end. |
| FrameDecoding.EndSucceedsIff | crates/notagent-protocol/src/framing.rs:215-226 | `end` succeeds exactly when the bytes pushed are whole frames within the limit. |
| MessageCodec.ValidatedMessageDecoder.Push | crates/notagent-protocol/src/codec.rs:152-182 | The message decoder returns what its functional view says for every chunk and state. |
| MessageCodec.MessageRunRefinesStream | crates/notagent-protocol/src/codec.rs:152-182 | For every chunking the messages received are those of the frames of the whole stream. |
| MessageCodec.ReceiveFailsIff | crates/notagent-protocol/src/codec.rs:152-182 | A push fails exactly when the stream so far is oversized or holds a frame that does not parse, and the failure is sticky. |
| MessageCodec.MessagesSurviveTransport | crates/notagent-protocol/src/codec.rs:112-182 | Messages whose payloads parse back survive encoding, any cutting into chunks, and decoding. |
| MessageCodec.ValidatedMessageDecoder.End | crates/notagent-protocol/src/codec.rs:192-207 | Ending follows the frame decoder, and fails for good once anything failed. |
| ClientRequests.IdsUnique | crates/notagent-client/src/client.rs:331-366 | Ids built from different sequence numbers differ. |
| ClientRequests.RequestTable.Request | crates/notagent-client/src/client.rs:337-384 | A request is issued exactly when connected and not disposed, under an id not in the table; it stays open in the table, or is settled at once when it cannot be built or sent. |
| ClientRequests.RequestTable.Listener | crates/notagent-client/src/client.rs:990-1015 | Whatever a listener calls back, nested to any depth, promises are only added, a settled one stays as it is, one being answered is left to its answer, and every other open one is in the table under its own id. |
| ClientRequests.RequestTable.OnResponse | crates/notagent-client/src/client.rs:959-1002 | The request a response names is settled by it, successfully only by a result of the same command, whatever listeners do between its leaving the table and its settling; an error settles that request alone; an unknown id or another command tears the connection down with every other open request rejected; and when the outermost call returns with the connection gone, no request is open. |
| ClientRequests.RequestTable.RejectPendingRequests | crates/notagent-client/src/client.rs:390-400 | Every open request that is not being answered is rejected with the error, settled ones stay as they were, and the table is empty. |
| ClientRequests.RequestTable.Fail | crates/notagent-client/src/client.rs:985-997 | Every request issued before is settled when a teardown returns, exactly if no open one was being answered when it began. |
| ClientRequests.RequestTable.OnStateChange | crates/notagent-client/src/client.rs:1004-1013 | After any change to disconnected every request that was open is rejected with its error, except those being answered; and no promise ever settles twice. |
| ClientRequests.RequestTable.Dispose | crates/notagent-client/src/client.rs:905-924 | When disposing returns every request ever issued is settled, exactly if no open one was being answered when it was called. |
| ClientRequests.DisposeFromListener | crates/notagent-client/src/client.rs:905-1002 | A listener that disposes of the client from inside the notification of a result: the request is open when the call returns, and succeeds afterwards. |
| ClientRequests.FirstSettlementStays | crates/notagent-client/src/promise.rs:17-31 | Of any number of settlements of an open promise the first decides it, and no other promise changes. |
| ClientLeases.RefusedIff | crates/notagent-client/src/client.rs:402-439 | In every run that gives back only leases that are due, an exclusive reservation is refused exactly when some lease of the session is outstanding, and a shared one exactly when an exclusive lease is. |
| ClientLeases.ReleaseUndoesReserve | crates/notagent-client/src/client.rs:402-457 | Releasing what was just reserved restores the tables, up to the number used, exactly when an exclusive reservation did not displace an owner whose count was already gone. |
| ClientLeases.ReleasesCommute | crates/notagent-client/src/client.rs:441-457 | Any two releases give the same tables in either order. |
| ClientLeases.RemovalLosesLeases | crates/notagent-client/src/client.rs:459-471 | Removing a session loses each of its leases for good, in every continuation, leaves those of other sessions as they were, and lets it be leased in either mode with a count of one. |
| ClientLeases.LeaseNeverReturns | crates/notagent-client/src/client.rs:402-479 | A lease given back or of a passed generation is never outstanding again. |
| ClientLeases.LeaseTable.InvalidateAllSessionLeases | crates/notagent-client/src/client.rs:473-479 | In whatever order the sessions are visited, exactly those with a count are invalidated, once each. |
| ClientLeases.GiveBackExactIff | crates/notagent-client/src/client.rs:441-457 | From exact tables, giving a lease back leaves exact tables exactly when it is still held or its session holds nothing. |
| ClientLeases.DueIff | crates/notagent-client/src/client.rs:402-479 | In every run a lease is held exactly when it was not given back and its session is still in the generation it was reserved in, so what a caller knows of its leases decides whether giving one back is due. |
| ClientLeases.StepExactIff | crates/notagent-client/src/client.rs:402-479 | From exact tables, any step leads to exact tables exactly when every lease it gives back is due. |
| ClientLeases.CountsAreExact | crates/notagent-client/src/client.rs:402-479 | In every run that gives back only due leases, the count of a session is its number of outstanding leases and an exclusive lease is alone. |
| ClientLeases.StaleGiveBackBreaksExclusion | crates/notagent-client/src/client.rs:259-283 | Why that condition is there: giving back a stale lease of a session with one shared lease lets an exclusive lease be granted beside it. |
| ClientLeases.StaleLeaseReachable | crates/notagent-client/src/client.rs:242-283 | The state that goes wrong is reached by reserving, removing the session and reserving again. |
| ClientLeases.DeadForever | crates/notagent-client/src/client.rs:664-700 | A handle that is released, voided or of a passed generation is never reported active again, in any run, even if a release in flight fails. |
| ClientLeases.InvalidationKills | crates/notagent-client/src/client.rs:459-479 | Removing a session kills each of its handles; a disconnect kills exactly those of sessions that still have a count. |
| ClientLeases.NeverActiveIff | crates/notagent-client/src/client.rs:648-830 | In any state a handle is never active again, in whatever continuation, exactly when it is dead or its release in flight ends it however that release ends. |
| ClientLeases.DisconnectEndsHandleIff | crates/notagent-client/src/client.rs:473-479 | Losing the connection ends a handle for good exactly when it was so already or its session had a count. |
| ClientLeases.LiveHandleHeldIff | crates/notagent-client/src/client.rs:648-830 | In every run in which an acquire has one outcome, whatever was invalidated while its attach was in flight, a live handle holds its lease exactly when it was opened in the generation the lease was reserved in. |
| ClientLeases.DisconnectEndsHandles | crates/notagent-client/src/client.rs:1004-1013 | In such a run that gives back only due leases, a disconnect ends a handle for good exactly when it was doomed or some lease of its session was outstanding; so it ends every handle opened in the generation of its lease. |
| ClientLeases.SurvivesDisconnect | crates/notagent-client/src/client.rs:519-530 | A handle opened on a lease that was invalidated during its attach is active again after a disconnect, a reconnect and an attachment. |
| ClientConnection.InOrderIffPrefixOfRounds | crates/notagent-client/src/connection.rs:29-68 | The order every state keeps is exactly: a prefix of (Connecting Connected? Disconnected)*. |
| ClientConnection.Connection.Listener | crates/notagent-client/src/connection.rs:499-514 | Any number of nested connects and disconnects from inside a callback keep the connection valid: the log only grows in order, and settled promises stay settled. |
| ClientConnection.Connection.Connect | crates/notagent-client/src/connection.rs:126-197 | While a lifecycle is active the new promise is rejected and nothing else happens; otherwise the epoch grows and subscribers hear Connecting. |
| ClientConnection.Connection.Disconnect | crates/notagent-client/src/connection.rs:199-204 | Tears an active lifecycle down: subscribers hear it, the epoch grows, and the owed promise is rejected with the reason. |
| ClientConnection.Connection.DoFail | crates/notagent-client/src/connection.rs:475-497 | The same for any failure, and nothing when already down. |
| ClientConnection.Connection.HandleHandshakeMessage | crates/notagent-client/src/connection.rs:355-449 | Only a hello on an open transport can resolve the owed promise, and only after subscribers heard Connected; with listeners that call nothing back it does, unless one panics, and leaves the connection up; every other handshake message tears down; re-entrant listeners are noticed by the epoch. |
| ClientConnection.Connection.HandleData | crates/notagent-client/src/connection.rs:281-353 | Data of another lifecycle changes nothing; data that comes too early or cannot be decoded tears the connection down; any message during the handshake ends the handshake; and with listeners that call nothing back, the lifecycle afterwards is what the messages make of it in order, and a `connect` succeeds exactly by a hello as the first of them. |
| ClientConnection.Connection.TransportOpened | crates/notagent-client/src/connection.rs:234-279 | A transport is attached only to the lifecycle that asked for it; a failed one tears only that one down. |
| ClientConnection.Connection.TransportClosed | crates/notagent-client/src/connection.rs:451-465 | A closed transport tears down only its own lifecycle. |
| ClientConnection.ReachableStates | crates/notagent-client/src/connection.rs:29-68 | In every reachable state subscribers have seen such a prefix, at most one connect promise is open, and none once the connection is down. |
| CatalogRefresh.Models.SupersedeProviderRefresh | crates/notagent-ai/src/models.rs:287-297 | The generation grows by one and the registered token is cancelled and dropped. |
| CatalogRefresh.Models.BeginProviderRefresh | crates/notagent-ai/src/models.rs:299-308 | A refresh begins by superseding, then registers a token of its own. |
| CatalogRefresh.PublicationsInOrder | crates/notagent-ai/src/models.rs:329-376 | In every interleaving of refreshes and supersedes, store writes and in-memory updates of a provider happen in nondecreasing generation order, wherever a supersede lands. |
| CatalogRefresh.FinishingTestIsIdentity | crates/notagent-ai/src/models.rs:421-437 | In every reachable state the finishing test of an unfinished refresh holds exactly for its own token; finishing leaves its provider without an entry exactly when it had none or its own, and every other token registered as it was. |
| CatalogRefresh.SupersededIsFenced | crates/notagent-ai/src/models.rs:329-376 | Once superseded, a refresh has at most one more effect in any continuation, and none unless it had just passed a check. |
| CatalogRefresh.TaskStepMoves | crates/notagent-ai/src/models.rs:329-437 | Every step of a refresh moves that refresh alone, holds the provider's lock exactly during a publication, has at most the one effect a check admitted, and passes a check only while current. |
| CatalogRefresh.RunKeepsInv | crates/notagent-ai/src/models.rs:287-437 | Any run keeps the invariant: locks exclusive, effects ordered, no task of a later generation, tokens owned. |
| IndexCache.IndexManager.constructor | crates/notagent-index/src/watcher.rs:192-199 | Opening on a loaded cache leaves the index agreeing with it for every file. |
| IndexCache.IndexManager.IndexWorkspace | crates/notagent-index/src/watcher.rs:252-414 | From any state, agreeing or not: the cache becomes the refreshed one; the index answers the new symbols of a re-indexed file, none for one that vanished, and what it answered before for any other; so a file agrees with its cached entry afterwards exactly when it was re-indexed, vanished, or agreed before; and the number returned is that of files re-indexed. |
| IndexCache.ScanAgreesIff | crates/notagent-index/src/watcher.rs:313-318 | A scan puts a file right exactly when it re-indexes it or finds it gone; a file skipped as unchanged stays as wrong or right as it was. |
| IndexCache.IndexManager.EditAndPutBack | crates/notagent-index/src/watcher.rs:313-450 | An edit that does not parse, then put back: the next scan skips the file, and its symbols stay missing from the index. |
| IndexCache.IndexManager.DropVanished | crates/notagent-index/src/watcher.rs:274-294 | From any state, files the scan no longer lists are gone from the cache and answered by nothing, and every other file is left as it was. |
| IndexCache.IndexManager.UpdateFile | crates/notagent-index/src/watcher.rs:422-472 | From any state: unchanged content changes nothing; a failed parse, or a full-text index that does not take the file, is reported, and the cache keeps its entry; no other file is touched; and the file agrees with its cached entry afterwards exactly when it was re-indexed, or was unchanged and agreed before, or the symbols now in the index happen to be the cached ones. |
| IndexCache.RefreshIsRebuildIff | crates/notagent-index/src/watcher.rs:252-414 | With collision-free hashes an incremental refresh equals a rebuild from nothing exactly when every scanned file with a cached entry can be read and parsed now. |
| IndexCache.AnyHistoryThenCleanScanIsRebuild | crates/notagent-index/src/watcher.rs:252-472 | After any history of scans and single-file updates, whatever failed in between, a scan whose files can all be read and parsed leaves the cache a rebuild would. |
| IndexCache.HistorySound | crates/notagent-index/src/persistence.rs:107-128 | In any history of scans and updates every cached entry of a supported file is what some content of it gives. |
| TranscriptSearch.SearchScanner.Append | crates/notagent-tui/src/alt_screen_search.rs:123-161 | The window is always the tail of what was appended, never longer than the needle, and the matches are those of everything appended. |
| TranscriptSearch.SearchScanner.PushLine | crates/notagent-tui/src/alt_screen_search.rs:163-195 | A line adds to the scanned text exactly what the corpus of that line adds. |
| TranscriptSearch.Scan | crates/notagent-tui/src/alt_screen_search.rs:112-200 | Feeding lines 0..n in order reports every match over the whole corpus, in order. |
| TranscriptSearch.BuildSearchCorpus | crates/notagent-tui/src/alt_screen_search.rs:48-84 | The corpus built in place is the functional one, of which `CorpusIs` says what it is. |
| TranscriptSearch.CorpusIs | crates/notagent-tui/src/alt_screen_search.rs:48-84 | For every transcript: the entries with a place are every character of every grapheme that is not blank, in reading order, each at its row and columns; a separator never comes first or last or beside another, and none is left out where two neighbours do not touch in one row. |
| TranscriptSearch.SearchHaystack | crates/notagent-tui/src/alt_screen_search.rs:203-268 | The batch search lists the matches at exactly the starts where the haystack agrees, with their segments. |
| SearchAgreement.ScannerAgreesWithBatch | crates/notagent-tui/src/alt_screen_search.rs:112-268 | When lowercasing is one-to-one on the characters involved, the scanner and the batch search report the same list, segments included. |
| SearchAgreement.HitsPartIff | crates/notagent-tui/src/alt_screen_search.rs:203-236 | For every needle and text, the two searches differ at a start exactly when, with a needle of one-to-one lowercasing, some character of the text has a longer lowercase form and the scanner hits there a window holding a capital outside ASCII, or, with any other needle, either search hits there. |
| SearchAgreement.NeverTogether | crates/notagent-tui/src/alt_screen_search.rs:203-236 | A needle holding a character with a longer lowercase form is never found by both searches at one start. |
| SearchAgreement.SearchesAgreeIff | crates/notagent-tui/src/alt_screen_search.rs:112-268 | For every transcript and every needle of one-to-one lowercasing, the two lists are equal exactly when every character of the text has a one-character lowercase form or no occurrence the scanner finds holds a capital outside ASCII. |
| SearchAgreement.LongNeedleLists | crates/notagent-tui/src/alt_screen_search.rs:112-268 | For every transcript and every other needle, each list is empty exactly when its search hits nowhere, the scanner hits nowhere when the lowercasing of the text is one-to-one, and the two never hit at one start: the lists are equal when neither hits and differ when just one of them does. |
| SearchAgreement.LongLowercaseDisagrees | crates/notagent-tui/src/alt_screen_search.rs:203-268 | On one transcript line of two characters, a capital outside ASCII and a character of longer lowercase form, the scanner finds the capital and the batch search finds nothing. |
| TreeWalks.ExtractSymbols | crates/notagent-index/src/index.rs:168-211 | On every tree the explicit-stack extraction yields the symbols of the recursive traversal, in source order and with the same parents, and terminates. |
| TreeWalks.PushedChildren | crates/notagent-index/src/index.rs:198-208 | Children pushed in reverse are owed in source order, and the stack shrinks by the node popped. |
| TreeWalks.VisitNodes | crates/notagent-index/src/chunking.rs:48-94 | The explicit-stack visit yields the chunk nodes of the recursive walk, in source order, and terminates. |
| TreeWalks.ChunkedIffOutermost | crates/notagent-index/src/chunking.rs:48-94 | A node is chunked exactly when it is a chunk node with no chunk node above it. |
| TreeWalks.SplitAndPush | crates/notagent-index/src/chunking.rs:152-180 | A chunk within the limits is kept whole; any other becomes its pieces, after what was there. |
| TreeWalks.PiecesTile | crates/notagent-index/src/chunking.rs:158-179 | Pieces tile a prefix of the lines with the right rows, none longer than allowed, and with two or more lines per piece lose at most one empty line at the very end. |
| CodeTokens.SplitCodeTokens | crates/notagent-index/src/bm25.rs:319-381 | The tokens are those of a correct cut of the text: every token the lowercased slice of its byte range. |
| CodeTokens.ReadChar | crates/notagent-index/src/bm25.rs:341-373 | Reading one character keeps the splitter's variables those of a correct cut so far. |
| CodeTokens.TokensDisjoint | crates/notagent-index/src/bm25.rs:325-339 | Byte ranges are not empty and strictly increase without overlap. |
| CodeTokens.InOneToken | crates/notagent-index/src/bm25.rs:341-373 | A character lies in a token exactly when it is a word character, and then in one token only. |
| CodeTokens.SeparatedIffHump | crates/notagent-index/src/bm25.rs:343-369 | Two neighbouring word characters are in different tokens exactly when the boundary is lowercase to uppercase. |
| CodeTokens.CutUnique | crates/notagent-index/src/bm25.rs:319-381 | A text has one correct cut, so these properties determine the tokens. |

## Left out

- Provider clients, credential stores, OAuth, model tables, CBOR and SQLite: input and output, or code not part of this
  model. Payload parsing is a parameter of the message decoder.
- Tool preparation and execution beyond their outcomes: a call's fate says how lookup, validation and hooks end, and
  the grace period of a cancelled tool is an arbitrary outcome.
- A panic inside a tool call that runs in sequence unwinds the whole run: not modelled. Only background tasks die.
- Message metadata, usage, timestamps, tool result details and added tool names: carried along without effect.
- Queued messages after a cancellation: they may be drained and dropped, as the code does; nothing is claimed of them.
- Clearing a queue during a run: `Clear` is modelled, but the loop's environment only adds messages.
- Listeners of the agent: they may cancel and queue, which is covered; other calls from them are not modelled.
- ClientRequests.RequestTable.OnResponse: session and event messages are not modelled: they touch no request, and what
  their listeners call back is a call like any other.
- ClientLeases: attachment promises and cleanup reconciliation between the server and the tables; attaching and
  detaching are steps of their own.
- ClientConnection: calls back into the connection nest to an arbitrary but finite depth; error texts are names.
- CatalogRefresh: beginning a refresh is one step; a store write dropped by an abort has no later effect; the store and
  the lists hold opaque catalogs. Credentials and authentication around a refresh are not modelled.
- IndexCache: the flat symbol map, which re-indexing does not clean, the persisted file formats, and the contents of the
  full-text index, whose failure after a scan is reported with cache and index already written.
- IndexCache: cache keys. The code turns a backslash of a path into a slash, so that two paths may share an entry; the
  model takes keys to be the paths themselves.
- TranscriptSearch: trimming and folding the query; the needle is the folded query.
- TreeWalks: which kinds are chunk nodes, symbol names of chunks, and the Svelte and fallback chunkers.
- CodeTokens: scoring and everything else of the full-text search.
- Frame lengths are bounded by 2^32 - 1 as in the code; every other counter is unbounded.
- Races between two lock acquisitions inside one method: a method body is one step, except in a publication, whose
  checks, write and update are steps of their own.
- FrameDecoding.FrameDecoder.Fail: error messages are constructors; their wording is not modelled.
