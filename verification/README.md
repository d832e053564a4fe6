# Agent runtime: a Dafny model

This project models the parts of the repository that keep state over time and proves what they
promise over every run. `dafny verify dfyconfig.toml` checks all of it.

**The agent runtime** (`packages/agent/src`). `Conversation.dfy` says what one run of the agent loop is:
which messages each turn injects, what the provider streams, how each tool call is served. From that
record functions read off everything the program keeps: the events it emits, the context it sends, the
messages it reports as new, the queued messages it has delivered. `AgentRuntime.dfy` is the program
itself, `Agent` and the nested loops, with queues and fields updated in place; the users, the provider,
the tools and the consumer of the event stream are an environment that may act at every `await`. Each
method is proved against the record. `Replay.dfy`, `AgentTheorems.dfy` and `TraceGrammar.dfy` prove what
follows: the four copies of the conversation agree, tool calls and results pair up in every request,
queued messages are delivered once and in order, and the event order keeps to a grammar.
A run is observed for as long as the environment holds provider replies, so the statements cover every
finished run and every unfinished one up to a turn.

**The proxy client** (`packages/agent/src/proxy.ts`). `ProxyMessage.dfy` rebuilds an assistant message
from events without their `partial` field; `ProxyStream.dfy` decodes the line protocol from arbitrary
chunks. Together: whatever the interleaving of blocks and whatever the chunks, the client ends with the
message the server streamed, except that no event carries the signature of a tool call, and its consumer is
told of every event, in order, with the message as it is then.

**The differential renderer** (`src/Pi.TUI`). `DifferentialRenderer.dfy` models the terminal's screen by
ECMA-48 and proves that a differential render equals clearing the screen and writing every line.

**mom, the Slack bot** (`packages/mom/src`). `ChannelQueue.dfy` is the per-channel queue with the handler's
`running` flag; `LogSync.dfy` the sync from the log to the session and the live prompt it has to
recognise; `EventsWatcher.dfy` the watcher of scheduled event files against the handles that are really
live; `SlackSplit.dfy` the splitting of long replies; `ShellQuote.dfy` the quoting for `sh -c`.

**The C# services** (`src`). `MessageMonitor.dfy` is the polling cursor over a table queried by row id
and ordered by date; `AutoReply.dfy` the rate limits of auto-reply rules; `SessionKey.dfy` the session
keys.

Where the code falls short of what one would expect of it, the condition is proved and a failing case
shown:

- The loop's context, and the event grammar of `packages/agent/README.md`, hold exactly if every provider
  reply streams at most one `start` (`ContextAgreement`, `TraceFollowsGrammar`); a second one leaves a stale
  partial message behind (`SecondStartStaysBehind`). The README states the event flow without this
  condition.
- The proxy client rebuilds the streamed message exactly if no tool call is signed; otherwise it is that
  message without the signatures (`ReconstructsMessage`, `MessageArrives`, `SignedToolCall`).
- The sync recognises a live prompt exactly if both sides name the author alike (the prompt falls back
  to "unknown" where the log falls back to the user id) and the text has no attachments marker, complete
  or completed by the section that follows it (`NormaliseInvertsPrompt`, `OpenMarkerIsLost`).
- A second sync appends every text with a marker again, and besides these only texts that look stamped,
  such as those of a user whose name is a time stamp and a closing bracket (`SecondSync`,
  `SecondSyncByText`, `StampedNameAddedAgain`).
- A version of an immediate or one-shot event file runs at most once, plus once for each action during
  which the world refuses a deletion (`EventsWatcher.Run`). Immediate events and one-shot events without a
  readable date reach this bound for every number of refusals (`RunsAgain`, `UndatedRunsAgain`); one-shot
  events with a readable date run at most once as long as the clock does not go back and no timer fires
  early (`RunOnTime`).
- Whatever the dates, a poll in which nothing throws can lose rows exactly if two waiting rows clash: the one
  with the smaller id is not earlier than the other, and the limit has room for the other but not for all
  rows up to the date of the one (`ClashDecides`; `OutOfStepIsLost` is a table of two rows). When dates agree
  with row ids, that is so exactly if the limit cuts between rows of one date (`TiesDecide`). A row that
  throws is lost exactly if a greater one in its batch succeeds (`ThrowingRow`).
- A command reaches `sh -c` in a container as one argument exactly if the container's name is plain, the name
  being put into the command line as it is (`DockerArguments`).
- Session keys round trip exactly for colon-free names (`ParseBuild`).

## Model

| member | source | states |
|---|---|---|
| AgentRuntime.EventStream.Push | packages/ai/src/utils/event-stream.ts:20-35 | a closed stream accepts nothing; otherwise the event is appended, and `agent_end` closes the stream and fixes its result |
| AgentRuntime.EventStream.End | packages/ai/src/utils/event-stream.ts:37-47 | closes the stream; the result is the first one given |
| AgentRuntime.EventStream.Shift | packages/ai/src/utils/event-stream.ts:49-61 | events are taken in the order they were pushed |
| AgentRuntime.Agent.constructor | packages/agent/src/agent.ts:90-130 | a new agent has empty queues and nothing streaming |
| AgentRuntime.Agent.Steer | packages/agent/src/agent.ts:230-232 | the message joins the end of the steering queue, and dequeued plus waiting is still everything ever queued |
| AgentRuntime.Agent.Follow | packages/agent/src/agent.ts:238-240 | the same for the follow-up queue |
| AgentRuntime.Agent.DequeueSteeringMessages | packages/agent/src/agent.ts:259-272 | takes a prefix of the queue: at most one message in one-at-a-time mode, all of it otherwise, none only if it is empty |
| AgentRuntime.Agent.DequeueFollowUpMessages | packages/agent/src/agent.ts:274-287 | the same for the follow-up queue |
| AgentRuntime.Agent.HandleEvent | packages/agent/src/agent.ts:434-475 | the event switch does to the agent's fields what `Replay.Apply` does to its state |
| AgentRuntime.Consume | packages/agent/src/agent.ts:432-479 | after any number of events the agent's state is its state before the run with the events taken applied in order |
| AgentRuntime.QueuedMeaning | packages/agent/src/agent.ts:230-240 | every message queued joins its own queue behind the earlier ones |
| AgentRuntime.Await | packages/agent/src/agent-loop.ts:114-193 | whatever users queue and the consumer takes at a suspension, state and queues stay those of the events taken and the messages queued |
| AgentRuntime.GetSteeringMessages | packages/agent/src/agent.ts:415-421 | the first poll after a resumed run yields nothing and dequeues nothing; every other poll dequeues, and one that finds nothing leaves waiting only what is queued while it is under way |
| AgentRuntime.GetFollowUpMessages | packages/agent/src/agent.ts:422 | dequeues follow-ups and leaves steering alone |
| AgentRuntime.StreamPartials | packages/agent/src/agent-loop.ts:239-269 | the context gains each `start` and has its last message overwritten by updates; updates before a `start` are dropped; the events are those of the stream |
| AgentRuntime.SendRequest | packages/agent/src/agent-loop.ts:212-236 | the provider is sent exactly the converted context, transformed first if a transformation is configured |
| AgentRuntime.StreamAssistantResponse | packages/agent/src/agent-loop.ts:204-289 | the request is made for the context as it was; the final message replaces the last partial one or is appended; exactly one `message_end` follows |
| AgentRuntime.SkipToolCall | packages/agent/src/agent-loop.ts:380-417 | a skipped call emits start, end and its fixed error result |
| AgentRuntime.ExecuteToolCall | packages/agent/src/agent-loop.ts:305-361 | one call yields one block with the call's id: start, every update of the tool in order, end and the result, which is what the tool returned, the error it threw, or the error that it is missing |
| AgentRuntime.ExecuteToolCalls | packages/agent/src/agent-loop.ts:294-378 | the calls served are those of the reply's blocks, each once and in order: an executed prefix with at least the first, then skipped ones, only when steering arrived; there is one steering poll behind each executed call, all but the last found nothing, and what the last found is returned |
| AgentRuntime.Inject | packages/agent/src/agent-loop.ts:130-138 | pending messages reach the events, the context and the new messages alike, in order |
| AgentRuntime.AddResults | packages/agent/src/agent-loop.ts:167-170 | tool results reach the context and the new messages alike |
| AgentRuntime.BeginTurn | packages/agent/src/agent-loop.ts:123-142 | a turn starts with `turn_start` unless it is the first, then the injected messages, then the reply to exactly that context |
| AgentRuntime.EndTurn | packages/agent/src/agent-loop.ts:144-181 | a reply that stopped with an error or was aborted ends the turn at once; otherwise the tools are served, `turn_end` reports their results and the next injection is the steering found after the tools or polled now |
| AgentRuntime.RunTurn | packages/agent/src/agent-loop.ts:122-182 | one pass of the inner loop extends the run by one well-formed turn, and events, context, new messages and requests stay those of the run |
| AgentRuntime.Step | packages/agent/src/agent-loop.ts:122-182 | a pass keeps the loop's invariant: dequeued messages are those injected plus those in flight, at most one a turn in one-at-a-time mode, and no follow-up overtook steering; a pass that would let the loop stop or poll for follow-ups found the steering queue empty |
| AgentRuntime.RunTurns | packages/agent/src/agent-loop.ts:122-182 | the inner loop ends with nothing in flight, by a failed reply or because the last turn had no tool calls and no steering |
| AgentRuntime.AskFollowUp | packages/agent/src/agent-loop.ts:184-190 | asked for only after a poll that found no steering; the follow-ups are then in flight, behind all steering queued before that poll; if there are none, only what was queued during these two polls waits |
| AgentRuntime.RunLoop | packages/agent/src/agent-loop.ts:104-198 | a loop that returns has nothing in flight, all views hold the run's messages, and the stream is closed with `agent_end` carrying the new ones, error and aborted exits included; unless the last reply failed, its last two polls found both queues empty |
| AgentRuntime.AgentLoop | packages/agent/src/agent-loop.ts:28-92 | the same from the entry points, with the prompts announced first |
| AgentRuntime.FinishRun | packages/agent/src/agent.ts:481-528 | when the events are used up the agent holds the starting and the new messages, no partial message is left over, and the flags are reset |
| AgentRuntime.Prompt | packages/agent/src/agent.ts:312-345 | refused exactly while streaming, with nothing changed; otherwise the run is complete or paused and every queued message was delivered once, in order, or is in flight or waiting |
| AgentRuntime.Continue | packages/agent/src/agent.ts:350-376 | refused exactly while streaming, without messages, or after an assistant message with both queues empty; otherwise resumes with steering before follow-ups and conserves both queues |
| AgentRuntime.ContinueFromQueues | packages/agent/src/agent.ts:359-372 | after an assistant message: refused exactly if both queues are empty, otherwise resumes with what was dequeued and conserves both queues |
| AgentRuntime.DequeueForContinue | packages/agent/src/agent.ts:359-370 | follow-ups are taken only if no steering waits |
| AgentRuntime.RunSnoc | packages/agent/src/agent-loop.ts:122-182 | what one more turn adds to the events, the context, the new messages and the requests |
| AgentRuntime.OnTermsStep | packages/agent/src/agent.ts:259-287 | a turn that injects what is in flight and polls new steering keeps both queues accounted for, in order |
| AgentRuntime.WaitingConserved | packages/agent/src/agent.ts:230-287 | for one queue: waiting before plus queued during the run is delivered, then in flight, then waiting after |
| Replay.ReplayTrace | packages/agent/src/agent.ts:432-475 | replaying all events of a run appends exactly the messages the loop reports as new, keeps the last reported error, and leaves nothing streaming or pending |
| Replay.FoldTurn | packages/agent/src/agent.ts:434-475 | replaying one turn appends its injected messages, its reply and its results |
| Replay.FoldReply | packages/agent/src/agent.ts:435-449 | replaying a streamed reply, however often it starts, appends one message |
| Replay.FoldBlock | packages/agent/src/agent.ts:451-463 | replaying a tool block appends its result and leaves no call pending |
| Replay.PendingMeaning | packages/agent/src/agent.ts:451-463 | after any events a call is pending exactly if it started and has not ended since |
| Replay.StreamMessageMeaning | packages/agent/src/agent.ts:434-450 | after any events the message being streamed is the latest one shown, if nothing has ended since |
| Replay.IsStreamingMeaning | packages/agent/src/agent.ts:471-474 | the agent is streaming until `agent_end` |
| Replay.LastErrorMeaning | packages/agent/src/agent.ts:465-469 | the error a run leaves is the error message, if not empty, of the last reply that has one |
| Conversation.ToolCallsMeaning | packages/agent/src/agent-loop.ts:301 | the calls of a reply are those of its blocks that are calls, each once, at the place of its rank |
| Conversation.StreamShown | packages/agent/src/agent-loop.ts:239-269 | nothing is shown of a reply before its first `start`, from then on every event with its partial message |
| Conversation.BlockShown | packages/agent/src/agent-loop.ts:305-361 | a tool call is shown as start, every update in order, end with the result's content, and the result |
| Conversation.LatestPartial | packages/agent/src/agent-loop.ts:246-266 | while a reply streams the context ends with its latest partial message |
| AgentTheorems.ContextAgreement | packages/agent/src/agent-loop.ts:104-198 | the loop's context is the starting messages and the new ones exactly if no reply starts twice |
| AgentTheorems.SecondStartStaysBehind | packages/agent/src/agent-loop.ts:244-249 | a concrete run in which a second `start` leaves a partial message in the context that the new messages do not have |
| AgentTheorems.ReplicaAgreement | packages/agent/src/agent.ts:432-475 | after a completed run the agent's messages, the stream's result and the starting and new messages agree; the context too exactly if no reply starts twice |
| AgentTheorems.AgreementMidRun | packages/agent/src/agent.ts:432-475 | when a run pauses at a turn boundary, an agent that has taken all events holds the starting and the new messages, with nothing streaming and no call pending |
| AgentTheorems.LaggingAgent | packages/agent/src/agent.ts:432-475 | an agent that has taken only some of the events of a paused run holds the starting messages and the first of the new ones, and at most one call is pending |
| AgentTheorems.ToolPairing | packages/agent/src/agent-loop.ts:152-178 | in every later request a reply of an earlier turn, which neither failed nor was aborted, is followed at once by one result for each of its blocks that is a call, in the order of the blocks, and then by the next turn's messages: executed, then skipped, the latter only if the next turn injects steering |
| AgentTheorems.PairedByPosition | packages/agent/src/agent-loop.ts:141-171 | by position: if no reply starts twice, every assistant message in a request beyond the starting ones that was not a prompt or injected is followed at once by its tool results |
| AgentTheorems.AssistantsAreReplies | packages/agent/src/agent-loop.ts:141-171 | if no reply starts twice, such a message is a prompt, was injected, or is the reply of an earlier turn |
| AgentTheorems.ToolPairingAtEnd | packages/agent/src/agent-loop.ts:151-171 | the same in the context a run ends with |
| AgentTheorems.FollowUpPriority | packages/agent/src/agent-loop.ts:175-190 | a follow-up is injected exactly after a turn whose reply holds no call and whose steering poll was empty; polled steering goes into the very next turn |
| AgentTheorems.RunEndsWhen | packages/agent/src/agent-loop.ts:144-190 | a run goes on only after replies that neither failed nor were aborted, and ends only with one that did, or that holds no call and found no steering behind it |
| AgentTheorems.SteeringGoesFirst | packages/agent/src/agent-loop.ts:113-190 | across the queues: before a turn that injects follow-ups, once one queued in suspension f or later has gone out, all steering queued before suspension f has been injected by earlier turns |
| AgentTheorems.OneSteeringATurn | packages/agent/src/agent.ts:404-423 | in one-at-a-time mode no turn gets two steering messages, those dequeued by `continue` included |
| AgentTheorems.ResumesRationed | packages/agent/src/agent.ts:350-376 | the ways `continue` starts a run meet that theorem's condition because the initial poll is skipped |
| TraceGrammar.TraceFollowsGrammar | packages/agent/README.md:54-102 | a completed run's events keep to the documented order, only the turn's last message streamed, every call of a reply served in order and none that is not its own, and `agent_end` listing exactly the messages that ended, checked by an acceptor that knows nothing of the loop, exactly if no reply starts twice |
| TraceGrammar.AcceptedTurn | packages/agent/README.md:54-102 | what acceptance means: when a turn ends, exactly the calls of its message have started, each once and in order, none if it failed |
| TraceGrammar.ParseTurn | packages/agent/src/agent-loop.ts:122-182 | the events of a well-formed turn take the acceptor from the start of a turn to its end |
| TraceGrammar.ParseBlock | packages/agent/src/agent-loop.ts:309-361 | the block of a reply's next call keeps to the grammar, its result message carrying the call's id, name and error flag |
| TraceGrammar.TraceEnds | packages/agent/src/agent-loop.ts:104-198 | the messages that end in a run's events are exactly those the loop reports as new |
| TraceGrammar.AtMostOneToolPending | packages/agent/src/agent.ts:451-463 | after any prefix of a run's events at most one call is pending, and at every `turn_end` none is and nothing streams, duplicate ids included |
| ProxyMessage.PartialMessage.ProcessProxyEvent | packages/agent/src/proxy.ts:211-340 | throws exactly for a delta or an end whose block is not of its kind, tool call ends excepted, and then changes nothing; otherwise the message and the event passed on are those of the step |
| ProxyMessage.PartialMessage.ProcessText | packages/agent/src/proxy.ts:219-249 | the text cases: a delta is appended to a text block, its end sets the signature, anything else throws and changes nothing |
| ProxyMessage.PartialMessage.ProcessThinking | packages/agent/src/proxy.ts:251-281 | the same for thinking blocks |
| ProxyMessage.PartialMessage.ProcessToolCall | packages/agent/src/proxy.ts:283-321 | a delta extends the JSON text and the arguments are parsed anew, the end drops the JSON text; an end without a tool call is ignored |
| ProxyMessage.Put | packages/agent/src/proxy.ts:220 | assigning to an index leaves all other blocks as they were, beyond the end holes appear |
| ProxyMessage.BlocksAreIndependent | packages/agent/src/proxy.ts:211-340 | under any interleaving each block is what its own events make it, and processing throws exactly if some block's own events throw |
| ProxyMessage.StreamBuilds | packages/agent/src/proxy.ts:219-307 | after each delta a block holds exactly the deltas so far, a tool call the arguments parsed from them |
| ProxyMessage.ReconstructsContent | packages/agent/src/proxy.ts:211-321 | processing any interleaving of the blocks' streams does not throw and rebuilds exactly the blocks, tool calls without their signatures; so exactly what was streamed if and only if no tool call is signed |
| ProxyMessage.ReconstructsMessage | packages/agent/src/proxy.ts:211-332 | with the closing event the whole message is rebuilt, up to the signatures of tool calls and exactly if there are none |
| ProxyMessage.SignaturesAreLost | packages/ai/src/types.ts:126-132 | dropping signatures changes a list of blocks exactly if one of its tool calls is signed |
| ProxyMessage.SignedToolCall | packages/agent/src/proxy.ts:283-291 | a concrete signed tool call that arrives without its signature |
| ProxyMessage.EndReportsDeltas | packages/agent/src/proxy.ts:237-281 | for any events, an accepted end event reports the concatenation of its block's deltas since the start |
| ProxyMessage.DeltaAfterEnd | packages/agent/src/proxy.ts:293-321 | a delta behind the end of its tool call is added to the word "undefined" |
| ProxyStream.SplitIsExact | packages/agent/src/proxy.ts:165 | splitting at newlines loses nothing and leaves none in a line |
| ProxyStream.SplitAppend | packages/agent/src/proxy.ts:164-166 | more text only continues the last line |
| ProxyStream.TrimMeaning | packages/agent/src/proxy.ts:169 | trimming takes off all blanks at both ends and nothing else |
| ProxyStream.ProxyReader.Handle | packages/agent/src/proxy.ts:164-178 | a line is skipped without the prefix or without data; it fails exactly if its data cannot be decoded or does not fit the message, and then nothing else changes |
| ProxyStream.ProxyReader.Receive | packages/agent/src/proxy.ts:164-179 | one chunk: the complete lines are handled in order and the buffer keeps the rest |
| ProxyStream.ProxyReader.ReadAll | packages/agent/src/proxy.ts:154-180 | however the text is cut into chunks, the lines handled are those of the whole text and the buffer is its unterminated tail |
| ProxyStream.WireSplits | packages/agent/src/proxy.ts:165-171 | the text the server sends splits into exactly its records |
| ProxyStream.MessageArrives | packages/agent/src/proxy.ts:85-340 | end to end: blocks streamed in any interleaving and sent as text leave the client with that message, tool calls without their signatures; with the very message exactly if no tool call is signed |
| ProxyStream.AllTold | packages/agent/src/proxy.ts:170-175 | the consumer is told of every event the client knows, once and in order, each with the message that the events up to it make |
| ProxyStream.EventsArrive | packages/agent/src/proxy.ts:85-340 | under the conditions of `MessageArrives` that includes, for each block, deltas that spell its pieces, and last and only once the end, by its kind, with the whole message |
| Terminal.ConsoleTerminal.Write | src/Pi.TUI/Terminal.cs:175-178 | plain text that fits the row overwrites exactly the cells it covers and leaves the cursor behind it; CR LF goes to the start of the next row, in the last row everything moves up |
| Terminal.PrintsText | src/Pi.TUI/Terminal.cs:175-178 | printing plain text character by character overwrites exactly the cells it covers |
| Terminal.ConsoleTerminal.MoveBy | src/Pi.TUI/Terminal.cs:180-190 | the cursor moves up or down, never off the screen |
| Terminal.ConsoleTerminal.ClearFromCursor | src/Pi.TUI/Terminal.cs:207-210 | everything from the cursor on is blank, everything before it as it was |
| Terminal.ConsoleTerminal.ClearScreen | src/Pi.TUI/Terminal.cs:212-215 | the screen is blank and the cursor home |
| DifferentialRenderer.WriteAllPaints | src/Pi.TUI/TUI.cs:110-117 | writing the lines from k on below the first k shows all of them and nothing else |
| DifferentialRenderer.PaintedShows | src/Pi.TUI/TUI.cs:110-117 | the painted screen shows in every cell the character of its line or a blank, with the cursor below the lines |
| DifferentialRenderer.RedrawPaints | src/Pi.TUI/TUI.cs:60-64 | clearing and writing all lines shows exactly them, with the cursor below |
| DifferentialRenderer.ErasePaints | src/Pi.TUI/TUI.cs:76-85 | moving up to line k and erasing leaves exactly the first k lines |
| DifferentialRenderer.TUI.FindFirstChangedLine | src/Pi.TUI/TUI.cs:89-108 | the length of the longest common prefix, or -1 exactly if nothing changed |
| DifferentialRenderer.TUI.RenderDifferential | src/Pi.TUI/TUI.cs:57-87 | the screen shows exactly the new lines, after growing, shrinking, changing or not |
| DifferentialRenderer.TUI.RequestRender | src/Pi.TUI/TUI.cs:44-55 | the screen equals a full redraw; a stopped TUI draws nothing |
| DifferentialRenderer.RenderSequence | src/Pi.TUI/TUI.cs:44-117 | after any sequence of renders and resizes that change the width or leave the rendered lines in place, the screen is what the last frame alone would draw |
| ChannelQueue.ApplyKeepsSerial | packages/mom/src/slack.ts:94-119 | a message, an event or the end of a handler keeps: one handler at most, flags and queue consistent, history in order, at most five waiting |
| ChannelQueue.AlwaysSerial | packages/mom/src/slack.ts:94-119 | this holds after every interleaving |
| ChannelQueue.Admission | packages/mom/src/slack.ts:322-327 | a user message is accepted exactly if all accepted work has finished, an event exactly if fewer than five wait; on an idle channel it starts at once |
| ChannelQueue.EverythingRuns | packages/mom/src/slack.ts:106-118 | accepted work runs exactly once, in order, and then the channel is idle; a handler that ends with an error, caught or escaped, logs one warning |
| ChannelQueue.EndingsDoNotMatter | packages/mom/src/slack.ts:111-117 | how handlers end makes no difference to what is accepted, waits and runs |
| ChannelQueue.OneWarningEach | packages/mom/src/slack.ts:113-115 | every error, caught or escaped, is logged once |
| ChannelQueue.Channel.Enqueue | packages/mom/src/slack.ts:98-101 | work joins the end of the queue and starts at once if nothing is being processed |
| ChannelQueue.Channel.ProcessNext | packages/mom/src/slack.ts:107-110 | the oldest work starts, unless something is being processed or nothing waits |
| ChannelQueue.Channel.EnqueueEvent | packages/mom/src/slack.ts:248-257 | events are refused exactly when five wait |
| ChannelQueue.Channel.OnUserMessage | packages/mom/src/slack.ts:322-327 | messages are refused exactly while a handler runs |
| ChannelQueue.Channel.OnHandlerEnds | packages/mom/src/slack.ts:111-117 | what escapes a handler is caught and logged; processing is cleared and the next work starts either way |
| ChannelQueue.Channel.HandlerReturns | packages/mom/src/main.ts:259-286 | an error is caught and logged, unless logging throws; the running flag is cleared in every case |
| ChannelQueue.RunChannel | packages/mom/src/slack.ts:94-119 | the channel object goes through exactly the states the invariant is proved for |
| LogSync.StampTells | packages/mom/src/agent.ts:736-744 | the stamp tells date, time and zone offset at fixed places |
| LogSync.PromptText | packages/mom/src/agent.ts:745-771 | the whole live prompt, and the text the sync compares it with |
| LogSync.StampRoundTrip | packages/mom/src/agent.ts:736-745 | the stamp a prompt begins with, in any zone, is the stamp the sync strips |
| LogSync.StripRoundTrip | packages/mom/src/context.ts:63-67 | stripping the attachments section gives the body back exactly if the body has no marker and does not end in an open one |
| LogSync.NormaliseInvertsPrompt | packages/mom/src/context.ts:59-68 | normalising a live prompt gives the log's text exactly if the author is named alike and the text is clean |
| LogSync.OpenMarkerIsLost | packages/mom/src/agent.ts:769-771 | a text that ends in a marker without its line break and has an attachment is not recognised |
| LogSync.LogTextUnstamped | packages/mom/src/context.ts:62 | a name without a closing bracket never makes a log text look stamped |
| LogSync.NormaliseFixed | packages/mom/src/context.ts:62-67 | normalising leaves a text alone exactly if it has neither a stamp nor a marker |
| LogSync.CollectExisting | packages/mom/src/context.ts:51-90 | the set of normalised texts of all user messages, strings and text parts |
| LogSync.ExistingMeaning | packages/mom/src/context.ts:51-90 | a text is there exactly if some user message holds, as a string or in a text part, something that normalises to it |
| LogSync.SyncLogToSessionManager | packages/mom/src/context.ts:42-142 | the session keeps what it had and gains, in order of time and each once, exactly the texts that were not there and that some line says which has a time stamp and a date, is not the excluded message and not from a bot; their number is returned |
| LogSync.ExcludedMakesNoDifference | packages/mom/src/context.ts:106-110 | without the lines of the excluded message and of bots the sync adds the same texts, and needs no exclusion |
| LogSync.SortIsStable | packages/mom/src/context.ts:135 | sorted by time, a permutation, and messages of one time keep the log's order |
| LogSync.FreshMeaning | packages/mom/src/context.ts:98-127 | the messages added are pairwise distinct and are exactly the eligible texts not there yet |
| LogSync.FreshIsFirst | packages/mom/src/context.ts:115-127 | each message added has the text and the time of the first line that says it, the present if the date reads as nothing or as zero |
| LogSync.ExistingAfter | packages/mom/src/context.ts:137-139 | after a sync the session has its texts and the normalised new ones |
| LogSync.SecondSync | packages/mom/src/context.ts:42-142 | a second sync of the same log adds exactly the eligible texts that were not there and that no new text normalises to |
| LogSync.SecondSyncByText | packages/mom/src/context.ts:59-68 | a text with a marker is always added again, one with neither marker nor stamp never; if no text looks stamped, exactly those with a marker are |
| LogSync.StampedNameAddedAgain | packages/mom/src/context.ts:62 | a name that looks like a stamp has its message added again |
| LogSync.LiveMessageNotRepeated | packages/mom/src/agent.ts:652 | in any session, a message prompted live is added by a later sync exactly if it cannot be recognised and its text is nowhere else |
| EventsWatcher.LedgerRuns | packages/mom/src/events.ts:318-370 | a run counts against the version, and the version can run again only if it is still on disk, its deletion having failed |
| EventsWatcher.TaskAdded | packages/mom/src/events.ts:292-309 | scheduling a version that may run keeps the books |
| EventsWatcher.Machine.ClearAll | packages/mom/src/events.ts:91-108 | every handle of a map is cancelled and no other |
| EventsWatcher.EventsWatcher.CancelScheduled | packages/mom/src/events.ts:165-177 | the file's timer and cron job are gone, all other schedules are kept |
| EventsWatcher.EventsWatcher.DeleteFile | packages/mom/src/events.ts:359-370 | the file is forgotten whether or not the deletion succeeds |
| EventsWatcher.EventsWatcher.Execute | packages/mom/src/events.ts:318-357 | one run is recorded; after an immediate or one-shot event the file is deleted even if the queue was full |
| EventsWatcher.EventsWatcher.HandleImmediate | packages/mom/src/events.ts:258-276 | runs exactly if the file is not older than the watcher and can be examined |
| EventsWatcher.EventsWatcher.HandleOneShot | packages/mom/src/events.ts:278-299 | if the date is not over, or cannot be read, the file stays with one live timer for the version; if it is over, the file is deleted unless refused and has no timer |
| EventsWatcher.EventsWatcher.HandlePeriodic | packages/mom/src/events.ts:301-316 | with a valid schedule the file stays with one live cron job for the version; otherwise it is deleted unless refused and has none |
| EventsWatcher.EventsWatcher.HandleFile | packages/mom/src/events.ts:179-219 | by what the file holds: whether it stays, its timer, its cron job and whether it runs; all other files are as before |
| EventsWatcher.EventsWatcher.HandleDelete | packages/mom/src/events.ts:157-163 | a deleted file is forgotten with its schedule |
| EventsWatcher.EventsWatcher.HandleFileChange | packages/mom/src/events.ts:141-155 | the old schedule is cancelled before the file is read again; the file is known and on disk afterwards exactly as its content and the world say |
| EventsWatcher.EventsWatcher.OnChange | packages/mom/src/events.ts:73-125 | a change cancels the file's debounce timer and starts a new one, its only one; other file names are ignored |
| EventsWatcher.EventsWatcher.FireDebounce | packages/mom/src/events.ts:118-124 | the file is handled once for a burst of changes, and is left as handling it must leave it |
| EventsWatcher.EventsWatcher.FireTimer | packages/mom/src/events.ts:292-296 | the version the timer was set for runs once and the file is forgotten |
| EventsWatcher.EventsWatcher.FireCron | packages/mom/src/events.ts:303-306 | the version runs once more, is enqueued if there is room, and stays scheduled |
| EventsWatcher.EventsWatcher.OneSchedulePerFile | packages/mom/src/events.ts:45-50 | a file has at most one live schedule, only known files have one, and it is for the version loaded last |
| EventsWatcher.EventsWatcher.ScanExisting | packages/mom/src/events.ts:127-139 | all event files are handled, those that stay are known, no version has more than one deletion refused, timers are set only for versions still ahead and only immediate events run |
| EventsWatcher.EventsWatcher.Start | packages/mom/src/events.ts:61-79 | the files that stay are known, and every event file is as handling it must leave it |
| EventsWatcher.EventsWatcher.Stop | packages/mom/src/events.ts:84-111 | nothing is live and nothing is known |
| EventsWatcher.Perform | packages/mom/src/events.ts:43-370 | whatever happens, handles and books agree; a handle that is not live does nothing; apart from writes an action only removes files, sets timers only for versions on disk still ahead, and runs only immediate events and the version whose timer fired |
| EventsWatcher.Run | packages/mom/src/events.ts:43-370 | over every run, no version of an immediate or one-shot event runs more often than once plus once for each action during which a deletion is refused; without refusals at most once |
| EventsWatcher.RunsAgain | packages/mom/src/events.ts:141-155 | the bound is reached for every n: an immediate event whose deletion is refused n times runs n + 1 times |
| EventsWatcher.RunOnTime | packages/mom/src/events.ts:278-299 | if the clock does not go back and no timer fires early, a one-shot event whose date can be read runs at most once, however many deletions are refused |
| EventsWatcher.OnTimeStep | packages/mom/src/events.ts:278-299 | no action lets a dated event run a second time or gives one that has run a timer |
| EventsWatcher.UndatedRunsAgain | packages/mom/src/events.ts:278-299 | a one-shot event whose date cannot be read runs n + 1 times when n deletions are refused |
| EventsWatcher.NotifyAndFire | packages/mom/src/events.ts:141-276 | one reported change of a current immediate event runs it once more and deletes its file unless refused |
| EventsWatcher.NotifyAndTime | packages/mom/src/events.ts:278-299 | a one-shot event noticed before its date, whose timer then fires, runs exactly once more and its file is deleted unless refused |
| EventsWatcher.EndsWithJsonMeaning | packages/mom/src/events.ts:74 | event files are those whose name ends in ".json" |
| MessageMonitor.Database.GetRecentRowId | src/Pi.IMessage/IMessageDatabase.cs:70-71 | the id of a latest row by date, 0 for an empty table |
| MessageMonitor.Database.GetMessagesSince | src/Pi.IMessage/IMessageDatabase.cs:76-112 | of the rows above the cursor the earliest by date, up to the limit, in order of date, ties in any order |
| MessageMonitor.IMessageMonitor.Initialise | src/Pi.IMessage/IMessageMonitor.cs:84-86 | the cursor starts at a latest row by date |
| MessageMonitor.IMessageMonitor.PollForNewMessages | src/Pi.IMessage/IMessageMonitor.cs:118-142 | processes what does not throw, moves the cursor to the greatest id processed, and keeps all rows processed distinct and behind the cursor |
| MessageMonitor.NothingTwice | src/Pi.IMessage/IMessageMonitor.cs:131-141 | whatever throws, the cursor never decreases and no row is processed twice |
| MessageMonitor.ThrowingRow | src/Pi.IMessage/IMessageMonitor.cs:131-141 | a row that throws is lost exactly if a greater one in its batch succeeds, otherwise it is fetched again |
| MessageMonitor.ClashDecides | src/Pi.IMessage/IMessageDatabase.cs:107-109 | for any dates: no answer of the query can lose a row exactly if no two waiting rows clash, that is, none comes before a row that is not later, with the limit between the number of rows earlier than the second and the number not later than the first |
| MessageMonitor.RoomForAll | src/Pi.IMessage/IMessageDatabase.cs:107-109 | with room for all waiting rows nothing is lost, whatever the dates |
| MessageMonitor.OutOfStepIsLost | src/Pi.IMessage/IMessageDatabase.cs:107-109 | with less room a row whose date is out of step is lost: a concrete table |
| MessageMonitor.BatchIsStretch | src/Pi.IMessage/IMessageDatabase.cs:107-109 | if dates agree with ids and the cut is clean, a batch holds exactly the next stretch of the table |
| MessageMonitor.TiesDecide | src/Pi.IMessage/IMessageDatabase.cs:107-109 | if dates agree with ids, that is so exactly if the limit does not cut between rows of one date |
| MessageMonitor.PollAccounted | src/Pi.IMessage/IMessageMonitor.cs:118-142 | a poll moves each waiting row to the processed or the lost ones or leaves it waiting |
| MessageMonitor.MissedMeans | src/Pi.IMessage/IMessageMonitor.cs:118-142 | the rows a run's polls lose are exactly those that were waiting in a poll that processed a greater row and not them; none if in no poll rows clash or a row throws below one that succeeds |
| MessageMonitor.AnyRun | src/Pi.IMessage/IMessageMonitor.cs:80-142 | whatever dates arrive and whatever throws, each poll works on the table of its round from the cursor the last one left; no row is processed twice, and every row above the starting cursor is processed, was passed by one of these polls, or waits; none is passed under the conditions above |
| MessageMonitor.MonitorLoop | src/Pi.IMessage/IMessageMonitor.cs:80-142 | if dates agree with ids, no poll cuts between rows of one date and nothing throws, exactly the rows behind the starting row are processed, once each and by date, as far as the polls reach, for every limit and arrival schedule |
| MessageMonitor.MonitorLoopInOrder | src/Pi.IMessage/IMessageMonitor.cs:80-142 | with strictly increasing dates exactly the rows that arrived after the start are processed, in the order of the table |
| AutoReply.AutoReplyService.AddRule | src/Pi.AutoReply/AutoReplyService.cs:94-98 | the rules gain the new one and are ordered by priority |
| AutoReply.AutoReplyService.RemoveRule | src/Pi.AutoReply/AutoReplyService.cs:103-106 | all rules with the id go, and the answer says whether there were any |
| AutoReply.WithoutAppend | src/Pi.AutoReply/AutoReplyService.cs:103-106 | removal looks at every rule on its own and keeps the others in their order |
| AutoReply.AutoReplyService.ShouldTrigger | src/Pi.AutoReply/AutoReplyService.cs:137-153 | true only if all conditions hold and the limits do not hold the rule back; false only if they did when the call began, or a condition fails with all before it holding; throws only at such a condition that throws |
| AutoReply.AllHoldMeaning | src/Pi.AutoReply/AutoReplyService.cs:152 | all conditions hold, or the first that does not decides |
| AutoReply.MayFireMeaning | src/Pi.AutoReply/AutoReplyService.cs:139-149 | the dictionaries allow a firing exactly if no firing with the same rule id and session is a cooldown ago at most and there have been fewer than the maximum |
| AutoReply.AutoReplyService.RecordTrigger | src/Pi.AutoReply/AutoReplyService.cs:190-195 | the dictionaries go on summing up the history |
| AutoReply.AutoReplyService.ProcessMessage | src/Pi.AutoReply/AutoReplyService.cs:116-135 | a rule that fires is enabled, all its conditions hold and its limits do not hold it back, and no such rule has a higher priority; if none fires, each enabled rule was held back or has a condition that fails behind ones that hold; if a condition throws, nothing is recorded |
| AutoReply.AtMostMaxTriggers | src/Pi.AutoReply/AutoReplyService.cs:147-149 | a rule fires at most its maximum in a session, even when keys collide |
| AutoReply.CooldownApart | src/Pi.AutoReply/AutoReplyService.cs:139-145 | a firing is at least its rule's cooldown later than every earlier firing with its key |
| AutoReply.WithoutKeepsOrder | src/Pi.AutoReply/AutoReplyService.cs:103-106 | removing rules keeps them ordered by priority |
| AutoReply.Run | src/Pi.AutoReply/AutoReplyService.cs:94-195 | both limits hold over every run of adding, removing and processing |
| SlackSplit.SplitForSlack | packages/mom/src/agent.ts:626-639 | removing the suffixes and joining the parts gives the text back; one part, or the length divided by 39950 rounded up; every part fits 40000 characters and none is empty unless the text is |
| SlackSplit.PartsFit | packages/mom/src/agent.ts:631-636 | whatever the length, a part that is cut leaves at least 16 of the 40000 characters free, the part number being a double that stops counting at 2 to the power 53 |
| SlackSplit.PartMeaning | packages/mom/src/agent.ts:630-635 | each part is the next 39950 characters or what is left, with a note that tells its number behind every part but the last |
| Numerals.DecimalDenotes | packages/mom/src/agent.ts:634 | a numeral denotes its number, in digits, without leading zeros |
| ShellQuote.ScanQuoted | packages/mom/src/sandbox.ts:218-221 | a quoted string adds exactly itself to the word under way, whatever surrounds it |
| ShellQuote.QuotingRoundTrip | packages/mom/src/sandbox.ts:218-221 | a quoted string is one word, equal to the string |
| ShellQuote.LineMeaning | packages/mom/src/sandbox.ts:218-221 | a line of plain words, quoted strings and the operators `&&` and `>` is read as exactly that, the quoted strings as words |
| ShellQuote.DockerArguments | packages/mom/src/sandbox.ts:184 | any command is one argument of `sh -c` in the named container exactly if the container's name is plain: not empty, without blanks and quoting characters, and without characters that may mean something to the shell |
| ShellQuote.WriteArguments | packages/mom/src/tools/write.ts:28 | directory, content and path are arguments of `mkdir`, `printf` and the redirection, whatever they hold |
| SessionKey.ParseMeaning | src/Pi.Channels/SessionKeyBuilder.cs:42-59 | the parser accepts exactly the keys that parts with colon-free names format to, and returns those parts |
| SessionKey.ParseBuild | src/Pi.Channels/SessionKeyBuilder.cs:16-35 | a built key parses back exactly if its names are free of colons |
| SessionKey.BuildParse | src/Pi.Channels/SessionKeyBuilder.cs:22-34 | a parsed key is rebuilt exactly if no part is blank, otherwise the builder refuses |
| SessionKey.BuildRefuses | src/Pi.Channels/SessionKeyBuilder.cs:22-34 | a part of blanks alone is refused; parts that have a printable character are joined by colons |
| SessionKey.ParseRefuses | src/Pi.Channels/SessionKeyBuilder.cs:42-59 | a key of blanks alone is empty, any other that is not parsed is malformed |
| SessionKey.KeysAreDistinct | src/Pi.Channels/SessionKeyBuilder.cs:34 | conversations with colon-free names never share a key |
| SessionKey.ColonsCollide | src/Pi.Channels/SessionKeyBuilder.cs:34 | with a colon in a name two conversations do share a key |

## Left out

- Exceptions that escape the loop, and provider streams that end without `done` or `error`.
- Clearing the queues, replacing or appending messages, and changing the queue modes while a run is under way.
- Runs paused within a turn: an unfinished run is observed at turn boundaries.
- AgentRuntime.StreamAssistantResponse: `transformContext` and `convertToLlm` are functions of the messages; that they might throw, or change messages the loop keeps, is left out.
- Aliasing of message objects between the context, the events and the agent's state: messages are values.
- Consumers waiting in `EventStream.waiting`: they are part of its queue.
- Time stamps, models, usage and the other fields of messages that the loop only passes on.
- Updates that a tool reports after it has returned.
- Argument validation, JSON parsing and cron parsing: outcomes given from outside.
- The abort signal, the HTTP exchange and the error event of `streamProxy`; the decoding of bytes to text.
- DifferentialRenderer.RenderSequence: a change of height alone that disturbs what is shown goes unnoticed by the code and is not promised anything.
- Terminals: output longer than the screen, a resize that is undone before the next render, styled text, wide characters.
- The text of the messages that `execute` enqueues, and the stop command of a channel.
- A finished handler and the start of the next one are one step of `ChannelQueue`; nothing but promise continuations runs in between.
- Overlapping calls of `handleFile` for one file, retries while a file is being written, starting a watcher that is already started, `nextRun` of a valid cron job throwing.
- When timers are due: a live timer may fire at any moment, which includes delays over the timer limit; only `RunOnTime` rules out timers that fire early.
- Messages that join several chats, deleted rows whose ids are used again, cancellation of the monitor.
- AutoReply.AutoReplyService.ShouldTrigger: the evaluation of conditions is given from outside; elapsed time is exact, not a rounded double.
- A clock that runs backwards, and trigger counts beyond 32 bits.
- Characters are UTF-16 units without regard to surrogate pairs.
- ShellQuote.DockerArguments: a character that only sometimes means something to the shell, such as `#` or `=`, counts as not plain wherever it stands.
- ShellQuote.QuotingRoundTrip: a NUL character cannot be passed to a process and is not excluded here.
- The C# port `src/Pi.Agent/AgentLoop.cs`: a weaker port of the loop that drops tool results on steering.
- Model tables, registries, configuration, command lines, demos and browser parts.
