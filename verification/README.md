# Verification of the agent runtime and its companions

This project models the parts of the repository whose correctness depends on whole runs, and proves what
they promise. Verify it with Dafny 4.11: `dafny verify dfyconfig.toml`.

**The agent runtime** (`AgentTypes`, `RunProtocol`, `RunTheorems`, `QueueTheorems`, `QueueOrigins`,
`PendingTools`, `TraceLanguage`, `MessageQueues`, `Worlds`, `Lists`, `ToolRuns`, `ToolTraces`, `ModelStreams`, `RunPlots`,
`AgentViews`, `AgentStates`, `AgentLoop`, `Agents`).
The classes `LoopRun`, `AgentState`, `PendingMessageQueue` and `Agent` do what the loop and the agent do,
field by field and loop by loop. A run leaves a log: every event with the loop's two arrays at that moment,
every poll with what it took, every request to the model, and the crash that replaces the normal ending when
the model's stream throws. `RunProtocol` is an acceptor for such logs. The methods are proved to produce only
accepted logs and to keep the agent's own state equal to the fold of the log; the theorems about pairing,
agreement, the trace, pending calls, conservation and turn bounds are proved of every accepted log. The model,
its streams, the tools, the hooks, the schedule of concurrent tools and the queue operations of other parties
are inputs, so every statement holds for all of them. What the log must hold given these inputs is a run's plot
(`RunPlots`): which reply ends which turn and with which tool results, what each poll takes, what has been shown
since the model was asked, and with what a run crashes. The methods are proved to follow it, from `TakeTurn` to
`Prompt` and `Continue`; what the queues keep and how a run ends are theorems about every log that does.

**The proxy decoder** (`ProxyLines`, `ProxyEvents`, `ProxyStreams`) splits a response that arrives in chunks and
rebuilds the reply that the server stripped.

**The Slack bot**: one queue of jobs per channel (`ChannelQueues`), event files that run at once, at a time or on
a schedule (`EventHistories`, `EventsWatchers`), the sync of the channel log into the session (`LogSync`), and quoting for the
shell (`ShellQuotes`).

**Others**: packing of session transcripts (`TranscriptPacking`), chunks of Markdown documents
(`MarkdownChunks`, `Texts`) and invoices (`Invoices`).

Where the code and its documentation, or what one would expect of it, differ, the code is modelled:

- Concurrent tool results are documented in source order (`packages/agent/src/types.ts:32-33`). The code reports
  refused calls first; `ToolRuns.Scene.ConcurrentKeepsSourceOrder` says exactly when the order is kept.
- A run started by `continue()` with queued follow-ups polls for steering messages before its first reply, so that
  in one-at-a-time mode two queued messages precede that reply exactly if a steering message is queued by then
  (`Agents.Agent.Continue`); with queued steering messages the poll is skipped and it is one.
- A live message whose text lacks the attachment marker may still not be recovered by the sync
  (`LogSync.TextAcrossTheMarker`); the exact condition is in `LogSync.NormalizeUndoesDecoration`.
- A one-shot event further off than 2^31-1 ms, or with an invalid time, runs after a millisecond
  (`EventHistories.OnTimeExactlyWithinRange`), and may then run again (`EventHistories.RunsTwiceExactlyBeyondRange`).
- Stopping the event watcher, or finding a file deleted, does not hold up a file that is being read: it is scheduled
  or run afterwards (`EventsWatchers.StopWhileReading`); `EventHistories.RemovalIsFinalExactly` says exactly when.
- Deletions and modifications count from when the watcher handles them, 100 ms or more after they are made; until
  then a file's event still runs.
- The stream function must not throw (`packages/agent/src/types.ts:16-23`). When a stream throws all the same, the
  run ends with a failure message, and its last turn has neither an end of the reply nor a `turn_end`
  (`TraceLanguage.TraceTheorem`, `Agents.StreamThrows`).
- A tool-call delta after the call's end restarts from the text "undefined" (`ProxyEvents.Reconstruction`).
- In the transcript packer, the flush inside the branch for oversized transcripts is dead code.
- A fixed price that is not in whole cents is rounded in the invoice's totals but not in its item.

## Model

| member | source | states |
|---|---|---|
| RunTheorems.PairingTheorem | packages/agent/src/agent-loop.ts:167-232 | From a paired transcript, with prompts and polled messages that are neither replies nor tool results: at every request, at every `turn_end` and at the end of the run, however it ends, each reply that did not fail is directly followed by one result for each of its tool calls, and no other tool result exists |
| RunTheorems.Agreement | packages/agent/src/agent-loop.ts:167-231 | Three-way agreement: at every `turn_end` the loop's context is the starting transcript plus the messages ended so far and `newMessages` is exactly those; every request carries that transcript; `agent_end` carries the run's whole contribution, or after a crash the one failure message |
| RunTheorems.EndedIsMonitored | packages/agent/src/agent.ts:501-503 | The messages a listener has seen end are those the protocol has counted, in order, with the failure message of a crash as the last |
| RunTheorems.PairedConcat | packages/agent/src/agent-loop.ts:205-212 | Pairing is kept by appending a paired list: a block of a reply and its results is closed in itself |
| TraceLanguage.TraceTheorem | packages/agent/src/agent-loop.ts:163-232 | The events of a finished run are `agent_start`, then complete turns (injected messages, one reply shown by one start, updates and one end, tool events, `turn_end`), of which only the last may have failed, then the beginning of one more turn if and only if the stream threw, then one final `agent_end`; with prompts and polled messages that are no replies, no injected message is one |
| RunTheorems.CrashIsPhase | packages/agent/src/agent.ts:450-456 | At every moment: the stream has thrown if and only if the run is in or past its crash |
| TraceLanguage.StoryAlong | packages/agent/src/agent-loop.ts:163-232 | At every moment of a run the events so far read back as complete turns and one open turn, and the open turn is where the protocol says it is |
| PendingTools.PendingIsStartedMinusEnded | packages/agent/src/agent.ts:506-518 | With distinct call ids in every reply, an id is in the agent's pending set if and only if its call has started more often than it has ended, at every moment |
| PendingTools.PendingIsExact | packages/agent/src/agent.ts:506-518 | With distinct call ids, the pending set is exactly the ids of the open calls, through starts, ends and reports |
| PendingTools.OpenIsStartedMinusEnded | packages/agent/src/agent-loop.ts:360-385 | For every call, starts equal ends plus the times it is open |
| PendingTools.UpdatesAreInside | packages/agent/src/agent-loop.ts:529-549 | A tool update is emitted only while its call has started and not ended |
| PendingTools.NothingPendingAtTurnEnd | packages/agent/src/agent-loop.ts:214-214 | No call is pending when a `turn_end` is emitted, whether or not ids repeat |
| QueueTheorems.Conservation | packages/agent/src/agent.ts:112-143 | At every moment: the prompts and everything polled are, in order, what has been injected followed by what still waits to be injected |
| QueueTheorems.NothingLost | packages/agent/src/agent-loop.ts:190-198 | A run that is over, also one stopped by a failed reply or a crash, has injected everything it polled |
| QueueTheorems.TurnBound | packages/agent/src/agent-loop.ts:164-229 | The turns of a run are at most one, plus the replies with tool calls, plus the messages taken by polls |
| QueueTheorems.InjectionDiscipline | packages/agent/src/agent.ts:407-432 | With polls of at most one message: at most one queued message lies between two replies, and before the first reply lie the prompts and at most one queued message |
| QueueTheorems.SkippedPollDiscipline | packages/agent/src/agent.ts:333-338 | A run that continues with one queued message and skips its first poll puts at most one queued message before every reply, the first included |
| QueueTheorems.NothingDrainedBeforeAsking | packages/agent/src/agent.ts:423-429 | A run whose first poll is skipped has drained nothing when it first asks the model |
| QueueTheorems.FollowUpDiscipline | packages/agent/src/agent-loop.ts:216-225 | Follow-ups are polled only directly after a `turn_end` of a successful reply without tool calls and a steering poll that found nothing |
| QueueOrigins.EachQueueInOrder | packages/agent/src/agent.ts:112-143 | For each queue on its own, and for the prompts: what it gave out is, first in first out, what of it has been injected and then what of it still waits, at every moment |
| QueueOrigins.InjectedInterleaves | packages/agent/src/agent.ts:423-430 | What has been injected is an order-preserving interleaving of what has been injected from the prompts and from each queue |
| QueueOrigins.FirstReplyFollows | packages/agent/src/agent-loop.ts:164-191 | Before the first reply of a finished run the model gets exactly the prompts and what the first poll took |
| AgentStates.AgentState.QueueHistory | packages/agent/src/agent.ts:112-143 | At every moment the history of each queue is, in order, what earlier runs took, what of it this run has injected, what it is about to inject, and what is still queued |
| RunPlots.TurnAsScripted | packages/agent/src/agent-loop.ts:172-214 | The n-th turn that ends is that of the n-th stream: it ends with the reply that stream gives and, unless that failed, with the results of its tool calls, run by the given tools and hooks on the transcript up to and including the reply |
| RunPlots.QueueConserved | packages/agent/src/agent.ts:112-143 | When others have not cleared a queue: what it has given out and what is left of it are what it held at the start and what has been enqueued since, in order, whatever is polled when and whatever the modes |
| RunPlots.FirstPollAsScripted | packages/agent/src/agent.ts:423-429 | The first poll comes before the first turn, takes what the mode then allows of the steering queue after the operations of others, and nothing if it is skipped |
| RunPlots.EndsAsScripted | packages/agent/src/agent-loop.ts:168-231 | After n replies that went on, a run crashes with exactly what the next stream threw, and otherwise ends because the next reply failed or the last one called no tool |
| RunPlots.CrashesOnlyByThrowing | packages/agent/src/agent-loop.ts:164-229 | When no stream of the script throws, a run crashes only by asking for more replies than the script has, after none that failed |
| RunPlots.QueuesStayOneAtATime | packages/agent/src/agent.ts:407-432 | When both queues start in the one-at-a-time mode and nobody changes that, every poll of the run takes at most one message |
| RunPlots.QueuesStayPlain | packages/agent/src/agent.ts:112-143 | When what is queued at the start and later is neither a reply nor a tool result, neither is anything that a poll takes or leaves |
| MessageQueues.PendingMessageQueue.Enqueue | packages/agent/src/agent.ts:117-119 | Adds at the end; what was accepted is what was delivered followed by what is queued |
| MessageQueues.Taken | packages/agent/src/agent.ts:125-138 | A queue in the all mode gives out everything, one in the one-at-a-time mode its first message, if it has one |
| MessageQueues.PendingMessageQueue.Drain | packages/agent/src/agent.ts:125-138 | Delivers all messages or the first, as the mode says, and keeps the rest in order |
| MessageQueues.PendingMessageQueue.Clear | packages/agent/src/agent.ts:140-142 | Drops what is queued and nothing that was delivered |
| MessageQueues.PendingMessageQueue.HasItems | packages/agent/src/agent.ts:121-123 | True if and only if something is queued |
| ToolRuns.Scene.ConcurrentIsPermutation | packages/agent/src/agent-loop.ts:390-438 | Concurrent execution returns the results of sequential execution in some order, one for each call |
| ToolRuns.Scene.ConcurrentKeepsSourceOrder | packages/agent/src/agent-loop.ts:401-437 | With distinct ids, concurrent results are in source order if and only if no refused call follows one that runs |
| ToolRuns.Scene.ConcurrentKeepsSourceOrderIf | packages/agent/src/agent-loop.ts:401-437 | Whether or not ids repeat, concurrent results are in source order when no refused call follows one that runs |
| ToolRuns.SourceOrderFails | packages/agent/src/agent-loop.ts:401-415 | The source order that `packages/agent/src/types.ts:32-33` documents fails: a later call to a missing tool is reported before an earlier call that runs |
| ToolRuns.Scene.Outcome | packages/agent/src/agent-loop.ts:472-522 | Every call, found or not, valid or not, blocked or not, leads to a result that carries its id and name |
| ToolRuns.Scene.RunsExactlyWhenLet | packages/agent/src/agent-loop.ts:472-522 | A call runs if and only if a tool has its name, the first such tool prepares and validates its arguments, and the hook before calls is absent or allows it; it then runs with the arguments that validation, or the hook, leaves |
| ToolRuns.Scene.RefusedExactlyOtherwise | packages/agent/src/agent-loop.ts:479-521 | Every other call is refused: its result is an error whose text is that of the first step that failed: no tool of the name, a failed preparation or validation, the reason of a block (or the default text), or what the hook threw |
| ToolRuns.Scene.ExecutedOutcome | packages/agent/src/agent-loop.ts:524-595 | The result of a call that runs is what its tool returns, or as an error what it throws, each field replaced if and only if the hook after calls provides it |
| ToolTraces.RefusedCallsShowNoUpdate | packages/agent/src/agent-loop.ts:360-384 | In either mode no partial result is shown of a refused call: each one shown carries the id, name and arguments of a call that runs, and is one that its tool sent |
| ModelStreams.PartialsNext | packages/agent/src/agent-loop.ts:276-303 | What one more stream event changes in the list of shown states: a start opens it, a delta extends it only after a start |
| ModelStreams.TraceAtTerminal | packages/agent/src/agent-loop.ts:305-318 | At the first terminal event the reply is its message, and the trace is what was shown so far and its closing events |
| ModelStreams.TraceWithoutTerminal | packages/agent/src/agent-loop.ts:322-330 | A stream that ends without a terminal event gives its result, and one that throws its error, after what was shown |
| AgentLoop.LoopRun.StreamAssistantResponse | packages/agent/src/agent-loop.ts:238-331 | Asks with the context, emits exactly the trace of the stream, keeps the partial reply the last message of the context at every event, replaces it by the final one, and returns it; on an error nothing has ended |
| AgentLoop.LoopRun.ExecuteToolCallsSequential | packages/agent/src/agent-loop.ts:350-388 | Returns one result per call in source order and emits, call by call, start, updates, end and the result message |
| AgentLoop.LoopRun.ExecuteToolCallsParallel | packages/agent/src/agent-loop.ts:390-438 | For every schedule of the running tools: returns the refused calls' results, then the others', each in source order; the trace without updates is fixed, every update is one of a call that runs, and with distinct ids every tool's updates are all shown in its order |
| AgentLoop.LoopRun.ExecuteToolCalls | packages/agent/src/agent-loop.ts:336-348 | In either mode returns the results that `ToolRuns` specifies for the context up to the reply and shows what `ToolTraces` specifies |
| AgentLoop.LoopRun.FinalizeExecutedToolCall | packages/agent/src/agent-loop.ts:561-595 | The reported result is the execution's outcome with the fields provided by the after-hook put over it |
| AgentLoop.LoopRun.EmitToolCallOutcome | packages/agent/src/agent-loop.ts:604-631 | Emits end, message start and message end of one result and closes the call |
| AgentLoop.LoopRun.InjectPending | packages/agent/src/agent-loop.ts:180-188 | Every pending message is announced and ended and stands in both arrays, in order |
| AgentLoop.LoopRun.TakeTurn | packages/agent/src/agent-loop.ts:173-214 | One turn, with the next stream of the world: the context grows by the pending messages, the reply of the stream and, unless it failed, the results of exactly its tool calls; a failed reply ends the run |
| AgentLoop.LoopRun.EndTurn | packages/agent/src/agent-loop.ts:196-214 | A turn ends only when the next stream has been shown and has given its reply, its tool calls have been shown, and their results are those that the given tools and hooks come to |
| AgentLoop.LoopRun.GetSteeringMessages | packages/agent/src/agent.ts:423-429 | After the operations of others, takes what the mode then allows from the steering queue, or nothing if the first poll is skipped; allowed only before the first reply and after a turn |
| AgentLoop.LoopRun.GetFollowUpMessages | packages/agent/src/agent.ts:430-430 | After the operations of others, takes what the mode then allows from the follow-up queue; allowed only when the loop would stop |
| AgentLoop.LoopRun.RunTurns | packages/agent/src/agent-loop.ts:172-217 | The inner loop ends for every finite script, with a reply that failed or threw, or with nothing pending after a reply without tool calls; every turn, poll and queue is what the plot says, and without a clear no queued message is dropped |
| AgentLoop.LoopRun.RunUntilIdle | packages/agent/src/agent-loop.ts:168-231 | The outer loop ends for every finite script, its error being what the next stream threw; every turn, poll and queue is what the plot says, and without a clear no queued message is dropped |
| AgentLoop.LoopRun.RunLoop | packages/agent/src/agent-loop.ts:155-232 | The whole loop, first poll included: every turn, poll and queue is what the plot says, and without a clear no queued message is dropped |
| AgentLoop.LoopRun.RunAgentLoop | packages/agent/src/agent-loop.ts:95-118 | A whole run with prompts follows the run protocol and its plot; an error leaves it while a reply is awaited or shown, and is what a stream threw after all that it showed |
| AgentLoop.LoopRun.RunAgentLoopContinue | packages/agent/src/agent-loop.ts:120-143 | Refuses an empty transcript and one that ends in a reply, without an event; otherwise as a run without prompts |
| AgentLoop.AllTold | packages/agent/src/agent-loop.ts:417-435 | When all started tools have settled, every partial result of every tool has been shown in order |
| AgentViews.ViewIsFold | packages/agent/src/agent.ts:491-529 | The agent's transcript, folded from events, is the starting transcript and then what ended, and its pending set is the fold of the tool events |
| AgentViews.StreamingMessageByPosition | packages/agent/src/agent.ts:493-504 | The streaming message is that of the last `message_start` or `message_update` if neither a `message_end` nor an `agent_end` follows, and otherwise none |
| AgentViews.ErrorMessageByPosition | packages/agent/src/agent.ts:459-524 | The error message is that of the last `turn_end` whose reply carries one, or of a crash after it, and none before the first of these in a run |
| AgentViews.StreamingMessageIsUnderWay | packages/agent/src/agent-loop.ts:276-330 | At every moment of a run the streaming message is the injected message, reply or tool result that is announced and not ended, and otherwise none; while a reply streams it is the last message of the loop's context, after what the model was asked |
| AgentStates.AgentState.ApplyEvent | packages/agent/src/agent.ts:492-529 | The four state fields after an event, all of them: as `AgentViews` characterizes by position |
| AgentStates.AgentState.ProcessEvents | packages/agent/src/agent.ts:491-539 | Every event of a run keeps transcript, streaming message, pending calls and error message what the run's log says by position |
| AgentStates.AgentState.PerformOps | packages/agent/src/agent.ts:231-271 | Enqueues, mode changes and clears from outside change each queue as they say, in order, deliver nothing and leave a run as it is |
| Worlds.NothingDroppedWithoutClear | packages/agent/src/agent.ts:248-256 | Without a clear, whatever the mode changes, the enqueued messages follow those queued, in order |
| Worlds.OnlySinceLastClear | packages/agent/src/agent.ts:258-271 | After the last clear a queue holds exactly what has been enqueued since |
| Worlds.ModeIsLastSet | packages/agent/src/agent.ts:230-246 | The mode of a queue is the one set last, or the one it had |
| AgentStates.AgentState.PollQueue | packages/agent/src/agent.ts:423-430 | A poll finds its queue as the operations of others have left it, takes what the mode allows, and leaves the other queue alone; a skipped one takes nothing |
| AgentStates.AgentState.BeginRun | packages/agent/src/agent.ts:439-448 | A run starts on the agent's transcript with empty streaming state |
| AgentStates.AgentState.HandleRunFailure | packages/agent/src/agent.ts:459-474 | After a throw: exactly one failure message follows the messages that had ended, and `agent_end` carries it |
| AgentStates.FailureIsAccepted | packages/agent/src/agent.ts:459-474 | The failure entries finish the run protocol |
| AgentStates.AgentState.FinishRun | packages/agent/src/agent.ts:476-482 | The agent is idle, its transcript and error unchanged |
| Agents.Agent.Prompt | packages/agent/src/agent.ts:312-320 | Refused if and only if a run is active; otherwise the run finishes and follows its plot, that is the caller's tools, hooks and world and the queues as they were: every reply, tool result, poll, and the crash if there is one, are those that these come to, and so is what the queues hold; without a clear no message is dropped; the transcript is the old one and what ended, and a paired transcript stays paired |
| Agents.Agent.Continue | packages/agent/src/agent.ts:323-350 | Refused exactly when active, empty, or ending in a reply with both queues empty; otherwise a run that follows its plot as above, from the transcript, or with what the mode takes of the steering queue and the first poll skipped, or else of the follow-up queue; in one-at-a-time mode two messages precede the first reply of the latter exactly if a steering message is queued by its first poll, else one |
| Agents.TwoBeforeFirstReplyExactly | packages/agent/src/agent.ts:340-344 | One queued message and the first poll put two messages before the first reply if and only if something is in the steering queue after the operations before that poll |
| Agents.FollowUpThenSteer | packages/agent/src/agent.ts:340-344 | A witness: a queued follow-up, and a steering message that arrives before the first poll, both precede the first reply |
| Agents.Agent.Settle | packages/agent/src/agent.ts:450-474 | A run whose executor threw ends with one failure message that carries the error, aborted or failed as the signal says, and only such a run has crashed; either way the agent is idle, its transcript is the fold, and the run has followed its plot to the end |
| Agents.StreamThrows | packages/agent/src/agent.ts:450-474 | A witness: a stream shows the beginning of a reply and throws, and the last turn of the trace has no end |
| Agents.PairedAfterRun | packages/agent/src/agent.ts:434-457 | A finished run on a paired transcript leaves a paired one, also after a failure or crash |
| ProxyLines.SplitIsExact | packages/agent/src/proxy.ts:165-166 | The lines and the rest make up the text again, and none holds a line feed |
| ProxyLines.SplitOfJoin | packages/agent/src/proxy.ts:165-166 | A list of lines and a rest without line feeds is the only way to read a text |
| ProxyLines.LinesConcat | packages/agent/src/proxy.ts:164-166 | Splitting what is left over together with the next chunk gives the lines of the whole text |
| ProxyStreams.ChunksDoNotMatter | packages/agent/src/proxy.ts:156-180 | How a text is cut into chunks makes no difference to what is handled, and an unterminated last line is never handled |
| ProxyStreams.ProxyStream.HandlePayload | packages/agent/src/proxy.ts:172-176 | One payload is decoded, applied to the reply and its event passed on, or its error thrown; `done` sets stop reason and usage, `error` the error message as well |
| ProxyStreams.ProxyStream.HandleLines | packages/agent/src/proxy.ts:168-179 | Handles the payloads of the lines in order up to the first that throws |
| ProxyStreams.ProxyStream.Read | packages/agent/src/proxy.ts:156-184 | Whatever the chunks: the reply and the pushed events are those of the complete lines of the text read before an abort, and the error is that of the first payload that throws, of the abort, or of the rejected read |
| ProxyStreams.ProxyStream.Run | packages/agent/src/proxy.ts:120-198 | A response that succeeds leaves the reply rebuilt from its events: blocks, stop reason, usage and error message; a failure keeps the content rebuilt so far, sets the stop reason and the message of what was thrown, of the rejected read, or of the abort, and is passed on as one last event |
| ProxyStreams.SuccessIsRebuilt | packages/agent/src/proxy.ts:168-176 | When nothing is thrown every payload has been decoded, and the reply is the one that the events give, in its blocks and in what it ends with |
| ProxyStreams.HandledIsProcessed | packages/agent/src/proxy.ts:172-176 | When every payload decodes, nothing is thrown if and only if the kinds match, and then the reply is the one rebuilt from the events |
| ProxyStreams.PassedOnInOrder | packages/agent/src/proxy.ts:172-176 | When nothing is thrown, each event is passed on once and in order, except unknown ones and ends of tool calls whose index was last started as another kind or not at all |
| ProxyEvents.ThrowsExactlyOnKindMismatch | packages/agent/src/proxy.ts:211-340 | Rebuilding throws if and only if a delta, or the end of a text or thinking block, does not follow a start of its kind at its index, with indices interleaved freely |
| ProxyEvents.Reconstruction | packages/agent/src/proxy.ts:211-321 | In every case: the reply holds the blocks that were started; each text or thinking block is the concatenation of its deltas since its last start; each tool call's arguments are the parse of its JSON text, empty if it had no delta, where the text is its deltas, but after a delta that follows an end, "undefined" and the deltas since the last such end |
| ProxyEvents.LastConclusion | packages/agent/src/proxy.ts:323-332 | Stop reason and usage are those of the last `done` or `error` event, or the initial ones if there is none |
| ProxyEvents.LastFailure | packages/agent/src/proxy.ts:328-332 | The error message is that of the last `error` event, or the initial one if there is none |
| ProxyEvents.WholeReply | packages/agent/src/proxy.ts:208-340 | When kinds match, the events give the whole reply: every block with its text, arguments and signature, and stop reason, usage and error message |
| ProxyEvents.EndCarriesBlock | packages/agent/src/proxy.ts:237-321 | The end of a block that is passed on carries the block as rebuilt from the events up to it |
| ProxyEvents.InOrderIsConcatenation | packages/agent/src/proxy.ts:283-321 | When no delta follows an end, a tool call's arguments are the parse of all its concatenated deltas, or empty if it had none, and its JSON text is dropped exactly if it has ended |
| ProxyEvents.JsonDelta | packages/agent/src/proxy.ts:293-298 | One more delta appends to the JSON text, or starts it anew after an end |
| TranscriptPacking.FirstFitIsOptimal | scripts/session-transcripts.ts:196-241 | The greedy files hold the transcripts in order, each within the limit or a single transcript, and no order-preserving way under the same limit uses fewer files |
| TranscriptPacking.StaysAhead | scripts/session-transcripts.ts:201-231 | After every transcript the greedy packing has no more files than any other packing, and with as many, its last file holds no more transcripts |
| TranscriptPacking.GreedyIsPacking | scripts/session-transcripts.ts:201-231 | Greedy files are non-empty, partition the transcripts in order and respect the limit |
| TranscriptPacking.Pack | scripts/session-transcripts.ts:196-241 | The loop writes exactly the greedy files, numbered from zero; its inner flush of pending content (lines 214-222) is never reached |
| ChannelQueues.FirstInFirstOut | packages/mom/src/slack.ts:94-119 | Over every run of enqueues and settlements: the jobs enqueued are those finished, at most one running, then those waiting, in order; a waiting job implies a running one |
| ChannelQueues.EveryJobRuns | packages/mom/src/slack.ts:106-118 | No wake-up is lost: after as many settlements as jobs are running or waiting, all enqueued jobs have finished |
| ChannelQueues.WaitingBound | packages/mom/src/slack.ts:248-257 | At most five jobs wait when only events are enqueued, and every mention adds at most one |
| ChannelQueues.ChannelQueue.Enqueue | packages/mom/src/slack.ts:98-101 | Adds one job to the history and starts it if none is running |
| ChannelQueues.ChannelQueue.ProcessNext | packages/mom/src/slack.ts:107-111 | Starts jobs in order until one is suspended, also past jobs that throw at once |
| ChannelQueues.ChannelQueue.Settled | packages/mom/src/slack.ts:112-117 | When a job resolves or rejects it is finished and the next starts |
| ChannelQueues.SlackBot.GetQueue | packages/mom/src/slack.ts:263-270 | Every channel has one queue of its own, made on first use |
| ChannelQueues.SlackBot.EnqueueEvent | packages/mom/src/slack.ts:248-257 | Accepted if and only if fewer than five jobs wait in the channel; no other channel changes |
| EventHistories.OncePerVersion | packages/mom/src/events.ts:278-299 | However often a file is loaded for the same time, a one-shot event with a valid time at most 2^31-1 ms ahead at its first load runs at most once |
| EventHistories.LoadedAgainNeverRan | packages/mom/src/events.ts:165-177 | Such an event that is loaded again for the same time has not run and does not run from its earlier load |
| EventHistories.FarOffRunsTwice | packages/mom/src/events.ts:289-298 | For every load time and every time further off than that range, a history is given in which the event runs for two loads of its file, the first time too early |
| EventHistories.RunsTwiceExactlyBeyondRange | packages/mom/src/events.ts:278-299 | A future one-shot event loaded at a given time can run twice if and only if its time is more than 2^31-1 ms ahead |
| EventHistories.LoadRunsOnce | packages/mom/src/events.ts:291-296 | One load of an immediate or one-shot event runs at most once |
| EventHistories.NeverEarly | packages/mom/src/events.ts:278-299 | A run comes after its load, and not before it is due |
| EventHistories.NotBeforeItsTime | packages/mom/src/events.ts:278-299 | A one-shot event loaded at most 2^31-1 ms ahead runs at its time or later |
| EventHistories.OnTimeExactlyWithinRange | packages/mom/src/events.ts:289-298 | A future one-shot waits for its time if and only if it is at most 2^31-1 ms away; further off, or without a valid time, it is due after a millisecond |
| EventHistories.NeverAfterRemoval | packages/mom/src/events.ts:141-177 | Nothing that was loaded before runs after its file was found deleted or modified, or after the watcher was stopped |
| EventHistories.AfterStop | packages/mom/src/events.ts:84-111 | After a stop and until the next start no reading begins, and only files that were being read at the stop are loaded or run: none, if none was |
| EventHistories.AfterRemoval | packages/mom/src/events.ts:157-177 | After a stop, or after a file was found deleted, and until a reading of it begins again, it is loaded or run only if it was being read at that moment, and what runs was loaded since |
| EventHistories.RemovalIsFinalExactly | packages/mom/src/events.ts:179-219 | A stop or a found deletion keeps a file from running, until its reading begins again, if and only if it is not being read at that moment |
| EventHistories.LeftOverFrom | packages/mom/src/events.ts:84-111 | At every moment after a removal, what is read or armed for the file comes from a reading that was under way |
| EventsWatchers.StopWhileReading | packages/mom/src/events.ts:127-139 | A witness: start, stop while a file is being read, and its one-shot event is armed in the stopped watcher |
| EventsWatchers.EventsWatcher.Start | packages/mom/src/events.ts:61-79 | All event files present begin to be read, and changes are watched from then on |
| EventsWatchers.EventsWatcher.Stop | packages/mom/src/events.ts:84-111 | At any moment: no timer, cron job, debounce or watch is left that could call back; files that are being read are read on |
| EventsWatchers.EventsWatcher.ChangeSettled | packages/mom/src/events.ts:113-125 | The debounce is used up and the change handled |
| EventsWatchers.EventsWatcher.HandleFileChange | packages/mom/src/events.ts:141-155 | A deleted or modified known file is cancelled first; a file that exists begins to be read |
| EventsWatchers.EventsWatcher.HandleDelete | packages/mom/src/events.ts:157-163 | At any moment: a known file is cancelled and forgotten, an unknown one ignored |
| EventsWatchers.EventsWatcher.Respond | packages/mom/src/events.ts:207-218 | The event is run or scheduled according to its type |
| EventsWatchers.EventsWatcher.DropFile | packages/mom/src/events.ts:200-203 | A file that cannot be parsed is deleted and forgotten |
| EventsWatchers.EventsWatcher.Notify | packages/mom/src/events.ts:72-75 | Each event file is debounced by at most one timer; other files are ignored |
| EventsWatchers.EventsWatcher.CancelScheduled | packages/mom/src/events.ts:165-177 | Exactly the callbacks of this file are gone |
| EventsWatchers.EventsWatcher.ReadEvent | packages/mom/src/events.ts:183-198 | The first of up to three readings that parses, or none if none does |
| EventsWatchers.EventsWatcher.FileRead | packages/mom/src/events.ts:199-219 | The event is run, scheduled, or dropped with its file, and the tables stay disjoint and within the known files |
| EventsWatchers.EventsWatcher.HandleImmediate | packages/mom/src/events.ts:258-276 | Runs once unless the file is gone or older than the start |
| EventsWatchers.EventsWatcher.HandleOneShot | packages/mom/src/events.ts:278-299 | Past events are dropped, others get one timer |
| EventsWatchers.EventsWatcher.HandlePeriodic | packages/mom/src/events.ts:301-316 | A valid schedule gets one cron job, an invalid one loses its file |
| EventsWatchers.EventsWatcher.TimerFired | packages/mom/src/events.ts:291-296 | The event runs, its timer is gone from the table, its file is removed |
| EventsWatchers.EventsWatcher.CronFired | packages/mom/src/events.ts:303-306 | The event runs and stays scheduled |
| EventsWatchers.EventsWatcher.Execute | packages/mom/src/events.ts:318-357 | The file is removed exactly for events that run once, whether or not the queue took the event |
| MarkdownChunks.ChunksKeepContent | packages/knowledge/src/knowledge-manager.ts:103-136 | The characters other than white space of all chunks, in order, are those of the document |
| MarkdownChunks.ChunksRespectLimits | packages/knowledge/src/knowledge-manager.ts:103-136 | Every chunk comes from one section, is not empty, is at most 2000 characters long or a single longer paragraph, and no heading line of level 1 to 3 starts inside it |
| MarkdownChunks.SectionsAreExact | packages/knowledge/src/knowledge-manager.ts:106-107 | The sections are the document, none holds a heading line inside, each but the first starts with one |
| MarkdownChunks.ParagraphsHoldNoBlankLine | packages/knowledge/src/knowledge-manager.ts:117-117 | No paragraph holds a blank line, and each but the first starts with something else than a line feed |
| MarkdownChunks.GatherIsWellSized | packages/knowledge/src/knowledge-manager.ts:119-132 | Gathering paragraphs gives non-empty, trimmed chunks of bounded size |
| MarkdownChunks.GatherUnbroken | packages/knowledge/src/knowledge-manager.ts:119-132 | Gathering paragraphs, with blank lines normalized, makes no heading line inside a chunk |
| MarkdownChunks.GatherJoinsWhatFits | packages/knowledge/src/knowledge-manager.ts:118-132 | The chunks of a long section are its paragraphs in order, cut into groups only where the next paragraph does not fit on the group before it |
| MarkdownChunks.ChunkContent | packages/knowledge/src/knowledge-manager.ts:103-136 | The loop makes exactly the chunks of the sections, each with the given metadata |
| MarkdownChunks.ChunkParagraphs | packages/knowledge/src/knowledge-manager.ts:116-132 | The inner loop makes exactly the chunks gathered from the paragraphs of one section |
| Texts.TrimCuts | packages/knowledge/src/knowledge-manager.ts:110-111 | Trimming removes white space from both ends and nothing else |
| LogSync.NormalizeUndoesDecoration | packages/mom/src/agent.ts:734-769 | Stripping gives the undecorated message back if and only if the attachment marker does not occur in it, or across its end when attachments follow |
| LogSync.LiveMessageIsRecognized | packages/mom/src/context.ts:51-90 | A message handled live is recognized in a sync if and only if its user name was known (or equally unknown) and the marker does not occur as above |
| LogSync.TextAcrossTheMarker | packages/mom/src/context.ts:63-67 | A text without the marker that does not come back: it ends in all of the marker but the last line feed, and attachments follow |
| LogSync.SecondSync | packages/mom/src/context.ts:92-142 | A second sync of the same log appends nothing if and only if no missing text starts with a timestamp or holds the marker |
| LogSync.SyncAddsWhatIsMissing | packages/mom/src/context.ts:92-142 | A sync appends the text of every eligible line that the session lacks, each once, in time order, and nothing else |
| LogSync.SyncAddsFirstLines | packages/mom/src/context.ts:98-140 | The additions are exactly those of the lines with time stamp and date that are neither a bot's nor the excluded one, come first with their text, and whose text the session lacks |
| LogSync.SortIsStable | packages/mom/src/context.ts:135-135 | Additions with the same time stay in the log's order |
| LogSync.SortOrders | packages/mom/src/context.ts:135-135 | The additions are sorted by time and none is lost |
| LogSync.CollectsWhatIsMissing | packages/mom/src/context.ts:98-130 | What the loop over the log collects are exactly the eligible texts that are not in the session |
| LogSync.CutLeavesNoMarker | packages/mom/src/context.ts:63-67 | A stripped text holds no marker, and a text without one is left alone |
| LogSync.StampMatches | packages/mom/src/agent.ts:736-743 | Every live timestamp of the years 1000 to 9999 has the form that the sync strips |
| LogSync.SyncLogToSessionManager | packages/mom/src/context.ts:42-142 | The session afterwards is the old one and the sorted additions; the result is their number |
| LogSync.CollectExisting | packages/mom/src/context.ts:51-90 | The set built in the loops holds every user text of the session, normalized |
| LogSync.CollectNew | packages/mom/src/context.ts:96-130 | The loop over the lines collects exactly what is specified |
| ShellQuotes.RoundTrip | packages/mom/src/sandbox.ts:218-221 | A quoted text is read as exactly one word, the text itself, if and only if it has no null character |
| ShellQuotes.EscapedIsRead | packages/mom/src/sandbox.ts:218-221 | Inside a longer line, a quoted text continues the word it stands in by exactly itself |
| ShellQuotes.QuotedArgument | packages/mom/src/sandbox.ts:218-221 | After any readable line and a blank, a quoted text is one more argument and nothing else |
| ShellQuotes.CommandReachesContainer | packages/mom/src/sandbox.ts:182-187 | The command line for a container is read as six words, the last of which is the command |
| ShellQuotes.ReadAfterBlank | packages/mom/src/sandbox.ts:184-184 | Words before a blank and words after it are read independently |
| Invoices.GroupingKeepsHours | packages/invoice/src/generator.ts:21-27 | Grouping keeps the hours in all and for every description, and no description comes twice |
| Invoices.NetIsNear | packages/invoice/src/generator.ts:29-39 | For n groups the net total differs from rate times hours by at most n * (0.005 * abs(rate) + 0.005) |
| Invoices.NetIsInCents | packages/invoice/src/generator.ts:29-39 | The sum of the items is in whole cents |
| Invoices.RoundingKeepsWholeCents | packages/invoice/src/generator.ts:67-81 | Rounding gives whole cents, and leaves an amount alone if and only if it is a whole number of cents |
| Invoices.GrossIsNetPlusTax | packages/invoice/src/generator.ts:62-84 | Gross equals net plus tax exactly, for items of either kind, all three are whole numbers of cents, and tax is within half a cent |
| Invoices.EighthIsRounded | packages/invoice/src/generator.ts:47-60 | An eighth of a unit is no whole number of cents, and becomes 0.13 in the total |
| Invoices.InvoiceGenerator.FixedPrice | packages/invoice/src/generator.ts:47-60 | Gross is net plus tax; net equals the amount if and only if the amount is a whole number of cents |
| Invoices.InvoiceGenerator.FromTimeEntries | packages/invoice/src/generator.ts:17-42 | One item per description; net is the sum of the items; gross is net plus tax; net is near rate times hours |

## Left out

Of the agent runtime:

- Timestamps, model and provider names, usage and images in messages; results of tools are their text and details.
- Aliasing of message objects: messages are values. The loop's arrays and the agent's fields are updated in place.
- What `transformContext`, `convertToLlm` and `getApiKey` do to a request; the model is asked with the loop's context.
- Hooks are functions of the reply, call, arguments and the context before the tool calls; a before-hook may throw, an after-hook and listeners do not.
- Tools send no update after they settle, and a stream has at most one `start` (`packages/ai/src/types.ts:229-236`).
- `reset()` or an assignment to `state.messages` during a run, which the state's agreement with the log does not survive.
- Polls are atomic; other parties enqueue, clear and change modes between turns, before each poll, and tools interleave at every await of the tool phase. Enqueues at other moments amount to enqueues before the next poll.
- An environment is a finite script of replies; after its last one the stream throws.
- Subscription and the order of listeners, the abort signal beyond its effect on the failure message, `waitForIdle`, and `EventStream`.
- The conversion of prompt text and images into messages.

Of the proxy decoder:

- `fetch`, a response that is not OK, byte decoding (the text is characters), and the parsers of JSON: they are parameters.
- Aliasing of the partial reply in pushed events: an event is recorded with what identifies it.

Of the Slack bot:

- Slack's connection, the handling of mentions and messages before they are queued, and backfill.
- A job that enqueues further jobs and then throws before its first await; jobs are suspended or throw at once.
- Overlapping reads of one event file, as by a modification noticed while it is being read: methods require that there are none. Reads of different files, stops and deletions interleave freely.
- Immediate events run once for each load; when the file cannot be deleted, a later change notice loads it again.
- `EventsWatchers.EventsWatcher.Start`: requires that no file it finds is being read or scheduled, as for the one start of a new watcher in `packages/mom/src/main.ts:351-352`. A second start that finds a file scheduled since a stop loads it again without cancelling: two timers are live, one of them in no table, and the event runs twice; the model has no such state.
- A clock that goes back: every time is required to be no earlier than the ones before.
- When a cron job fires, and a failure to compute its next run after it was created.
- Fields of event files that are not strings; the texts of parse errors; the message posted for an event.
- The reading of log lines and dates: parsed lines and a clock are inputs, and texts are compared as characters.
- Which attachments are images; the paths of the others are an input.
- `LogSync.StampMatches`: years outside 1000 to 9999, whose timestamps have another form.
- Shell features other than quoting: reading gives up on characters with another meaning. Executors, time limits and output limits.

Of the others:

- Reading of sessions, file names and the analysis of packed transcripts.
- `TranscriptPacking.Pack`: requires non-empty transcripts, which every transcript is because of its header line.
- Regular expressions and `split` as such: their effect is defined on positions in the text.
- Embeddings, storage and search of chunks, and chunk types.
- Binary floating point: hours, prices and taxes are exact, and rounding is to the nearest with halves up. Currency and dates of invoices.
- Command lines, user interfaces, the model catalogue, clients for other services, configuration and migration.
