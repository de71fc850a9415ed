# pi-agent-vercel core, modelled in Dafny

This project models the core of a small agent runtime written in TypeScript
on top of the Vercel AI SDK. There are three parts:

- **The turn scheduler** (`src/agent-loop.ts`). `agentLoop` and
  `agentLoopContinue` open an event stream and run `runLoop`. `runLoop`
  alternates provider turns and tool batches:
  - it injects steering messages before a turn and follow-up messages when
    the inner loop runs dry;
  - it stops early when a reply ends with an `error` or `aborted` stop
    reason;
  - it pushes a totally ordered log of `AgentEvent`s: `agent_start`,
    `turn_start`/`turn_end`, `message_*`, `tool_execution_*` and
    `agent_end`.

  `streamAssistantResponse` folds the provider's deltas into one assistant
  message. `executeToolCalls` runs a batch of tool calls one by one, turns
  every failure into an error result, and abandons the batch once a
  steering poll returns messages.
- **The event stream** (`src/utils/event-stream.ts`). It holds:
  - a single-writer buffer;
  - an ended flag and a result that settles once;
  - listeners called in registration order;
  - a replay of the whole buffer to each new listener.
- **History compaction and the `Agent` facade.** This part covers:
  - the `chars / 4` token estimate;
  - the prune strategy, which erases old tool outputs;
  - the summarize strategy, which folds old messages into one summary
    message;
  - the threshold-and-mode orchestrator in both its current
    (`src/compaction/`) and legacy (`src/compactor.ts`) versions;
  - the `Agent` class, with its streaming guard and its drain-on-read
    steering and follow-up queues;
  - `defaultConvertToLlm`.

The foreign calls become parameters:

- **The model provider** is a `Script`. It holds one `Response` per turn,
  each a list of deltas and a stop reason.
- **The steering and follow-up providers** are scripted poll answers. An
  exhausted poll script answers the empty list. `Agent.prompt` builds them
  from its two queues: the first poll of each answers the whole queue and
  empties it, and later polls answer nothing.
- **Tools** are a list of `Tool`s. Each tool has a name and a scripted
  behaviour: updates, then content and details or a thrown message.
- **The summarizer's model** is the summary text, given as a parameter.
  In the legacy compactor it is a `Result` that may hold the thrown error.
- **`Date.now()`** is the parameter `now`.

The loop's imperative code is modelled as methods on a `class
EventStream` and a `class MessageList`, a JavaScript array shared by
reference. Each method is proved against the scheduler function
`LoopSpec.Continue`: the events it pushes and the messages it appends are
exactly those of the run `Continue` computes. The properties of the run are
lemmas about that function:

- the log is complete turns, then exactly one `agent_end` as the last event;
- every message is pushed as one block, `message_start`, its own
  `message_update`s, then `message_end`, and no block is open at
  `agent_end`;
- the stream's result is that event's messages.

Two behaviours of the source are modelled as written:

- The assistant message joins `newMessages` but never the context's
  message list. `ContextGrowth` holds the pending messages and tool results
  only.
- `agentLoopContinue` appends to the caller's own array, while `agentLoop`
  works on a copy.

If the response script runs out, the provider never answers. The run is
then `Stalled`: no `agent_end` is pushed and the result stays pending.

## Model

| member | source | states |
|---|---|---|
| EventStreams.EventStream.constructor | src/utils/event-stream.ts:11-19 | A new stream has an empty buffer, no listeners, is not ended, and its result is pending. |
| EventStreams.EventStream.Push | src/utils/event-stream.ts:21-30 | On an ended stream, push changes nothing. Otherwise it appends exactly one event and calls every current listener with it, in registration order: the call log grows by one call per listener, in the set's order. The stream ends, with the result resolved to `resultMapper(event)`, exactly when `endCondition(event)` holds. The invariant is kept: each listener has received the whole buffer as its tail, and what each has received is what the call log says it was called with. |
| EventStreams.EventStream.End | src/utils/event-stream.ts:32-36 | End sets the ended flag and leaves the buffer alone. It resolves the result only if nothing settled it before, so it is idempotent and cannot override an earlier `error`. |
| EventStreams.EventStream.Error | src/utils/event-stream.ts:38-42 | Error sets the ended flag and appends nothing. It rejects the result only if nothing settled it before. |
| EventStreams.EventStream.Subscribe | src/utils/event-stream.ts:44-48 | The listener joins the set once. It is called with the whole current buffer in order, even after the stream has ended: the call log grows by one call to it per buffered event. Nothing else changes. |
| EventStreams.EventStream.Unsubscribe | src/utils/event-stream.ts:49 | The handle removes exactly that listener and keeps the others in order. |
| EventStreams.EventStream.Result | src/utils/event-stream.ts:52-54 | The result is pending exactly while the stream has not ended. |
| EventStreams.Deliver | src/utils/event-stream.ts:24-26 | The delivery loop appends the event to what each current listener received, and to nobody else's. It calls the listeners one after the other in registration order, as the call log it extends records. |
| EventStreams.HeardDelivery | src/utils/event-stream.ts:24-26 | In one delivery to a set of listeners, each member hears the event exactly once and nobody else hears it. |
| EventStreams.HeardReplay | src/utils/event-stream.ts:46-48 | A replay is heard by the new listener only, event by event, in buffer order. |
| EventStreams.DeliveryHeard | src/utils/event-stream.ts:24-26 | A delivery keeps what each listener received equal to what the call log says it heard. |
| EventStreams.ReplayHeard | src/utils/event-stream.ts:46-48 | So does a replay. |
| EventStreams.DeliveredTo | src/utils/event-stream.ts:24-26 | A listener not in the set (for example, one unsubscribed) receives nothing more. A current listener receives the event exactly once, after what it had. |
| EventStreams.Replay | src/utils/event-stream.ts:46-48 | The replay loop calls the new listener with the buffer's events, in order, as the call log it extends records. |
| EventStreams.Without | src/utils/event-stream.ts:49 | Removing a listener leaves exactly the others, with no duplicates. |
| AgentStream.CreateAgentStream | src/agent-loop.ts:68-73 | The agent stream starts open and empty. It ends on `agent_end`, and its result is then that event's messages. |
| AgentStream.Emit | src/agent-loop.ts:68-73 | Pushing any event other than `agent_end` appends it and keeps the stream open. |
| AgentStream.Finish | src/agent-loop.ts:155 | Pushing `agent_end` appends it last, ends the stream, and resolves the result with its messages. |
| AgentTypes.MessageList.Push | src/agent-loop.ts:100 | Pushing onto the shared array appends exactly one message. |
| AgentTypes.MessageList.PushAll | src/agent.ts:139 | Spreading a list into the shared array appends it in order. |
| TurnEngine.StreamAssistantResponse | src/agent-loop.ts:158-226 | The pushed events are `message_start`, one `message_update` per text or tool-call delta, then `message_end` (`AssistantEvents`). The returned message is the fold of all deltas with the scripted stop reason. |
| TurnEngine.PushDelta | src/agent-loop.ts:193-213 | One loop step: the content becomes `Apply` of the delta. A text or tool-call delta pushes exactly one `message_update` with the new draft; any other delta pushes nothing. |
| TurnEngine.AccumulateToolCalls | src/agent-loop.ts:204-212 | The tool calls of the folded content are exactly the tool-call deltas, in order. |
| TurnEngine.AccumulateText | src/agent-loop.ts:194-202 | The text of the folded content, read in order, is the concatenation of all text deltas. |
| TurnEngine.AccumulateCoalesced | src/agent-loop.ts:195-200 | A text delta extends a trailing text part, so the folded content never holds two adjacent text parts. |
| TurnEngine.UpdateEventsCount | src/agent-loop.ts:193-213 | Exactly one `message_update` is pushed per text or tool-call delta, and nothing else. |
| ToolExecution.FindTool | src/agent-loop.ts:241 | The lookup finds nothing exactly when no tool has the name. Otherwise it finds the first tool with that name. |
| ToolExecution.RelayUpdates | src/agent-loop.ts:255-263 | Each partial result becomes one `tool_execution_update` with the call's id, name and arguments, in order. |
| ToolExecution.ExecuteToolCall | src/agent-loop.ts:240-292 | One call pushes `tool_execution_start`, its updates, `tool_execution_end`, then `message_start` and `message_end` of its result (`ToolEvents`). The returned message is `ResultFor` the call. |
| ToolExecution.ExecuteToolCalls | src/agent-loop.ts:228-304 | The results are the results of an in-order prefix of the message's tool calls. That prefix stops at the first steered poll (`BatchSize`). The log is the prefix's events. The steering answer is returned exactly when a poll was non-empty, and the unused polls are left. |
| ToolExecution.BatchSizeFirstSteered | src/agent-loop.ts:294-300 | The batch runs every call unless a poll is non-empty. If one is, it stops right after the first non-empty poll, and every earlier poll was empty. The batch is shorter than the call list exactly when a non-final poll is non-empty. |
| ToolExecution.BatchSizeStays | src/agent-loop.ts:294-300 | Once a batch stops at a steered poll, more calls after it do not change where it stops. |
| ToolExecution.BatchStartsInOrder | src/agent-loop.ts:239-248 | A batch's `tool_execution_start` events name exactly its calls, in order, with their ids and names. |
| ToolExecution.MissingTool | src/agent-loop.ts:253-270 | A call to a tool not in the set still gets start and end events. The end event has `isError`, and the result message reads "Tool <name> not found" with empty details. |
| LoopSpec.Echo | src/agent-loop.ts:33-36 | Each echoed message gives two events, `message_start` and `message_end`. |
| LoopSpec.TakeTurn | src/agent-loop.ts:89-143 | A turn that continues uses up exactly one scripted response. |
| LoopSpec.ToolTurn | src/agent-loop.ts:115-143 | A turn whose reply is not terminal always continues the loop and uses up one response. |
| LoopSpec.EndingShape | src/agent-loop.ts:106-113 | After an `error` or `aborted` reply, the turn's log ends with `turn_end` (no tool results) and then `agent_end`, which carries every message so far. |
| LoopSpec.ToolTurnShape | src/agent-loop.ts:115-136 | A non-terminal turn's log holds one `turn_start` and one `turn_end`. `newMessages` grows by the injected messages, the reply and its tool results, in that order. |
| LoopSpec.ContinueShape | src/agent-loop.ts:85-155 | From the inner loop's test on, the log's boundary events are complete turns, then either one final `agent_end` (finished) or one open `turn_start` (stalled). A finished run ends with `agent_end` of all new messages. |
| LoopSpec.TurnShape | src/agent-loop.ts:89-144 | The same shape, from the top of one turn. |
| LoopSpec.PollStep | src/agent-loop.ts:89-147 | A turn that ends the run rules out the follow-up poll. A turn that continues leaves that question to the next test of the inner loop. |
| LoopSpec.TurnIgnoresFollowUps | src/agent-loop.ts:89-143 | A turn neither reads nor changes the follow-up answers. |
| LoopSpec.FollowUpsUnread | src/agent-loop.ts:89-147 | A run that ends before its first follow-up poll is the same whatever the follow-up provider would answer. |
| LoopSpec.FirstTurnInjects | src/agent-loop.ts:82-104 | Every run takes at least one turn. Its first turn injects the first steering answer. |
| RunLog.RunShape | src/agent-loop.ts:16-156 | A whole run's log starts with `agent_start` and is complete turns. A finished run has exactly one `agent_end`, last, carrying the prompts and every message the turns added. A stalled run has none. |
| MessageBlocks.EchoBlocks | src/agent-loop.ts:96-99 | Echoed messages are pushed as complete `message_start`/`message_end` blocks. |
| MessageBlocks.ReplyUpdates | src/agent-loop.ts:193-212 | Every `message_update` of a streamed reply is about that reply. |
| MessageBlocks.AssistantBlocks | src/agent-loop.ts:191-224 | A streamed reply is one block: `message_start`, its own updates, `message_end`. |
| MessageBlocks.ToolBlocks | src/agent-loop.ts:240-292 | A tool call's execution events come outside any block, and its result message is one block. |
| MessageBlocks.BatchBlocks | src/agent-loop.ts:235-301 | A tool batch's events are complete blocks. |
| MessageBlocks.TakeTurnBlocks | src/agent-loop.ts:89-143 | Every turn's events are complete blocks. This covers a stalled turn, an ending turn (whose `agent_end` comes outside any block) and a tool turn. |
| MessageBlocks.ContinueBlocks | src/agent-loop.ts:75-156 | The rest of a run from any loop state is complete blocks. |
| MessageBlocks.TurnBlocks | src/agent-loop.ts:89-156 | The same, from the top of a turn. |
| MessageBlocks.NoneOpenBefore | src/agent-loop.ts:16-156 | In a log of complete blocks, no block is open before any event other than a message update or a message end. |
| MessageBlocks.LogBlocks | src/agent-loop.ts:16-156 | A run's whole log is complete message blocks. Each `message_start` is followed only by updates of that message, then by exactly one `message_end` of it. No block is open when any other event is pushed, `agent_end` included, nor when the run stalls. |
| AgentLoops.InjectPending | src/agent-loop.ts:96-104 | Each pending message is echoed, appended to the context and appended to `newMessages`, in order. |
| AgentLoops.AppendResults | src/agent-loop.ts:130-133 | The tool results are appended, in order, to both the context and `newMessages`. |
| AgentLoops.ToolPhase | src/agent-loop.ts:115-134 | A reply without tool calls runs no batch and leaves steering unpolled. Otherwise the batch runs as `ExecuteToolCalls` states, and its results join the context and `newMessages`. |
| AgentLoops.RunTurn | src/agent-loop.ts:89-143 | One iteration of the inner loop pushes exactly the turn's events of `TakeTurn`. It grows the context by the injected messages and tool results only, and grows `newMessages` by the turn's transcript. A terminal reply ends the stream. |
| AgentLoops.RunTurns | src/agent-loop.ts:89-144 | The inner loop is a prefix of the scheduler's run. It exits with no tool calls and nothing pending, or with the run ended. It exits without ending the run exactly when the run reaches a follow-up poll (`PollsFollowUps`). |
| AgentLoops.RunLoop | src/agent-loop.ts:75-156 | `runLoop` pushes exactly the events of `Continue` from the first steering poll. The context grows by `ContextGrowth` and `newMessages` by the transcript. A finished run resolves the stream with all new messages. It reports that it called the follow-up provider exactly when `PollsFollowUps` holds. |
| AgentLoops.OpenRun | src/agent-loop.ts:22-32 | A run's stream is fresh and open and holds `agent_start` then `turn_start`. |
| AgentLoops.EchoPrompts | src/agent-loop.ts:33-36 | Each prompt is echoed as `message_start` and `message_end`, in order. |
| AgentLoops.AgentLoop | src/agent-loop.ts:16-42 | The log is `agent_start`, `turn_start`, the echoed prompts, then the run. A finished run resolves with the prompts and every added message. A stalled run stays pending. The caller's message array is not touched. It reports whether the run called the follow-up provider. |
| AgentLoops.AgentLoopContinue | src/agent-loop.ts:44-66 | The call fails with "Cannot continue: no messages in context" exactly when the context is empty. Otherwise the log is `agent_start`, `turn_start`, then the run, and the caller's own array grows by the run's context growth. |
| CompactionUtils.CeilQuarter | src/compaction/utils.ts:27 | The result is `Math.ceil(chars / 4)`: the least whole number `r` with `4r >= chars`. |
| CompactionUtils.MessageCharsOf | src/compaction/utils.ts:10-25 | The inner loops count string content by its length, text parts by their length, tool calls as name + arguments + 50, tool results by their serialised length, and images as 4800. |
| CompactionUtils.CountChars | src/compaction/utils.ts:8-26 | The outer loop's `chars` is the sum over all messages. |
| CompactionUtils.EstimateTokens | src/compaction/utils.ts:7-28 | The estimate is `ceil(chars / 4)` of that sum. |
| CompactionUtils.CharsAppend | src/compaction/utils.ts:8-27 | The count is additive over concatenation, and the empty list counts 0. |
| CompactionUtils.LegacyNeverAbove | src/compactor.ts:112-127 | The legacy count never exceeds the current one. The two agree on lists without tool-call parts. |
| Prune.PruneLoop | src/compaction/prune.ts:29-49 | The map gives `PruneBefore` of the boundary. The counter counts the older tool messages that are not already fully pruned. |
| Prune.Compact | src/compaction/prune.ts:22-57 | The output has the input's length. Messages from `max(0, n - keepRecent)` on, and non-tool messages, are unchanged. An older tool message keeps every field but has each result replaced with "(result pruned)". `keepRecent` defaults to 10. The count and both token estimates are as stated. |
| Prune.PruneShape | src/compaction/prune.ts:29-49 | The same shape facts, for any boundary and marker. |
| Prune.ReplaceChanges | src/compaction/prune.ts:33-46 | Replacing results changes a message exactly when it is a tool message not already fully marked. |
| Prune.StaleCountIsDifferences | src/compaction/prune.ts:29-49 | `compactedCount` is exactly the number of positions the prune changes. |
| Prune.PruneIdempotent | src/compaction/prune.ts:33-46 | Pruning the output again with the same boundary returns it unchanged and counts 0. |
| Prune.CompactIdempotent | src/compaction/prune.ts:22-57 | Compacting the output again with the same `keepRecent` gives the same boundary, the same messages and a count of 0. |
| Prune.StaleCountBound | src/compaction/prune.ts:29-49 | The count never exceeds the number of messages before the boundary. |
| Summarize.Cut | src/compaction/summarize.ts:31-33 | The number summarized never exceeds the length. For `keepRecent >= 0` it is `max(0, n - keepRecent)`. |
| Summarize.Compact | src/compaction/summarize.ts:25-66 | The call fails with "SummarizeStrategy requires a model" exactly when no model is given. Otherwise `tokensBefore` estimates the input and `tokensAfter` the output. |
| Summarize.CompactShape | src/compaction/summarize.ts:31-62 | With boundary 0, the input is returned with count 0 and equal estimates. Otherwise the output is the summary user message "[Context Summary of prior turns]:\n" + text, then exactly `messages[boundary..]`, with count = boundary. |
| Summarize.CompactAccounts | src/compaction/summarize.ts:31-65 | Every input message is either counted as summarized or kept, in order, as the output's tail. With `keepRecent >= 0` the tail is the last `min(n, keepRecent)` messages. |
| Compaction.SummaryModel | src/compaction/compactor.ts:55-58 | The runtime model takes precedence over `summarizeOptions.model`. |
| Compaction.ContextCompactor.constructor | src/compaction/compactor.ts:30-35 | The defaults are threshold 30000 and mode hybrid. |
| Compaction.ContextCompactor.Run | src/compaction/compactor.ts:37-66 | Below the threshold the input is returned; an estimate equal to the threshold compacts. Prune mode returns the pruned list. Summarize mode summarizes when a model is available and otherwise returns the input. Hybrid mode prunes, then summarizes the pruned list only if its estimate is strictly above the threshold and a model exists. |
| Compaction.PruneModeSettles | src/compaction/compactor.ts:48-51 | In prune mode, pruning the pruned list changes nothing. |
| LegacyCompactor.ContextCompactor.constructor | src/compactor.ts:23-27 | The defaults are threshold 30000, keepRecent 10 and strategy hybrid. |
| LegacyCompactor.ContextCompactor.Run | src/compactor.ts:33-52 | Below the threshold the input is returned. Otherwise prune and hybrid prune first. Summarize, or hybrid still above the threshold, summarizes only when a model is present. |
| LegacyCompactor.ContextCompactor.PruneToolOutputs | src/compactor.ts:57-71 | The output has the input's length. The last `keepRecent` messages and non-tool messages are unchanged. Older tool messages have every result set to "(Output pruned to save context space)", with no already-pruned check. |
| LegacyCompactor.ContextCompactor.PruneSettles | src/compactor.ts:57-71 | Pruning is idempotent, and a list no longer than `keepRecent` is left alone. |
| LegacyCompactor.ContextCompactor.SummarizeShape | src/compactor.ts:76-107 | The input is returned when nothing precedes the kept suffix or the model call fails. Otherwise the output is "[Context Summary of prior turns]: " + text, then the kept suffix, which is the last `min(n, keepRecent)` messages. |
| LegacyCompactor.ContextCompactor.EstimateTokens | src/compactor.ts:112-127 | The legacy estimate is `ceil(chars / 4)`, with tool calls counted without their tool name. |
| AgentFacade.DefaultConvertToLlm | src/agent.ts:16-51 | The translation keeps the list's length and maps each message on its own. |
| AgentFacade.ConvertShape | src/agent.ts:16-51 | Roles map as user → user, assistant → assistant, toolResult → tool, anything else → empty user. The number of parts is kept. Tool parts carry the message's call id. |
| AgentFacade.ToolCallsSurvive | src/agent.ts:30-38 | Every `toolCall` part of an assistant message becomes a `tool-call` with the same id, name and arguments, in order, and no other tool call appears: a part already in the provider's format becomes empty text. |
| AgentFacade.Agent.constructor | src/agent.ts:73-79 | The history is the initial array, shared, or a new empty one. The system prompt defaults to "". The queues start empty and the agent is not streaming. |
| AgentFacade.Agent.SetTools | src/agent.ts:81-83 | The tool set is replaced and nothing else changes. |
| AgentFacade.Agent.Steer | src/agent.ts:85-87 | One message is appended to the steering queue, and nothing else changes. |
| AgentFacade.Agent.FollowUp | src/agent.ts:89-91 | One message is appended to the follow-up queue, and nothing else changes. |
| AgentFacade.Agent.Abort | src/agent.ts:93-95 | The current run's controller, if there is one, is aborted. |
| AgentFacade.Agent.DrainSteering | src/agent.ts:122-126 | The poll returns the whole steering queue and leaves it empty, so a second poll returns nothing. |
| AgentFacade.Agent.DrainFollowUps | src/agent.ts:127-131 | The same, for the follow-up queue. |
| AgentFacade.Agent.Prompt | src/agent.ts:97-146 | While streaming, the call fails with "Agent is already streaming" and changes nothing. Otherwise the input is normalised and a fresh, unaborted controller is installed. The loop runs on the history. Its first steering poll answers the steering queue, and its first follow-up poll answers the follow-up queue. Every later poll answers nothing. Afterwards the steering queue is empty. The follow-up queue is empty if the run reached a follow-up poll, and unchanged otherwise. A finished run resolves the result to the prompts followed by the run's transcript; those messages are appended to the history and the streaming flag drops. A run that never settles leaves the flag up. The tool set is never changed. |

## Left out

- The Vercel AI SDK calls `streamText` and `generateText` are foreign. They are replaced by scripted responses, a summary text and, in the legacy compactor, a scripted reply that may be an error. The usage and cost bookkeeping, the model id and the summarizer's system prompt are dropped.
- The `convertToLlm` and `transformContext` hooks inside the loop are caller-supplied and opaque. The reply does not depend on the context. `defaultConvertToLlm` itself is modelled.
- AbortSignal propagation into the provider and the tools is not modelled. Cancellation appears only as a scripted `aborted` stop reason or a scripted tool throw. `Agent.Abort` only sets the controller's flag.
- Exceptions thrown by the provider or by the for-await loop are not modelled: nothing in the source catches them. An exhausted response script instead stands for a provider that never answers, so the run stalls with its result pending.
- The fire-and-forget async functions of `agentLoop`, `agentLoopContinue` and `prompt` are modelled as one sequential run that completes before the stream is returned. No listener subscribes during a run, and a steering or follow-up poll cannot see a message queued in between.
- AgentFacade.Agent.Prompt: a rejected result (`finally`) cannot arise in the model, so only the resolved and never-settling cases are stated. Because the run is sequential, a message steered or queued as a follow-up while it runs is not modelled. Only the queues' contents when `prompt` is called reach the run.
- Assistant and tool-result messages hold content parts only. Provider-format messages whose `content` is a string cannot be built, so `CompactionUtils.MessageChars` never counts string content for those roles (src/compaction/utils.ts:10-11).
- `EventStream`'s async iterator polls on a timer and is not modelled. Listener re-entrancy and listeners that throw are not modelled either. Listeners are identified by number. What each has been called with is recorded, and so is the order of all calls, in a log of (listener, event) pairs that exists only for the proofs.
- Events hold snapshots of messages. In the source, `message_update` events share the one mutable assistant object, so a listener reading an old event later sees the final content.
- `JSON.stringify` lengths are an abstract serialised length: a string's length plus two quotes, or the raw text. Escapes are not counted. Lengths are counted in characters, not UTF-16 code units.
- `Date.now()` is the parameter `now`, and `console.error` is dropped.
- `minimumPruneTokens` is declared in the prune options but unused by the source, so the model ignores it.
- The summarizer is given the model's identity only. The JavaScript falsiness tests on the model (`!options.model`, `runtimeOptions?.model ||`) are modelled as presence tests.
- `runLoop`'s outer loop and its inner loop body are split into the methods `RunLoop`, `RunTurns`, `RunTurn`, `ToolPhase` and `InjectPending`. `streamAssistantResponse`'s loop body is split into `PushDelta`, and the listener loop of `push` into `Deliver`. The state and order they change are the source's.
- `src/types.ts` and `src/compaction/types.ts` hold only type declarations. They are the `AgentTypes` and `CompactionUtils` datatypes. Vercel `tool` messages hold only tool-result parts.
