/** The data model shared by the loop, the agent facade and compaction:
    messages and their parts, stop reasons, loop events, tools, and the
    scripted collaborators that stand in for the model provider and the
    steering / follow-up providers. */
module AgentTypes {
  import opened Wrappers

  /** A JSON value, kept only as far as the code inspects it: whether it is a
      string (and which one), or else its serialised text. */
  datatype Json = JString(s: string) | JRaw(text: string)

  /** Length of `JSON.stringify(j)`; a string gains its two quotes
      (escape sequences are not modelled). */
  function StringifyLength(j: Json): nat {
    match j
    case JString(s) => |s| + 2
    case JRaw(text) => |text|
  }

  /** Why a turn ended, as reported by the provider's finish reason. */
  datatype StopReason = Stop | Length | ToolCalls | ContentFilter | Error | Aborted | OtherReason

  /** A tool call embedded in an assistant message (part type "toolCall"). */
  datatype ToolCall = ToolCall(id: string, name: string, arguments: Json)

  /** One content part. `ToolCallPart` is the loop's own "toolCall" part;
      `LlmToolCall` is the provider format's "tool-call" part; `OtherPart`
      stands for every other part type (reasoning, file, ...). */
  datatype Part =
    | Text(text: string)
    | Image(data: string, mimeType: string)
    | ToolCallPart(call: ToolCall)
    | LlmToolCall(toolCallId: string, toolName: string, args: Json)
    | OtherPart(kind: string)

  /** Message content is either a plain string or a list of parts. */
  datatype Content = Str(s: string) | Parts(parts: seq<Part>)

  /** A "tool-result" part of a provider-format tool message. */
  datatype ToolResultPart = ToolResultPart(toolCallId: string, toolName: string, result: Json)

  /** One conversational unit.
      - role "user", "assistant" and "toolResult" are produced by the loop;
      - role "tool" and "system" are provider-format messages that the
        compaction code also handles. */
  datatype Message =
    | UserMessage(content: Content, timestamp: int)
    | AssistantMessage(parts: seq<Part>, stopReason: StopReason, timestamp: int)
    | ToolResultMessage(toolCallId: string, toolName: string, parts: seq<Part>, details: Json, isError: bool, timestamp: int)
    | ToolMessage(results: seq<ToolResultPart>, timestamp: int)
    | SystemMessage(text: string, timestamp: int)

  /** What a tool returns: its content parts and opaque details. */
  datatype ToolOutput = ToolOutput(content: seq<Part>, details: Json)

  /** The events of one run, in the order they are pushed. */
  datatype AgentEvent =
    | AgentStart
    | AgentEnd(messages: seq<Message>)
    | TurnStart
    | TurnEnd(message: Message, toolResults: seq<Message>)
    | MessageStart(message: Message)
    | MessageUpdate(message: Message)
    | MessageEnd(message: Message)
    | ToolExecutionStart(toolCallId: string, toolName: string, args: Json)
    | ToolExecutionUpdate(toolCallId: string, toolName: string, args: Json, partialResult: Json)
    | ToolExecutionEnd(toolCallId: string, toolName: string, result: ToolOutput, isError: bool)

  /** What one tool invocation does: the partial results it reports through
      its progress callback, then either a normal return or a thrown error
      (whose message is kept). */
  datatype ToolOutcome =
    | Returned(updates: seq<Json>, output: ToolOutput)
    | Threw(updates: seq<Json>, message: string)

  /** A tool: its name and its behaviour on (tool call id, arguments). */
  datatype Tool = Tool(name: string, execute: (string, Json) -> ToolOutcome)

  /** One provider delta of a streamed response. */
  datatype Delta =
    | TextDelta(textDelta: string)
    | ToolCallDelta(toolCallId: string, toolName: string, args: Json)
    | OtherDelta(kind: string)

  /** One scripted provider response: its deltas and the final finish reason. */
  datatype Response = Response(deltas: seq<Delta>, finishReason: StopReason)

  /** The scripted collaborators of one run: the provider's response for each
      turn, and the successive answers of the steering and follow-up
      providers. An exhausted poll script answers with no messages, which is
      also how an absent provider behaves. */
  datatype Script = Script(responses: seq<Response>, steering: seq<seq<Message>>, followUps: seq<seq<Message>>)

  /** The `i`-th answer of a poll script. */
  function PollAnswer(script: seq<seq<Message>>, i: nat): seq<Message> {
    if i < |script| then script[i] else []
  }

  /** What is left of a poll script after `n` polls. */
  function DropPolls(script: seq<seq<Message>>, n: nat): seq<seq<Message>> {
    if n <= |script| then script[n..] else []
  }

  /** The first `n` answers of a poll script. */
  function PollAnswers(script: seq<seq<Message>>, n: nat): (r: seq<seq<Message>>)
    ensures |r| == n
  {
    seq(n, i requires 0 <= i < n => PollAnswer(script, i))
  }

  /** One poll: the next answer and the rest of the script. */
  function Poll(script: seq<seq<Message>>): (seq<Message>, seq<seq<Message>>) {
    if script == [] then ([], []) else (script[0], script[1..])
  }

  /** Polling what is left after `n` polls gives the `n`-th answer and leaves
      what is left after `n + 1` polls. */
  lemma PollAfter(script: seq<seq<Message>>, n: nat)
    ensures Poll(DropPolls(script, n)) == (PollAnswer(script, n), DropPolls(script, n + 1))
  {
  }

  /** The tool calls of a list of parts, in order (the source's
      `content.filter((c) => c.type === "toolCall")`). */
  function ToolCallsOf(parts: seq<Part>): (r: seq<ToolCall>)
    ensures |r| <= |parts|
  {
    if parts == [] then []
    else if parts[|parts| - 1].ToolCallPart? then ToolCallsOf(parts[..|parts| - 1]) + [parts[|parts| - 1].call]
    else ToolCallsOf(parts[..|parts| - 1])
  }

  /** A JavaScript array of messages: a heap object, so that two holders of
      the same array see each other's pushes. */
  class MessageList {
    var items: seq<Message>

    constructor (items: seq<Message>)
      ensures this.items == items
    {
      this.items := items;
    }

    method Push(m: Message)
      modifies this
      ensures items == old(items) + [m]
    {
      items := items + [m];
    }

    /** `push(...ms)`: appends every message of `ms`, in order. */
    method PushAll(ms: seq<Message>)
      modifies this
      ensures items == old(items) + ms
    {
      items := items + ms;
    }
  }

  /** The context of one run: its system prompt, its message array (by
      reference) and its tool set. */
  datatype AgentContext = AgentContext(systemPrompt: string, messages: MessageList, tools: seq<Tool>)
}
