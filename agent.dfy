/** The stateful facade over the loop: a message history, steering and
    follow-up queues that the loop drains, a streaming guard, and the
    default translation of messages into the provider's format. */
module AgentFacade {
  import opened Wrappers
  import opened AgentTypes
  import opened AgentStream
  import EventStreams
  import opened LoopSpec
  import AgentLoops

  /** A message in the provider's format. */
  datatype CoreMessage =
    | CoreUser(content: Content)
    | CoreAssistant(parts: seq<Part>)
    | CoreTool(results: seq<ToolResultPart>)

  /** A user part: text and images are kept, anything else is empty text. */
  function ConvertUserPart(p: Part): Part {
    match p
    case Text(text) => Text(text)
    case Image(data, mimeType) => Image(data, mimeType)
    case _ => Text("")
  }

  /** An assistant part: text is kept, a "toolCall" becomes a "tool-call",
      anything else is empty text. */
  function ConvertAssistantPart(p: Part): Part {
    match p
    case Text(text) => Text(text)
    case ToolCallPart(call) => LlmToolCall(call.id, call.name, call.arguments)
    case _ => Text("")
  }

  function ConvertAssistantParts(parts: seq<Part>): seq<Part> {
    seq(|parts|, j requires 0 <= j < |parts| => ConvertAssistantPart(parts[j]))
  }

  /** A tool-result part of message `m`: its text, or empty for other parts. */
  function ConvertResultPart(m: Message, p: Part): ToolResultPart
    requires m.ToolResultMessage?
  {
    ToolResultPart(m.toolCallId, m.toolName, JString(if p.Text? then p.text else ""))
  }

  /** One message: user stays user, assistant stays assistant, a tool result
      becomes a tool message, and anything else an empty user message. */
  function ConvertMessage(m: Message): CoreMessage {
    match m
    case UserMessage(Str(s), _) => CoreUser(Str(s))
    case UserMessage(Parts(parts), _) =>
      CoreUser(Parts(seq(|parts|, j requires 0 <= j < |parts| => ConvertUserPart(parts[j]))))
    case AssistantMessage(parts, _, _) => CoreAssistant(ConvertAssistantParts(parts))
    case ToolResultMessage(_, _, parts, _, _, _) =>
      CoreTool(seq(|parts|, j requires 0 <= j < |parts| => ConvertResultPart(m, parts[j])))
    case _ => CoreUser(Str(""))
  }

  /** defaultConvertToLlm (src/agent.ts:16-51). */
  function DefaultConvertToLlm(messages: seq<Message>): (r: seq<CoreMessage>)
    ensures |r| == |messages|
    ensures forall i :: 0 <= i < |messages| ==> r[i] == ConvertMessage(messages[i])
  {
    seq(|messages|, i requires 0 <= i < |messages| => ConvertMessage(messages[i]))
  }

  /** The translation maps roles one to one and keeps the number of parts of
      every message it keeps. */
  lemma ConvertShape(m: Message)
    ensures ConvertMessage(m).CoreAssistant? <==> m.AssistantMessage?
    ensures ConvertMessage(m).CoreTool? <==> m.ToolResultMessage?
    ensures ConvertMessage(m).CoreUser? <==> !m.AssistantMessage? && !m.ToolResultMessage?
    ensures m.AssistantMessage? ==> |ConvertMessage(m).parts| == |m.parts|
    ensures m.ToolResultMessage? ==>
      (|ConvertMessage(m).results| == |m.parts| &&
       forall j :: 0 <= j < |m.parts| ==> ConvertMessage(m).results[j].toolCallId == m.toolCallId)
    ensures m.UserMessage? ==>
      ((ConvertMessage(m).content.Str? <==> m.content.Str?) &&
       (m.content.Parts? ==> |ConvertMessage(m).content.parts| == |m.content.parts|))
    ensures (m.ToolMessage? || m.SystemMessage?) ==> ConvertMessage(m) == CoreUser(Str(""))
  {
  }

  /** The provider-format tool calls among `parts`, in order. */
  function LlmToolCallsOf(parts: seq<Part>): seq<Part> {
    if parts == [] then []
    else if parts[|parts| - 1].LlmToolCall? then LlmToolCallsOf(parts[..|parts| - 1]) + [parts[|parts| - 1]]
    else LlmToolCallsOf(parts[..|parts| - 1])
  }

  /** A loop tool call in the provider's format. */
  function AsLlmCall(call: ToolCall): Part {
    LlmToolCall(call.id, call.name, call.arguments)
  }

  function AsLlmCalls(calls: seq<ToolCall>): (r: seq<Part>)
    ensures |r| == |calls|
  {
    seq(|calls|, k requires 0 <= k < |calls| => AsLlmCall(calls[k]))
  }

  /** Every tool call of an assistant message survives the translation, in
      order, with its id, name and arguments, and no other tool call
      appears (a part already in the provider's format becomes empty
      text). */
  lemma {:induction false} ToolCallsSurvive(parts: seq<Part>)
    ensures LlmToolCallsOf(ConvertAssistantParts(parts)) == AsLlmCalls(ToolCallsOf(parts))
    decreases |parts|
  {
    if parts != [] {
      var init := parts[..|parts| - 1];
      ToolCallsSurvive(init);
      assert ConvertAssistantParts(parts)[..|parts| - 1] == ConvertAssistantParts(init);
      if parts[|parts| - 1].ToolCallPart? {
        assert AsLlmCalls(ToolCallsOf(parts)) == AsLlmCalls(ToolCallsOf(init)) + [AsLlmCall(parts[|parts| - 1].call)];
      }
    }
  }

  /** What `prompt` accepts: a string, one message, or a list. */
  datatype PromptInput = TextInput(text: string) | OneMessage(message: Message) | ManyMessages(messages: seq<Message>)

  /** The prompt's messages: a string becomes one user message stamped
      `now`, one message a one-element list, a list stays as it is. */
  function Normalize(input: PromptInput, now: int): seq<Message> {
    match input
    case ManyMessages(ms) => ms
    case TextInput(text) => [UserMessage(Str(text), now)]
    case OneMessage(m) => [m]
  }

  /** The cancellation handle of one run. */
  class AbortController {
    var aborted: bool

    constructor ()
      ensures !aborted
    {
      aborted := false;
    }

    method Abort()
      modifies this
      ensures aborted
    {
      aborted := true;
    }
  }

  const AlreadyStreaming := "Agent is already streaming"

  class Agent {
    const model: string
    /** The history; the caller's initial array, when one was given. */
    const messages: MessageList
    const systemPrompt: string
    var steeringQueue: seq<Message>
    var followUpQueue: seq<Message>
    var abortController: Option<AbortController>
    var isStreaming: bool
    var tools: seq<Tool>

    /** The constructor (src/agent.ts:73-79). */
    constructor (model: string, initialMessages: Option<MessageList>, systemPrompt: Option<string>)
      ensures this.model == model
      ensures initialMessages.Some? ==> messages == initialMessages.value
      ensures initialMessages.None? ==> fresh(messages) && messages.items == []
      ensures this.systemPrompt == systemPrompt.GetOr("")
      ensures steeringQueue == [] && followUpQueue == [] && abortController.None? && !isStreaming && tools == []
    {
      this.model := model;
      if initialMessages.Some? {
        messages := initialMessages.value;
      } else {
        messages := new MessageList([]);
      }
      this.systemPrompt := systemPrompt.GetOr("");
      steeringQueue := [];
      followUpQueue := [];
      abortController := None;
      isStreaming := false;
      tools := [];
    }

    method SetTools(t: seq<Tool>)
      modifies this
      ensures tools == t
      ensures steeringQueue == old(steeringQueue) && followUpQueue == old(followUpQueue)
      ensures isStreaming == old(isStreaming) && abortController == old(abortController)
    {
      tools := t;
    }

    /** steer (src/agent.ts:85-87): one message joins the steering queue. */
    method Steer(m: Message)
      modifies this
      ensures steeringQueue == old(steeringQueue) + [m]
      ensures followUpQueue == old(followUpQueue) && tools == old(tools)
      ensures isStreaming == old(isStreaming) && abortController == old(abortController)
    {
      steeringQueue := steeringQueue + [m];
    }

    /** followUp (src/agent.ts:89-91): one message joins the follow-up queue. */
    method FollowUp(m: Message)
      modifies this
      ensures followUpQueue == old(followUpQueue) + [m]
      ensures steeringQueue == old(steeringQueue) && tools == old(tools)
      ensures isStreaming == old(isStreaming) && abortController == old(abortController)
    {
      followUpQueue := followUpQueue + [m];
    }

    /** abort (src/agent.ts:93-95): signals the current run's controller, if
        there is one. */
    method Abort()
      modifies if abortController.Some? then {abortController.value} else {}
      ensures abortController.Some? ==> abortController.value.aborted
    {
      if abortController.Some? {
        abortController.value.Abort();
      }
    }

    /** The steering provider (src/agent.ts:122-126): the whole queue, which
        is left empty, so a second poll in a row answers nothing. */
    method DrainSteering() returns (s: seq<Message>)
      modifies this
      ensures s == old(steeringQueue) && steeringQueue == []
      ensures followUpQueue == old(followUpQueue) && tools == old(tools)
      ensures isStreaming == old(isStreaming) && abortController == old(abortController)
    {
      s := steeringQueue;
      steeringQueue := [];
    }

    /** The follow-up provider (src/agent.ts:127-131), alike. */
    method DrainFollowUps() returns (f: seq<Message>)
      modifies this
      ensures f == old(followUpQueue) && followUpQueue == []
      ensures steeringQueue == old(steeringQueue) && tools == old(tools)
      ensures isStreaming == old(isStreaming) && abortController == old(abortController)
    {
      f := followUpQueue;
      followUpQueue := [];
    }

    /** prompt (src/agent.ts:97-146). The run starts on a snapshot of the
        history; when its result resolves, the final messages join the
        history and the streaming flag drops. A run whose provider never
        answers never settles, and the flag stays up. The steering and
        follow-up providers are the queue-draining closures: the loop's
        first steering poll answers the whole steering queue and empties it,
        its first follow-up poll (if the run gets that far) does the same
        with the follow-up queue, and every later poll answers nothing. */
    method Prompt(input: PromptInput, responses: seq<Response>, now: int) returns (result: Result<Stream>, ghost run: Run)
      modifies this, messages
      ensures old(isStreaming) ==>
        && result == Failure(AlreadyStreaming)
        && isStreaming && messages.items == old(messages.items)
        && steeringQueue == old(steeringQueue) && followUpQueue == old(followUpQueue)
        && abortController == old(abortController) && tools == old(tools)
      ensures !old(isStreaming) ==>
        var prompts := Normalize(input, now);
        var script := Script(responses, [old(steeringQueue)], [old(followUpQueue)]);
        && result.Success? && fresh(result.value)
        && run == Continue(old(tools), Start(prompts, script), now)
        && result.value.buffer == Prologue(prompts) + run.events
        && abortController.Some? && fresh(abortController.value) && !abortController.value.aborted
        && tools == old(tools)
        && steeringQueue == []
        && followUpQueue == (if PollsFollowUps(old(tools), Start(prompts, script), now) then [] else old(followUpQueue))
        && (run.outcome == Finished ==>
              && !isStreaming
              && result.value.settlement == EventStreams.Resolved(prompts + Transcript(run.turns))
              && messages.items == old(messages.items) + prompts + Transcript(run.turns))
        && (run.outcome == Stalled ==> isStreaming && messages.items == old(messages.items))
    {
      if isStreaming {
        run := Run([], [], Stalled);
        return Failure(AlreadyStreaming), run;
      }
      var msgs := Normalize(input, now);
      var controller := new AbortController();
      abortController := Some(controller);
      isStreaming := true;
      var context := AgentContext(systemPrompt, messages, tools);
      var steered := DrainSteering();
      var script := Script(responses, [steered], [followUpQueue]);
      var stream, followUpsPolled;
      stream, followUpsPolled, run := AgentLoops.AgentLoop(msgs, context, script, now);
      if followUpsPolled {
        var followed := DrainFollowUps();
      }
      var settlement := stream.settlement;
      if settlement.Resolved? {
        messages.PushAll(settlement.value);
      }
      if !settlement.Pending? {
        isStreaming := false;
      }
      result := Success(stream);
    }
  }
}
