/** Sequential execution of one assistant message's tool calls: every
    outcome becomes a tool-result message, and a non-empty steering poll
    after a result abandons the rest of the batch (src/agent-loop.ts,
    executeToolCalls). */
module ToolExecution {
  import opened Wrappers
  import opened AgentTypes
  import opened SeqFacts
  import opened AgentStream

  /** The first tool with this name (`tools.find`). */
  function FindTool(tools: seq<Tool>, name: string): (r: Option<Tool>)
    ensures r.None? <==> forall i :: 0 <= i < |tools| ==> tools[i].name != name
    ensures r.Some? ==> exists i :: (0 <= i < |tools| && tools[i] == r.value && tools[i].name == name &&
                                     forall j :: 0 <= j < i ==> tools[j].name != name)
  {
    if tools == [] then None
    else if tools[0].name == name then
      assert tools[0] == tools[0];
      Some(tools[0])
    else
      var r := FindTool(tools[1..], name);
      assert forall i :: 1 <= i < |tools| ==> tools[i] == tools[1..][i - 1];
      r
  }

  /** The diagnostic of a call to an unknown tool. */
  function NotFound(name: string): string {
    "Tool " + name + " not found"
  }

  /** The partial results the call reports (none for an unknown tool). */
  function Updates(tools: seq<Tool>, call: ToolCall): seq<Json> {
    match FindTool(tools, call.name)
    case None => []
    case Some(t) => t.execute(call.id, call.arguments).updates
  }

  /** The call's final result and error flag: what the tool returned, or a
      text part holding the thrown message (for an unknown tool, the
      not-found diagnostic) with empty details. */
  function Settled(tools: seq<Tool>, call: ToolCall): (ToolOutput, bool) {
    match FindTool(tools, call.name)
    case None => (ToolOutput([Text(NotFound(call.name))], JRaw("{}")), true)
    case Some(t) =>
      match t.execute(call.id, call.arguments)
      case Returned(_, output) => (output, false)
      case Threw(_, message) => (ToolOutput([Text(message)], JRaw("{}")), true)
  }

  /** The tool-result message of one call. */
  function ResultFor(tools: seq<Tool>, call: ToolCall, now: int): Message {
    var (output, isError) := Settled(tools, call);
    ToolResultMessage(call.id, call.name, output.content, output.details, isError, now)
  }

  /** The tool-result messages of a list of calls, one per call, in order. */
  function ResultsFor(tools: seq<Tool>, calls: seq<ToolCall>, now: int): (r: seq<Message>)
    ensures |r| == |calls|
  {
    if calls == [] then []
    else ResultsFor(tools, calls[..|calls| - 1], now) + [ResultFor(tools, calls[|calls| - 1], now)]
  }

  /** One `tool_execution_update` per partial result, in order. */
  function UpdateEventsOf(call: ToolCall, us: seq<Json>): seq<AgentEvent> {
    seq(|us|, i requires 0 <= i < |us| => ToolExecutionUpdate(call.id, call.name, call.arguments, us[i]))
  }

  /** The events of one call: execution start, one update per partial
      result, execution end, then start and end of the result message. */
  function ToolEvents(tools: seq<Tool>, call: ToolCall, now: int): seq<AgentEvent> {
    var (output, isError) := Settled(tools, call);
    var us := Updates(tools, call);
    var m := ResultFor(tools, call, now);
    [ToolExecutionStart(call.id, call.name, call.arguments)]
    + UpdateEventsOf(call, us)
    + [ToolExecutionEnd(call.id, call.name, output, isError), MessageStart(m), MessageEnd(m)]
  }

  /** The events of a list of calls run one after the other. */
  function BatchEvents(tools: seq<Tool>, calls: seq<ToolCall>, now: int): seq<AgentEvent> {
    if calls == [] then []
    else BatchEvents(tools, calls[..|calls| - 1], now) + ToolEvents(tools, calls[|calls| - 1], now)
  }

  /** Relays the partial results of a call, one `tool_execution_update` each. */
  method RelayUpdates(stream: Stream, toolCall: ToolCall, updates: seq<Json>)
    requires Open(stream)
    modifies stream
    ensures Open(stream)
    ensures stream.buffer == old(stream.buffer) + UpdateEventsOf(toolCall, updates)
  {
    var k := 0;
    while k < |updates|
      invariant 0 <= k <= |updates|
      invariant Open(stream)
      invariant stream.buffer == old(stream.buffer) + UpdateEventsOf(toolCall, updates[..k])
    {
      assert updates[..k + 1][..k] == updates[..k];
      Emit(stream, ToolExecutionUpdate(toolCall.id, toolCall.name, toolCall.arguments, updates[k]));
      k := k + 1;
    }
    assert updates[..k] == updates;
  }

  /** Runs one call: announces it, relays each partial result, then emits
      its end and its result message, which it returns. */
  method ExecuteToolCall(stream: Stream, tools: seq<Tool>, toolCall: ToolCall, now: int) returns (message: Message)
    requires Open(stream)
    modifies stream
    ensures Open(stream)
    ensures stream.buffer == old(stream.buffer) + ToolEvents(tools, toolCall, now)
    ensures message == ResultFor(tools, toolCall, now)
  {
    var tool := FindTool(tools, toolCall.name);
    var updates: seq<Json> := [];
    var result: ToolOutput;
    var isError := false;
    if tool.None? {
      result := ToolOutput([Text(NotFound(toolCall.name))], JRaw("{}"));
      isError := true;
    } else {
      var outcome := tool.value.execute(toolCall.id, toolCall.arguments);
      updates := outcome.updates;
      if outcome.Returned? {
        result := outcome.output;
      } else {
        result := ToolOutput([Text(outcome.message)], JRaw("{}"));
        isError := true;
      }
    }
    assert updates == Updates(tools, toolCall);
    assert (result, isError) == Settled(tools, toolCall);
    message := ToolResultMessage(toolCall.id, toolCall.name, result.content, result.details, isError, now);

    ghost var before := stream.buffer;
    Emit(stream, ToolExecutionStart(toolCall.id, toolCall.name, toolCall.arguments));
    RelayUpdates(stream, toolCall, updates);
    ghost var relayed := stream.buffer;
    Emit(stream, ToolExecutionEnd(toolCall.id, toolCall.name, result, isError));
    Emit(stream, MessageStart(message));
    Emit(stream, MessageEnd(message));
    ToolLog(before, relayed, stream.buffer, tools, toolCall, now);
  }

  /** The pushes of one call, grouped as the method makes them, form the
      call's events. */
  lemma ToolLog(before: seq<AgentEvent>, relayed: seq<AgentEvent>, after: seq<AgentEvent>,
                tools: seq<Tool>, call: ToolCall, now: int)
    requires relayed == before + [ToolExecutionStart(call.id, call.name, call.arguments)] + UpdateEventsOf(call, Updates(tools, call))
    requires after == relayed + [ToolExecutionEnd(call.id, call.name, Settled(tools, call).0, Settled(tools, call).1)]
      + [MessageStart(ResultFor(tools, call, now))] + [MessageEnd(ResultFor(tools, call, now))]
    ensures after == before + ToolEvents(tools, call, now)
  {
  }

  /** One more call extends a batch's events and results by that call's. */
  lemma BatchStep(before: seq<AgentEvent>, logged: seq<AgentEvent>, after: seq<AgentEvent>,
                  tools: seq<Tool>, calls: seq<ToolCall>, i: nat, now: int)
    requires i < |calls|
    requires logged == before + BatchEvents(tools, calls[..i], now)
    requires after == logged + ToolEvents(tools, calls[i], now)
    ensures after == before + BatchEvents(tools, calls[..i + 1], now)
    ensures ResultsFor(tools, calls[..i + 1], now) == ResultsFor(tools, calls[..i], now) + [ResultFor(tools, calls[i], now)]
  {
    assert calls[..i + 1][..i] == calls[..i];
    Assoc(before, BatchEvents(tools, calls[..i], now), ToolEvents(tools, calls[i], now));
  }

  /** The batch stopped on steering right after its `n`-th result. */
  predicate SteeredAt(steering: seq<seq<Message>>, n: nat) {
    n > 0 && PollAnswer(steering, n - 1) != []
  }

  /** How many of `m` calls run: each result is followed by a steering
      poll, and the first non-empty answer ends the batch. */
  function BatchSize(steering: seq<seq<Message>>, m: nat): (n: nat)
    ensures n <= m
  {
    if m == 0 then 0
    else
      var p := BatchSize(steering, m - 1);
      if SteeredAt(steering, p) then p else m
  }

  /** The batch runs up to and including the first call whose steering poll
      answers something, and all calls when no poll does. */
  lemma {:induction false} BatchSizeFirstSteered(steering: seq<seq<Message>>, m: nat)
    ensures forall j :: 0 <= j < BatchSize(steering, m) - 1 ==> PollAnswer(steering, j) == []
    ensures BatchSize(steering, m) == m || SteeredAt(steering, BatchSize(steering, m))
    ensures BatchSize(steering, m) < m <==> exists j :: 0 <= j < m - 1 && PollAnswer(steering, j) != []
  {
    if m > 0 {
      BatchSizeFirstSteered(steering, m - 1);
      var p := BatchSize(steering, m - 1);
      if !SteeredAt(steering, p) && (exists j :: 0 <= j < m - 1 && PollAnswer(steering, j) != []) {
        var j :| 0 <= j < m - 1 && PollAnswer(steering, j) != [];
        assert j == m - 2;
        assert p == m - 1;
      }
    }
  }

  /** Once the batch has stopped, further calls do not change its size. */
  lemma {:induction false} BatchSizeStays(steering: seq<seq<Message>>, k: nat, m: nat)
    requires k <= m && BatchSize(steering, k) == k && SteeredAt(steering, k)
    ensures BatchSize(steering, m) == k
  {
    if m > k {
      BatchSizeStays(steering, k, m - 1);
    }
  }

  /** Runs the assistant message's tool calls in order. After each result
      the steering provider is polled; the first non-empty answer stops the
      batch and is returned with the results produced so far. */
  method ExecuteToolCalls(stream: Stream, tools: seq<Tool>, assistant: Message, steering: seq<seq<Message>>, now: int)
    returns (results: seq<Message>, steeringMessages: Option<seq<Message>>, steeringLeft: seq<seq<Message>>)
    requires Open(stream) && assistant.AssistantMessage?
    modifies stream
    ensures Open(stream)
    ensures |results| == BatchSize(steering, |ToolCallsOf(assistant.parts)|)
    ensures results == ResultsFor(tools, ToolCallsOf(assistant.parts)[..|results|], now)
    ensures stream.buffer == old(stream.buffer) + BatchEvents(tools, ToolCallsOf(assistant.parts)[..|results|], now)
    ensures steeringLeft == DropPolls(steering, |results|)
    ensures steeringMessages == if SteeredAt(steering, |results|) then Some(PollAnswer(steering, |results| - 1)) else None
  {
    var toolCalls := ToolCallsOf(assistant.parts);
    results := [];
    steeringMessages := None;
    steeringLeft := steering;
    var index := 0;
    while index < |toolCalls|
      invariant 0 <= index <= |toolCalls|
      invariant Open(stream)
      invariant results == ResultsFor(tools, toolCalls[..index], now)
      invariant stream.buffer == old(stream.buffer) + BatchEvents(tools, toolCalls[..index], now)
      invariant steeringLeft == DropPolls(steering, index)
      invariant BatchSize(steering, index) == index && !SteeredAt(steering, index)
      invariant steeringMessages.None?
    {
      ghost var logged := stream.buffer;
      var toolResultMessage := ExecuteToolCall(stream, tools, toolCalls[index], now);
      BatchStep(old(stream.buffer), logged, stream.buffer, tools, toolCalls, index, now);
      results := results + [toolResultMessage];

      PollAfter(steering, index);
      var steeringNow := Poll(steeringLeft).0;
      steeringLeft := Poll(steeringLeft).1;
      if |steeringNow| > 0 {
        steeringMessages := Some(steeringNow);
        BatchSizeStays(steering, index + 1, |toolCalls|);
        return;
      }
      index := index + 1;
    }
    assert toolCalls[..index] == toolCalls;
  }

  /** The `tool_execution_start` events of a log, as (id, name) pairs. */
  function Started(events: seq<AgentEvent>): seq<(string, string)> {
    if events == [] then []
    else if events[|events| - 1].ToolExecutionStart? then
      Started(events[..|events| - 1]) + [(events[|events| - 1].toolCallId, events[|events| - 1].toolName)]
    else Started(events[..|events| - 1])
  }

  lemma {:induction false} StartedAppend(a: seq<AgentEvent>, b: seq<AgentEvent>)
    ensures Started(a + b) == Started(a) + Started(b)
  {
    if b == [] {
      assert a + b == a;
    } else {
      assert (a + b)[..|a + b| - 1] == a + b[..|b| - 1];
      StartedAppend(a, b[..|b| - 1]);
    }
  }

  /** Each call's events open with its own execution start, and no other
      event of the call is a start. */
  lemma ToolEventsStarted(tools: seq<Tool>, call: ToolCall, now: int)
    ensures Started(ToolEvents(tools, call, now)) == [(call.id, call.name)]
  {
    var (output, isError) := Settled(tools, call);
    var us := Updates(tools, call);
    var m := ResultFor(tools, call, now);
    var ups := UpdateEventsOf(call, us);
    var tail := [ToolExecutionEnd(call.id, call.name, output, isError), MessageStart(m), MessageEnd(m)];
    assert Started(tail) == [] by {
      assert tail[..2][..1] == [tail[0]];
      assert Started([tail[0]]) == Started([]) by { assert [tail[0]][..0] == []; }
    }
    assert Started(ups) == [] by { UpdatesNotStarted(ups); }
    StartedAppend([ToolExecutionStart(call.id, call.name, call.arguments)], ups);
    StartedAppend([ToolExecutionStart(call.id, call.name, call.arguments)] + ups, tail);
    assert [ToolExecutionStart(call.id, call.name, call.arguments)][..0] == [];
  }

  lemma {:induction false} UpdatesNotStarted(events: seq<AgentEvent>)
    requires forall e :: e in events ==> e.ToolExecutionUpdate?
    ensures Started(events) == []
  {
    if events != [] {
      assert forall k :: 0 <= k < |events| - 1 ==> events[..|events| - 1][k] == events[k];
      assert events[|events| - 1] in events;
      UpdatesNotStarted(events[..|events| - 1]);
    }
  }

  /** Calls run strictly one after another, in the message's order: the
      execution starts of a batch are its calls' (id, name) pairs, in order,
      each call's events complete before the next call starts. */
  lemma {:induction false} BatchStartsInOrder(tools: seq<Tool>, calls: seq<ToolCall>, now: int)
    ensures Started(BatchEvents(tools, calls, now)) == seq(|calls|, i requires 0 <= i < |calls| => (calls[i].id, calls[i].name))
  {
    if calls != [] {
      var init := calls[..|calls| - 1];
      BatchStartsInOrder(tools, init, now);
      StartedAppend(BatchEvents(tools, init, now), ToolEvents(tools, calls[|calls| - 1], now));
      ToolEventsStarted(tools, calls[|calls| - 1], now);
    }
  }

  /** A call to a tool that is not in the tool set runs nothing: exactly four
      events, no update, and an error result carrying the not-found text. */
  lemma MissingTool(tools: seq<Tool>, call: ToolCall, now: int)
    requires forall i :: 0 <= i < |tools| ==> tools[i].name != call.name
    ensures ResultFor(tools, call, now) ==
      ToolResultMessage(call.id, call.name, [Text("Tool " + call.name + " not found")], JRaw("{}"), true, now)
    ensures |ToolEvents(tools, call, now)| == 4
    ensures ToolEvents(tools, call, now)[1].ToolExecutionEnd? && ToolEvents(tools, call, now)[1].isError
  {
  }
}
