/** One request/response turn: provider deltas are folded, one at a time,
    into a single assistant message, with a `message_update` after every
    change (src/agent-loop.ts, streamAssistantResponse). */
module TurnEngine {
  import opened AgentTypes
  import opened AgentStream

  /** A delta that changes the message: text or a tool call. */
  predicate Changes(d: Delta) {
    d.TextDelta? || d.ToolCallDelta?
  }

  /** One delta applied to the message content: text extends a trailing text
      part or starts a new one; a tool call always appends its own part;
      any other delta changes nothing. */
  function Apply(content: seq<Part>, d: Delta): seq<Part> {
    match d
    case TextDelta(t) =>
      if |content| > 0 && content[|content| - 1].Text? then
        content[..|content| - 1] + [Text(content[|content| - 1].text + t)]
      else
        content + [Text(t)]
    case ToolCallDelta(id, name, args) => content + [ToolCallPart(ToolCall(id, name, args))]
    case OtherDelta(_) => content
  }

  /** The content after all of `ds`, applied in order to an empty message. */
  function Accumulate(ds: seq<Delta>): seq<Part> {
    if ds == [] then [] else Apply(Accumulate(ds[..|ds| - 1]), ds[|ds| - 1])
  }

  /** The in-flight assistant message, whose stop reason is still "stop". */
  function Draft(content: seq<Part>, now: int): Message {
    AssistantMessage(content, Stop, now)
  }

  /** The completed assistant message of a response. */
  function Completed(r: Response, now: int): Message {
    AssistantMessage(Accumulate(r.deltas), r.finishReason, now)
  }

  /** One `message_update` per changing delta, carrying the message as it
      stands right after that delta. */
  function UpdateEvents(ds: seq<Delta>, now: int): seq<AgentEvent> {
    if ds == [] then []
    else if Changes(ds[|ds| - 1]) then UpdateEvents(ds[..|ds| - 1], now) + [MessageUpdate(Draft(Accumulate(ds), now))]
    else UpdateEvents(ds[..|ds| - 1], now)
  }

  /** The events of one assistant response. */
  function AssistantEvents(r: Response, now: int): seq<AgentEvent> {
    [MessageStart(Draft([], now))] + UpdateEvents(r.deltas, now) + [MessageEnd(Completed(r, now))]
  }

  /** Streams one scripted response onto `stream` and returns the completed
      assistant message. */
  method StreamAssistantResponse(stream: Stream, response: Response, now: int) returns (message: Message)
    requires Open(stream)
    modifies stream
    ensures Open(stream)
    ensures stream.buffer == old(stream.buffer) + AssistantEvents(response, now)
    ensures message == Completed(response, now)
  {
    var deltas := response.deltas;
    var content: seq<Part> := [];
    Emit(stream, MessageStart(Draft(content, now)));
    ghost var start := stream.buffer;
    var i := 0;
    while i < |deltas|
      invariant 0 <= i <= |deltas|
      invariant Open(stream)
      invariant content == Accumulate(deltas[..i])
      invariant stream.buffer == start + UpdateEvents(deltas[..i], now)
    {
      ghost var before := stream.buffer;
      ghost var previous := content;
      content := PushDelta(stream, content, deltas[i], now);
      StreamStep(start, before, stream.buffer, deltas, i, previous, now);
      i := i + 1;
    }
    assert deltas[..i] == deltas;
    message := AssistantMessage(content, response.finishReason, now);
    Emit(stream, MessageEnd(message));
  }

  /** Applies one delta to the in-flight content and, when it changed the
      message, pushes a `message_update` carrying the new draft. */
  method PushDelta(stream: Stream, content: seq<Part>, part: Delta, now: int) returns (next: seq<Part>)
    requires Open(stream)
    modifies stream
    ensures Open(stream)
    ensures next == Apply(content, part)
    ensures Changes(part) ==> stream.buffer == old(stream.buffer) + [MessageUpdate(Draft(next, now))]
    ensures !Changes(part) ==> stream.buffer == old(stream.buffer)
  {
    next := content;
    if part.TextDelta? {
      if |next| > 0 && next[|next| - 1].Text? {
        next := next[..|next| - 1] + [Text(next[|next| - 1].text + part.textDelta)];
      } else {
        next := next + [Text(part.textDelta)];
      }
      Emit(stream, MessageUpdate(Draft(next, now)));
    }
    if part.ToolCallDelta? {
      next := next + [ToolCallPart(ToolCall(part.toolCallId, part.toolName, part.args))];
      Emit(stream, MessageUpdate(Draft(next, now)));
    }
  }

  /** One delta moves the fold one step: the content becomes that of one
      more delta, and the log gains that delta's update, if any. */
  lemma StreamStep(start: seq<AgentEvent>, before: seq<AgentEvent>, after: seq<AgentEvent>,
                   deltas: seq<Delta>, i: nat, content: seq<Part>, now: int)
    requires i < |deltas|
    requires content == Accumulate(deltas[..i])
    requires before == start + UpdateEvents(deltas[..i], now)
    requires Changes(deltas[i]) ==> after == before + [MessageUpdate(Draft(Apply(content, deltas[i]), now))]
    requires !Changes(deltas[i]) ==> after == before
    ensures Apply(content, deltas[i]) == Accumulate(deltas[..i + 1])
    ensures after == start + UpdateEvents(deltas[..i + 1], now)
  {
    assert deltas[..i + 1][..i] == deltas[..i];
  }

  /** The tool calls the deltas announce, in order. */
  function DeltaCalls(ds: seq<Delta>): seq<ToolCall> {
    if ds == [] then []
    else if ds[|ds| - 1].ToolCallDelta? then
      DeltaCalls(ds[..|ds| - 1]) + [ToolCall(ds[|ds| - 1].toolCallId, ds[|ds| - 1].toolName, ds[|ds| - 1].args)]
    else DeltaCalls(ds[..|ds| - 1])
  }

  /** All text the deltas carry, concatenated. */
  function DeltaText(ds: seq<Delta>): string {
    if ds == [] then ""
    else if ds[|ds| - 1].TextDelta? then DeltaText(ds[..|ds| - 1]) + ds[|ds| - 1].textDelta
    else DeltaText(ds[..|ds| - 1])
  }

  /** The text of all text parts, concatenated. */
  function JoinText(parts: seq<Part>): string {
    if parts == [] then ""
    else if parts[|parts| - 1].Text? then JoinText(parts[..|parts| - 1]) + parts[|parts| - 1].text
    else JoinText(parts[..|parts| - 1])
  }

  /** No two neighbouring parts are both text. */
  ghost predicate Coalesced(parts: seq<Part>) {
    forall i :: 0 <= i < |parts| - 1 ==> !(parts[i].Text? && parts[i + 1].Text?)
  }

  lemma ToolCallsAppend(ps: seq<Part>, p: Part)
    ensures ToolCallsOf(ps + [p]) == ToolCallsOf(ps) + (if p.ToolCallPart? then [p.call] else [])
  {
    assert (ps + [p])[..|ps + [p]| - 1] == ps;
  }

  /** The message's tool calls are exactly the announced ones, in order:
      a tool-call part is never merged or split. */
  lemma {:induction false} AccumulateToolCalls(ds: seq<Delta>)
    ensures ToolCallsOf(Accumulate(ds)) == DeltaCalls(ds)
  {
    if ds != [] {
      var init, d := ds[..|ds| - 1], ds[|ds| - 1];
      AccumulateToolCalls(init);
      var c := Accumulate(init);
      match d
      case TextDelta(t) =>
        if |c| > 0 && c[|c| - 1].Text? {
          var front := c[..|c| - 1];
          assert c == front + [c[|c| - 1]];
          ToolCallsAppend(front, c[|c| - 1]);
          ToolCallsAppend(front, Text(c[|c| - 1].text + t));
        } else {
          ToolCallsAppend(c, Text(t));
        }
      case ToolCallDelta(id, name, args) =>
        ToolCallsAppend(c, ToolCallPart(ToolCall(id, name, args)));
      case OtherDelta(_) =>
    }
  }

  lemma JoinTextAppend(ps: seq<Part>, p: Part)
    ensures JoinText(ps + [p]) == JoinText(ps) + (if p.Text? then p.text else "")
  {
    assert (ps + [p])[..|ps + [p]| - 1] == ps;
  }

  /** No text is lost or reordered: the message's text is the concatenation
      of all text deltas. */
  lemma {:induction false} AccumulateText(ds: seq<Delta>)
    ensures JoinText(Accumulate(ds)) == DeltaText(ds)
  {
    if ds != [] {
      var init, d := ds[..|ds| - 1], ds[|ds| - 1];
      AccumulateText(init);
      var c := Accumulate(init);
      match d
      case TextDelta(t) =>
        if |c| > 0 && c[|c| - 1].Text? {
          var front, last := c[..|c| - 1], c[|c| - 1];
          assert c == front + [last];
          JoinTextAppend(front, last);
          JoinTextAppend(front, Text(last.text + t));
          assert JoinText(front) + (last.text + t) == (JoinText(front) + last.text) + t;
        } else {
          JoinTextAppend(c, Text(t));
        }
      case ToolCallDelta(id, name, args) =>
        JoinTextAppend(c, ToolCallPart(ToolCall(id, name, args)));
      case OtherDelta(_) =>
    }
  }

  /** Consecutive text deltas always land in one part: the message never
      holds two neighbouring text parts. */
  lemma {:induction false} AccumulateCoalesced(ds: seq<Delta>)
    ensures Coalesced(Accumulate(ds))
  {
    if ds != [] {
      AccumulateCoalesced(ds[..|ds| - 1]);
    }
  }

  /** Exactly one `message_update` per changing delta, and nothing else
      between `message_start` and `message_end`. */
  lemma {:induction false} UpdateEventsCount(ds: seq<Delta>, now: int)
    ensures |UpdateEvents(ds, now)| == |DeltaCalls(ds)| + CountText(ds)
    ensures forall e :: e in UpdateEvents(ds, now) ==> e.MessageUpdate?
  {
    if ds != [] {
      UpdateEventsCount(ds[..|ds| - 1], now);
    }
  }

  /** The number of text deltas. */
  function CountText(ds: seq<Delta>): nat {
    if ds == [] then 0
    else CountText(ds[..|ds| - 1]) + (if ds[|ds| - 1].TextDelta? then 1 else 0)
  }
}
