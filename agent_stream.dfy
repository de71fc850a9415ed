/** The event stream of one run: it ends on `agent_end` and its result is
    that event's message list (src/agent-loop.ts, createAgentStream). */
module AgentStream {
  import opened AgentTypes
  import opened EventStreams

  type Stream = EventStream<AgentEvent, seq<Message>>

  /** The result extractor: the messages of an `agent_end`, nothing otherwise. */
  function FinalMessages(e: AgentEvent): seq<Message> {
    if e.AgentEnd? then e.messages else []
  }

  /** A run's stream that is still open: it ends on `agent_end` only, maps
      that event to its messages, and (the run being one sequential
      execution) has no listener registered while the run pushes. */
  ghost predicate Open(s: Stream)
    reads s
  {
    && s.Valid()
    && !s.isEnded
    && s.listeners == []
    && (forall e :: s.endCondition(e) == e.AgentEnd?)
    && (forall e :: s.resultMapper(e) == FinalMessages(e))
  }

  method CreateAgentStream() returns (s: Stream)
    ensures fresh(s)
    ensures Open(s) && s.buffer == [] && s.settlement == Pending
  {
    s := new EventStream((e: AgentEvent) => e.AgentEnd?, FinalMessages);
  }

  /** Pushes a non-terminal event onto an open stream: it is appended and the
      stream stays open. */
  method Emit(s: Stream, e: AgentEvent)
    requires Open(s) && !e.AgentEnd?
    modifies s
    ensures Open(s) && s.buffer == old(s.buffer) + [e]
  {
    s.Push(e);
  }

  /** Pushes `agent_end`: it is appended last, the stream ends and its result
      resolves to the event's messages. */
  method Finish(s: Stream, messages: seq<Message>)
    requires Open(s)
    modifies s
    ensures s.Valid() && s.isEnded
    ensures s.buffer == old(s.buffer) + [AgentEnd(messages)]
    ensures s.settlement == Resolved(messages)
  {
    s.Push(AgentEnd(messages));
  }
}
