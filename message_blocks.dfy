/** The message events of a run's log (src/agent-loop.ts): every
    `message_start` opens a block that only `message_update`s of the same
    message continue and exactly one `message_end` of that message closes;
    no other event is pushed while a block is open, so none is open when
    `agent_end` is pushed. */
module MessageBlocks {
  import opened Wrappers
  import opened AgentTypes
  import opened TurnEngine
  import opened ToolExecution
  import opened LoopSpec
  import opened RunLog
  import opened SeqFacts

  /** Which message an event is about. The streamed reply is one object
      whose content grows, so its draft, its updates and its completed
      form are one message, known by its timestamp; every other message is
      itself. */
  datatype MessageKey = Reply(timestamp: int) | Whole(message: Message)

  function Key(m: Message): MessageKey {
    if m.AssistantMessage? then Reply(m.timestamp) else Whole(m)
  }

  /** One event read while the block of `open` (if any) is open: the block
      open after it, or None when the event breaks the block structure. */
  function Step(e: AgentEvent, open: Option<MessageKey>): Option<Option<MessageKey>> {
    match e
    case MessageStart(m) => if open.None? then Some(Some(Key(m))) else None
    case MessageUpdate(m) => if open == Some(Key(m)) then Some(open) else None
    case MessageEnd(m) => if open == Some(Key(m)) then Some(None) else None
    case _ => if open.None? then Some(None) else None
  }

  /** A log read left to right from `open`. */
  function Scan(events: seq<AgentEvent>, open: Option<MessageKey>): Option<Option<MessageKey>> {
    if events == [] then Some(open)
    else
      var next := Step(events[0], open);
      if next.None? then None else Scan(events[1..], next.value)
  }

  /** Complete message blocks, with any other events between them. */
  predicate Blocks(events: seq<AgentEvent>) {
    Scan(events, None) == Some(None)
  }

  /** An event that is not about a message. */
  predicate Quiet(e: AgentEvent) {
    !e.MessageStart? && !e.MessageUpdate? && !e.MessageEnd?
  }

  lemma {:induction false} ScanAppend(a: seq<AgentEvent>, b: seq<AgentEvent>, open: Option<MessageKey>)
    ensures Scan(a + b, open) == if Scan(a, open).None? then None else Scan(b, Scan(a, open).value)
    decreases |a|
  {
    if a == [] {
      EmptyLead(b);
    } else {
      assert (a + b)[0] == a[0];
      assert (a + b)[1..] == a[1..] + b;
      var next := Step(a[0], open);
      if next.Some? {
        ScanAppend(a[1..], b, next.value);
      }
    }
  }

  lemma ScanOne(e: AgentEvent, open: Option<MessageKey>)
    ensures Scan([e], open) == Step(e, open)
  {
    assert [e][1..] == [];
  }

  lemma ScanCons(e: AgentEvent, rest: seq<AgentEvent>, open: Option<MessageKey>)
    ensures Scan([e] + rest, open) == if Step(e, open).None? then None else Scan(rest, Step(e, open).value)
  {
    ScanAppend([e], rest, open);
    ScanOne(e, open);
  }

  lemma BlocksAppend(a: seq<AgentEvent>, b: seq<AgentEvent>)
    requires Blocks(a) && Blocks(b)
    ensures Blocks(a + b)
  {
    ScanAppend(a, b, None);
  }

  lemma BlocksAppend3(a: seq<AgentEvent>, b: seq<AgentEvent>, c: seq<AgentEvent>)
    requires Blocks(a) && Blocks(b) && Blocks(c)
    ensures Blocks(a + b + c)
  {
    BlocksAppend(a, b);
    BlocksAppend(a + b, c);
  }

  lemma {:induction false} QuietBlocks(events: seq<AgentEvent>)
    requires forall e :: e in events ==> Quiet(e)
    ensures Blocks(events)
    decreases |events|
  {
    if events != [] {
      assert events[0] in events;
      assert forall e :: e in events[1..] ==> e in events;
      QuietBlocks(events[1..]);
    }
  }

  /** The block of a message pushed whole: `message_start`, `message_end`. */
  lemma PairBlocks(m: Message)
    ensures Blocks([MessageStart(m), MessageEnd(m)])
  {
    assert [MessageStart(m), MessageEnd(m)] == [MessageStart(m)] + [MessageEnd(m)];
    ScanCons(MessageStart(m), [MessageEnd(m)], None);
    ScanOne(MessageEnd(m), Some(Key(m)));
  }

  lemma {:induction false} EchoBlocks(ms: seq<Message>)
    ensures Blocks(Echo(ms))
  {
    if ms != [] {
      EchoBlocks(ms[..|ms| - 1]);
      PairBlocks(ms[|ms| - 1]);
      BlocksAppend(Echo(ms[..|ms| - 1]), [MessageStart(ms[|ms| - 1]), MessageEnd(ms[|ms| - 1])]);
    }
  }

  /** Every update of a streamed reply is about that reply. */
  lemma {:induction false} ReplyUpdates(ds: seq<Delta>, now: int)
    ensures forall e :: e in UpdateEvents(ds, now) ==> e.MessageUpdate? && Key(e.message) == Reply(now)
  {
    if ds != [] {
      ReplyUpdates(ds[..|ds| - 1], now);
    }
  }

  lemma {:induction false} UpdatesKeepOpen(events: seq<AgentEvent>, k: MessageKey)
    requires forall e :: e in events ==> e.MessageUpdate? && Key(e.message) == k
    ensures Scan(events, Some(k)) == Some(Some(k))
    decreases |events|
  {
    if events != [] {
      assert events[0] in events;
      assert forall e :: e in events[1..] ==> e in events;
      UpdatesKeepOpen(events[1..], k);
    }
  }

  /** A streamed reply is one block. */
  lemma AssistantBlocks(r: Response, now: int)
    ensures Blocks(AssistantEvents(r, now))
  {
    var updates := UpdateEvents(r.deltas, now);
    ReplyUpdates(r.deltas, now);
    UpdatesKeepOpen(updates, Reply(now));
    ScanCons(MessageStart(Draft([], now)), updates, None);
    ScanAppend([MessageStart(Draft([], now))] + updates, [MessageEnd(Completed(r, now))], None);
    ScanOne(MessageEnd(Completed(r, now)), Some(Reply(now)));
  }

  /** A tool call's events: the execution events, then the result message
      as one block. */
  lemma ToolBlocks(tools: seq<Tool>, call: ToolCall, now: int)
    ensures Blocks(ToolEvents(tools, call, now))
  {
    var (output, isError) := Settled(tools, call);
    var m := ResultFor(tools, call, now);
    var head := [ToolExecutionStart(call.id, call.name, call.arguments)] + UpdateEventsOf(call, Updates(tools, call));
    var ending := ToolExecutionEnd(call.id, call.name, output, isError);
    assert forall e :: e in UpdateEventsOf(call, Updates(tools, call)) ==> e.ToolExecutionUpdate?;
    QuietBlocks(head);
    PairBlocks(m);
    ScanCons(ending, [MessageStart(m), MessageEnd(m)], None);
    assert [ending, MessageStart(m), MessageEnd(m)] == [ending] + [MessageStart(m), MessageEnd(m)];
    BlocksAppend(head, [ending, MessageStart(m), MessageEnd(m)]);
  }

  lemma {:induction false} BatchBlocks(tools: seq<Tool>, calls: seq<ToolCall>, now: int)
    ensures Blocks(BatchEvents(tools, calls, now))
  {
    if calls != [] {
      BatchBlocks(tools, calls[..|calls| - 1], now);
      ToolBlocks(tools, calls[|calls| - 1], now);
      BlocksAppend(BatchEvents(tools, calls[..|calls| - 1], now), ToolEvents(tools, calls[|calls| - 1], now));
    }
  }

  lemma OpeningBlocks(st: LoopState)
    ensures Blocks(Opening(st))
  {
    var head: seq<AgentEvent> := if st.firstTurn then [] else [TurnStart];
    QuietBlocks(head);
    EchoBlocks(st.pending);
    BlocksAppend(head, Echo(st.pending));
  }

  /** Each turn's events are complete blocks. */
  lemma TakeTurnBlocks(tools: seq<Tool>, st: LoopState, now: int)
    ensures Blocks(TakeTurn(tools, st, now).events)
  {
    OpeningBlocks(st);
    if st.responses != [] {
      var r := st.responses[0];
      var m := Completed(r, now);
      AssistantBlocks(r, now);
      if Terminal(m) {
        var tail := [TurnEnd(m, []), AgentEnd(st.newMessages + st.pending + [m])];
        QuietBlocks(tail);
        BlocksAppend3(Opening(st), AssistantEvents(r, now), tail);
      } else {
        var calls := ToolCallsOf(m.parts);
        var n := BatchSize(st.steering, |calls|);
        var tail := [TurnEnd(m, ResultsFor(tools, calls[..n], now))];
        BatchBlocks(tools, calls[..n], now);
        QuietBlocks(tail);
        BlocksAppend3(Opening(st), AssistantEvents(r, now), BatchEvents(tools, calls[..n], now));
        BlocksAppend(Opening(st) + AssistantEvents(r, now) + BatchEvents(tools, calls[..n], now), tail);
      }
    }
  }

  lemma {:induction false} ContinueBlocks(tools: seq<Tool>, st: LoopState, now: int)
    ensures Blocks(Continue(tools, st, now).events)
    decreases |st.responses|, 1
  {
    if st.hasMoreToolCalls || |st.pending| > 0 {
      TurnBlocks(tools, st, now);
    } else {
      var followUp := Poll(st.followUps);
      if |followUp.0| > 0 {
        TurnBlocks(tools, st.(pending := followUp.0, hasMoreToolCalls := true, followUps := followUp.1), now);
      } else {
        QuietBlocks([AgentEnd(st.newMessages)]);
      }
    }
  }

  lemma {:induction false} TurnBlocks(tools: seq<Tool>, st: LoopState, now: int)
    ensures Blocks(Turn(tools, st, now).events)
    decreases |st.responses|, 0
  {
    var t := TakeTurn(tools, st, now);
    TakeTurnBlocks(tools, st, now);
    if t.outcome.Continued? {
      ContinueBlocks(tools, t.outcome.next, now);
      BlocksAppend(t.events, Continue(tools, t.outcome.next, now).events);
    }
  }

  /** In a log of complete blocks, no block is open before any event but an
      update or the end of a message. */
  lemma NoneOpenBefore(log: seq<AgentEvent>, i: nat)
    requires Blocks(log) && i < |log| && !log[i].MessageUpdate? && !log[i].MessageEnd?
    ensures Scan(log[..i], None) == Some(None)
  {
    assert log == log[..i] + ([log[i]] + log[i + 1..]);
    ScanAppend(log[..i], [log[i]] + log[i + 1..], None);
    if Scan(log[..i], None).Some? {
      ScanCons(log[i], log[i + 1..], Scan(log[..i], None).value);
    }
  }

  /** The whole log of a run, prompts' echoes, injected messages, streamed
      replies and tool results alike, is complete message blocks: each
      `message_start` is followed by `message_update`s of that message only
      and then one `message_end` of that message, and no block is open when
      any other event (`agent_end` among them) is pushed, nor when the run
      stalls. */
  lemma LogBlocks(tools: seq<Tool>, prompts: seq<Message>, script: Script, now: int)
    ensures var log := Log(tools, prompts, script, now);
      && Blocks(log)
      && forall i :: 0 <= i < |log| && !log[i].MessageUpdate? && !log[i].MessageEnd? ==> Scan(log[..i], None) == Some(None)
  {
    var log := Log(tools, prompts, script, now);
    QuietBlocks([AgentStart, TurnStart]);
    EchoBlocks(prompts);
    BlocksAppend([AgentStart, TurnStart], Echo(prompts));
    ContinueBlocks(tools, Start(prompts, script), now);
    BlocksAppend(Prologue(prompts), Continue(tools, Start(prompts, script), now).events);
    forall i | 0 <= i < |log| && !log[i].MessageUpdate? && !log[i].MessageEnd?
      ensures Scan(log[..i], None) == Some(None)
    {
      NoneOpenBefore(log, i);
    }
  }
}
