/** The agent loop of src/agent-loop.ts: the entry points `agentLoop` and
    `agentLoopContinue`, and `runLoop`, which alternates provider turns and
    tool batches until nothing is left to do. Each method is proved to push
    exactly the events of the scheduler function `LoopSpec.Continue`. */
module AgentLoops {
  import opened Wrappers
  import opened AgentTypes
  import opened SeqFacts
  import opened EventStreams
  import opened AgentStream
  import opened TurnEngine
  import opened ToolExecution
  import opened LoopSpec

  /** The run `r`, after `events` were pushed and `turns` were taken. */
  function Then(events: seq<AgentEvent>, turns: seq<TurnRecord>, r: Run): Run {
    Run(events + r.events, turns + r.turns, r.outcome)
  }

  lemma Grow<T>(base: seq<T>, s: seq<T>, i: nat, cur: seq<T>, next: seq<T>)
    requires i < |s| && cur == base + s[..i] && next == cur + [s[i]]
    ensures next == base + s[..i + 1]
  {
    assert s[..i + 1] == s[..i] + [s[i]];
  }

  lemma EchoGrow(base: seq<AgentEvent>, pending: seq<Message>, i: nat, cur: seq<AgentEvent>, next: seq<AgentEvent>)
    requires i < |pending| && cur == base + Echo(pending[..i])
    requires next == cur + [MessageStart(pending[i])] + [MessageEnd(pending[i])]
    ensures next == base + Echo(pending[..i + 1])
  {
    assert pending[..i + 1][..i] == pending[..i];
    Regroup(base, Echo(pending[..i]), [MessageStart(pending[i])], [MessageEnd(pending[i])]);
  }

  /** Echoes each pending message and appends it to the context and to
      `newMessages` (src/agent-loop.ts:96-104). */
  method InjectPending(stream: Stream, context: MessageList, pending: seq<Message>, newMessages: seq<Message>)
    returns (grown: seq<Message>)
    requires Open(stream)
    modifies stream, context
    ensures Open(stream)
    ensures stream.buffer == old(stream.buffer) + Echo(pending)
    ensures context.items == old(context.items) + pending
    ensures grown == newMessages + pending
  {
    grown := newMessages;
    var i := 0;
    while i < |pending|
      invariant 0 <= i <= |pending|
      invariant Open(stream)
      invariant stream.buffer == old(stream.buffer) + Echo(pending[..i])
      invariant context.items == old(context.items) + pending[..i]
      invariant grown == newMessages + pending[..i]
    {
      var message := pending[i];
      ghost var before := stream.buffer;
      Emit(stream, MessageStart(message));
      Emit(stream, MessageEnd(message));
      EchoGrow(old(stream.buffer), pending, i, before, stream.buffer);
      ghost var items := context.items;
      context.Push(message);
      Grow(old(context.items), pending, i, items, context.items);
      Grow(newMessages, pending, i, grown, grown + [message]);
      grown := grown + [message];
      i := i + 1;
    }
    assert pending[..i] == pending;
  }

  /** Appends each tool result to the context and to `newMessages`
      (src/agent-loop.ts:130-133). */
  method AppendResults(context: MessageList, results: seq<Message>, newMessages: seq<Message>)
    returns (grown: seq<Message>)
    modifies context
    ensures context.items == old(context.items) + results
    ensures grown == newMessages + results
  {
    grown := newMessages;
    var i := 0;
    while i < |results|
      invariant 0 <= i <= |results|
      invariant context.items == old(context.items) + results[..i]
      invariant grown == newMessages + results[..i]
    {
      ghost var items := context.items;
      context.Push(results[i]);
      Grow(old(context.items), results, i, items, context.items);
      Grow(newMessages, results, i, grown, grown + [results[i]]);
      grown := grown + [results[i]];
      i := i + 1;
    }
    assert results[..i] == results;
  }

  /** A turn's pushes up to the provider call are its opening. */
  lemma OpeningLog(b0: seq<AgentEvent>, b1: seq<AgentEvent>, b2: seq<AgentEvent>, st: LoopState)
    requires st.firstTurn ==> b1 == b0
    requires !st.firstTurn ==> b1 == b0 + [TurnStart]
    requires b2 == b1 + Echo(st.pending)
    ensures b2 == b0 + Opening(st)
  {
    if st.firstTurn {
      EmptyLead(Echo(st.pending));
    } else {
      Assoc(b0, [TurnStart], Echo(st.pending));
    }
  }

  /** A turn whose provider never answers: its log is its opening and the
      context has gained the pending messages. */
  lemma StalledLog(c0: seq<Message>, c2: seq<Message>, tools: seq<Tool>, st: LoopState, now: int)
    requires st.responses == [] && c2 == c0 + st.pending
    ensures TakeTurn(tools, st, now) == TurnResult(Opening(st), TurnRecord(st.pending, None, []), Ended(Stalled))
    ensures c2 == c0 + ContextGrowth([TakeTurn(tools, st, now).record])
    ensures st.newMessages + st.pending == st.newMessages + Transcript([TakeTurn(tools, st, now).record])
  {
    TranscriptOne(TurnRecord(st.pending, None, []));
    EmptyTail(st.pending);
  }

  /** A terminal reply: the pushes form the ending turn's log. */
  lemma EndingLog(b0: seq<AgentEvent>, b2: seq<AgentEvent>, b3: seq<AgentEvent>, b5: seq<AgentEvent>,
                  c0: seq<Message>, c2: seq<Message>, tools: seq<Tool>, st: LoopState, now: int)
    requires st.responses != [] && Terminal(Completed(st.responses[0], now))
    requires b2 == b0 + Opening(st) && b3 == b2 + AssistantEvents(st.responses[0], now)
    requires b5 == b3 + [TurnEnd(Completed(st.responses[0], now), [])]
      + [AgentEnd(st.newMessages + st.pending + [Completed(st.responses[0], now)])]
    requires c2 == c0 + st.pending
    ensures TakeTurn(tools, st, now) == EndingTurn(st, now)
    ensures b5 == b0 + TakeTurn(tools, st, now).events
    ensures c2 == c0 + ContextGrowth([TakeTurn(tools, st, now).record])
    ensures st.newMessages + st.pending + [Completed(st.responses[0], now)]
      == st.newMessages + Transcript([TakeTurn(tools, st, now).record])
  {
    var m := Completed(st.responses[0], now);
    var t := EndingTurn(st, now);
    Regroup(b0, Opening(st), AssistantEvents(st.responses[0], now), [TurnEnd(m, []), AgentEnd(st.newMessages + st.pending + [m])]);
    assert [TurnEnd(m, []), AgentEnd(st.newMessages + st.pending + [m])]
      == [TurnEnd(m, [])] + [AgentEnd(st.newMessages + st.pending + [m])];
    Regroup(b0 + Opening(st), AssistantEvents(st.responses[0], now), [TurnEnd(m, [])], [AgentEnd(st.newMessages + st.pending + [m])]);
    TranscriptOne(t.record);
    EmptyTail(st.pending);
    NoResults(st.newMessages, st.pending, [m]);
  }

  /** A reply that does not end the run: the pushes form the turn's log,
      and the locals hold the next state of the scheduler. */
  lemma ToolTurnLog(b0: seq<AgentEvent>, b2: seq<AgentEvent>, b3: seq<AgentEvent>, b4: seq<AgentEvent>, b5: seq<AgentEvent>,
                    c0: seq<Message>, c2: seq<Message>, c4: seq<Message>, tools: seq<Tool>, st: LoopState, now: int,
                    results: seq<Message>, steeringAfterTools: Option<seq<Message>>, steeringLeft: seq<seq<Message>>,
                    pending: seq<Message>, steering: seq<seq<Message>>, grown: seq<Message>)
    requires st.responses != [] && !Terminal(Completed(st.responses[0], now))
    requires var calls := ToolCallsOf(Completed(st.responses[0], now).parts);
      && b2 == b0 + Opening(st) && b3 == b2 + AssistantEvents(st.responses[0], now)
      && c2 == c0 + st.pending
      && (|calls| == 0 ==> results == [] && b4 == b3 && c4 == c2 && steeringAfterTools == None && steeringLeft == st.steering)
      && (|calls| > 0 ==>
            && |results| == BatchSize(st.steering, |calls|)
            && results == ResultsFor(tools, calls[..|results|], now)
            && b4 == b3 + BatchEvents(tools, calls[..|results|], now)
            && c4 == c2 + results
            && steeringLeft == DropPolls(st.steering, |results|)
            && steeringAfterTools == if SteeredAt(st.steering, |results|) then Some(PollAnswer(st.steering, |results| - 1)) else None)
    requires b5 == b4 + [TurnEnd(Completed(st.responses[0], now), results)]
    requires steeringAfterTools.Some? && |steeringAfterTools.value| > 0 ==> pending == steeringAfterTools.value && steering == steeringLeft
    requires !(steeringAfterTools.Some? && |steeringAfterTools.value| > 0) ==> pending == Poll(steeringLeft).0 && steering == Poll(steeringLeft).1
    requires grown == st.newMessages + st.pending + [Completed(st.responses[0], now)] + results
    ensures TakeTurn(tools, st, now) == ToolTurn(tools, st, now)
    ensures b5 == b0 + TakeTurn(tools, st, now).events
    ensures c4 == c0 + ContextGrowth([TakeTurn(tools, st, now).record])
    ensures TakeTurn(tools, st, now).outcome == Continued(LoopState(
      false, pending, |ToolCallsOf(Completed(st.responses[0], now).parts)| > 0, grown, st.responses[1..], steering, st.followUps))
    ensures grown == st.newMessages + Transcript([TakeTurn(tools, st, now).record])
  {
    var r := st.responses[0];
    var m := Completed(r, now);
    var calls := ToolCallsOf(m.parts);
    var n := BatchSize(st.steering, |calls|);
    var t := ToolTurn(tools, st, now);
    if |calls| == 0 {
      assert calls[..0] == [];
      EmptyTail(b3);
      EmptyTail(st.pending);
    } else {
      Assoc(c0, st.pending, results);
    }
    Regroup(b0, Opening(st), AssistantEvents(r, now), BatchEvents(tools, calls[..n], now));
    Assoc(b0, Opening(st) + AssistantEvents(r, now) + BatchEvents(tools, calls[..n], now), [TurnEnd(m, results)]);
    TranscriptOne(t.record);
    Regroup(st.newMessages, st.pending, [m], results);
  }

  /** The tool phase of a turn (src/agent-loop.ts:115-134): when the reply
      holds tool calls, the batch runs and its results join the context
      and the new messages; otherwise nothing happens. */
  method ToolPhase(stream: Stream, context: MessageList, tools: seq<Tool>, message: Message,
                   steering: seq<seq<Message>>, newMessages: seq<Message>, now: int)
    returns (toolResults: seq<Message>, steeringAfterTools: Option<seq<Message>>, steeringLeft: seq<seq<Message>>, grown: seq<Message>)
    requires Open(stream) && message.AssistantMessage?
    modifies stream, context
    ensures Open(stream)
    ensures grown == newMessages + toolResults
    ensures context.items == old(context.items) + toolResults
    ensures var calls := ToolCallsOf(message.parts);
      && (|calls| == 0 ==> toolResults == [] && stream.buffer == old(stream.buffer) && steeringAfterTools == None && steeringLeft == steering)
      && (|calls| > 0 ==>
            && |toolResults| == BatchSize(steering, |calls|)
            && toolResults == ResultsFor(tools, calls[..|toolResults|], now)
            && stream.buffer == old(stream.buffer) + BatchEvents(tools, calls[..|toolResults|], now)
            && steeringLeft == DropPolls(steering, |toolResults|)
            && steeringAfterTools == if SteeredAt(steering, |toolResults|) then Some(PollAnswer(steering, |toolResults| - 1)) else None)
  {
    toolResults := [];
    steeringAfterTools := None;
    steeringLeft := steering;
    grown := newMessages;
    if |ToolCallsOf(message.parts)| > 0 {
      toolResults, steeringAfterTools, steeringLeft := ExecuteToolCalls(stream, tools, message, steering, now);
      grown := AppendResults(context, toolResults, newMessages);
    } else {
      EmptyTail(newMessages);
      EmptyTail(context.items);
    }
  }

  /** Runs the inner loop's body once (src/agent-loop.ts:90-143): a turn,
      proved to push the events of `LoopSpec.TakeTurn`, grow the context
      and `newMessages` by its record, and leave the loop's locals as the
      scheduler's next state. */
  method RunTurn(stream: Stream, context: MessageList, tools: seq<Tool>, st: LoopState, now: int)
    returns (outcome: TurnOutcome, grown: seq<Message>)
    requires Open(stream)
    modifies stream, context
    ensures outcome == TakeTurn(tools, st, now).outcome
    ensures stream.buffer == old(stream.buffer) + TakeTurn(tools, st, now).events
    ensures context.items == old(context.items) + ContextGrowth([TakeTurn(tools, st, now).record])
    ensures grown == st.newMessages + Transcript([TakeTurn(tools, st, now).record])
    ensures outcome.Continued? ==> grown == outcome.next.newMessages
    ensures outcome == Ended(Finished) ==> stream.Valid() && stream.isEnded && stream.settlement == Resolved(grown)
    ensures outcome != Ended(Finished) ==> Open(stream)
  {
    ghost var b0 := stream.buffer;
    ghost var c0 := context.items;
    if !st.firstTurn {
      Emit(stream, TurnStart);
    }
    ghost var b1 := stream.buffer;
    var newMessages := InjectPending(stream, context, st.pending, st.newMessages);
    ghost var b2 := stream.buffer;
    ghost var c2 := context.items;
    OpeningLog(b0, b1, b2, st);
    if st.responses == [] {
      // The provider never answers: the run waits here for ever.
      StalledLog(c0, c2, tools, st, now);
      return Ended(Stalled), newMessages;
    }
    var message := StreamAssistantResponse(stream, st.responses[0], now);
    ghost var b3 := stream.buffer;
    newMessages := newMessages + [message];
    if message.stopReason == Error || message.stopReason == Aborted {
      Emit(stream, TurnEnd(message, []));
      Finish(stream, newMessages);
      EndingLog(b0, b2, b3, stream.buffer, c0, c2, tools, st, now);
      return Ended(Finished), newMessages;
    }
    var hasMoreToolCalls := |ToolCallsOf(message.parts)| > 0;
    var toolResults, steeringAfterTools, steering;
    toolResults, steeringAfterTools, steering, newMessages := ToolPhase(stream, context, tools, message, st.steering, newMessages, now);
    ghost var b4 := stream.buffer;
    ghost var c4 := context.items;
    ghost var left := steering;
    Emit(stream, TurnEnd(message, toolResults));
    var pending: seq<Message>;
    if steeringAfterTools.Some? && |steeringAfterTools.value| > 0 {
      pending := steeringAfterTools.value;
    } else {
      pending := Poll(steering).0;
      steering := Poll(steering).1;
    }
    ToolTurnLog(b0, b2, b3, b4, stream.buffer, c0, c2, c4, tools, st, now,
                toolResults, steeringAfterTools, left, pending, steering, newMessages);
    outcome := Continued(LoopState(false, pending, hasMoreToolCalls, newMessages, st.responses[1..], steering, st.followUps));
    grown := newMessages;
  }

  /** Taking one turn from the inner loop's test moves the scheduler on by
      that turn. */
  lemma TurnStep(tools: seq<Tool>, st: LoopState, now: int, events: seq<AgentEvent>, turns: seq<TurnRecord>, run: Run)
    requires st.hasMoreToolCalls || |st.pending| > 0
    requires run == Then(events, turns, Continue(tools, st, now))
    ensures var t := TakeTurn(tools, st, now);
      && (t.outcome.Continued? ==> run == Then(events + t.events, turns + [t.record], Continue(tools, t.outcome.next, now)))
      && (t.outcome.Ended? ==> run == Run(events + t.events, turns + [t.record], t.outcome.outcome))
  {
    var t := TakeTurn(tools, st, now);
    if t.outcome.Continued? {
      var rest := Continue(tools, t.outcome.next, now);
      Assoc(events, t.events, rest.events);
      Assoc(turns, [t.record], rest.turns);
    }
  }

  /** What the loop keeps after a turn: the log, the context and
      `newMessages` grow by that turn's. */
  lemma Advance(b0: seq<AgentEvent>, events: seq<AgentEvent>, tEvents: seq<AgentEvent>, buffer: seq<AgentEvent>,
                c0: seq<Message>, turns: seq<TurnRecord>, record: TurnRecord, items: seq<Message>,
                n0: seq<Message>, newMessages: seq<Message>, grown: seq<Message>)
    requires buffer == b0 + events + tEvents
    requires items == c0 + ContextGrowth(turns) + ContextGrowth([record])
    requires newMessages == n0 + Transcript(turns) && grown == newMessages + Transcript([record])
    ensures buffer == b0 + (events + tEvents)
    ensures items == c0 + ContextGrowth(turns + [record])
    ensures grown == n0 + Transcript(turns + [record])
  {
    Assoc(b0, events, tEvents);
    TranscriptConcat(turns, [record]);
    Assoc(c0, ContextGrowth(turns), ContextGrowth([record]));
    Assoc(n0, Transcript(turns), Transcript([record]));
  }

  /** With no tool calls and nothing pending, a non-empty follow-up poll
      starts a new turn with its messages. */
  lemma FollowUpStep(tools: seq<Tool>, st: LoopState, now: int, events: seq<AgentEvent>, turns: seq<TurnRecord>, run: Run)
    requires !st.hasMoreToolCalls && |st.pending| == 0 && |Poll(st.followUps).0| > 0
    requires run == Then(events, turns, Continue(tools, st, now))
    ensures run == Then(events, turns, Continue(tools, st.(pending := Poll(st.followUps).0, hasMoreToolCalls := true, followUps := Poll(st.followUps).1), now))
  {
  }

  /** With nothing left at all, the run is the events so far and
      `agent_end`. */
  lemma FinishStep(tools: seq<Tool>, st: LoopState, now: int, events: seq<AgentEvent>, turns: seq<TurnRecord>, run: Run)
    requires !st.hasMoreToolCalls && |st.pending| == 0 && |Poll(st.followUps).0| == 0
    requires run == Then(events, turns, Continue(tools, st, now))
    ensures run == Run(events + [AgentEnd(st.newMessages)], turns, Finished)
  {
    EmptyTail(turns);
  }

  lemma ThenNothing(r: Run)
    ensures Then([], [], r) == r
  {
    EmptyLead(r.events);
    EmptyLead(r.turns);
  }

  /** Runs done in two stretches compose. */
  lemma Compose(run: Run, events: seq<AgentEvent>, turns: seq<TurnRecord>, rest: Run,
                more: seq<AgentEvent>, moreTurns: seq<TurnRecord>, after: Run,
                b0: seq<AgentEvent>, buffer: seq<AgentEvent>, c0: seq<Message>, items: seq<Message>,
                n0: seq<Message>, newMessages: seq<Message>, grown: seq<Message>)
    requires run == Then(events, turns, rest) && rest == Then(more, moreTurns, after)
    requires buffer == b0 + events + more
    requires items == c0 + ContextGrowth(turns) + ContextGrowth(moreTurns)
    requires newMessages == n0 + Transcript(turns) && grown == newMessages + Transcript(moreTurns)
    ensures run == Then(events + more, turns + moreTurns, after)
    ensures buffer == b0 + (events + more)
    ensures items == c0 + ContextGrowth(turns + moreTurns)
    ensures grown == n0 + Transcript(turns + moreTurns)
  {
    Assoc(events, more, after.events);
    Assoc(turns, moreTurns, after.turns);
    Assoc(b0, events, more);
    TranscriptConcat(turns, moreTurns);
    Assoc(c0, ContextGrowth(turns), ContextGrowth(moreTurns));
    Assoc(n0, Transcript(turns), Transcript(moreTurns));
  }

  /** The inner loop of runLoop (src/agent-loop.ts:89-144): turns while
      tool calls or pending messages remain. Returns the loop's locals when
      the loop exits, or the run's outcome when a turn ended the run; the
      events and turns are those `LoopSpec.Continue` predicts. */
  method RunTurns(stream: Stream, context: MessageList, tools: seq<Tool>, entry: LoopState, now: int)
    returns (exit: LoopState, ended: Option<Outcome>, ghost events: seq<AgentEvent>, ghost turns: seq<TurnRecord>)
    requires Open(stream)
    modifies stream, context
    ensures ended.None? ==> Continue(tools, entry, now) == Then(events, turns, Continue(tools, exit, now))
    ensures ended.Some? ==> Continue(tools, entry, now) == Then(events, turns, Run([], [], ended.value))
    ensures ended.None? ==> !exit.hasMoreToolCalls && |exit.pending| == 0
    ensures ended.None? <==> PollsFollowUps(tools, entry, now)
    ensures ended.None? && entry.hasMoreToolCalls ==> |exit.responses| < |entry.responses|
    ensures stream.buffer == old(stream.buffer) + events
    ensures context.items == old(context.items) + ContextGrowth(turns)
    ensures exit.newMessages == entry.newMessages + Transcript(turns)
    ensures ended == Some(Finished) ==> stream.Valid() && stream.isEnded && stream.settlement == Resolved(exit.newMessages)
    ensures ended != Some(Finished) ==> Open(stream)
  {
    var firstTurn := entry.firstTurn;
    var pendingMessages := entry.pending;
    var hasMoreToolCalls := entry.hasMoreToolCalls;
    var newMessages := entry.newMessages;
    var responses := entry.responses;
    var steering := entry.steering;
    var followUps := entry.followUps;
    events := [];
    turns := [];
    ThenNothing(Continue(tools, entry, now));
    EmptyTail(old(stream.buffer));
    EmptyTail(old(context.items));
    EmptyTail(entry.newMessages);
    while hasMoreToolCalls || |pendingMessages| > 0
      invariant Open(stream)
      invariant Continue(tools, entry, now) == Then(events, turns, Continue(tools, LoopState(firstTurn, pendingMessages, hasMoreToolCalls, newMessages, responses, steering, followUps), now))
      invariant stream.buffer == old(stream.buffer) + events
      invariant context.items == old(context.items) + ContextGrowth(turns)
      invariant newMessages == entry.newMessages + Transcript(turns)
      invariant |responses| <= |entry.responses|
      invariant entry.hasMoreToolCalls && !hasMoreToolCalls ==> |responses| < |entry.responses|
      invariant PollsFollowUps(tools, entry, now) == PollsFollowUps(tools, LoopState(firstTurn, pendingMessages, hasMoreToolCalls, newMessages, responses, steering, followUps), now)
      decreases |responses|
    {
      var st := LoopState(firstTurn, pendingMessages, hasMoreToolCalls, newMessages, responses, steering, followUps);
      ghost var t := TakeTurn(tools, st, now);
      TurnStep(tools, st, now, events, turns, Continue(tools, entry, now));
      PollStep(tools, st, now);
      var outcome, grown := RunTurn(stream, context, tools, st, now);
      Advance(old(stream.buffer), events, t.events, stream.buffer, old(context.items), turns, t.record, context.items,
              entry.newMessages, newMessages, grown);
      events := events + t.events;
      turns := turns + [t.record];
      newMessages := grown;
      if outcome.Ended? {
        ThenEnded(events, turns, outcome.outcome);
        exit := st.(newMessages := newMessages);
        ended := Some(outcome.outcome);
        return;
      }
      firstTurn := outcome.next.firstTurn;
      pendingMessages := outcome.next.pending;
      hasMoreToolCalls := outcome.next.hasMoreToolCalls;
      responses := outcome.next.responses;
      steering := outcome.next.steering;
      followUps := outcome.next.followUps;
    }
    exit := LoopState(firstTurn, pendingMessages, hasMoreToolCalls, newMessages, responses, steering, followUps);
    ended := None;
  }

  lemma ThenEnded(events: seq<AgentEvent>, turns: seq<TurnRecord>, o: Outcome)
    ensures Run(events, turns, o) == Then(events, turns, Run([], [], o))
  {
    EmptyTail(events);
    EmptyTail(turns);
  }

  /** runLoop (src/agent-loop.ts:75-156): the inner loop of turns; then one
      follow-up poll, whose messages restart the turns, or else `agent_end`
      with `newMessages`. Proved to push exactly the events of
      `LoopSpec.Continue` from the loop's initial state. */
  method RunLoop(stream: Stream, context: MessageList, tools: seq<Tool>, newMessages0: seq<Message>, script: Script, now: int)
    returns (newMessages: seq<Message>, followUpsPolled: bool, ghost run: Run)
    requires Open(stream)
    modifies stream, context
    ensures run == Continue(tools, Start(newMessages0, script), now)
    ensures followUpsPolled == PollsFollowUps(tools, Start(newMessages0, script), now)
    ensures stream.buffer == old(stream.buffer) + run.events
    ensures context.items == old(context.items) + ContextGrowth(run.turns)
    ensures newMessages == newMessages0 + Transcript(run.turns)
    ensures run.outcome == Finished ==> stream.Valid() && stream.isEnded && stream.settlement == Resolved(newMessages)
    ensures run.outcome == Stalled ==> Open(stream)
  {
    run := Continue(tools, Start(newMessages0, script), now);
    ghost var events: seq<AgentEvent> := [];
    ghost var turns: seq<TurnRecord> := [];
    ThenNothing(run);
    EmptyTail(old(stream.buffer));
    EmptyTail(old(context.items));
    EmptyTail(newMessages0);
    var firstTurn := true;
    var responses := script.responses;
    var steering := script.steering;
    var followUps := script.followUps;
    var pendingMessages := Poll(steering).0;
    steering := Poll(steering).1;
    newMessages := newMessages0;
    followUpsPolled := false;

    while true
      invariant Open(stream)
      invariant !followUpsPolled ==> LoopState(firstTurn, pendingMessages, true, newMessages, responses, steering, followUps) == Start(newMessages0, script)
      invariant followUpsPolled ==> PollsFollowUps(tools, Start(newMessages0, script), now)
      invariant run == Then(events, turns, Continue(tools, LoopState(firstTurn, pendingMessages, true, newMessages, responses, steering, followUps), now))
      invariant stream.buffer == old(stream.buffer) + events
      invariant context.items == old(context.items) + ContextGrowth(turns)
      invariant newMessages == newMessages0 + Transcript(turns)
      decreases |responses|
    {
      var hasMoreToolCalls := true;
      ghost var rest := Continue(tools, LoopState(firstTurn, pendingMessages, hasMoreToolCalls, newMessages, responses, steering, followUps), now);
      var exit, ended, more, moreTurns := RunTurns(stream, context, tools,
        LoopState(firstTurn, pendingMessages, hasMoreToolCalls, newMessages, responses, steering, followUps), now);
      ghost var after := if ended.Some? then Run([], [], ended.value) else Continue(tools, exit, now);
      Compose(run, events, turns, rest, more, moreTurns, after, old(stream.buffer), stream.buffer,
              old(context.items), context.items, newMessages0, newMessages, exit.newMessages);
      events := events + more;
      turns := turns + moreTurns;
      newMessages := exit.newMessages;
      if ended.Some? {
        EmptyTail(events);
        EmptyTail(turns);
        return;
      }
      firstTurn := exit.firstTurn;
      pendingMessages := exit.pending;
      responses := exit.responses;
      steering := exit.steering;
      followUps := exit.followUps;
      followUpsPolled := true;
      var followUpMessages := Poll(followUps).0;
      if |followUpMessages| > 0 {
        FollowUpStep(tools, exit, now, events, turns, run);
        pendingMessages := followUpMessages;
        followUps := Poll(followUps).1;
        continue;
      }
      FinishStep(tools, exit, now, events, turns, run);
      break;
    }
    Finish(stream, newMessages);
    Assoc(old(stream.buffer), events, [AgentEnd(newMessages)]);
  }

  /** Pushes `message_start` and `message_end` for each prompt
      (src/agent-loop.ts:33-36). */
  method EchoPrompts(stream: Stream, prompts: seq<Message>)
    requires Open(stream)
    modifies stream
    ensures Open(stream)
    ensures stream.buffer == old(stream.buffer) + Echo(prompts)
  {
    var i := 0;
    while i < |prompts|
      invariant 0 <= i <= |prompts|
      invariant Open(stream)
      invariant stream.buffer == old(stream.buffer) + Echo(prompts[..i])
    {
      ghost var before := stream.buffer;
      Emit(stream, MessageStart(prompts[i]));
      Emit(stream, MessageEnd(prompts[i]));
      EchoGrow(old(stream.buffer), prompts, i, before, stream.buffer);
      i := i + 1;
    }
    assert prompts[..i] == prompts;
  }

  /** A fresh run stream holding `agent_start` and `turn_start`, the two
      events both entry points push first (src/agent-loop.ts:22, 31-32 and
      53, 59-60). */
  method OpenRun() returns (stream: Stream)
    ensures fresh(stream) && Open(stream)
    ensures stream.buffer == [AgentStart, TurnStart]
  {
    stream := CreateAgentStream();
    Emit(stream, AgentStart);
    Emit(stream, TurnStart);
    EmptyLead([AgentStart]);
    assert [AgentStart] + [TurnStart] == [AgentStart, TurnStart];
  }

  /** agentLoop (src/agent-loop.ts:16-42): a fresh stream, then
      `agent_start`, `turn_start` and the prompts, then the loop, on a copy
      of the context's messages followed by the prompts (the caller's
      array is left as it was). The run completes before the stream is
      returned. Also says whether the run called the follow-up provider. */
  method AgentLoop(prompts: seq<Message>, context: AgentContext, script: Script, now: int)
    returns (stream: Stream, followUpsPolled: bool, ghost run: Run)
    ensures fresh(stream)
    ensures run == Continue(context.tools, Start(prompts, script), now)
    ensures followUpsPolled == PollsFollowUps(context.tools, Start(prompts, script), now)
    ensures stream.buffer == Prologue(prompts) + run.events
    ensures run.outcome == Finished ==> stream.isEnded && stream.settlement == Resolved(prompts + Transcript(run.turns))
    ensures run.outcome == Stalled ==> !stream.isEnded && stream.settlement == Pending
    ensures context.messages.items == old(context.messages.items)
  {
    stream := OpenRun();
    var newMessages := prompts;
    var messages := new MessageList(context.messages.items + prompts);
    var currentContext := context.(messages := messages);
    EchoPrompts(stream, prompts);
    var finalMessages;
    finalMessages, followUpsPolled, run := RunLoop(stream, currentContext.messages, currentContext.tools, newMessages, script, now);
  }

  /** agentLoopContinue (src/agent-loop.ts:44-66): fails at once on an empty
      context; otherwise `agent_start` and `turn_start`, then the loop on
      the caller's own message array, which receives the run's pushes. */
  method AgentLoopContinue(context: AgentContext, script: Script, now: int)
    returns (result: Result<Stream>, ghost run: Run)
    modifies context.messages
    ensures |old(context.messages.items)| == 0 <==> result.Failure?
    ensures result.Failure? ==>
      result.error == "Cannot continue: no messages in context" && context.messages.items == old(context.messages.items)
    ensures result.Success? ==>
      && fresh(result.value)
      && run == Continue(context.tools, Start([], script), now)
      && result.value.buffer == Prologue([]) + run.events
      && context.messages.items == old(context.messages.items) + ContextGrowth(run.turns)
      && (run.outcome == Finished ==> result.value.isEnded && result.value.settlement == Resolved(Transcript(run.turns)))
      && (run.outcome == Stalled ==> !result.value.isEnded && result.value.settlement == Pending)
  {
    if |context.messages.items| == 0 {
      run := Run([], [], Stalled);
      return Failure("Cannot continue: no messages in context"), run;
    }
    var stream := OpenRun();
    var newMessages: seq<Message> := [];
    var currentContext := context;
    var finalMessages, followUpsPolled;
    finalMessages, followUpsPolled, run := RunLoop(stream, currentContext.messages, currentContext.tools, newMessages, script, now);
    EmptyTail([AgentStart, TurnStart]);
    EmptyLead(Transcript(run.turns));
    result := Success(stream);
  }
}
