/** The turn scheduler of src/agent-loop.ts (runLoop) as a function of its
    scripted collaborators: from the loop's locals, what the rest of the run
    pushes, which turns it takes, and how it ends. The imperative loop in
    module AgentLoop is proved to do exactly this. */
module LoopSpec {
  import opened Wrappers
  import opened AgentTypes
  import opened TurnEngine
  import opened ToolExecution
  import opened SeqFacts

  /** The locals of runLoop at the test of its inner loop. */
  datatype LoopState = LoopState(
    firstTurn: bool,
    pending: seq<Message>,
    hasMoreToolCalls: bool,
    newMessages: seq<Message>,
    responses: seq<Response>,
    steering: seq<seq<Message>>,
    followUps: seq<seq<Message>>)

  /** A finished run pushed `agent_end`; a stalled one is waiting forever on
      a provider that gives no response (the script ran out). */
  datatype Outcome = Finished | Stalled

  /** One turn: the pending messages it injected, the assistant reply (none
      when the provider never answered) and the tool results. */
  datatype TurnRecord = TurnRecord(injected: seq<Message>, reply: Option<Message>, results: seq<Message>)

  /** The rest of a run: its events, its turns, how it ends. */
  datatype Run = Run(events: seq<AgentEvent>, turns: seq<TurnRecord>, outcome: Outcome)

  /** How a turn leaves the loop: on to the next test, or out of the run. */
  datatype TurnOutcome = Continued(next: LoopState) | Ended(outcome: Outcome)

  /** One turn: its events, its record, and how it leaves the loop. */
  datatype TurnResult = TurnResult(events: seq<AgentEvent>, record: TurnRecord, outcome: TurnOutcome)

  /** `message_start` and `message_end` of each message, in order. */
  function Echo(ms: seq<Message>): (r: seq<AgentEvent>)
    ensures |r| == 2 * |ms|
  {
    if ms == [] then []
    else Echo(ms[..|ms| - 1]) + [MessageStart(ms[|ms| - 1]), MessageEnd(ms[|ms| - 1])]
  }

  /** A stop reason that ends the run at once. */
  predicate Terminal(m: Message) {
    m.AssistantMessage? && (m.stopReason == Error || m.stopReason == Aborted)
  }

  /** The messages a run appends to `newMessages`, in order. */
  function Transcript(turns: seq<TurnRecord>): seq<Message> {
    if turns == [] then []
    else
      var t := turns[0];
      t.injected + (if t.reply.Some? then [t.reply.value] else []) + t.results + Transcript(turns[1..])
  }

  /** The messages a run appends to the context's message array, in order:
      injected messages and tool results, never the assistant replies. */
  function ContextGrowth(turns: seq<TurnRecord>): seq<Message> {
    if turns == [] then []
    else turns[0].injected + turns[0].results + ContextGrowth(turns[1..])
  }

  /** The events a turn pushes before the provider call: its own
      `turn_start` (the first turn's was pushed by the entry point) and the
      injected pending messages. */
  function Opening(st: LoopState): seq<AgentEvent> {
    (if st.firstTurn then [] else [TurnStart]) + Echo(st.pending)
  }

  /** The inner loop's body (src/agent-loop.ts:90-143): a turn whose
      provider never answers stalls; a terminal reply ends the run; any
      other reply runs its tool calls and leads to the next test. */
  function TakeTurn(tools: seq<Tool>, st: LoopState, now: int): (t: TurnResult)
    ensures t.outcome.Continued? ==> st.responses != [] && t.outcome.next.responses == st.responses[1..]
  {
    if st.responses == [] then
      TurnResult(Opening(st), TurnRecord(st.pending, None, []), Ended(Stalled))
    else if Terminal(Completed(st.responses[0], now)) then
      EndingTurn(st, now)
    else
      ToolTurn(tools, st, now)
  }

  /** A turn whose reply stopped on an error or an abort
      (src/agent-loop.ts:109-113). */
  function EndingTurn(st: LoopState, now: int): TurnResult
    requires st.responses != []
  {
    var message := Completed(st.responses[0], now);
    TurnResult(
      Opening(st) + AssistantEvents(st.responses[0], now)
        + [TurnEnd(message, []), AgentEnd(st.newMessages + st.pending + [message])],
      TurnRecord(st.pending, Some(message), []),
      Ended(Finished))
  }

  /** A turn whose reply did not end the run (src/agent-loop.ts:116-143):
      its tool batch, `turn_end`, and the pending messages of the next test
      (the batch's steering messages, or else a fresh steering poll). */
  function ToolTurn(tools: seq<Tool>, st: LoopState, now: int): (t: TurnResult)
    requires st.responses != []
    ensures t.outcome.Continued? && t.outcome.next.responses == st.responses[1..]
  {
    var message := Completed(st.responses[0], now);
    var calls := ToolCallsOf(message.parts);
    var n := BatchSize(st.steering, |calls|);
    var results := ResultsFor(tools, calls[..n], now);
    var afterBatch := DropPolls(st.steering, n);
    var steered := SteeredAt(st.steering, n);
    TurnResult(
      Opening(st) + AssistantEvents(st.responses[0], now)
        + BatchEvents(tools, calls[..n], now) + [TurnEnd(message, results)],
      TurnRecord(st.pending, Some(message), results),
      Continued(LoopState(
        false,
        if steered then PollAnswer(st.steering, n - 1) else Poll(afterBatch).0,
        |calls| > 0,
        st.newMessages + st.pending + [message] + results,
        st.responses[1..],
        if steered then afterBatch else Poll(afterBatch).1,
        st.followUps)))
  }

  /** The run from the inner loop's test on: another turn while tool calls
      or pending messages remain; otherwise one follow-up poll, whose
      messages start a new turn, or else `agent_end`. */
  function Continue(tools: seq<Tool>, st: LoopState, now: int): Run
    decreases |st.responses|, 1
  {
    if st.hasMoreToolCalls || |st.pending| > 0 then Turn(tools, st, now)
    else
      var followUp := Poll(st.followUps);
      if |followUp.0| > 0 then
        Turn(tools, st.(pending := followUp.0, hasMoreToolCalls := true, followUps := followUp.1), now)
      else
        Run([AgentEnd(st.newMessages)], [], Finished)
  }

  /** One turn, then the rest of the run. */
  function Turn(tools: seq<Tool>, st: LoopState, now: int): Run
    decreases |st.responses|, 0
  {
    var t := TakeTurn(tools, st, now);
    match t.outcome
    case Ended(o) => Run(t.events, [t.record], o)
    case Continued(next) =>
      var rest := Continue(tools, next, now);
      Run(t.events + rest.events, [t.record] + rest.turns, rest.outcome)
  }

  /** Whether the run from the inner loop's test on calls the follow-up
      provider at least once: it does unless a turn ends the run before the
      inner loop first exits (a terminal reply, or a provider that never
      answers). */
  predicate PollsFollowUps(tools: seq<Tool>, st: LoopState, now: int)
    decreases |st.responses|, 1
  {
    !(st.hasMoreToolCalls || |st.pending| > 0) || TurnPollsFollowUps(tools, st, now)
  }

  predicate TurnPollsFollowUps(tools: seq<Tool>, st: LoopState, now: int)
    decreases |st.responses|, 0
  {
    var t := TakeTurn(tools, st, now);
    t.outcome.Continued? && PollsFollowUps(tools, t.outcome.next, now)
  }

  /** One pass of the inner loop: a turn that ends the run rules the
      follow-up poll out; one that continues leaves it to the next test. */
  lemma PollStep(tools: seq<Tool>, st: LoopState, now: int)
    requires st.hasMoreToolCalls || |st.pending| > 0
    ensures var t := TakeTurn(tools, st, now);
      && (t.outcome.Ended? ==> !PollsFollowUps(tools, st, now))
      && (t.outcome.Continued? ==> PollsFollowUps(tools, st, now) == PollsFollowUps(tools, t.outcome.next, now))
  {
  }

  /** A turn neither reads nor changes the follow-up answers: it pushes the
      same events, whatever they are, and hands them on unchanged. */
  lemma TurnIgnoresFollowUps(tools: seq<Tool>, st: LoopState, now: int, f: seq<seq<Message>>)
    ensures var t := TakeTurn(tools, st, now);
      var u := TakeTurn(tools, st.(followUps := f), now);
      && u.events == t.events && u.record == t.record
      && (t.outcome.Ended? ==> u.outcome == t.outcome)
      && (t.outcome.Continued? ==> u.outcome == Continued(t.outcome.next.(followUps := f)))
  {
    if st.responses != [] && !Terminal(Completed(st.responses[0], now)) {
      assert Opening(st.(followUps := f)) == Opening(st);
    }
  }

  /** A run that ends before its first follow-up poll is the same whatever
      the follow-up provider would have answered. */
  lemma {:induction false} FollowUpsUnread(tools: seq<Tool>, st: LoopState, now: int, f: seq<seq<Message>>)
    requires !PollsFollowUps(tools, st, now)
    ensures Continue(tools, st.(followUps := f), now) == Continue(tools, st, now)
    decreases |st.responses|, 1
  {
    TurnFollowUpsUnread(tools, st, now, f);
  }

  lemma {:induction false} TurnFollowUpsUnread(tools: seq<Tool>, st: LoopState, now: int, f: seq<seq<Message>>)
    requires !TurnPollsFollowUps(tools, st, now)
    ensures Turn(tools, st.(followUps := f), now) == Turn(tools, st, now)
    decreases |st.responses|, 0
  {
    var t := TakeTurn(tools, st, now);
    TurnIgnoresFollowUps(tools, st, now, f);
    if t.outcome.Continued? {
      FollowUpsUnread(tools, t.outcome.next, now, f);
    }
  }

  /** The loop's locals on entry (src/agent-loop.ts:82-86): first turn,
      pending = the first steering poll, tool calls assumed. */
  function Start(newMessages: seq<Message>, script: Script): LoopState {
    LoopState(true, Poll(script.steering).0, true, newMessages, script.responses, Poll(script.steering).1, script.followUps)
  }

  /** A run takes at least one turn, and its first turn injects the first
      steering answer. */
  lemma FirstTurnInjects(tools: seq<Tool>, prompts: seq<Message>, script: Script, now: int)
    ensures var r := Continue(tools, Start(prompts, script), now);
      r.turns != [] && r.turns[0].injected == Poll(script.steering).0
  {
  }

  /** The events an entry point pushes before the loop: `agent_start`,
      `turn_start`, then the prompts. */
  function Prologue(prompts: seq<Message>): seq<AgentEvent> {
    [AgentStart, TurnStart] + Echo(prompts)
  }

  /** The structural events of a log. */
  datatype Mark = TS | TE | AE

  function Marks(e: AgentEvent): seq<Mark> {
    match e
    case TurnStart => [TS]
    case TurnEnd(_, _) => [TE]
    case AgentEnd(_) => [AE]
    case _ => []
  }

  /** The log reduced to its turn and run boundaries. */
  function Skeleton(events: seq<AgentEvent>): seq<Mark> {
    if events == [] then [] else Skeleton(events[..|events| - 1]) + Marks(events[|events| - 1])
  }

  /** `k` complete turns. */
  function Pairs(k: nat): seq<Mark> {
    if k == 0 then [] else [TS, TE] + Pairs(k - 1)
  }

  /** The number of turns the provider answered. */
  function Answered(turns: seq<TurnRecord>): nat {
    if turns == [] then 0 else (if turns[0].reply.Some? then 1 else 0) + Answered(turns[1..])
  }

  /** The boundary event pushed before a turn's own events: the entry
      point's `turn_start` for the first turn, none for later ones. */
  function Lead(st: LoopState): seq<AgentEvent> {
    if st.firstTurn then [TurnStart] else []
  }

  lemma ClosingMarks(k: nat, x: seq<Mark>)
    ensures [TS] + ([TE] + [AE]) == [TS, TE, AE] == Pairs(1) + [AE]
    ensures [TS] + [TE] == [TS, TE]
    ensures [TS, TE] + (Pairs(k) + x) == Pairs(k + 1) + x
    ensures Pairs(0) + [TS] == [TS]
  {
  }

  lemma {:induction false} SkeletonAppend(a: seq<AgentEvent>, b: seq<AgentEvent>)
    ensures Skeleton(a + b) == Skeleton(a) + Skeleton(b)
  {
    if b == [] {
      assert a + b == a;
    } else {
      var init := b[..|b| - 1];
      DropLastAppend(a, b);
      SkeletonAppend(a, init);
      Assoc(Skeleton(a), Skeleton(init), Marks(b[|b| - 1]));
    }
  }

  /** A turn's log: exactly one `turn_start` up to the provider call, no
      boundary in the reply and tool batch, then `turn_end`. */
  lemma TurnSkeleton(lead: seq<AgentEvent>, opening: seq<AgentEvent>, body: seq<AgentEvent>, closing: AgentEvent)
    requires Skeleton(lead + opening) == [TS] && Skeleton(body) == [] && closing.TurnEnd?
    ensures Skeleton(lead + (opening + body + [closing])) == [TS, TE]
  {
    Regroup(lead, opening, body, [closing]);
    SkeletonAppend(lead + opening, body);
    SkeletonAppend(lead + opening + body, [closing]);
    SkeletonOne(closing);
  }

  /** The same, when `agent_end` follows `turn_end`. */
  lemma EndingSkeleton(lead: seq<AgentEvent>, opening: seq<AgentEvent>, body: seq<AgentEvent>, closing: AgentEvent, ending: AgentEvent)
    requires Skeleton(lead + opening) == [TS] && Skeleton(body) == [] && closing.TurnEnd? && ending.AgentEnd?
    ensures Skeleton(lead + (opening + body + [closing, ending])) == [TS, TE, AE]
  {
    Regroup(lead, opening, body, [closing, ending]);
    SkeletonAppend(lead + opening, body);
    SkeletonAppend(lead + opening + body, [closing, ending]);
    SkeletonTwo(closing, ending);
    ClosingMarks(0, []);
  }

  lemma SkeletonTwo(e: AgentEvent, f: AgentEvent)
    ensures Skeleton([e, f]) == Marks(e) + Marks(f)
  {
    assert [e, f][..1] == [e];
    SkeletonOne(e);
  }

  /** A complete turn followed by the rest of the run. */
  lemma ChainSkeleton(lead: seq<AgentEvent>, turn: seq<AgentEvent>, rest: seq<AgentEvent>, k: nat, x: seq<Mark>)
    requires Skeleton(lead + turn) == [TS, TE] && Skeleton(rest) == Pairs(k) + x
    ensures Skeleton(lead + (turn + rest)) == Pairs(k + 1) + x
  {
    Assoc(lead, turn, rest);
    SkeletonAppend(lead + turn, rest);
    ClosingMarks(k, x);
  }

  lemma SkeletonOne(e: AgentEvent)
    ensures Skeleton([e]) == Marks(e)
  {
    assert [e][..0] == [];
  }

  lemma {:induction false} QuietSkeleton(events: seq<AgentEvent>)
    requires forall e :: e in events ==> Marks(e) == []
    ensures Skeleton(events) == []
  {
    if events != [] {
      assert events[|events| - 1] in events;
      assert forall k :: 0 <= k < |events| - 1 ==> events[..|events| - 1][k] == events[k];
      QuietSkeleton(events[..|events| - 1]);
    }
  }

  lemma {:induction false} EchoSkeleton(ms: seq<Message>)
    ensures Skeleton(Echo(ms)) == []
  {
    if ms != [] {
      var m := ms[|ms| - 1];
      EchoSkeleton(ms[..|ms| - 1]);
      SkeletonAppend(Echo(ms[..|ms| - 1]), [MessageStart(m), MessageEnd(m)]);
      QuietSkeleton([MessageStart(m), MessageEnd(m)]);
    }
  }

  lemma AssistantSkeleton(r: Response, now: int)
    ensures Skeleton(AssistantEvents(r, now)) == []
  {
    UpdateEventsCount(r.deltas, now);
    QuietSkeleton(AssistantEvents(r, now));
  }

  lemma ToolSkeleton(tools: seq<Tool>, call: ToolCall, now: int)
    ensures Skeleton(ToolEvents(tools, call, now)) == []
  {
    assert forall e :: e in UpdateEventsOf(call, Updates(tools, call)) ==> e.ToolExecutionUpdate?;
    QuietSkeleton(ToolEvents(tools, call, now));
  }

  lemma {:induction false} BatchSkeleton(tools: seq<Tool>, calls: seq<ToolCall>, now: int)
    ensures Skeleton(BatchEvents(tools, calls, now)) == []
  {
    if calls != [] {
      BatchSkeleton(tools, calls[..|calls| - 1], now);
      ToolSkeleton(tools, calls[|calls| - 1], now);
      SkeletonAppend(BatchEvents(tools, calls[..|calls| - 1], now), ToolEvents(tools, calls[|calls| - 1], now));
    }
  }

  /** Whichever turn it is, exactly one `turn_start` precedes its events up
      to the provider call. */
  lemma LeadOpening(st: LoopState)
    ensures Skeleton(Lead(st) + Opening(st)) == [TS]
  {
    if st.firstTurn {
      EmptyLead(Echo(st.pending));
    } else {
      EmptyLead(Opening(st));
    }
    SkeletonAppend([TurnStart], Echo(st.pending));
    SkeletonOne(TurnStart);
    EchoSkeleton(st.pending);
    EmptyTail([TS]);
  }

  lemma TranscriptCons(t: TurnRecord, rest: seq<TurnRecord>)
    ensures Transcript([t] + rest) == Transcript([t]) + Transcript(rest)
    ensures ContextGrowth([t] + rest) == ContextGrowth([t]) + ContextGrowth(rest)
    ensures Answered([t] + rest) == Answered([t]) + Answered(rest)
  {
    assert ([t] + rest)[1..] == rest;
    assert [t][1..] == [];
  }

  lemma TranscriptOne(t: TurnRecord)
    ensures Transcript([t]) == t.injected + (if t.reply.Some? then [t.reply.value] else []) + t.results
    ensures ContextGrowth([t]) == t.injected + t.results
    ensures Answered([t]) == if t.reply.Some? then 1 else 0
  {
    assert [t][1..] == [];
  }

  lemma {:induction false} TranscriptConcat(a: seq<TurnRecord>, b: seq<TurnRecord>)
    ensures Transcript(a + b) == Transcript(a) + Transcript(b)
    ensures ContextGrowth(a + b) == ContextGrowth(a) + ContextGrowth(b)
  {
    if a == [] {
      EmptyLead(b);
      EmptyLead(Transcript(b));
      EmptyLead(ContextGrowth(b));
    } else {
      TranscriptConcat(a[1..], b);
      assert (a + b)[1..] == a[1..] + b;
      var h := a[0];
      var hs := h.injected + (if h.reply.Some? then [h.reply.value] else []) + h.results;
      Assoc(hs, Transcript(a[1..]), Transcript(b));
      Assoc(h.injected + h.results, ContextGrowth(a[1..]), ContextGrowth(b));
    }
  }

  /** A terminal reply: the turn's log closes with `turn_end` (no tool
      results) and then `agent_end` with every message the run added. */
  lemma EndingShape(st: LoopState, now: int)
    requires st.responses != []
    ensures var t := EndingTurn(st, now);
      && Skeleton(Lead(st) + t.events) == [TS, TE, AE]
      && t.events[|t.events| - 1] == AgentEnd(st.newMessages + Transcript([t.record]))
  {
    var t := EndingTurn(st, now);
    var r := st.responses[0];
    var m := Completed(r, now);
    var ending := AgentEnd(st.newMessages + st.pending + [m]);
    var tail := [TurnEnd(m, []), ending];
    LeadOpening(st);
    AssistantSkeleton(r, now);
    EndingSkeleton(Lead(st), Opening(st), AssistantEvents(r, now), TurnEnd(m, []), ending);
    DropLastAppend(Opening(st) + AssistantEvents(r, now), tail);
    TranscriptOne(t.record);
    NoResults(st.newMessages, st.pending, [m]);
  }

  /** A non-terminal reply: the turn's log holds one `turn_start` and one
      `turn_end`, and `newMessages` grows by the turn's record. */
  lemma ToolTurnShape(tools: seq<Tool>, st: LoopState, now: int)
    requires st.responses != []
    ensures var t := ToolTurn(tools, st, now);
      && Skeleton(Lead(st) + t.events) == [TS, TE]
      && !t.outcome.next.firstTurn
      && t.outcome.next.newMessages == st.newMessages + Transcript([t.record])
  {
    var t := ToolTurn(tools, st, now);
    var r := st.responses[0];
    var m := Completed(r, now);
    var calls := ToolCallsOf(m.parts);
    var n := BatchSize(st.steering, |calls|);
    var results := ResultsFor(tools, calls[..n], now);
    var body := AssistantEvents(r, now) + BatchEvents(tools, calls[..n], now);
    LeadOpening(st);
    AssistantSkeleton(r, now);
    BatchSkeleton(tools, calls[..n], now);
    SkeletonAppend(AssistantEvents(r, now), BatchEvents(tools, calls[..n], now));
    TurnSkeleton(Lead(st), Opening(st), body, TurnEnd(m, results));
    Regroup(Opening(st), AssistantEvents(r, now), BatchEvents(tools, calls[..n], now), [TurnEnd(m, results)]);
    TranscriptOne(t.record);
    Regroup(st.newMessages, st.pending, [m], results);
  }

  /** Every run from the inner loop's test on: its log, after the first
      turn's `turn_start`, is complete turns followed by either one
      `agent_end` (finished) or one `turn_start` left open (stalled); a
      finished run's last event is `agent_end` with all of `newMessages`. */
  lemma {:induction false} ContinueShape(tools: seq<Tool>, st: LoopState, now: int)
    requires st.firstTurn ==> st.hasMoreToolCalls
    ensures var r := Continue(tools, st, now);
      && Skeleton(Lead(st) + r.events) == Pairs(Answered(r.turns)) + (if r.outcome == Finished then [AE] else [TS])
      && (r.outcome == Finished ==> r.events != [] && r.events[|r.events| - 1] == AgentEnd(st.newMessages + Transcript(r.turns)))
    decreases |st.responses|, 1
  {
    if st.hasMoreToolCalls || |st.pending| > 0 {
      TurnShape(tools, st, now);
    } else {
      var followUp := Poll(st.followUps);
      if |followUp.0| > 0 {
        TurnShape(tools, st.(pending := followUp.0, hasMoreToolCalls := true, followUps := followUp.1), now);
      } else {
        SkeletonOne(AgentEnd(st.newMessages));
      }
    }
  }

  lemma {:induction false} TurnShape(tools: seq<Tool>, st: LoopState, now: int)
    ensures var r := Turn(tools, st, now);
      && Skeleton(Lead(st) + r.events) == Pairs(Answered(r.turns)) + (if r.outcome == Finished then [AE] else [TS])
      && (r.outcome == Finished ==> r.events != [] && r.events[|r.events| - 1] == AgentEnd(st.newMessages + Transcript(r.turns)))
    decreases |st.responses|, 0
  {
    if st.responses == [] {
      LeadOpening(st);
      TranscriptOne(TurnRecord(st.pending, None, []));
      ClosingMarks(0, []);
    } else if Terminal(Completed(st.responses[0], now)) {
      EndingShape(st, now);
      TranscriptOne(EndingTurn(st, now).record);
      ClosingMarks(0, []);
    } else {
      var t := ToolTurn(tools, st, now);
      var next := t.outcome.next;
      var rest := Continue(tools, next, now);
      ToolTurnShape(tools, st, now);
      ContinueShape(tools, next, now);
      EmptyLead(rest.events);
      ChainSkeleton(Lead(st), t.events, rest.events, Answered(rest.turns), if rest.outcome == Finished then [AE] else [TS]);
      TranscriptCons(t.record, rest.turns);
      TranscriptOne(t.record);
      if rest.outcome == Finished {
        DropLastAppend(t.events, rest.events);
        Assoc(st.newMessages, Transcript([t.record]), Transcript(rest.turns));
      }
    }
  }
}

module RunLog {
  import opened AgentTypes
  import opened LoopSpec
  import opened SeqFacts

  /** The whole log of a run started with `prompts`. */
  function Log(tools: seq<Tool>, prompts: seq<Message>, script: Script, now: int): seq<AgentEvent> {
    Prologue(prompts) + Continue(tools, Start(prompts, script), now).events
  }

  lemma PairsQuiet(k: nat)
    ensures AE !in Pairs(k)
  {
    if k > 0 {
      PairsQuiet(k - 1);
    }
  }

  lemma {:induction false} NoEndIn(events: seq<AgentEvent>)
    requires AE !in Skeleton(events)
    ensures forall i :: 0 <= i < |events| ==> !events[i].AgentEnd?
  {
    if events != [] {
      var init := events[..|events| - 1];
      NoEndIn(init);
      assert forall i :: 0 <= i < |init| ==> init[i] == events[i];
    }
  }

  lemma PrologueStep(lead: seq<AgentEvent>, echo: seq<AgentEvent>, events: seq<AgentEvent>)
    requires Skeleton(lead) == [TS] && Skeleton(echo) == []
    ensures Skeleton(lead + echo + events) == Skeleton([TurnStart] + events)
  {
    SkeletonAppend(lead + echo, events);
    SkeletonAppend(lead, echo);
    SkeletonAppend([TurnStart], events);
    SkeletonOne(TurnStart);
  }

  lemma PrologueSkeleton(prompts: seq<Message>, events: seq<AgentEvent>)
    ensures Skeleton(Prologue(prompts) + events) == Skeleton([TurnStart] + events)
  {
    SkeletonTwo(AgentStart, TurnStart);
    EmptyLead([TS]);
    EchoSkeleton(prompts);
    PrologueStep([AgentStart, TurnStart], Echo(prompts), events);
  }

  /** The log of a run reduced to its boundaries: `agent_start` first, then
      complete turns (each `turn_start` closed by one `turn_end`), then
      exactly one `agent_end`, last, carrying the prompts and every message
      the turns added (finished); or no `agent_end` at all and the last
      turn left open (stalled). */
  lemma {:induction false} RunShape(tools: seq<Tool>, prompts: seq<Message>, script: Script, now: int)
    ensures var r := Continue(tools, Start(prompts, script), now);
      var log := Log(tools, prompts, script, now);
      && log[0] == AgentStart
      && Skeleton(log) == Pairs(Answered(r.turns)) + (if r.outcome == Finished then [AE] else [TS])
      && (r.outcome == Finished ==>
            && log[|log| - 1] == AgentEnd(prompts + Transcript(r.turns))
            && forall i :: 0 <= i < |log| - 1 ==> !log[i].AgentEnd?)
      && (r.outcome == Stalled ==> forall i :: 0 <= i < |log| ==> !log[i].AgentEnd?)
  {
    var st := Start(prompts, script);
    var r := Continue(tools, st, now);
    var log := Log(tools, prompts, script, now);
    ContinueShape(tools, st, now);
    PrologueSkeleton(prompts, r.events);
    if r.outcome == Finished {
      DropLastAppend(Prologue(prompts), r.events);
    }
    EndsOnce(log, Answered(r.turns), r.outcome == Finished);
  }

  /** A log whose boundaries are complete turns and then `agent_end`, or
      an open turn, holds no `agent_end` before its last event, or none at
      all. */
  lemma EndsOnce(log: seq<AgentEvent>, k: nat, finished: bool)
    requires Skeleton(log) == Pairs(k) + (if finished then [AE] else [TS])
    requires finished ==> log != [] && log[|log| - 1].AgentEnd?
    ensures finished ==> forall i :: 0 <= i < |log| - 1 ==> !log[i].AgentEnd?
    ensures !finished ==> forall i :: 0 <= i < |log| ==> !log[i].AgentEnd?
  {
    PairsQuiet(k);
    if finished {
      SplitLast(Skeleton(log[..|log| - 1]), Pairs(k));
      NoEndBefore(log);
    } else {
      NoEndIn(log);
    }
  }

  lemma NoEndBefore(events: seq<AgentEvent>)
    requires events != [] && AE !in Skeleton(events[..|events| - 1])
    ensures forall i :: 0 <= i < |events| - 1 ==> !events[i].AgentEnd?
  {
    var init := events[..|events| - 1];
    NoEndIn(init);
    assert forall i :: 0 <= i < |init| ==> init[i] == events[i];
  }

  lemma SplitLast(a: seq<Mark>, b: seq<Mark>)
    requires a + [AE] == b + [AE]
    ensures a == b
  {
    assert a == (a + [AE])[..|a|];
  }
}
