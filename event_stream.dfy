/** A single-writer event channel: an append-only buffer, a terminal flag,
    a settle-once result, listeners called in registration order, and replay
    of the whole buffer to every new listener. */
module EventStreams {

  /** A listener, identified by the function value the caller registered. */
  type ListenerId = nat

  /** The handle `subscribe` returns; calling it removes the listener. */
  datatype Subscription = Subscription(listener: ListenerId)

  /** The state of the stream's result promise. */
  datatype Settlement<R> = Pending | Resolved(value: R) | Rejected(reason: string)

  /** `suffix` is the tail of `s`. */
  ghost predicate EndsWith<T>(s: seq<T>, suffix: seq<T>) {
    |suffix| <= |s| && s[|s| - |suffix|..] == suffix
  }

  lemma EndsWithAppend<T>(s: seq<T>, suffix: seq<T>, e: T)
    requires EndsWith(s, suffix)
    ensures EndsWith(s + [e], suffix + [e])
  {
    assert (s + [e])[|s + [e]| - |suffix + [e]|..] == s[|s| - |suffix|..] + [e];
  }

  /** No listener is registered twice (a JavaScript Set). */
  ghost predicate Distinct(ls: seq<ListenerId>) {
    forall i, j :: 0 <= i < j < |ls| ==> ls[i] != ls[j]
  }

  lemma DistinctAppend(ls: seq<ListenerId>, l: ListenerId)
    requires Distinct(ls) && l !in ls
    ensures Distinct(ls + [l])
  {
  }

  /** After replay, the new listener, like every other one, has received the
      whole buffer as the tail of what it received. */
  lemma CaughtUp<T>(listeners: seq<ListenerId>, received: map<ListenerId, seq<T>>, buffer: seq<T>, l: ListenerId, seen: seq<T>)
    requires forall m :: m in listeners && m != l ==> m in received && EndsWith(received[m], buffer)
    ensures forall m :: m in listeners ==> m in received[l := seen + buffer] && EndsWith(received[l := seen + buffer][m], buffer)
  {
    assert (seen + buffer)[|seen + buffer| - |buffer|..] == buffer;
  }

  /** The set without `l`, order kept. */
  function Without(ls: seq<ListenerId>, l: ListenerId): (r: seq<ListenerId>)
    ensures forall m :: m in r <==> m in ls && m != l
    ensures Distinct(ls) ==> Distinct(r)
  {
    if ls == [] then []
    else
      assert Distinct(ls) ==> Distinct(ls[1..]) && ls[0] !in ls[1..];
      var rest := Without(ls[1..], l);
      if ls[0] == l then rest
      else
        assert Distinct(ls) ==> forall j :: 0 <= j < |rest| ==> rest[j] != ls[0];
        [ls[0]] + rest
  }

  /** What listener `l` has received so far (nothing if it never subscribed). */
  function Seen<T>(received: map<ListenerId, seq<T>>, l: ListenerId): seq<T> {
    if l in received then received[l] else []
  }

  /** Delivery of `e` to the current listeners: each of them, and nobody else,
      has `e` appended to what it received. */
  function Delivered<T>(received: map<ListenerId, seq<T>>, listeners: seq<ListenerId>, e: T): (r: map<ListenerId, seq<T>>)
    ensures r.Keys == received.Keys
  {
    map l | l in received :: if l in listeners then received[l] + [e] else received[l]
  }

  /** A removed (or never registered) listener hears nothing more, and each
      current listener hears `e` exactly once, after what it heard before. */
  lemma DeliveredTo<T>(received: map<ListenerId, seq<T>>, listeners: seq<ListenerId>, e: T, l: ListenerId)
    ensures l !in listeners ==> Seen(Delivered(received, listeners, e), l) == Seen(received, l)
    ensures l in listeners && l in received ==> Seen(Delivered(received, listeners, e), l) == Seen(received, l) + [e]
  {
  }

  /** The calls of one delivery: each listener, in registration order,
      called with `e`. */
  function Calls<T>(listeners: seq<ListenerId>, e: T): (r: seq<(ListenerId, T)>)
    ensures |r| == |listeners|
  {
    seq(|listeners|, i requires 0 <= i < |listeners| => (listeners[i], e))
  }

  /** The calls of a replay: listener `l` called with each event, in order. */
  function ReplayCalls<T>(l: ListenerId, events: seq<T>): (r: seq<(ListenerId, T)>)
    ensures |r| == |events|
  {
    seq(|events|, i requires 0 <= i < |events| => (l, events[i]))
  }

  /** What listener `l` was called with, in call order, according to a log
      of calls. */
  function Heard<T>(calls: seq<(ListenerId, T)>, l: ListenerId): seq<T> {
    if calls == [] then []
    else Heard(calls[..|calls| - 1], l) + (if calls[|calls| - 1].0 == l then [calls[|calls| - 1].1] else [])
  }

  lemma {:induction false} HeardAppend<T>(a: seq<(ListenerId, T)>, b: seq<(ListenerId, T)>, l: ListenerId)
    ensures Heard(a + b, l) == Heard(a, l) + Heard(b, l)
    decreases |b|
  {
    if b == [] {
      assert a + b == a;
    } else {
      var init := b[..|b| - 1];
      assert (a + b)[..|a + b| - 1] == a + init;
      HeardAppend(a, init, l);
    }
  }

  /** In one delivery to distinct listeners, each of them hears the event
      exactly once, and nobody else hears it. */
  lemma {:induction false} HeardDelivery<T>(listeners: seq<ListenerId>, e: T, l: ListenerId)
    requires Distinct(listeners)
    ensures Heard(Calls(listeners, e), l) == if l in listeners then [e] else []
    decreases |listeners|
  {
    if listeners != [] {
      var init := listeners[..|listeners| - 1];
      assert Calls(listeners, e)[..|listeners| - 1] == Calls(init, e);
      assert l in listeners <==> l in init || l == listeners[|listeners| - 1];
      HeardDelivery(init, e, l);
    }
  }

  /** A replay is heard by its listener only, event by event. */
  lemma {:induction false} HeardReplay<T>(l: ListenerId, events: seq<T>, m: ListenerId)
    ensures Heard(ReplayCalls(l, events), m) == if m == l then events else []
    decreases |events|
  {
    if events != [] {
      var init := events[..|events| - 1];
      assert ReplayCalls(l, events)[..|events| - 1] == ReplayCalls(l, init);
      HeardReplay(l, init, m);
    }
  }

  /** What each listener received is what the call log says it heard. */
  ghost predicate Logged<T>(received: map<ListenerId, seq<T>>, calls: seq<(ListenerId, T)>) {
    forall l :: Seen(received, l) == Heard(calls, l)
  }

  /** A delivery keeps what each listener received equal to what the call
      log says it heard. */
  lemma DeliveryHeard<T>(received: map<ListenerId, seq<T>>, calls: seq<(ListenerId, T)>, listeners: seq<ListenerId>, e: T)
    requires Distinct(listeners) && forall l :: l in listeners ==> l in received
    requires Logged(received, calls)
    ensures Logged(Delivered(received, listeners, e), calls + Calls(listeners, e))
  {
    forall l
      ensures Seen(Delivered(received, listeners, e), l) == Heard(calls + Calls(listeners, e), l)
    {
      DeliveredTo(received, listeners, e, l);
      HeardAppend(calls, Calls(listeners, e), l);
      HeardDelivery(listeners, e, l);
    }
  }

  /** So does a replay to listener `l`. */
  lemma ReplayHeard<T>(received: map<ListenerId, seq<T>>, calls: seq<(ListenerId, T)>, l: ListenerId, events: seq<T>)
    requires Logged(received, calls)
    ensures Logged(received[l := Seen(received, l) + events], calls + ReplayCalls(l, events))
  {
    forall m
      ensures Seen(received[l := Seen(received, l) + events], m) == Heard(calls + ReplayCalls(l, events), m)
    {
      HeardAppend(calls, ReplayCalls(l, events), m);
      HeardReplay(l, events, m);
    }
  }

  /** Calls each listener of `listeners`, in order, with `e`; `log` is the
      call log `calls` extended by these calls. */
  method Deliver<T>(received: map<ListenerId, seq<T>>, listeners: seq<ListenerId>, e: T, ghost calls: seq<(ListenerId, T)>)
    returns (delivered: map<ListenerId, seq<T>>, ghost log: seq<(ListenerId, T)>)
    requires Distinct(listeners)
    ensures delivered == Delivered(received, listeners, e)
    ensures log == calls + Calls(listeners, e)
  {
    delivered := received;
    log := calls;
    var i := 0;
    while i < |listeners|
      invariant 0 <= i <= |listeners|
      invariant delivered.Keys == received.Keys
      invariant forall l :: l in delivered ==>
        delivered[l] == if l in listeners[..i] then received[l] + [e] else received[l]
      invariant log == calls + Calls(listeners[..i], e)
    {
      var l := listeners[i];
      assert l !in listeners[..i];
      if l in delivered {
        delivered := delivered[l := delivered[l] + [e]];
      }
      log := log + [(l, e)];
      assert listeners[..i + 1] == listeners[..i] + [l];
      assert Calls(listeners[..i + 1], e) == Calls(listeners[..i], e) + [(l, e)];
      i := i + 1;
    }
    assert listeners[..i] == listeners;
  }

  /** Calls the new listener `l` with each buffered event, in order; `log` is
      the call log `calls` extended by these calls. */
  method Replay<T>(l: ListenerId, seen: seq<T>, events: seq<T>, ghost calls: seq<(ListenerId, T)>)
    returns (replayed: seq<T>, ghost log: seq<(ListenerId, T)>)
    ensures replayed == seen + events
    ensures log == calls + ReplayCalls(l, events)
  {
    replayed := seen;
    log := calls;
    var i := 0;
    while i < |events|
      invariant 0 <= i <= |events|
      invariant replayed == seen + events[..i]
      invariant log == calls + ReplayCalls(l, events[..i])
    {
      replayed := replayed + [events[i]];
      log := log + [(l, events[i])];
      assert events[..i + 1] == events[..i] + [events[i]];
      assert ReplayCalls(l, events[..i + 1]) == ReplayCalls(l, events[..i]) + [(l, events[i])];
      i := i + 1;
    }
    assert events[..i] == events;
  }

  class EventStream<T, R> {
    /** Decides whether an event is the terminal one. */
    const endCondition: T -> bool
    /** Computes the result from the terminal event. */
    const resultMapper: T -> R

    var buffer: seq<T>
    /** The registered listeners, in registration order. */
    var listeners: seq<ListenerId>
    /** Every event each listener has been called with, in call order. */
    var received: map<ListenerId, seq<T>>
    var isEnded: bool
    /** The result promise. */
    var settlement: Settlement<R>
    /** Every listener call so far, in order: which listener, which event. */
    ghost var calls: seq<(ListenerId, T)>

    /** The stream's invariant:
        - it has ended exactly when its result is settled;
        - every current listener has been called with the whole buffer, in
          order, as the tail of what it received (replay plus live delivery);
        - no buffered event except possibly the last satisfies the end
          condition, and none at all while the stream is open;
        - what each listener has received is what the call log says it
          was called with. */
    ghost predicate Valid()
      reads this
    {
      && (isEnded <==> !settlement.Pending?)
      && Distinct(listeners)
      && (forall l :: l in listeners ==> l in received && EndsWith(received[l], buffer))
      && (forall i :: 0 <= i < |buffer| - 1 ==> !endCondition(buffer[i]))
      && (!isEnded && |buffer| > 0 ==> !endCondition(buffer[|buffer| - 1]))
      && Logged(received, calls)
    }

    constructor (endCondition: T -> bool, resultMapper: T -> R)
      ensures Valid()
      ensures this.endCondition == endCondition && this.resultMapper == resultMapper
      ensures buffer == [] && listeners == [] && received == map[]
      ensures !isEnded && settlement == Pending && calls == []
    {
      this.endCondition := endCondition;
      this.resultMapper := resultMapper;
      buffer := [];
      listeners := [];
      received := map[];
      isEnded := false;
      settlement := Pending;
      calls := [];
    }

    /** Appends `event`, calls every listener with it in registration order,
        and ends the stream when it is terminal. Does nothing once the
        stream has ended. */
    method Push(event: T)
      requires Valid()
      modifies this
      ensures Valid()
      ensures listeners == old(listeners)
      ensures old(isEnded) ==>
        buffer == old(buffer) && received == old(received) && isEnded && settlement == old(settlement)
        && calls == old(calls)
      ensures !old(isEnded) ==>
        && buffer == old(buffer) + [event]
        && received == Delivered(old(received), listeners, event)
        && calls == old(calls) + Calls(listeners, event)
        && (isEnded <==> endCondition(event))
        && settlement == (if endCondition(event) then Resolved(resultMapper(event)) else Pending)
    {
      if isEnded {
        return;
      }
      buffer := buffer + [event];
      var delivered, log := Deliver(received, listeners, event, calls);
      forall l | l in listeners
        ensures EndsWith(delivered[l], buffer)
      {
        EndsWithAppend(received[l], old(buffer), event);
      }
      DeliveryHeard(received, calls, listeners, event);
      received := delivered;
      calls := log;
      if endCondition(event) {
        isEnded := true;
        settlement := Resolved(resultMapper(event));
      }
    }

    /** Resolves the result and ends the stream, unless it has already ended. */
    method End(result: R)
      requires Valid()
      modifies this
      ensures Valid()
      ensures buffer == old(buffer) && listeners == old(listeners) && received == old(received) && calls == old(calls)
      ensures isEnded
      ensures settlement == if old(isEnded) then old(settlement) else Resolved(result)
    {
      if isEnded {
        return;
      }
      isEnded := true;
      settlement := Resolved(result);
    }

    /** Rejects the result and ends the stream without buffering anything,
        unless it has already ended. */
    method Error(reason: string)
      requires Valid()
      modifies this
      ensures Valid()
      ensures buffer == old(buffer) && listeners == old(listeners) && received == old(received) && calls == old(calls)
      ensures isEnded
      ensures settlement == if old(isEnded) then old(settlement) else Rejected(reason)
    {
      if isEnded {
        return;
      }
      isEnded := true;
      settlement := Rejected(reason);
    }

    /** Registers `l` (once) and calls it with every buffered event, in order,
        whether or not the stream has ended. */
    method Subscribe(l: ListenerId) returns (handle: Subscription)
      requires Valid()
      modifies this
      ensures Valid()
      ensures handle == Subscription(l)
      ensures listeners == if l in old(listeners) then old(listeners) else old(listeners) + [l]
      ensures received == old(received)[l := Seen(old(received), l) + buffer]
      ensures calls == old(calls) + ReplayCalls(l, buffer)
      ensures buffer == old(buffer) && isEnded == old(isEnded) && settlement == old(settlement)
    {
      if l !in listeners {
        DistinctAppend(listeners, l);
        listeners := listeners + [l];
      }
      var replayed, log := Replay(l, Seen(received, l), buffer, calls);
      CaughtUp(listeners, received, buffer, l, Seen(received, l));
      ReplayHeard(received, calls, l, buffer);
      received := received[l := replayed];
      calls := log;
      handle := Subscription(l);
    }

    /** Calling the handle: the listener is removed and gets nothing more. */
    method Unsubscribe(handle: Subscription)
      requires Valid()
      modifies this
      ensures Valid()
      ensures listeners == Without(old(listeners), handle.listener)
      ensures handle.listener !in listeners
      ensures buffer == old(buffer) && received == old(received) && calls == old(calls)
      ensures isEnded == old(isEnded) && settlement == old(settlement)
    {
      listeners := Without(listeners, handle.listener);
    }

    /** The result promise: pending exactly while the stream is open. */
    function Result(): (r: Settlement<R>)
      reads this
      requires Valid()
      ensures r.Pending? <==> !isEnded
    {
      settlement
    }
  }
}
