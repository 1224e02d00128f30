/**
 * The publish/subscribe hub of `src/events/event_bus.py`.
 *
 * A handler is a value standing for a Python callable: `id` is its identity (what `in` and
 * `list.remove` compare), `name` its `__name__`, `isAsync` whether it is a coroutine function.
 * What a handler does with an event is an oracle `Behaviour`: `None` when it returns normally,
 * `Some(msg)` when it raises an exception whose `str()` is `msg`. Handlers do not act on the bus.
 */
module Events {
  import opened Wrappers
  import opened Seqs
  import opened Values

  datatype EventType =
    | UserTextInput | UserVoiceInput
    | LlmRequest | LlmResponse | LlmError
    | MemoryStore | MemoryRetrieve
    | PersonaChange | PersonaLoaded
    | TextOutput | VoiceOutput | EmotionOutput
    | SystemError | SystemReady | SystemShutdown

  /** The enum's string value. */
  function TypeValue(t: EventType): string {
    match t
    case UserTextInput => "user_text_input"
    case UserVoiceInput => "user_voice_input"
    case LlmRequest => "llm_request"
    case LlmResponse => "llm_response"
    case LlmError => "llm_error"
    case MemoryStore => "memory_store"
    case MemoryRetrieve => "memory_retrieve"
    case PersonaChange => "persona_change"
    case PersonaLoaded => "persona_loaded"
    case TextOutput => "text_output"
    case VoiceOutput => "voice_output"
    case EmotionOutput => "emotion_output"
    case SystemError => "system_error"
    case SystemReady => "system_ready"
    case SystemShutdown => "system_shutdown"
  }

  /** An event; its creation time is not modelled. */
  datatype Event = Event(kind: EventType, data: map<string, Value>, source: Option<string>)

  datatype Handler = Handler(id: nat, name: string, isAsync: bool)

  type Behaviour = (Handler, Event) -> Option<string>

  /** One call of a handler with an event. */
  datatype Invocation = Invocation(handler: Handler, event: Event)

  /** What one publication does: the handler calls in order and the events recorded in order. */
  datatype Trace = Trace(calls: seq<Invocation>, published: seq<Event>)

  function Then(a: Trace, b: Trace): (t: Trace)
    ensures |t.calls| == |a.calls| + |b.calls| && |t.published| == |a.published| + |b.published|
  {
    Trace(a.calls + b.calls, a.published + b.published)
  }

  /** `subscribers.get(kind, [])`. */
  function HandlersFor(subscribers: map<EventType, seq<Handler>>, kind: EventType): (hs: seq<Handler>)
    ensures kind in subscribers ==> hs == subscribers[kind]
    ensures kind !in subscribers ==> hs == []
  {
    if kind in subscribers then subscribers[kind] else []
  }

  /** The event reporting that handler `h` raised `msg` while handling `e`. */
  function ErrorEvent(e: Event, h: Handler, msg: string): (err: Event)
    ensures err.kind == SystemError && err.source == Some("event_bus")
    ensures err.data.Keys == {"error", "original_event", "handler"}
    ensures err.data["error"] == Str(msg) && err.data["original_event"] == Str(TypeValue(e.kind))
    ensures err.data["handler"] == Str(h.name)
  {
    Event(SystemError, map["error" := Str(msg), "original_event" := Str(TypeValue(e.kind)), "handler" := Str(h.name)],
          Some("event_bus"))
  }

  /** Every handler of `hs` called once with `e`, in order. */
  function Invocations(hs: seq<Handler>, e: Event): (calls: seq<Invocation>)
    ensures |calls| == |hs|
    ensures forall i :: 0 <= i < |hs| ==> calls[i] == Invocation(hs[i], e)
  {
    if hs == [] then [] else Invocations(hs[..|hs| - 1], e) + [Invocation(hs[|hs| - 1], e)]
  }

  /** An error event published in turn: recorded, then handed to every `SYSTEM_ERROR` handler. */
  function ErrorTrace(subscribers: map<EventType, seq<Handler>>, err: Event): Trace {
    Trace(Invocations(HandlersFor(subscribers, SystemError), err), [err])
  }

  /**
   * Handing `e` to one handler `h`: the call, then, when `h` raises while `e` is not itself a
   * `SYSTEM_ERROR` event, the publication of the error event before the next handler runs.
   */
  function Step(subscribers: map<EventType, seq<Handler>>, behave: Behaviour, e: Event, h: Handler): (t: Trace)
    ensures |t.calls| >= 1 && t.calls[0] == Invocation(h, e)
    ensures |t.published| == (if behave(h, e).Some? && e.kind != SystemError then 1 else 0)
    ensures forall i :: 0 <= i < |t.published| ==> t.published[i] == ErrorEvent(e, h, behave(h, e).value)
  {
    var call := Trace([Invocation(h, e)], []);
    if behave(h, e).Some? && e.kind != SystemError
    then Then(call, ErrorTrace(subscribers, ErrorEvent(e, h, behave(h, e).value)))
    else call
  }

  /** The dispatch loop of `publish` over the handlers `hs` of `e`, in order. */
  function Deliver(subscribers: map<EventType, seq<Handler>>, behave: Behaviour, e: Event, hs: seq<Handler>): (t: Trace)
    ensures |hs| <= |t.calls|
    ensures |t.published| <= |hs|
    ensures forall i :: 0 <= i < |t.published| ==> t.published[i].kind == SystemError
  {
    if hs == [] then Trace([], [])
    else Then(Deliver(subscribers, behave, e, hs[..|hs| - 1]), Step(subscribers, behave, e, hs[|hs| - 1]))
  }

  /** One more turn of the dispatch loop. */
  lemma DeliverPrefix(subscribers: map<EventType, seq<Handler>>, behave: Behaviour, e: Event, hs: seq<Handler>, i: nat)
    requires i < |hs|
    ensures Deliver(subscribers, behave, e, hs[..i + 1])
            == Then(Deliver(subscribers, behave, e, hs[..i]), Step(subscribers, behave, e, hs[i]))
  {
    assert hs[..i + 1][..i] == hs[..i];
  }

  /** One more turn of the dispatch loop, as the loop of `publish` accumulates it. */
  lemma DeliverStep(subscribers: map<EventType, seq<Handler>>, behave: Behaviour, e: Event, hs: seq<Handler>, i: nat)
    requires i < |hs|
    ensures Deliver(subscribers, behave, e, hs[..i + 1]).calls
            == Deliver(subscribers, behave, e, hs[..i]).calls + Step(subscribers, behave, e, hs[i]).calls
    ensures [e] + Deliver(subscribers, behave, e, hs[..i + 1]).published
            == ([e] + Deliver(subscribers, behave, e, hs[..i]).published) + Step(subscribers, behave, e, hs[i]).published
  {
    DeliverPrefix(subscribers, behave, e, hs, i);
    var d := Deliver(subscribers, behave, e, hs[..i]).published;
    var st := Step(subscribers, behave, e, hs[i]).published;
    assert [e] + (d + st) == ([e] + d) + st;
  }

  /** One `publish` of `e`: the event is recorded first, then dispatched. */
  function PublishTrace(subscribers: map<EventType, seq<Handler>>, behave: Behaviour, e: Event): (t: Trace)
    ensures 1 <= |t.published| <= 1 + |HandlersFor(subscribers, e.kind)|
    ensures t.published[0] == e
    ensures forall i :: 1 <= i < |t.published| ==> t.published[i].kind == SystemError
  {
    Then(Trace([], [e]), Deliver(subscribers, behave, e, HandlersFor(subscribers, e.kind)))
  }

  /**
   * The cycle-breaker: a `SYSTEM_ERROR` event is recorded and handed to its handlers, and a
   * handler that raises on it produces no further event.
   */
  lemma {:induction false} DeliverSystemError(subscribers: map<EventType, seq<Handler>>, behave: Behaviour, e: Event, hs: seq<Handler>)
    requires e.kind == SystemError
    ensures Deliver(subscribers, behave, e, hs) == Trace(Invocations(hs, e), [])
  {
    if hs != [] {
      var init := hs[..|hs| - 1];
      DeliverSystemError(subscribers, behave, e, init);
    }
  }

  lemma ErrorEventsDoNotCascade(subscribers: map<EventType, seq<Handler>>, behave: Behaviour, err: Event)
    requires err.kind == SystemError
    ensures PublishTrace(subscribers, behave, err) == ErrorTrace(subscribers, err)
  {
    DeliverSystemError(subscribers, behave, err, HandlersFor(subscribers, err.kind));
  }

  /** The calls in `calls` that hand over `e` itself. */
  function CallsOf(calls: seq<Invocation>, e: Event): (r: seq<Invocation>)
    ensures |r| <= |calls|
    ensures forall i :: 0 <= i < |r| ==> r[i].event == e
  {
    if calls == [] then []
    else if calls[|calls| - 1].event == e then CallsOf(calls[..|calls| - 1], e) + [calls[|calls| - 1]]
    else CallsOf(calls[..|calls| - 1], e)
  }

  lemma {:induction false} CallsOfAppend(a: seq<Invocation>, b: seq<Invocation>, e: Event)
    ensures CallsOf(a + b, e) == CallsOf(a, e) + CallsOf(b, e)
    decreases |b|
  {
    if b == [] {
      assert a + b == a;
    } else {
      var b' := b[..|b| - 1];
      assert (a + b)[..|a + b| - 1] == a + b';
      CallsOfAppend(a, b', e);
    }
  }

  lemma CallsOfNone(calls: seq<Invocation>, e: Event)
    requires forall i :: 0 <= i < |calls| ==> calls[i].event != e
    ensures CallsOf(calls, e) == []
  {
  }

  /**
   * Every handler subscribed to the event's kind is called with it exactly once, in
   * subscription order; a handler that raises does not keep later handlers from running.
   */
  lemma {:induction false} DeliverCallsInOrder(subscribers: map<EventType, seq<Handler>>, behave: Behaviour, e: Event, hs: seq<Handler>)
    ensures CallsOf(Deliver(subscribers, behave, e, hs).calls, e) == Invocations(hs, e)
  {
    if hs != [] {
      var init, h := hs[..|hs| - 1], hs[|hs| - 1];
      DeliverCallsInOrder(subscribers, behave, e, init);
      StepCalls(subscribers, behave, e, h);
      CallsOfAppend(Deliver(subscribers, behave, e, init).calls, Step(subscribers, behave, e, h).calls, e);
    }
  }

  /** One step hands `e` to its handler once; the nested calls hand over the error event. */
  lemma StepCalls(subscribers: map<EventType, seq<Handler>>, behave: Behaviour, e: Event, h: Handler)
    ensures CallsOf(Step(subscribers, behave, e, h).calls, e) == [Invocation(h, e)]
  {
    var call := [Invocation(h, e)];
    assert call[..0] == [];
    if behave(h, e).Some? && e.kind != SystemError {
      var extra := ErrorTrace(subscribers, ErrorEvent(e, h, behave(h, e).value)).calls;
      CallsOfAppend(call, extra, e);
      CallsOfNone(extra, e);
    }
  }

  /** Recording the event first adds no call and puts the event ahead of the ones dispatch publishes. */
  lemma PublishTraceCalls(subscribers: map<EventType, seq<Handler>>, behave: Behaviour, e: Event)
    ensures PublishTrace(subscribers, behave, e).calls == Deliver(subscribers, behave, e, HandlersFor(subscribers, e.kind)).calls
    ensures PublishTrace(subscribers, behave, e).published == [e] + Deliver(subscribers, behave, e, HandlersFor(subscribers, e.kind)).published
  {
    var d := Deliver(subscribers, behave, e, HandlersFor(subscribers, e.kind));
    assert [] + d.calls == d.calls;
  }

  lemma PublishCallsInOrder(subscribers: map<EventType, seq<Handler>>, behave: Behaviour, e: Event)
    ensures CallsOf(PublishTrace(subscribers, behave, e).calls, e) == Invocations(HandlersFor(subscribers, e.kind), e)
  {
    DeliverCallsInOrder(subscribers, behave, e, HandlersFor(subscribers, e.kind));
    PublishTraceCalls(subscribers, behave, e);
  }

  /** The error events raised while handing `e` to the handlers `hs`, in order. */
  function ErrorEvents(behave: Behaviour, e: Event, hs: seq<Handler>): (errs: seq<Event>)
    ensures |errs| <= |hs|
    ensures forall i :: 0 <= i < |errs| ==> errs[i].kind == SystemError
  {
    if hs == [] then []
    else
      var h := hs[|hs| - 1];
      match behave(h, e)
      case Some(msg) => ErrorEvents(behave, e, hs[..|hs| - 1]) + [ErrorEvent(e, h, msg)]
      case None => ErrorEvents(behave, e, hs[..|hs| - 1])
  }

  lemma {:induction false} DeliverPublished(subscribers: map<EventType, seq<Handler>>, behave: Behaviour, e: Event, hs: seq<Handler>)
    requires e.kind != SystemError
    ensures Deliver(subscribers, behave, e, hs).published == ErrorEvents(behave, e, hs)
  {
    if hs != [] {
      var init, h := hs[..|hs| - 1], hs[|hs| - 1];
      DeliverPublished(subscribers, behave, e, init);
      var st := Step(subscribers, behave, e, h);
      assert Deliver(subscribers, behave, e, hs).published == Deliver(subscribers, behave, e, init).published + st.published;
      assert st.published == if behave(h, e).Some? then [ErrorEvent(e, h, behave(h, e).value)] else [];
    }
  }

  /**
   * A publication records the event, then one `SYSTEM_ERROR` event per handler that raised,
   * in handler order; nothing more when the event is itself a `SYSTEM_ERROR` event.
   */
  lemma PublishedEvents(subscribers: map<EventType, seq<Handler>>, behave: Behaviour, e: Event)
    ensures e.kind != SystemError ==>
              PublishTrace(subscribers, behave, e).published == [e] + ErrorEvents(behave, e, HandlersFor(subscribers, e.kind))
    ensures e.kind == SystemError ==> PublishTrace(subscribers, behave, e).published == [e]
  {
    if e.kind != SystemError {
      DeliverPublished(subscribers, behave, e, HandlersFor(subscribers, e.kind));
    } else {
      DeliverSystemError(subscribers, behave, e, HandlersFor(subscribers, e.kind));
    }
  }

  /** The number of events the history can hold: `max_history`, or none at all when it is not positive. */
  function Cap(maxHistory: int): nat {
    if maxHistory > 0 then maxHistory else 0
  }

  /** Recording one event: append, then drop the oldest when over the limit. */
  function Record(history: seq<Event>, e: Event, maxHistory: int): (h: seq<Event>)
    ensures |history| <= Cap(maxHistory) ==> |h| <= Cap(maxHistory)
  {
    var appended := history + [e];
    if |appended| > maxHistory then appended[1..] else appended
  }

  /** Recording several events, in order. */
  function RecordAll(history: seq<Event>, es: seq<Event>, maxHistory: int): (h: seq<Event>)
    ensures |history| <= Cap(maxHistory) ==> |h| <= Cap(maxHistory)
  {
    if es == [] then history
    else Record(RecordAll(history, es[..|es| - 1], maxHistory), es[|es| - 1], maxHistory)
  }

  lemma {:induction false} RecordAllAppend(history: seq<Event>, a: seq<Event>, b: seq<Event>, maxHistory: int)
    ensures RecordAll(history, a + b, maxHistory) == RecordAll(RecordAll(history, a, maxHistory), b, maxHistory)
    decreases |b|
  {
    if b == [] {
      assert a + b == a;
    } else {
      assert (a + b)[..|a + b| - 1] == a + b[..|b| - 1];
      RecordAllAppend(history, a, b[..|b| - 1], maxHistory);
    }
  }

  /** Recording into the last `max_history` events of `s` gives the last `max_history` events of `s + [e]`. */
  lemma RecordKeepsLast(s: seq<Event>, e: Event, maxHistory: int)
    requires maxHistory >= 1
    ensures Record(TailSlice(s, maxHistory), e, maxHistory) == TailSlice(s + [e], maxHistory)
  {
    TailSliceSnoc(s, e, maxHistory);
  }

  /** With a positive limit, the history is the last `max_history` events ever recorded, oldest first. */
  lemma {:induction false} RecordAllKeepsLast(history: seq<Event>, es: seq<Event>, maxHistory: int)
    requires maxHistory >= 1 && |history| <= maxHistory
    ensures RecordAll(history, es, maxHistory) == TailSlice(history + es, maxHistory)
  {
    if es != [] {
      var init := es[..|es| - 1];
      RecordAllKeepsLast(history, init, maxHistory);
      RecordKeepsLast(history + init, es[|es| - 1], maxHistory);
      assert history + es == (history + init) + [es[|es| - 1]];
    }
  }

  /** Only events of `kind` (all of them when no kind is given). */
  function OfKind(history: seq<Event>, kind: Option<EventType>): (r: seq<Event>)
    ensures |r| <= |history|
    ensures kind.Some? ==> forall i :: 0 <= i < |r| ==> r[i].kind == kind.value && r[i] in history
    ensures kind.Some? ==> forall e :: e in history && e.kind == kind.value ==> e in r
    ensures kind.None? ==> r == history
  {
    if kind.None? || history == [] then history
    else if history[|history| - 1].kind == kind.value then OfKind(history[..|history| - 1], kind) + [history[|history| - 1]]
    else OfKind(history[..|history| - 1], kind)
  }

  /** One more recorded event joins the filtered history at its end exactly when it is of the kind: the filter keeps log order. */
  lemma OfKindSnoc(history: seq<Event>, e: Event, kind: EventType)
    ensures OfKind(history + [e], Some(kind)) == OfKind(history, Some(kind)) + (if e.kind == kind then [e] else [])
  {
    assert (history + [e])[..|history|] == history;
  }

  /** The handlers `publish_sync` calls: the ones that are not coroutine functions, in order. */
  function SyncHandlers(hs: seq<Handler>): (r: seq<Handler>)
    ensures |r| <= |hs|
    ensures forall i :: 0 <= i < |r| ==> !r[i].isAsync && r[i] in hs
    ensures forall h :: h in hs && !h.isAsync ==> h in r
  {
    if hs == [] then []
    else if hs[|hs| - 1].isAsync then SyncHandlers(hs[..|hs| - 1])
    else SyncHandlers(hs[..|hs| - 1]) + [hs[|hs| - 1]]
  }

  /** One more turn of the loop of `publish_sync`: an async handler is skipped, any other called. */
  lemma SyncStep(hs: seq<Handler>, i: nat, e: Event)
    requires i < |hs|
    ensures Invocations(SyncHandlers(hs[..i + 1]), e)
            == Invocations(SyncHandlers(hs[..i]), e) + (if hs[i].isAsync then [] else [Invocation(hs[i], e)])
  {
    assert hs[..i + 1][..i] == hs[..i];
    var before := SyncHandlers(hs[..i]);
    if !hs[i].isAsync {
      assert (before + [hs[i]])[..|before|] == before;
    }
  }

  /** Subscribing appends the handler to its kind's list; a second copy is kept as well. */
  function Subscribed(subscribers: map<EventType, seq<Handler>>, kind: EventType, h: Handler): (r: map<EventType, seq<Handler>>)
    ensures r.Keys == subscribers.Keys + {kind}
    ensures r[kind] == HandlersFor(subscribers, kind) + [h]
    ensures forall k :: k != kind ==> HandlersFor(r, k) == HandlersFor(subscribers, k)
  {
    subscribers[kind := HandlersFor(subscribers, kind) + [h]]
  }

  /** Unsubscribing removes the first copy of the handler, if any. */
  function Unsubscribed(subscribers: map<EventType, seq<Handler>>, kind: EventType, h: Handler): (r: map<EventType, seq<Handler>>)
    ensures r.Keys == subscribers.Keys
    ensures multiset(HandlersFor(r, kind)) == multiset(HandlersFor(subscribers, kind)) - multiset{h}
    ensures h !in HandlersFor(subscribers, kind) ==> r == subscribers
    ensures forall k :: k != kind ==> HandlersFor(r, k) == HandlersFor(subscribers, k)
  {
    if kind in subscribers && h in subscribers[kind] then
      RemoveFirstMultiset(subscribers[kind], h);
      subscribers[kind := RemoveFirst(subscribers[kind], h)]
    else
      subscribers
  }

  /** Removing the copy just appended gives the list back when it held no other copy. */
  lemma RemoveAppended(s: seq<Handler>, h: Handler)
    requires h !in s
    ensures RemoveFirst(s + [h], h) == s
  {
    assert (s + [h])[..|s|] == s;
  }

  /**
   * Subscribing and then unsubscribing the same handler leaves its kind with the same
   * handlers, and in the same order when it was not subscribed before.
   */
  lemma SubscribeUnsubscribe(s: seq<Handler>, h: Handler)
    ensures multiset(RemoveFirst(s + [h], h)) == multiset(s)
    ensures h !in s ==> RemoveFirst(s + [h], h) == s
  {
    RemoveFirstMultiset(s + [h], h);
    assert multiset(s + [h]) == multiset(s) + multiset{h};
    if h !in s {
      RemoveAppended(s, h);
    }
  }

  class EventBus {
    var subscribers: map<EventType, seq<Handler>>
    var history: seq<Event>
    const maxHistory: int

    /** The history never holds more than `max_history` events. */
    ghost predicate Valid()
      reads this
    {
      |history| <= Cap(maxHistory)
    }

    constructor (maxHistory: Option<int>)
      ensures this.maxHistory == maxHistory.GetOr(100)
      ensures subscribers == map[] && history == []
      ensures Valid()
    {
      this.maxHistory := maxHistory.GetOr(100);
      subscribers := map[];
      history := [];
    }

    /** `subscribe`: the handler goes to the end of its kind's list; other kinds are untouched. */
    method Subscribe(kind: EventType, h: Handler)
      modifies this
      ensures subscribers == Subscribed(old(subscribers), kind, h)
      ensures subscribers[kind] == HandlersFor(old(subscribers), kind) + [h]
      ensures forall k :: k != kind ==> HandlersFor(subscribers, k) == HandlersFor(old(subscribers), k)
      ensures history == old(history)
    {
      if kind !in subscribers {
        subscribers := subscribers[kind := []];
      }
      subscribers := subscribers[kind := subscribers[kind] + [h]];
    }

    /** `unsubscribe`: the first copy of the handler leaves its kind's list; absent, nothing changes. */
    method Unsubscribe(kind: EventType, h: Handler)
      modifies this
      ensures subscribers == Unsubscribed(old(subscribers), kind, h)
      ensures history == old(history)
    {
      if kind in subscribers {
        if h in subscribers[kind] {
          subscribers := subscribers[kind := RemoveFirst(subscribers[kind], h)];
        }
      }
    }

    /** Append `e` to the history and drop the oldest event when over the limit. */
    method AddToHistory(e: Event)
      requires Valid()
      modifies this
      ensures Valid()
      ensures history == Record(old(history), e, maxHistory)
      ensures subscribers == old(subscribers)
    {
      history := history + [e];
      if |history| > maxHistory {
        history := history[1..];
      }
    }

    /**
     * `publish`: record the event, then call each of its kind's handlers in order. A handler
     * that raises has a `SYSTEM_ERROR` event published in turn, unless `e` is one already.
     * `calls` is every handler call made, nested publications included.
     */
    method Publish(e: Event, behave: Behaviour) returns (calls: seq<Invocation>)
      requires Valid()
      modifies this
      ensures Valid()
      ensures subscribers == old(subscribers)
      ensures calls == PublishTrace(old(subscribers), behave, e).calls
      ensures history == RecordAll(old(history), PublishTrace(old(subscribers), behave, e).published, maxHistory)
      decreases if e.kind == SystemError then 0 else 1, 1
    {
      ghost var before := history;
      AddToHistory(e);
      assert history == RecordAll(before, [e], maxHistory);
      var handlers := HandlersFor(subscribers, e.kind);
      calls := [];
      ghost var published := [e];
      var i := 0;
      while i < |handlers|
        invariant 0 <= i <= |handlers|
        invariant Valid() && subscribers == old(subscribers)
        invariant calls == Deliver(subscribers, behave, e, handlers[..i]).calls
        invariant published == [e] + Deliver(subscribers, behave, e, handlers[..i]).published
        invariant history == RecordAll(before, published, maxHistory)
      {
        DeliverStep(subscribers, behave, e, handlers, i);
        var stepCalls := HandleOne(e, handlers[i], behave);
        RecordAllAppend(before, published, Step(subscribers, behave, e, handlers[i]).published, maxHistory);
        calls := calls + stepCalls;
        published := published + Step(subscribers, behave, e, handlers[i]).published;
        i := i + 1;
      }
      assert handlers[..i] == handlers;
      PublishTraceCalls(subscribers, behave, e);
    }

    /** One turn of the dispatch loop of `publish`: call `h`, and report its failure if it raises. */
    method HandleOne(e: Event, h: Handler, behave: Behaviour) returns (calls: seq<Invocation>)
      requires Valid()
      modifies this
      ensures Valid()
      ensures subscribers == old(subscribers)
      ensures calls == Step(subscribers, behave, e, h).calls
      ensures history == RecordAll(old(history), Step(subscribers, behave, e, h).published, maxHistory)
      decreases if e.kind == SystemError then 0 else 1, 0
    {
      calls := [Invocation(h, e)];
      match behave(h, e) {
        case None =>
        case Some(msg) =>
          if e.kind != SystemError {
            var err := ErrorEvent(e, h, msg);
            var nested := Publish(err, behave);
            ErrorEventsDoNotCascade(subscribers, behave, err);
            calls := calls + nested;
          }
      }
    }

    /**
     * `publish_sync`: record the event, then call only the handlers that are not coroutine
     * functions, in order; a handler that raises is logged and nothing is published.
     */
    method PublishSync(e: Event, behave: Behaviour) returns (calls: seq<Invocation>)
      requires Valid()
      modifies this
      ensures Valid()
      ensures subscribers == old(subscribers)
      ensures history == Record(old(history), e, maxHistory)
      ensures calls == Invocations(SyncHandlers(HandlersFor(subscribers, e.kind)), e)
    {
      AddToHistory(e);
      var handlers := HandlersFor(subscribers, e.kind);
      calls := [];
      var i := 0;
      ghost var recorded := history;
      while i < |handlers|
        invariant 0 <= i <= |handlers|
        invariant calls == Invocations(SyncHandlers(handlers[..i]), e)
        invariant history == recorded && subscribers == old(subscribers)
      {
        SyncStep(handlers, i, e);
        if !handlers[i].isAsync {
          calls := calls + [Invocation(handlers[i], e)];
        }
        i := i + 1;
      }
      assert handlers[..i] == handlers;
    }

    /** `get_history`: the last `limit` events (of `kind`, when given), oldest first. */
    function GetHistory(kind: Option<EventType>, limit: int): (r: seq<Event>)
      reads this
      ensures limit > 0 ==> |r| == Min(limit, |OfKind(history, kind)|)
      ensures limit > 0 ==> r == OfKind(history, kind)[|OfKind(history, kind)| - |r|..]
      ensures limit == 0 ==> r == OfKind(history, kind)
      ensures limit < 0 ==> r == OfKind(history, kind)[Min(-limit, |OfKind(history, kind)|)..]
      ensures kind.Some? ==> forall i :: 0 <= i < |r| ==> r[i].kind == kind.value
    {
      TailSlice(OfKind(history, kind), limit)
    }

    /** `clear_history`: the history is emptied and the subscriptions are kept. */
    method ClearHistory()
      modifies this
      ensures history == [] && subscribers == old(subscribers)
      ensures Valid()
    {
      history := [];
    }
  }
}
