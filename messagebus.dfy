/** The message bus of api/service_layer/messagebus.py. `handle` runs one command through the
    handler `COMMAND_HANDLERS` names for its class, then drains the event queue first in, first
    out, running every handler `EVENT_HANDLERS` lists for each event's class. A failing event
    handler is logged and skipped; after every handler call that returns, the events
    `collect_new_events` yields join the end of the queue.

    The handlers themselves are parameters: `reply` says what the command handler does and
    `replies(k)` what the k-th event-handler call of this `handle` does. Nothing in the source
    bounds how many events handlers may keep producing, so the event loop takes a `fuel`
    bound on the number of events it processes. */
module Bus {
  import opened Messages
  import opened Registry

  /** What one handler call does, as far as the bus sees it: it raises `failure`, or it returns
      `value` and the `collect_new_events` that follows yields `collected`. */
  datatype Reply<V> = Returned(value: V, collected: seq<Event>) | Raised(failure: Failure)

  /** An event-handler call: which handler ran on which event. */
  datatype Call = Call(handler: EventHandlerName, event: Event)

  /** The event loop between two handler calls: the event queue, the number of event-handler
      calls made so far, and those calls in order. */
  datatype Progress = Progress(queue: seq<Event>, calls: nat, trace: seq<Call>)

  /** How the event loop ends: with an empty queue, on an event with no registered handler list,
      or with its fuel used up. */
  datatype Stop = Drained | Aborted(failure: Failure) | Exhausted

  /** How `handle` ends: it returns the command handler's result, it raises, or the fuel bound
      is hit. */
  datatype Outcome<V> = Completed(result: V) | Failed(failure: Failure) | OutOfFuel

  /** The handlers registered for `e`, none when its class has no entry. */
  function HandlersOf(e: Event): seq<EventHandlerName> {
    match EventHandlers(e)
    case None => []
    case Some(hs) => hs
  }

  /** One call of `h` on `e`, answered by `replies(s.calls)`. */
  function Call1(s: Progress, e: Event, h: EventHandlerName, replies: nat -> Reply<()>): Progress {
    var r := replies(s.calls);
    Progress(if r.Returned? then s.queue + r.collected else s.queue, s.calls + 1, s.trace + [Call(h, e)])
  }

  /** `handle_event(e)` over the handler list `hs`, from `s`. */
  function Dispatch(s: Progress, e: Event, hs: seq<EventHandlerName>, replies: nat -> Reply<()>): Progress
    decreases |hs|
  {
    if hs == [] then s else Call1(Dispatch(s, e, hs[..|hs| - 1], replies), e, hs[|hs| - 1], replies)
  }

  /** The event loop of `handle` from `s`, processing at most `fuel` events. */
  function Process(s: Progress, fuel: nat, replies: nat -> Reply<()>): (Stop, Progress)
    decreases fuel
  {
    if s.queue == [] then (Drained, s)
    else if fuel == 0 then (Exhausted, s)
    else
      var e := s.queue[0];
      var rest := s.(queue := s.queue[1..]);
      match EventHandlers(e)
      case None => (Aborted(KeyError(EventClass(e))), rest)
      case Some(hs) => Process(Dispatch(rest, e, hs, replies), fuel - 1, replies)
  }

  /** What `handle(message)` returns or raises, and where its event loop stops. */
  function Handled<V>(message: Message, reply: Reply<V>, replies: nat -> Reply<()>, fuel: nat): (Outcome<V>, Progress) {
    match message
    case Evt(_) => (Failed(NotACommand), Progress([], 0, []))
    case Cmd(c) =>
      if CommandHandler(c).None? then (Failed(KeyError(CommandClass(c))), Progress([], 0, []))
      else match reply
        case Raised(f) => (Failed(f), Progress([], 0, []))
        case Returned(v, collected) =>
          var run := Process(Progress(collected, 0, []), fuel, replies);
          var out := match run.0
            case Drained => Completed(v)
            case Aborted(f) => Failed(f)
            case Exhausted => OutOfFuel;
          (out, run.1)
  }

  class MessageBus {
    var commandQueue: seq<Message>
    var eventQueue: seq<Event>
    /** The number of event-handler calls this `handle` has made. */
    var calls: nat
    /** The calls in order, as the `Handling event ... with handler ...` debug lines log them. */
    var trace: seq<Call>

    constructor ()
      ensures commandQueue == [] && eventQueue == [] && calls == 0 && trace == []
    {
      commandQueue, eventQueue, calls, trace := [], [], 0, [];
    }

    function Progressed(): Progress
      reads this
    {
      Progress(eventQueue, calls, trace)
    }

    /** `handle_command`: the registry lookup and the handler call both sit inside the `try`, so
        a missing key and the handler's exception both propagate; only a returning handler is
        followed by a collection. */
    method HandleCommand<V>(c: Command, reply: Reply<V>) returns (r: Result<V>)
      modifies this`eventQueue
      ensures CommandHandler(c).None? ==> r == Err(KeyError(CommandClass(c))) && eventQueue == old(eventQueue)
      ensures CommandHandler(c).Some? && reply.Raised? ==> r == Err(reply.failure) && eventQueue == old(eventQueue)
      ensures CommandHandler(c).Some? && reply.Returned? ==>
                r == Ok(reply.value) && eventQueue == old(eventQueue) + reply.collected
    {
      var handler := CommandHandler(c);
      if handler.None? {
        return Err(KeyError(CommandClass(c)));
      }
      if reply.Raised? {
        return Err(reply.failure);
      }
      eventQueue := eventQueue + reply.collected;
      return Ok(reply.value);
    }

    /** `handle_event`: the registry lookup sits outside the `try` and raises for a class with
        no entry; each listed handler runs, in list order, whatever the others did. */
    method HandleEvent(e: Event, replies: nat -> Reply<()>) returns (err: Option<Failure>)
      modifies this`eventQueue, this`calls, this`trace
      ensures EventHandlers(e).None? ==> err == Some(KeyError(EventClass(e))) && Progressed() == old(Progressed())
      ensures EventHandlers(e).Some? ==>
                err.None? && Progressed() == Dispatch(old(Progressed()), e, EventHandlers(e).value, replies)
    {
      var handlers := EventHandlers(e);
      if handlers.None? {
        return Some(KeyError(EventClass(e)));
      }
      var hs := handlers.value;
      for i := 0 to |hs|
        invariant Progressed() == Dispatch(old(Progressed()), e, hs[..i], replies)
      {
        assert hs[..i + 1][..i] == hs[..i];
        var reply := replies(calls);
        calls := calls + 1;
        trace := trace + [Call(hs[i], e)];
        if reply.Returned? {
          eventQueue := eventQueue + reply.collected;
        }
      }
      assert hs[..|hs|] == hs;
      return None;
    }

    /** `handle(message)`: the command queue starts as `[message]` and the event queue empty. */
    method Handle<V>(message: Message, reply: Reply<V>, replies: nat -> Reply<()>, fuel: nat)
      returns (out: Outcome<V>)
      modifies this
      ensures (out, Progressed()) == Handled(message, reply, replies, fuel)
    {
      commandQueue := [message];
      eventQueue := [];
      calls, trace := 0, [];
      var result: Option<V> := None;
      while commandQueue != []
        invariant commandQueue == [] || commandQueue == [message]
        invariant calls == 0 && trace == []
        invariant commandQueue == [message] ==> eventQueue == []
        invariant commandQueue == [] ==>
                    message.Cmd? && CommandHandler(message.command).Some? && reply.Returned? &&
                    result == Some(reply.value) && eventQueue == reply.collected
        decreases |commandQueue|
      {
        var m := commandQueue[0];
        commandQueue := commandQueue[1..];
        if m.Cmd? {
          var r := HandleCommand(m.command, reply);
          if r.Err? {
            return Failed(r.error);
          }
          result := Some(r.value);
        } else {
          return Failed(NotACommand);
        }
      }
      var budget := fuel;
      while eventQueue != []
        invariant Process(Progressed(), budget, replies) == Process(Progress(reply.collected, 0, []), fuel, replies)
        decreases budget
      {
        if budget == 0 {
          return OutOfFuel;
        }
        var e := eventQueue[0];
        eventQueue := eventQueue[1..];
        var err := HandleEvent(e, replies);
        if err.Some? {
          return Failed(err.value);
        }
        budget := budget - 1;
      }
      return Completed(result.value);
    }
  }

  // ---------------------------------------------------------------- properties

  /** The calls `handle_event(e)` makes with the handler list `hs`. */
  function CallsOf(e: Event, hs: seq<EventHandlerName>): seq<Call>
    decreases |hs|
  {
    if hs == [] then [] else CallsOf(e, hs[..|hs| - 1]) + [Call(hs[|hs| - 1], e)]
  }

  /** What the collections after the calls `k` to `k + n - 1` yield: only a call that returns is
      followed by a collection. */
  function Collected(replies: nat -> Reply<()>, k: nat, n: nat): seq<Event> {
    if n == 0 then []
    else Collected(replies, k, n - 1) + (var r := replies(k + n - 1); if r.Returned? then r.collected else [])
  }

  /** Every handler of the list runs once, in list order, whatever the earlier ones did: a
      handler that raises does not stop the next. The queue only grows at its end, by exactly
      what the collections after returning handlers yield. */
  lemma {:induction false} DispatchRunsAll(s: Progress, e: Event, hs: seq<EventHandlerName>, replies: nat -> Reply<()>)
    ensures Dispatch(s, e, hs, replies).trace == s.trace + CallsOf(e, hs)
    ensures Dispatch(s, e, hs, replies).calls == s.calls + |hs|
    ensures Dispatch(s, e, hs, replies).queue == s.queue + Collected(replies, s.calls, |hs|)
    decreases |hs|
  {
    if hs != [] {
      DispatchRunsAll(s, e, hs[..|hs| - 1], replies);
    }
  }

  /** Handlers that all raise leave the queue as it was. */
  lemma {:induction false} RaisedCollectsNothing(replies: nat -> Reply<()>, k: nat, n: nat)
    requires forall i :: k <= i < k + n ==> replies(i).Raised?
    ensures Collected(replies, k, n) == []
  {
    if n > 0 {
      RaisedCollectsNothing(replies, k, n - 1);
    }
  }

  /** `CallsOf` on the events of `q` one after the other. */
  function CallsFor(q: seq<Event>): seq<Call> {
    if q == [] then [] else CallsOf(q[0], HandlersOf(q[0])) + CallsFor(q[1..])
  }

  /** The event loop only ever adds calls to the trace. */
  lemma {:induction false} ProcessExtends(s: Progress, fuel: nat, replies: nat -> Reply<()>)
    ensures s.trace <= Process(s, fuel, replies).1.trace
    decreases fuel
  {
    if s.queue != [] && fuel > 0 {
      var e := s.queue[0];
      var rest := s.(queue := s.queue[1..]);
      if EventHandlers(e).Some? {
        DispatchRunsAll(rest, e, EventHandlers(e).value, replies);
        ProcessExtends(Dispatch(rest, e, EventHandlers(e).value, replies), fuel - 1, replies);
      }
    }
  }

  /** Processing the first event of `q + later`: its handlers run, and the queue becomes the
      rest of `q`, then `later`, then what the collections after those handlers yield. */
  lemma ProcessHead(q: seq<Event>, later: seq<Event>, calls: nat, trace: seq<Call>, fuel: nat,
                    replies: nat -> Reply<()>)
    requires q != [] && fuel > 0 && EventHandlers(q[0]).Some?
    ensures var hs := HandlersOf(q[0]);
            Process(Progress(q + later, calls, trace), fuel, replies) ==
            Process(Progress(q[1..] + (later + Collected(replies, calls, |hs|)), calls + |hs|,
                             trace + CallsOf(q[0], hs)), fuel - 1, replies)
  {
    var hs := HandlersOf(q[0]);
    assert EventHandlers(q[0]) == Some(hs);
    var s := Progress(q + later, calls, trace);
    assert s.queue[0] == q[0];
    assert s.(queue := s.queue[1..]) == Progress(q[1..] + later, calls, trace);
    var next := Dispatch(Progress(q[1..] + later, calls, trace), q[0], hs, replies);
    assert Process(s, fuel, replies) == Process(next, fuel - 1, replies);
    DispatchRunsAll(Progress(q[1..] + later, calls, trace), q[0], hs, replies);
    assert next == Progress(q[1..] + (later + Collected(replies, calls, |hs|)), calls + |hs|,
                            trace + CallsOf(q[0], hs));
  }

  lemma PrefixChain<T>(a: seq<T>, b: seq<T>, c: seq<T>, d: seq<T>)
    requires a == b && b <= c && c == d
    ensures a <= d
  {
  }

  lemma PrefixAssoc<T>(a: seq<T>, b: seq<T>, c: seq<T>)
    ensures a + (b + c) == a + b + c
  {
  }

  /** First in, first out: when every event of `q` has a registered handler list and the fuel
      covers them, the handlers of `q`'s events run before any event that joins the queue behind
      them, event after event and each event's handlers in list order. */
  lemma {:induction false} ProcessFifo(q: seq<Event>, later: seq<Event>, calls: nat, trace: seq<Call>,
                                       fuel: nat, replies: nat -> Reply<()>)
    requires forall i :: 0 <= i < |q| ==> EventHandlers(q[i]).Some?
    requires |q| <= fuel
    ensures trace + CallsFor(q) <= Process(Progress(q + later, calls, trace), fuel, replies).1.trace
    decreases |q|
  {
    if q == [] {
      assert q + later == later;
      assert trace + CallsFor(q) == trace;
      ProcessExtends(Progress(later, calls, trace), fuel, replies);
    } else {
      var hs := HandlersOf(q[0]);
      var later' := later + Collected(replies, calls, |hs|);
      var trace' := trace + CallsOf(q[0], hs);
      ProcessHead(q, later, calls, trace, fuel, replies);
      assert forall i :: 0 <= i < |q[1..]| ==> q[1..][i] == q[i + 1];
      ProcessFifo(q[1..], later', calls + |hs|, trace', fuel - 1, replies);
      var after := Process(Progress(q[1..] + later', calls + |hs|, trace'), fuel - 1, replies).1.trace;
      assert CallsFor(q) == CallsOf(q[0], hs) + CallsFor(q[1..]);
      PrefixAssoc(trace, CallsOf(q[0], hs), CallsFor(q[1..]));
      PrefixChain(trace + CallsFor(q), trace' + CallsFor(q[1..]), after,
                  Process(Progress(q + later, calls, trace), fuel, replies).1.trace);
    }
  }

  /** `handle` returns exactly what the command handler returned: the event loop never changes
      the result, and the result exists only for a registered command whose handler returned. */
  lemma HandleKeepsResult<V>(message: Message, reply: Reply<V>, replies: nat -> Reply<()>, fuel: nat)
    ensures Handled(message, reply, replies, fuel).0.Completed? ==>
              message.Cmd? && CommandHandler(message.command).Some? && reply.Returned? &&
              Handled(message, reply, replies, fuel).0.result == reply.value
  {
  }

  /** A failing command — an unregistered class or a handler that raises — and a message that is
      not a command make `handle` raise before any event handler runs. */
  lemma CommandFailureStops<V>(message: Message, reply: Reply<V>, replies: nat -> Reply<()>, fuel: nat)
    requires message.Evt? || CommandHandler(message.command).None? || reply.Raised?
    ensures Handled(message, reply, replies, fuel).0.Failed?
    ensures Handled(message, reply, replies, fuel).1.trace == []
    ensures message.Evt? ==> Handled(message, reply, replies, fuel).0 == Failed(NotACommand)
    ensures message.Cmd? && CommandHandler(message.command).None? ==>
              Handled(message, reply, replies, fuel).0 == Failed(KeyError(CommandClass(message.command)))
    ensures message.Cmd? && CommandHandler(message.command).Some? && reply.Raised? ==>
              Handled(message, reply, replies, fuel).0 == Failed(reply.failure)
  {
  }

  /** An event whose class has no entry in the registry aborts the event loop with a KeyError,
      wherever it sits in the queue: what is behind it never runs. */
  lemma UnregisteredEventAborts(s: Progress, fuel: nat, replies: nat -> Reply<()>)
    requires s.queue != [] && fuel > 0 && EventHandlers(s.queue[0]).None?
    ensures Process(s, fuel, replies) == (Aborted(KeyError(EventClass(s.queue[0]))), s.(queue := s.queue[1..]))
  {
  }
}
