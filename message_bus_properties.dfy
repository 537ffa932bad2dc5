/** What the dispatcher's specification `Run` promises: FIFO order, result counts, error isolation and the fatal cases. */
module MessageBusProperties {
  import opened Wrappers
  import opened MessageBus

  /** The handler returns normally on `m` when called for an event. */
  predicate ReturnsNormally(h: Handler, m: Message)
  {
    match h
    case EventObject(e) => e.HandleResult(m).Returned?
    case CommandObject(_) => false
    case Callable(f) => f(m).Returned?
  }

  /** What a normally returning event handler contributes to the results. */
  function ResultOf(h: Handler, m: Message): (v: Value)
    requires ReturnsNormally(h, m)
    ensures h.EventObject? ==> v == NoneValue
  {
    match h
    case EventObject(_) => NoneValue
    case Callable(f) => f(m).value
  }

  /** The results of handlers that all return normally, in registration order. */
  function ResultsOf(hs: seq<Handler>, m: Message): (rs: seq<Value>)
    requires forall i :: 0 <= i < |hs| ==> ReturnsNormally(hs[i], m)
    ensures |rs| == |hs|
    ensures forall i :: 0 <= i < |hs| ==> rs[i] == ResultOf(hs[i], m)
  {
    if hs == [] then [] else [ResultOf(hs[0], m)] + ResultsOf(hs[1..], m)
  }

  /** Dispatching an event only ever appends, to the queue and to the results. */
  lemma {:induction false} DispatchEventAppends(hs: seq<Handler>, m: Message, c: Config)
    ensures c.queue <= DispatchEvent(hs, m, c).queue
    ensures c.results <= DispatchEvent(hs, m, c).results
    decreases |hs|
  {
    if hs != [] {
      var c' := CallEventHandler(hs[0], m, c);
      DispatchEventAppends(hs[1..], m, c');
    }
  }

  /** Handlers registered as `a + b` run as `a`, then `b`. */
  lemma {:induction false} DispatchEventSplit(a: seq<Handler>, b: seq<Handler>, m: Message, c: Config)
    ensures DispatchEvent(a + b, m, c) == DispatchEvent(b, m, DispatchEvent(a, m, c))
    decreases |a|
  {
    if a != [] {
      assert (a + b)[0] == a[0] && (a + b)[1..] == a[1..] + b;
      DispatchEventSplit(a[1..], b, m, CallEventHandler(a[0], m, c));
    } else {
      assert a + b == b;
    }
  }

  /** Each step dequeues the head and keeps the rest of the queue, in order, in front of whatever it enqueues. */
  lemma StepIsFifo(reg: Registry, c: Config)
    requires c.queue != []
    ensures Step(reg, c).Next? ==> c.queue[1..] <= Step(reg, c).config.queue
    ensures Step(reg, c).Next? ==> c.results <= Step(reg, c).config.results
  {
    var m := c.queue[0];
    if m.Event? && m.typ in reg.events {
      DispatchEventAppends(reg.events[m.typ], m, c.(queue := c.queue[1..]));
    }
  }

  lemma ConcatAssociates<T>(a: seq<T>, b: seq<T>, c: seq<T>)
    ensures a + b + c == a + (b + c)
  {
  }

  /** A handler that returns normally appends exactly its own result. */
  lemma ReturningHandlerRecords(h: Handler, m: Message, c: Config)
    requires ReturnsNormally(h, m)
    ensures CallEventHandler(h, m, c).results == c.results + [ResultOf(h, m)]
  {
  }

  /** Handlers that all return normally contribute one result each, in registration order. */
  lemma {:induction false} AllReturnAllRecorded(hs: seq<Handler>, m: Message, c: Config)
    requires forall i :: 0 <= i < |hs| ==> ReturnsNormally(hs[i], m)
    ensures DispatchEvent(hs, m, c).results == c.results + ResultsOf(hs, m)
    decreases |hs|
  {
    if hs != [] {
      var c' := CallEventHandler(hs[0], m, c);
      ReturningHandlerRecords(hs[0], m, c);
      assert DispatchEvent(hs, m, c) == DispatchEvent(hs[1..], m, c');
      assert forall i :: 0 <= i < |hs[1..]| ==> ReturnsNormally(hs[1..][i], m) by {
        forall i | 0 <= i < |hs[1..]| ensures ReturnsNormally(hs[1..][i], m) {
          assert hs[1..][i] == hs[i + 1];
        }
      }
      AllReturnAllRecorded(hs[1..], m, c');
      var v, rest := [ResultOf(hs[0], m)], ResultsOf(hs[1..], m);
      assert ResultsOf(hs, m) == v + rest;
      ConcatAssociates(c.results, v, rest);
    }
  }

  /** An event whose n handlers all return normally adds exactly n results to `handle`'s list. */
  lemma EventContributesOneResultPerHandler(reg: Registry, c: Config)
    requires c.queue != [] && c.queue[0].Event? && c.queue[0].typ in reg.events
    requires forall i :: 0 <= i < |reg.events[c.queue[0].typ]| ==> ReturnsNormally(reg.events[c.queue[0].typ][i], c.queue[0])
    ensures Step(reg, c).Next?
    ensures |Step(reg, c).config.results| == |c.results| + |reg.events[c.queue[0].typ]|
    ensures Step(reg, c).config.results == c.results + ResultsOf(reg.events[c.queue[0].typ], c.queue[0])
  {
    AllReturnAllRecorded(reg.events[c.queue[0].typ], c.queue[0], c.(queue := c.queue[1..]));
  }

  /**
   * A handler that raises contributes no result and enqueues nothing (what it
   * emitted stays in its buffer); the handlers after it still run, from the
   * same queue and results.
   */
  lemma RaisingHandlerIsSkipped(pre: seq<Handler>, h: Handler, post: seq<Handler>, m: Message, c: Config)
    requires !ReturnsNormally(h, m)
    ensures var c1 := DispatchEvent(pre, m, c);
            DispatchEvent(pre + [h] + post, m, c)
            == DispatchEvent(post, m, c1.(buffers := CallEventHandler(h, m, c1).buffers))
  {
    DispatchEventSplit(pre + [h], post, m, c);
    DispatchEventSplit(pre, [h], m, c);
    var c1 := DispatchEvent(pre, m, c);
    assert DispatchEvent([h], m, c1) == CallEventHandler(h, m, c1) by {
      assert [h][1..] == [];
    }
  }

  /** An event whose type is registered never makes `handle` raise, whatever its handlers do. */
  lemma RegisteredEventNeverAborts(reg: Registry, c: Config)
    requires c.queue != [] && c.queue[0].Event? && c.queue[0].typ in reg.events
    ensures Step(reg, c).Next?
    ensures Step(reg, c).config == DispatchEvent(reg.events[c.queue[0].typ], c.queue[0], c.(queue := c.queue[1..]))
  {
  }

  /** A type registered with an empty list yields no result and no error. */
  lemma EmptyHandlerListIsNoOp(reg: Registry, c: Config)
    requires c.queue != [] && c.queue[0].Event? && c.queue[0].typ in reg.events
    requires reg.events[c.queue[0].typ] == []
    ensures Step(reg, c) == Next(c.(queue := c.queue[1..]))
  {
  }

  /** The fatal conditions end `handle` at once: unregistered event type, missing command handler, not a message. */
  lemma FatalConditions(reg: Registry, c: Config, fuel: nat)
    requires c.queue != [] && fuel > 0
    ensures c.queue[0].Event? && c.queue[0].typ !in reg.events
            ==> Run(reg, c, fuel) == Final(Failed(NoEventHandlers(c.queue[0].typ)), c.buffers)
    ensures c.queue[0].Command? && c.queue[0].typ !in reg.commands
            ==> Run(reg, c, fuel) == Final(Failed(NoCommandHandler(c.queue[0].typ)), c.buffers)
    ensures c.queue[0].Other? ==> Run(reg, c, fuel) == Final(Failed(NotAMessage), c.buffers)
  {
  }

  /** The command's handler returns normally when called by the dispatcher. */
  predicate CommandReturns(h: Handler, m: Message)
  {
    match h
    case CommandObject(ch) => ch.core(m).outcome.Returned?
    case EventObject(_) => false
    case Callable(f) => f(m).Returned?
  }

  /**
   * A command contributes exactly one result; when its handler raises (or is
   * not callable) `handle` fails at once and the rest of the queue is never
   * processed.
   */
  lemma CommandContributesOneResultOrFails(reg: Registry, c: Config, fuel: nat)
    requires c.queue != [] && c.queue[0].Command? && c.queue[0].typ in reg.commands
    ensures var h := reg.commands[c.queue[0].typ];
            CommandReturns(h, c.queue[0]) <==> Step(reg, c).Next?
    ensures Step(reg, c).Next? ==> |Step(reg, c).config.results| == |c.results| + 1
    ensures Step(reg, c).Abort? ==> Run(reg, c, fuel + 1) == Final(Failed(CommandFailed(c.queue[0].typ)), Step(reg, c).buffers)
  {
  }

  /**
   * The buffer is never cleared: after two successful calls of one stateful
   * event handler, the second call enqueues again everything the first did.
   */
  lemma SecondCallReenqueues(e: EventHandler, m1: Message, m2: Message, c: Config)
    requires e.HandleResult(m1).Returned? && e.HandleResult(m2).Returned?
    ensures var first := EventBuf(c.buffers, e) + e.Emissions(m1);
            var c2 := CallEventHandler(EventObject(e), m2, CallEventHandler(EventObject(e), m1, c));
            c2.queue == c.queue + first + (first + e.Emissions(m2))
            && EventBuf(c2.buffers, e) == first + e.Emissions(m2)
  {
  }

  /**
   * Breadth first: with `[E, E2]` queued and a fresh handler of `E` emitting
   * `m1, m2`, the queue after `E` is `[E2, m1, m2]`.
   */
  lemma BreadthFirst(reg: Registry, e: EventHandler, ev: Message, ev2: Message, m1: Message, m2: Message, b: Buffers)
    requires ev.Event? && reg.events.Keys == {ev.typ} && reg.events[ev.typ] == [EventObject(e)]
    requires e.HandleResult(ev).Returned? && e.Emissions(ev) == [m1, m2] && EventBuf(b, e) == []
    ensures Step(reg, Config([ev, ev2], [], b)).Next?
    ensures Step(reg, Config([ev, ev2], [], b)).config.queue == [ev2, m1, m2]
    ensures Step(reg, Config([ev, ev2], [], b)).config.results == [NoneValue]
  {
    assert [ev, ev2][1..] == [ev2];
    assert DispatchEvent([EventObject(e)], ev, Config([ev2], [], b))
        == CallEventHandler(EventObject(e), ev, Config([ev2], [], b));
  }

  /** The buffers after `handle` has run on `ms[i..k]` one message after the other, if every one of those calls finished. */
  function FinishedThrough(reg: Registry, ms: seq<Message>, i: nat, k: nat, b: Buffers, fuel: nat): Option<Buffers>
    requires i <= k <= |ms|
    decreases k - i
  {
    if i == k then Some(b)
    else
      var f := Run(reg, Config([ms[i]], [], b), fuel);
      if f.outcome.Finished? then FinishedThrough(reg, ms, i + 1, k, f.buffers, fuel) else None
  }

  /**
   * A batch completes iff every `handle` call in it finishes, each starting
   * from the buffers the previous ones left. A batch that stops, stops at the
   * first message whose `handle` did not finish: every message before it
   * finished, and the buffers they left are the ones that message ran with.
   */
  lemma {:induction false} BatchStopsAtFirstFailure(reg: Registry, ms: seq<Message>, i: nat, b: Buffers, fuel: nat)
    requires i <= |ms|
    ensures var (o, after) := RunBatch(reg, ms, i, b, fuel);
            && (o.Completed? <==> FinishedThrough(reg, ms, i, |ms|, b, fuel).Some?)
            && (o.Completed? ==> after == FinishedThrough(reg, ms, i, |ms|, b, fuel).value)
    ensures var (o, after) := RunBatch(reg, ms, i, b, fuel);
            o.Stopped? ==>
              && i <= o.at < |ms|
              && FinishedThrough(reg, ms, i, o.at, b, fuel).Some?
              && var f := Run(reg, Config([ms[o.at]], [], FinishedThrough(reg, ms, i, o.at, b, fuel).value), fuel);
                 o.outcome == f.outcome && !f.outcome.Finished? && after == f.buffers
    decreases |ms| - i
  {
    if i < |ms| {
      var f := Run(reg, Config([ms[i]], [], b), fuel);
      if f.outcome.Finished? {
        BatchStopsAtFirstFailure(reg, ms, i + 1, f.buffers, fuel);
      }
    }
  }
}
