/**
 * The in-process message bus: the two stateful handler base classes with
 * their emitted-message buffers, the type-to-handler registry, and the
 * sequential dispatcher `handle` / `batch_handle`.
 *
 * A handler's own logic is an oracle: each handler object carries constant
 * functions that say, for a message, which messages it emits and whether it
 * returns or raises. The dispatcher itself is written as the source writes it
 * (a FIFO queue, a results list, in-place buffers) and is proved equal to the
 * functional specification `Run`, about which the lemmas speak.
 */
module MessageBus {

  /** A dispatchable message; `typ` stands for its runtime class. */
  datatype Message =
    | Event(typ: string, data: string)
    | Command(typ: string, data: string)
    | Other(data: string)

  /** A value returned by a handler call (`None` in the source is `NoneValue`). */
  datatype Value = NoneValue | Data(text: string)

  /** How a call ends: it returns a value or raises an exception. */
  datatype Outcome = Returned(value: Value) | Raised

  /** What a handler's own logic does with one message: the messages it emits, in order, then how it ends. */
  datatype Reaction = Reaction(emits: seq<Message>, outcome: Outcome)

  /** The steps of a stateful event handler's `handle`, in the order they run. */
  datatype Phase = BeforeHook | CoreLogic | AfterHook

  /** A handler object derived from EventHandlerABC. */
  class EventHandler {
    const beforeOk: Message -> bool   // `_before_handle` completes (false: it raises)
    const core: Message -> Reaction   // `_handle`
    const afterOk: Message -> bool    // `_after_handle` completes (false: it raises)
    var emitted: seq<Message>         // `_emitted_messages`

    constructor (beforeOk: Message -> bool, core: Message -> Reaction, afterOk: Message -> bool)
      ensures this.beforeOk == beforeOk && this.core == core && this.afterOk == afterOk
      ensures emitted == []
    {
      this.beforeOk := beforeOk;
      this.core := core;
      this.afterOk := afterOk;
      emitted := [];
    }

    /** `emmit_message`: one message more at the end of the buffer. */
    method EmitMessage(m: Message)
      modifies this
      ensures emitted == old(emitted) + [m]
    {
      emitted := emitted + [m];
    }

    /** The hooks `handle` runs for `m`: the core and the after-hook run only when the before-hook completed. */
    function Phases(m: Message): (ps: seq<Phase>)
      ensures |ps| > 0 && ps[0] == BeforeHook
      ensures CoreLogic in ps <==> beforeOk(m)
      ensures AfterHook in ps <==> beforeOk(m)
      ensures beforeOk(m) ==> ps[|ps| - 1] == AfterHook && multiset(ps)[AfterHook] == 1
    {
      if beforeOk(m) then [BeforeHook, CoreLogic, AfterHook] else [BeforeHook]
    }

    /** The messages one `handle` call adds to the buffer. */
    function Emissions(m: Message): (es: seq<Message>)
      ensures !beforeOk(m) ==> es == []
    {
      if beforeOk(m) then core(m).emits else []
    }

    /** How one `handle` call ends: `None`, or raised by a hook or the core. */
    function HandleResult(m: Message): (o: Outcome)
      ensures o.Returned? ==> o.value == NoneValue
      ensures o.Returned? <==> beforeOk(m) && core(m).outcome.Returned? && afterOk(m)
    {
      if beforeOk(m) && core(m).outcome.Returned? && afterOk(m) then Returned(NoneValue) else Raised
    }

    /**
     * `EventHandlerABC.handle`: the before-hook outside the `try`, the core
     * inside it, the after-hook in its `finally`; the return value of the
     * core is dropped.
     */
    method Handle(m: Message) returns (phases: seq<Phase>, outcome: Outcome)
      modifies this
      ensures emitted == old(emitted) + Emissions(m)
      ensures phases == Phases(m) && outcome == HandleResult(m)
    {
      phases := [BeforeHook];
      if !beforeOk(m) {
        outcome := Raised;
        return;
      }
      var r := core(m);
      var i := 0;
      while i < |r.emits|
        invariant 0 <= i <= |r.emits|
        invariant emitted == old(emitted) + r.emits[..i]
      {
        EmitMessage(r.emits[i]);
        i := i + 1;
      }
      phases := phases + [CoreLogic];
      phases := phases + [AfterHook];
      outcome := if r.outcome.Returned? && afterOk(m) then Returned(NoneValue) else Raised;
    }
  }

  /** A handler object derived from CommandHandlerABC: no hooks, `handle` is the subclass's own. */
  class CommandHandler {
    const core: Message -> Reaction   // the subclass's `handle`
    var emitted: seq<Message>         // `_emitted_messages`

    constructor (core: Message -> Reaction)
      ensures this.core == core && emitted == []
    {
      this.core := core;
      emitted := [];
    }

    /** `emmit_message`: one message more at the end of the buffer. */
    method EmitMessage(m: Message)
      modifies this
      ensures emitted == old(emitted) + [m]
    {
      emitted := emitted + [m];
    }

    method Handle(m: Message) returns (outcome: Outcome)
      modifies this
      ensures emitted == old(emitted) + core(m).emits
      ensures outcome == core(m).outcome
    {
      var r := core(m);
      var i := 0;
      while i < |r.emits|
        invariant 0 <= i <= |r.emits|
        invariant emitted == old(emitted) + r.emits[..i]
      {
        EmitMessage(r.emits[i]);
        i := i + 1;
      }
      outcome := r.outcome;
    }
  }

  /** A registered handler: a stateful object of either base class, or a plain callable without an emission channel. */
  datatype Handler =
    | EventObject(eh: EventHandler)
    | CommandObject(ch: CommandHandler)
    | Callable(call: Message -> Outcome)

  /** `_event_handlers` (type to ordered handler list) and `_command_handlers` (type to one handler). */
  datatype Registry = Registry(events: map<string, seq<Handler>>, commands: map<string, Handler>)

  /** Every handler's buffer, as values. */
  datatype Buffers = Buffers(events: map<EventHandler, seq<Message>>, commands: map<CommandHandler, seq<Message>>)

  function EventBuf(b: Buffers, h: EventHandler): seq<Message>
  {
    if h in b.events then b.events[h] else []
  }

  function CommandBuf(b: Buffers, h: CommandHandler): seq<Message>
  {
    if h in b.commands then b.commands[h] else []
  }

  /** The state of one `handle` call between two dequeues. */
  datatype Config = Config(queue: seq<Message>, results: seq<Value>, buffers: Buffers)

  datatype BusError =
    | NoEventHandlers(typ: string)   // KeyError of the event lookup, outside the `try`
    | NoCommandHandler(typ: string)  // KeyError of the command lookup, logged and re-raised
    | CommandFailed(typ: string)     // the command handler raised, logged and re-raised
    | NotAMessage                    // neither Event nor Command

  datatype StepResult = Next(config: Config) | Abort(error: BusError, buffers: Buffers)

  datatype HandleOutcome =
    | Finished(results: seq<Value>)
    | Failed(error: BusError)
    | OutOfFuel(pending: seq<Message>, results: seq<Value>)

  /** How `handle` ends, and every handler's buffer afterwards (kept even when it raised). */
  datatype Final = Final(outcome: HandleOutcome, buffers: Buffers)

  /** One iteration of `_handle_event`'s loop: call the handler, and on success enqueue its whole buffer. */
  function CallEventHandler(h: Handler, m: Message, c: Config): (r: Config)
    ensures c.queue <= r.queue && c.results <= r.results
    ensures |r.results| <= |c.results| + 1
  {
    match h
    case EventObject(e) =>
      var buf := EventBuf(c.buffers, e) + e.Emissions(m);
      var b := c.buffers.(events := c.buffers.events[e := buf]);
      if e.HandleResult(m).Raised? then c.(buffers := b)
      else Config(c.queue + buf, c.results + [NoneValue], b)
    case CommandObject(_) =>
      c  // not callable: the TypeError is caught and logged
    case Callable(f) =>
      match f(m)
      case Raised => c
      case Returned(v) => c.(results := c.results + [v])
  }

  /** `_handle_event`: the handlers of one event, in registration order. */
  function DispatchEvent(hs: seq<Handler>, m: Message, c: Config): (r: Config)
    ensures |c.results| <= |r.results| <= |c.results| + |hs|
    decreases |hs|
  {
    if hs == [] then c else DispatchEvent(hs[1..], m, CallEventHandler(hs[0], m, c))
  }

  /** `_handle_command` once its handler is found. */
  function CallCommandHandler(h: Handler, m: Message, c: Config): (r: StepResult)
    requires m.Command?
    ensures r.Next? ==> c.queue <= r.config.queue && c.results <= r.config.results
    ensures r.Next? ==> |r.config.results| == |c.results| + 1
    ensures r.Abort? ==> r.error == CommandFailed(m.typ)
  {
    match h
    case CommandObject(ch) =>
      var buf := CommandBuf(c.buffers, ch) + ch.core(m).emits;
      var b := c.buffers.(commands := c.buffers.commands[ch := buf]);
      (match ch.core(m).outcome
       case Raised => Abort(CommandFailed(m.typ), b)
       case Returned(v) => Next(Config(c.queue + buf, c.results + [v], b)))
    case EventObject(_) =>
      Abort(CommandFailed(m.typ), c.buffers)  // not callable: TypeError, re-raised
    case Callable(f) =>
      match f(m)
      case Raised => Abort(CommandFailed(m.typ), c.buffers)
      case Returned(v) => Next(c.(results := c.results + [v]))
  }

  /** One iteration of `handle`'s loop: pop the head and dispatch it. */
  function Step(reg: Registry, c: Config): (r: StepResult)
    requires c.queue != []
    ensures r.Abort? && c.queue[0].Event? ==> c.queue[0].typ !in reg.events && r.error == NoEventHandlers(c.queue[0].typ)
    ensures r.Abort? ==> c.queue[0].Command? || c.queue[0].Other? || c.queue[0].typ !in reg.events
    ensures c.queue[0].Other? ==> r == Abort(NotAMessage, c.buffers)
  {
    var m := c.queue[0];
    var rest := c.(queue := c.queue[1..]);
    match m
    case Event(t, _) =>
      if t !in reg.events then Abort(NoEventHandlers(t), c.buffers)
      else Next(DispatchEvent(reg.events[t], m, rest))
    case Command(t, _) =>
      if t !in reg.commands then Abort(NoCommandHandler(t), c.buffers)
      else CallCommandHandler(reg.commands[t], m, rest)
    case Other(_) =>
      Abort(NotAMessage, c.buffers)
  }

  /** `handle`'s loop, allowed at most `fuel` dequeues. */
  function Run(reg: Registry, c: Config, fuel: nat): (r: Final)
    ensures r.outcome.OutOfFuel? ==> r.outcome.pending != []
    ensures c.queue != [] && fuel == 0 ==> r.outcome.OutOfFuel?
    decreases fuel
  {
    if c.queue == [] then Final(Finished(c.results), c.buffers)
    else if fuel == 0 then Final(OutOfFuel(c.queue, c.results), c.buffers)
    else match Step(reg, c)
      case Abort(e, b) => Final(Failed(e), b)
      case Next(c') => Run(reg, c', fuel - 1)
  }

  datatype BatchOutcome = Completed | Stopped(at: nat, outcome: HandleOutcome)

  /** `batch_handle` from message `i` on: one `handle` per message, the first that does not finish stops the batch. */
  function RunBatch(reg: Registry, ms: seq<Message>, i: nat, b: Buffers, fuel: nat): (r: (BatchOutcome, Buffers))
    requires i <= |ms|
    ensures r.0.Stopped? ==> i <= r.0.at < |ms| && !r.0.outcome.Finished?
    decreases |ms| - i
  {
    if i == |ms| then (Completed, b)
    else
      var f := Run(reg, Config([ms[i]], [], b), fuel);
      if f.outcome.Finished? then RunBatch(reg, ms, i + 1, f.buffers, fuel)
      else (Stopped(i, f.outcome), f.buffers)
  }

  ghost function EventObjectsOf(reg: Registry): set<EventHandler>
  {
    set t, i | t in reg.events && 0 <= i < |reg.events[t]| && reg.events[t][i].EventObject? :: reg.events[t][i].eh
  }

  ghost function CommandObjectsOf(reg: Registry): set<CommandHandler>
  {
    set t | t in reg.commands && reg.commands[t].CommandObject? :: reg.commands[t].ch
  }

  class Bus {
    var eventHandlers: map<string, seq<Handler>>
    var commandHandlers: map<string, Handler>

    /** `MessageBus.__init__`; a missing (None) or empty argument is an empty map. */
    constructor (eventHandlers: map<string, seq<Handler>>, commandHandlers: map<string, Handler>)
      ensures this.eventHandlers == eventHandlers && this.commandHandlers == commandHandlers
    {
      this.eventHandlers := eventHandlers;
      this.commandHandlers := commandHandlers;
    }

    function Reg(): Registry
      reads this
    {
      Registry(eventHandlers, commandHandlers)
    }

    ghost function EventObjects(): set<EventHandler>
      reads this
    {
      EventObjectsOf(Reg())
    }

    ghost function CommandObjects(): set<CommandHandler>
      reads this
    {
      CommandObjectsOf(Reg())
    }

    /** The buffers of every registered handler object, as they are now. */
    ghost function Bufs(): Buffers
      reads this, EventObjects(), CommandObjects()
    {
      Buffers(map e | e in EventObjects() :: e.emitted, map h | h in CommandObjects() :: h.emitted)
    }

    /** `set_event_handlers`: replaces the list of one event type. */
    method SetEventHandlers(typ: string, handlers: seq<Handler>)
      modifies this
      ensures eventHandlers == old(eventHandlers)[typ := handlers]
      ensures commandHandlers == old(commandHandlers)
    {
      eventHandlers := eventHandlers[typ := handlers];
    }

    /** `set_command_handler`: replaces the handler of one command type. */
    method SetCommandHandler(typ: string, handler: Handler)
      modifies this
      ensures commandHandlers == old(commandHandlers)[typ := handler]
      ensures eventHandlers == old(eventHandlers)
    {
      commandHandlers := commandHandlers[typ := handler];
    }

    /** `handle`: seed the queue with `message`, pop from the front until it is empty. */
    method Handle(message: Message, fuel: nat) returns (outcome: HandleOutcome)
      modifies EventObjects(), CommandObjects()
      ensures Final(outcome, Bufs()) == Run(Reg(), Config([message], [], old(Bufs())), fuel)
    {
      ghost var reg := Reg();
      ghost var start := Config([message], [], Bufs());
      var queue := [message];
      var results: seq<Value> := [];
      var f := fuel;
      while queue != [] && f > 0
        invariant Run(reg, Config(queue, results, Bufs()), f) == Run(reg, start, fuel)
        decreases f
      {
        ghost var c := Config(queue, results, Bufs());
        var m := queue[0];
        queue := queue[1..];
        f := f - 1;
        match m
        case Event(t, _) =>
          if t !in eventHandlers {
            outcome := Failed(NoEventHandlers(t));
            return;
          }
          queue, results := HandleEvent(m, queue, results);
          assert Step(reg, c) == Next(Config(queue, results, Bufs()));
        case Command(t, _) =>
          if t !in commandHandlers {
            outcome := Failed(NoCommandHandler(t));
            return;
          }
          var failed;
          failed, queue, results := HandleCommand(m, queue, results);
          if failed {
            outcome := Failed(CommandFailed(t));
            return;
          }
        case Other(_) =>
          outcome := Failed(NotAMessage);
          return;
      }
      if queue != [] {
        outcome := OutOfFuel(queue, results);
      } else {
        outcome := Finished(results);
      }
    }

    /** `_handle_event`: every handler of the event's type, in order; a raising handler is skipped. */
    method HandleEvent(m: Message, queue: seq<Message>, results: seq<Value>) returns (queue': seq<Message>, results': seq<Value>)
      requires m.Event? && m.typ in eventHandlers
      modifies EventObjects()
      ensures Config(queue', results', Bufs())
           == DispatchEvent(eventHandlers[m.typ], m, Config(queue, results, old(Bufs())))
    {
      var hs := eventHandlers[m.typ];
      ghost var b0 := Bufs();
      queue', results' := queue, results;
      var i := 0;
      while i < |hs|
        invariant 0 <= i <= |hs|
        invariant DispatchEvent(hs[i..], m, Config(queue', results', Bufs()))
               == DispatchEvent(hs, m, Config(queue, results, b0))
        decreases |hs| - i
      {
        assert hs[i..][0] == hs[i] && hs[i..][1..] == hs[i + 1..];
        assert hs[i].EventObject? ==> hs[i].eh in EventObjects();
        queue', results' := CallHandler(hs[i], m, queue', results');
        i := i + 1;
      }
    }

    /** One iteration of `_handle_event`'s loop; an exception of the handler is caught and logged. */
    method CallHandler(h: Handler, m: Message, queue: seq<Message>, results: seq<Value>) returns (queue': seq<Message>, results': seq<Value>)
      requires h.EventObject? ==> h.eh in EventObjects()
      modifies EventObjects()
      ensures Config(queue', results', Bufs()) == CallEventHandler(h, m, Config(queue, results, old(Bufs())))
    {
      queue', results' := queue, results;
      match h
      case EventObject(e) =>
        ghost var before := Bufs();
        var _, out := e.Handle(m);
        assert Bufs().events == before.events[e := before.events[e] + e.Emissions(m)];
        if out.Returned? {
          queue' := queue' + e.emitted;
          results' := results' + [NoneValue];
        }
      case CommandObject(_) =>
      case Callable(call) =>
        var out := call(m);
        if out.Returned? {
          results' := results' + [out.value];
        }
    }

    /** `_handle_command` once its handler is found; `failed` stands for the re-raised exception. */
    method HandleCommand(m: Message, queue: seq<Message>, results: seq<Value>)
      returns (failed: bool, queue': seq<Message>, results': seq<Value>)
      requires m.Command? && m.typ in commandHandlers
      modifies CommandObjects()
      ensures CallCommandHandler(commandHandlers[m.typ], m, Config(queue, results, old(Bufs())))
           == if failed then Abort(CommandFailed(m.typ), Bufs()) else Next(Config(queue', results', Bufs()))
    {
      queue', results' := queue, results;
      match commandHandlers[m.typ]
      case CommandObject(h) =>
        assert h in CommandObjects();
        ghost var before := Bufs();
        var out := h.Handle(m);
        assert Bufs().commands == before.commands[h := before.commands[h] + h.core(m).emits];
        failed := out.Raised?;
        if !failed {
          queue' := queue' + h.emitted;
          results' := results' + [out.value];
        }
      case EventObject(_) =>
        failed := true;
      case Callable(call) =>
        var out := call(m);
        failed := out.Raised?;
        if !failed {
          results' := results' + [out.value];
        }
    }

    /** `batch_handle`: `handle` each message in order; the first that raises stops the batch. */
    method BatchHandle(messages: seq<Message>, fuel: nat) returns (outcome: BatchOutcome)
      modifies EventObjects(), CommandObjects()
      ensures (outcome, Bufs()) == RunBatch(Reg(), messages, 0, old(Bufs()), fuel)
    {
      var i := 0;
      while i < |messages|
        invariant 0 <= i <= |messages|
        invariant RunBatch(Reg(), messages, i, Bufs(), fuel) == RunBatch(Reg(), messages, 0, old(Bufs()), fuel)
      {
        var o := Handle(messages[i], fuel);
        if !o.Finished? {
          outcome := Stopped(i, o);
          return;
        }
        i := i + 1;
      }
      outcome := Completed;
    }
  }
}
