/** `createUse` as the source builds it: closures over mutable maps. A `Bus`
    holds what one `createUse` call closes over (index.ts:21-22) and its `Use`
    method is the returned `use` closure; an `Emitter` holds what one `use`
    call closes over (index.ts:24-25) and offers `count`, `on`, `off` and
    `emit`. Each method is proved to move the state exactly as the matching
    function of module BusSpec says and to make the calls it lists. */
module PluginUse {
  import opened OrderedSet
  import opened Delivery
  import BusSpec

  class Bus {
    const options: BusSpec.Options
    var events: map<Name, seq<HandlerId>>
    var backfill: map<Name, seq<Args>>

    function State(): BusSpec.Global
      reads this
    {
      BusSpec.Global(events, backfill)
    }

    ghost predicate Valid()
      reads this
    {
      BusSpec.Valid(State())
    }

    /** `createUse(options)`: both maps start empty. */
    constructor (options: BusSpec.Options)
      ensures this.options == options
      ensures State() == BusSpec.Init() && Valid()
    {
      this.options := options;
      events := map[];
      backfill := map[];
    }

    /** `use(plugin)`: a fresh emitter, then either the plugin function once
        followed by `handleReturn`, or `handleObject` for each key in turn with
        that one emitter. */
    method Use(plugin: BusSpec.Plugin) returns (calls: seq<Call>)
      requires Valid()
      modifies this
      ensures Valid()
      ensures BusSpec.Use(options, old(State()), plugin) == BusSpec.Loaded(State(), calls)
    {
      var emitter := new Emitter(this);
      match plugin {
        case FunctionPlugin(body, result) =>
          var inner := emitter.Run(body);
          calls := [CallPlugin] + inner;
          if options.hasHandleReturn {
            calls := calls + [HandleReturn(result)];
          }
        case ObjectPlugin(entries) =>
          ghost var g0, l0 := State(), emitter.Scope();
          calls := [];
          for i := 0 to |entries|
            invariant emitter.bus == this && emitter.Valid()
            invariant BusSpec.RunEntries(options, g0, l0, entries[..i]) == BusSpec.Step(State(), emitter.Scope(), calls)
          {
            var entry := entries[i];
            calls := calls + [HandleObject(entry.key, entry.value)];
            var inner := emitter.Run(entry.reaction);
            calls := calls + inner;
            assert entries[..i + 1][..i] == entries[..i];
          }
          assert entries[..|entries|] == entries;
      }
    }
  }

  /** The emitter one `use` call hands to its plugin. */
  class Emitter {
    const bus: Bus
    var handlers: map<Name, seq<HandlerId>>   // `pluginHandlers`
    var pending: set<Name>                     // the names `pluginBackfill` still holds

    function Scope(): BusSpec.Local
      reads this
    {
      BusSpec.Local(handlers, pending)
    }

    ghost predicate Valid()
      reads this, bus
    {
      BusSpec.ScopeValid(bus.State(), Scope())
    }

    /** The per-`use` state: no handlers yet, and every name the backfill
        holds at this moment (`new Map(backfill)`). */
    constructor (bus: Bus)
      requires bus.Valid()
      ensures this.bus == bus
      ensures Scope() == BusSpec.Load(bus.State()) && Valid()
    {
      this.bus := bus;
      handlers := map[];
      pending := bus.backfill.Keys;
    }

    /** `count(name)`: how many distinct handlers all plugins together have
        registered for `name`; 0 for a name never listened to. */
    function Count(name: Name): (n: nat)
      reads bus
      requires bus.Valid()
      ensures n == |Elements(BusSpec.Get(bus.events, name))|
      ensures name !in bus.events ==> n == 0
    {
      if name in bus.events then
        DistinctCount(bus.events[name]);
        |bus.events[name]|
      else 0
    }

    /** `on(name, handler)`: replay the name's log if this plugin still holds
        it, consume it, then register the handler globally and as this
        plugin's own. */
    method On(name: Name, handler: HandlerId) returns (calls: seq<Call>)
      requires Valid()
      modifies this, bus
      ensures Valid()
      ensures BusSpec.On(old(bus.State()), old(Scope()), name, handler) == BusSpec.Step(bus.State(), Scope(), calls)
    {
      ghost var r := BusSpec.On(bus.State(), Scope(), name, handler);
      assert BusSpec.ScopeValid(r.g, r.l);
      calls := ReplayPending(name, handler);
      pending := pending - {name};
      // `events.has(name)` / `events.set(name, new Set())` / `.add(handler)`
      var registered := if name in bus.events then bus.events[name] else [];
      bus.events := bus.events[name := Add(registered, handler)];
      // the same for `pluginHandlers`
      var own := if name in handlers then handlers[name] else [];
      handlers := handlers[name := Add(own, handler)];
      assert bus.State() == r.g && Scope() == r.l;
    }

    /** The replay step of `on` (index.ts:29-32): the name's current log, one
        call per tuple in logging order, if this plugin still holds the name. */
    method ReplayPending(name: Name, handler: HandlerId) returns (calls: seq<Call>)
      requires Valid()
      ensures calls == if name in pending then Replay(handler, bus.backfill[name]) else []
    {
      calls := [];
      if name in pending {
        var log := bus.backfill[name];
        var i := 0;
        while i < |log|
          invariant 0 <= i <= |log|
          invariant calls == Replay(handler, log[..i])
        {
          calls := calls + [Invoke(handler, log[i])];
          i := i + 1;
          assert log[..i][..i - 1] == log[..i - 1];
        }
        assert log[..|log|] == log;
      }
    }

    /** `off(name, handler)`: drop the handler from the global set and from
        this plugin's set, where they exist. */
    method Off(name: Name, handler: HandlerId)
      requires Valid()
      modifies this, bus
      ensures Valid()
      ensures BusSpec.Off(old(bus.State()), old(Scope()), name, handler) == BusSpec.Step(bus.State(), Scope(), [])
    {
      ghost var r := BusSpec.Off(bus.State(), Scope(), name, handler);
      assert BusSpec.ScopeValid(r.g, r.l);
      if name in bus.events {
        bus.events := bus.events[name := Delete(bus.events[name], handler)];
      }
      if name in handlers {
        handlers := handlers[name := Delete(handlers[name], handler)];
      }
    }

    /** `emit(name, ...args)`: consult `handleEmit` (whose answer is
        `suppress`) and stop if it says so; otherwise call every handler for
        the name that is not this plugin's own, then log `args`. */
    method Emit(name: Name, args: Args, suppress: bool) returns (calls: seq<Call>)
      requires Valid()
      modifies bus
      ensures Valid()
      ensures BusSpec.Emit(bus.options, old(bus.State()), Scope(), name, args, suppress) == BusSpec.Step(bus.State(), Scope(), calls)
    {
      ghost var r := BusSpec.Emit(bus.options, bus.State(), Scope(), name, args, suppress);
      assert BusSpec.ScopeValid(r.g, r.l);
      calls := [];
      if bus.options.hasHandleEmit {
        calls := [HandleEmit(name, args)];
        if suppress {
          return;
        }
      }
      if name in bus.events {
        var delivered := Deliver(name, args);
        calls := calls + delivered;
      }
      if name !in bus.backfill {
        bus.backfill := bus.backfill[name := []];
      }
      bus.backfill := bus.backfill[name := bus.backfill[name] + [args]];
    }

    /** The live delivery of `emit` (index.ts:53-57): every handler
        registered for the name, in registration order, skipping those in
        this plugin's own set. */
    method Deliver(name: Name, args: Args) returns (calls: seq<Call>)
      requires Valid() && name in bus.events
      ensures calls == Broadcast(bus.events[name], BusSpec.Get(handlers, name), args)
    {
      var registered := bus.events[name];
      ghost var own := BusSpec.Get(handlers, name);
      calls := [];
      for i := 0 to |registered|
        invariant calls == Broadcast(registered[..i], own, args)
      {
        var h := registered[i];
        if !(name in handlers && h in handlers[name]) {
          calls := calls + [Invoke(h, args)];
        }
        assert registered[..i + 1][..i] == registered[..i];
      }
      assert registered[..|registered|] == registered;
    }

    /** The plugin's own code, as the sequence of calls it makes on this
        emitter. */
    method Run(ops: seq<BusSpec.Op>) returns (calls: seq<Call>)
      requires Valid()
      modifies this, bus
      ensures Valid()
      ensures BusSpec.Run(bus.options, old(bus.State()), old(Scope()), ops) == BusSpec.Step(bus.State(), Scope(), calls)
    {
      ghost var g0, l0 := bus.State(), Scope();
      calls := [];
      for i := 0 to |ops|
        invariant Valid()
        invariant BusSpec.Run(bus.options, g0, l0, ops[..i]) == BusSpec.Step(bus.State(), Scope(), calls)
      {
        var step: seq<Call>;
        match ops[i] {
          case OnOp(name, handler) =>
            step := On(name, handler);
          case OffOp(name, handler) =>
            Off(name, handler);
            step := [];
          case EmitOp(name, args, suppress) =>
            step := Emit(name, args, suppress);
        }
        calls := calls + step;
        assert ops[..i + 1][..i] == ops[..i];
      }
      assert ops[..|ops|] == ops;
    }
  }
}
