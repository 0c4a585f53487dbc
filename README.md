# plugin-use in Dafny

`createUse(options)` from `index.ts` builds a small plugin loader around an
event bus. It returns a `use` function. Each call to `use` loads one plugin
and hands it an emitter with four operations:

- `on(name, handler)` registers a listener;
- `off(name, handler)` removes one;
- `emit(name, ...args)` calls every registered handler except those in the
  emitting plugin's own set, then logs the arguments;
- `count(name)` counts the listeners.

The bus keeps a backfill log of past emissions. A plugin loaded later gets
that log replayed to its first listener for a name. Live delivery skips every
handler in the emitting plugin's own set: the exclusion is by handler
identity (index.ts:55). A replay, by contrast, can still hand a plugin its own
earlier emissions.

This project models that code and proves what it promises. There are two
layers:

- **Functions on state values** (module `BusSpec`). `Global` is what one
  `createUse` call closes over: `events` and `backfill`. `Local` is what one
  `use` call closes over: `pluginHandlers`, and the names `pluginBackfill`
  still holds. `On`, `Off`, `Emit`, `Run` and `Use` map these states to new
  states plus the list of calls the bus makes into user code.
- **Classes that update in place** (module `PluginUse`), as the source does.
  - A `Bus` object holds the two global maps. Its `Use` method is the `use`
    closure.
  - An `Emitter` object holds one plugin's maps. Its `On`, `Off` and `Emit`
    methods change those maps and the bus's maps.
  - Each method's `ensures` says that the new state and the calls made are
    exactly what the matching `BusSpec` function computes from the old
    state. The `BusSpec` lemmas then state what the source promises about
    those functions.

How the model represents the source:

- A JavaScript `Set` is a duplicate-free sequence in insertion order (module
  `OrderedSet`). `Add` and `Delete` model `set.add` and `set.delete`.
- Handler functions are opaque ids (`nat`). JavaScript compares them by
  identity, and ids compare the same way.
- Calling user code is recorded as a `Call` in an output trace:
  - `Invoke(handler, args)` for a handler;
  - `HandleEmit`, `CallPlugin`, `HandleReturn` and `HandleObject` for the
    hooks and the plugin function.
- A plugin's body is the sequence of `on`/`off`/`emit` calls it makes on its
  emitter (`Op`). An object plugin lists its keys in enumeration order. Each
  key carries the calls `handleObject` makes for it.
- `handleEmit`'s answer is given per emission, as the `suppress` flag of the
  `emit` call.
- `backfill` holds a fresh array per `emit`, so its `Set`s never merge
  entries. Each log is therefore a sequence of argument tuples.
- `new Map(backfill)` (index.ts:24) copies the map but shares each name's
  log with the bus. All that matters per plugin is which names the copy
  still holds (`pending`). `on` replays the current global log for such a
  name, including tuples logged after the plugin was loaded, and even the
  plugin's own emissions.

Three behaviours of the code that a reader might not expect:

- The comment at index.ts:59 reads "Every event gets added to the backfill".
  One might expect a suppressed emission to be logged as well. In the code,
  `emit` returns when `handleEmit` answers true (index.ts:51), before the
  append at index.ts:59-61. A suppressed emission is therefore neither
  delivered nor logged, and it is never replayed. See
  `BusSpec.EmitConsultsHook` and `Scenarios.SuppressedEmitIsDroppedEntirely`.
- One might expect each plugin to get a point-in-time snapshot of the log.
  `new Map(backfill)` (index.ts:24) copies only the map, so replay sees every
  later append to a log the copy still holds. See `BusSpec.RunKeepsUnconsumed`
  and `Scenarios.OwnEmissionReplayed`.
- One might expect a plugin's emissions to skip exactly the handlers it
  registered. The test at index.ts:55 is by handler identity instead: a
  handler in this plugin's own set is skipped even when another plugin
  registered it too. See `Scenarios.SharedHandlerSkipped`.

## Model

| member | source | states |
|---|---|---|
| OrderedSet.Add | index.ts:34-40 | `set.add(h)`: afterwards h is a member and nothing else joined. The members already there keep their places and the set grows by at most one. A set that already holds h is unchanged, and a duplicate-free set stays duplicate-free. |
| OrderedSet.Delete | index.ts:46-47 | `set.delete(h)`: exactly the former members other than h remain, and the set never grows. |
| OrderedSet.DeleteAt | index.ts:46-47 | Deleting the member at position k closes the gap: the members before and after it keep their order. |
| OrderedSet.DeleteAbsent | index.ts:46-47 | Deleting a handler that is not in the set leaves the set unchanged. |
| OrderedSet.DeleteNoDup | index.ts:46-47 | Deleting keeps the set duplicate-free. |
| OrderedSet.DeleteShrinks | index.ts:46 | Deleting a member lowers the size by exactly one. |
| OrderedSet.DistinctCount | index.ts:27 | A set's `size` equals the number of distinct handlers in it. |
| Delivery.Broadcast | index.ts:53-57 | Live delivery of an emission makes at most one call per registered handler. Every call runs a registered handler that is not in the emitting plugin's own set, with exactly the emitted arguments. |
| Delivery.Replay | index.ts:30 | A replay calls the handler once per logged tuple, in logging order: call i passes tuple i. |
| Delivery.BroadcastOnce | index.ts:53-57 | Over a duplicate-free registry, an emission calls each eligible handler exactly once and every other handler never. |
| Delivery.BroadcastInRegistrationOrder | index.ts:54-56 | Delivery follows registration order: the calls for handlers registered before position k come before all the others. |
| Delivery.BroadcastToOwnIsEmpty | index.ts:55 | When every registered handler is in the plugin's own set, its emission calls nobody. |
| BusSpec.Init | index.ts:21-22 | `createUse` starts with no handler registered for any name and nothing logged. |
| BusSpec.Load | index.ts:24-25 | A `use` call starts its plugin with no handlers of its own. It holds exactly the names that have a log at that moment, and the state invariants hold. |
| BusSpec.Count | index.ts:27 | `count(name)` is the number of distinct handlers all plugins together registered for the name, and 0 for a name never registered. |
| BusSpec.On | index.ts:28-41 | `on` keeps every registry duplicate-free and every pending name backed by a log. It consumes the name and never touches the log. |
| BusSpec.Off | index.ts:43-48 | `off` keeps every registry duplicate-free. It leaves the log and the pending names alone and makes no call. |
| BusSpec.Emit | index.ts:50-62 | `emit` keeps every state invariant. It never touches a registry or the plugin's own state, and never drops a name from the log. |
| BusSpec.Run | index.ts:66 | Any sequence of emitter calls keeps every state invariant. The names a plugin may still have replayed only shrink. |
| BusSpec.RunEntries | index.ts:71-73 | Handling every key of an object plugin keeps every state invariant. |
| BusSpec.Use | index.ts:23-75 | Every `use` keeps the handler registry duplicate-free. |
| BusSpec.OnRegisters | index.ts:34-40 | After `on(name, h)`, h is in the global set and in the plugin's set, and the global set gained only h. Re-registering h changes neither the registry nor `count`; a new h raises `count` by one. Other names and the log are untouched. |
| BusSpec.OnReplays | index.ts:29-32 | `on` replays each tuple of the name's log to h, in order, exactly when the plugin still holds the name, and then consumes the name. |
| BusSpec.SecondOnNoReplay | index.ts:29-32 | A second `on` for the same name in the same load replays nothing. |
| BusSpec.OffRemoves | index.ts:43-48 | After `off(name, h)`, h is in neither the global set nor the plugin's set, and every other handler stays. Where h stood at position k, each set becomes what came before k followed by what came after it, so the others keep their order. Other names, the log and the pending names are untouched. A registered h lowers `count` by one. No call is made. |
| BusSpec.OffAbsentChangesNothing | index.ts:46-47 | `off` of an unknown name or handler changes nothing. |
| BusSpec.EmitConsultsHook | index.ts:51 | With `handleEmit` configured, it is called first and exactly once per `emit`. When it answers true, nothing else happens: no handler runs and no state changes. Without the hook, `emit` only runs handlers. |
| BusSpec.EmitDelivers | index.ts:53-61 | A delivered `emit` calls each registered handler that is not the plugin's own exactly once, with exactly the arguments, and no other handler. It then appends the arguments to the end of the name's log, with or without listeners. Nothing else changes. |
| BusSpec.RunMakesOnlyBusCalls | index.ts:26-63 | A plugin's emitter calls only run handlers and `handleEmit`. |
| BusSpec.NoReplayOfLaterNames | index.ts:24-32 | A name first logged after the plugin was loaded is never replayed to it. |
| BusSpec.RunLogGrows | index.ts:59-61 | A name's log only grows at the end: what was logged stays, in place. |
| BusSpec.RunAppend | index.ts:66 | Running calls `a` and then calls `b` on one emitter is running `a + b`: the state after `b` starts where `a` left it, and the calls come in that order. |
| BusSpec.RunEntriesShareEmitter | index.ts:71-73 | All keys of an object plugin act through one emitter. The bus and the plugin's own state end exactly as if one plugin had made every key's calls, key after key. |
| BusSpec.RunKeepsUnconsumed | index.ts:24-31 | A name the plugin held at load stays replayable until its first `on`, whatever else the plugin does. |
| BusSpec.UseFunctionPlugin | index.ts:65-69 | `use(fn)` calls fn first and exactly once. When configured, `handleReturn` gets fn's result, exactly once and last. `handleObject` is never called. |
| BusSpec.RunEntriesCallKinds | index.ts:71-73 | Handling an object plugin calls only `handleObject`, handlers and `handleEmit`. |
| BusSpec.RunEntriesObjectCalls | index.ts:71-73 | `handleObject` is called once per key, in key order, with that key's value. |
| BusSpec.UseObjectPlugin | index.ts:70-74 | `use(object)` calls `handleObject` once per key, in key order, and calls neither a plugin function nor `handleReturn`. The bus ends as if one plugin had made all the keys' emitter calls in key order. |
| PluginUse.Bus.constructor | index.ts:20-22 | `createUse` starts with an empty registry and an empty log. |
| PluginUse.Bus.Use | index.ts:23-75 | The `use` closure moves the bus state and makes exactly the calls `BusSpec.Use` describes, keeping the registry duplicate-free. |
| PluginUse.Emitter.constructor | index.ts:24-25 | A plugin starts with no handlers of its own and holds every name the log holds at load time. |
| PluginUse.Emitter.Count | index.ts:27 | `count(name)` is the number of distinct handlers registered for the name, and 0 for an unknown name. |
| PluginUse.Emitter.On | index.ts:28-41 | `on` updates the maps in place exactly as `BusSpec.On` does, makes the replay calls it lists, and keeps the invariants. |
| PluginUse.Emitter.ReplayPending | index.ts:29-32 | The replay loop calls the handler with each logged tuple in order when the name is still held, and does nothing otherwise. |
| PluginUse.Emitter.Off | index.ts:43-48 | `off` updates the maps in place exactly as `BusSpec.Off` does and keeps the invariants. |
| PluginUse.Emitter.Emit | index.ts:50-62 | `emit` makes exactly the calls `BusSpec.Emit` lists and appends to the log as it does, keeping the invariants. |
| PluginUse.Emitter.Deliver | index.ts:53-57 | The delivery loop calls the registered handlers in registration order, skipping those in the plugin's own set, exactly as `Delivery.Broadcast` lists. |
| PluginUse.Emitter.Run | index.ts:66 | Running a plugin body on the emitter moves the state exactly as `BusSpec.Run` does. |
| Scenarios.ObjectKeysInOrder | test.ts:14-34 | `use({a, b, c})` calls `handleObject` for a, b and c, in that order, with their values. |
| Scenarios.HandleReturnGetsResult | test.ts:51-62 | `handleReturn` receives the plugin function's return value. |
| Scenarios.ListenToOtherPlugins | test.ts:65-80 | A listener hears another plugin's emission exactly once, with its argument. |
| Scenarios.BackfillFromEarlierPlugins | test.ts:82-98 | A plugin loaded after three emissions has them replayed, one call each, in order. |
| Scenarios.CannotListenToOwnEvents | test.ts:100-129 | A plugin that registered one or two listeners for "foo" calls none of them when it emits "foo" four times. |
| Scenarios.OwnEmitsUnheard | index.ts:53-57 | While a plugin's own set for a name is the whole global set, its emissions of that name call nobody and change no registry. |
| Scenarios.LateListener | index.ts:29-32 | A plugin loaded now that listens to "foo" gets the whole current log of "foo" replayed, in logging order. |
| Scenarios.OffUnknownIsHarmless | test.ts:151-159 | `off` of a name nobody registered changes nothing and makes no call. |
| Scenarios.HandleEmitSeesEveryEmit | test.ts:163-182 | `handleEmit` is called once per emission, in order, with the name and arguments. |
| Scenarios.SuppressedEmitIsDroppedEntirely | test.ts:184-202 | A listener gets 1 and 3 but not the suppressed 2. A plugin loaded afterwards also gets only 1 and 3 replayed. |
| Scenarios.CountAcrossPlugins | test.ts:206-222 | After three plugins each register one distinct handler, `count("foo")` is 3 and `count("bar")` is 0. |
| Scenarios.OwnEmissionReplayed | index.ts:24-32 | A plugin that emits on a name it held at load and then listens to it has its own emission replayed, because the backfill copy shares the log. |
| Scenarios.SharedHandlerSkipped | index.ts:55 | Another plugin's handler is heard until this plugin registers the same handler. From then on this plugin's emissions skip it. |

## Left out

- Handler and hook bodies are not modelled: a handler call is only an entry in the trace. A handler that calls `emit` or `off` while an emission is being delivered depends on how a JavaScript `Set` behaves when changed during iteration. Delivery is modelled over the registry as it is when `emit` starts. The `off` case in test.ts:133-149 is therefore not modelled.
- Exceptions thrown by handlers, hooks or plugins are not modelled. They would simply propagate, because the bus catches nothing.
- The TypeScript types and generics (index.ts:1-18) are not modelled. They exist only at compile time.
- `Object.keys` enumeration order is not modelled: an object plugin's keys are taken in the order given.
- `handleReturn` and `handleEmit` receive the emitter, but the model gives them no emitter calls of their own. `handleEmit`'s boolean answer is an input per emission.
- `handleObject`'s emitter calls for each key, and a plugin function's calls, are a script fixed in advance. In particular, a plugin cannot branch on what `count` returns. `count` changes no state, so no `Op` models it.
- A plugin function's return value is an input (`result`) rather than computed.
- Argument values, and the values of an object plugin's keys, are integers. In test.ts:23-27 those values are functions. The bus never looks inside any of them: it only passes them on to handlers and to `handleObject`.
- `count` returns an unbounded `nat`. JavaScript numbers are not modelled.
- deno-test.ts and the mocha/chai scaffolding in test.ts are not modelled. The tests' assertions are stated as lemmas in module `Scenarios`.
