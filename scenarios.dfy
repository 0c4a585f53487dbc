/** The behaviours the library's test suite checks, and three consequences
    of the code that a reader might not expect, stated as lemmas over
    module BusSpec. Handler ids are arbitrary unless a scenario needs them
    distinct. Each proof walks the plugin's calls one at a time with
    RunSingle and RunSnoc. */
module Scenarios {
  import opened Delivery
  import opened BusSpec

  const NoHooks := Options(false, false)
  const WithHandleEmit := Options(true, false)

  /** An object plugin gets `handleObject` once per key, in key order (test.ts:14-34). */
  lemma ObjectKeysInOrder(va: Value, vb: Value, vc: Value)
    ensures Use(NoHooks, Init(), ObjectPlugin([Entry("a", va, []), Entry("b", vb, []), Entry("c", vc, [])])).calls
      == [HandleObject("a", va), HandleObject("b", vb), HandleObject("c", vc)]
  {
    var es := [Entry("a", va, []), Entry("b", vb, []), Entry("c", vc, [])];
    var l0 := Load(Init());
    assert es[..2][..1] == es[..1] && es[..1][..0] == [];
    assert RunEntries(NoHooks, Init(), l0, es[..1]) == Step(Init(), l0, [HandleObject("a", va)]);
    assert RunEntries(NoHooks, Init(), l0, es[..2]) == Step(Init(), l0, [HandleObject("a", va), HandleObject("b", vb)]);
  }

  /** `handleReturn` receives the plugin function's return value (test.ts:51-62). */
  lemma HandleReturnGetsResult(v: Value)
    ensures Use(Options(false, true), Init(), FunctionPlugin([], v)).calls == [CallPlugin, HandleReturn(v)]
  {
  }

  /** The state after a plugin that only listens to "foo" with h. */
  lemma ListenerLoaded(opts: Options, g: Global, h: HandlerId)
    requires g.backfill == map[]
    ensures var a := Use(opts, g, FunctionPlugin([OnOp("foo", h)], 0));
      && Get(a.g.events, "foo") == OrderedSet.Add(Get(g.events, "foo"), h)
      && a.g.backfill == map[]
      && (forall n :: n != "foo" ==> (n in a.g.events <==> n in g.events))
  {
    RunSingle(opts, g, Load(g), OnOp("foo", h));
  }

  /** A handler hears another plugin's emission once, with its argument (test.ts:65-80). */
  lemma ListenToOtherPlugins(h: HandlerId, x: Value)
    ensures var a := Use(NoHooks, Init(), FunctionPlugin([OnOp("foo", h)], 0));
      Use(NoHooks, a.g, FunctionPlugin([EmitOp("foo", [x], false)], 0)).calls == [CallPlugin, Invoke(h, [x])]
  {
    ListenerLoaded(NoHooks, Init(), h);
    var a := Use(NoHooks, Init(), FunctionPlugin([OnOp("foo", h)], 0));
    assert Get(a.g.events, "foo") == [h];
    EmitHeardBy(a.g, h, x);
  }

  /** Helper for ListenToOtherPlugins: the emitting plugin's `use`. */
  lemma EmitHeardBy(g: Global, h: HandlerId, x: Value)
    requires Get(g.events, "foo") == [h]
    ensures Use(NoHooks, g, FunctionPlugin([EmitOp("foo", [x], false)], 0)).calls == [CallPlugin, Invoke(h, [x])]
  {
    RunSingle(NoHooks, g, Load(g), EmitOp("foo", [x], false));
    assert Broadcast([h], [], [x]) == [Invoke(h, [x])];
  }

  /** A later plugin's `on` replays earlier emissions one by one, in order (test.ts:82-98). */
  lemma BackfillFromEarlierPlugins(h: HandlerId)
    ensures var a := Use(NoHooks, Init(), FunctionPlugin([EmitOp("foo", [1], false), EmitOp("foo", [2], false), EmitOp("foo", [3], false)], 0));
      Use(NoHooks, a.g, FunctionPlugin([OnOp("foo", h)], 0)).calls
        == [CallPlugin, Invoke(h, [1]), Invoke(h, [2]), Invoke(h, [3])]
  {
    ThreeEmitsLogged();
    var a := Use(NoHooks, Init(), FunctionPlugin([EmitOp("foo", [1], false), EmitOp("foo", [2], false), EmitOp("foo", [3], false)], 0));
    LateListener(NoHooks, a.g, h);
  }

  /** Helper for BackfillFromEarlierPlugins: the emitting plugin's log. */
  lemma ThreeEmitsLogged()
    ensures var a := Use(NoHooks, Init(), FunctionPlugin([EmitOp("foo", [1], false), EmitOp("foo", [2], false), EmitOp("foo", [3], false)], 0));
      Get(a.g.backfill, "foo") == [[1], [2], [3]]
  {
    var e1, e2, e3 := EmitOp("foo", [1], false), EmitOp("foo", [2], false), EmitOp("foo", [3], false);
    var g0, l0 := Init(), Load(Init());
    var r1 := Run(NoHooks, g0, l0, [e1]);
    var r2 := Run(NoHooks, g0, l0, [e1, e2]);
    assert Get(r1.g.backfill, "foo") == [[1]] by {
      RunSingle(NoHooks, g0, l0, e1);
    }
    assert Get(r2.g.backfill, "foo") == [[1], [2]] by {
      assert [e1] + [e2] == [e1, e2];
      RunSnoc(NoHooks, g0, l0, [e1], e2);
    }
    assert [e1, e2] + [e3] == [e1, e2, e3];
    RunSnoc(NoHooks, g0, l0, [e1, e2], e3);
  }

  /** A plugin loaded now that listens to "foo" is replayed the whole log
      of "foo", in logging order. */
  lemma LateListener(opts: Options, g: Global, h: HandlerId)
    requires !opts.hasHandleReturn
    ensures Use(opts, g, FunctionPlugin([OnOp("foo", h)], 0)).calls == [CallPlugin] + Replay(h, Get(g.backfill, "foo"))
  {
    RunSingle(opts, g, Load(g), OnOp("foo", h));
  }

  /** A plugin that registered its own listeners for "foo" and then emits
      "foo" calls none of them live (test.ts:100-129). */
  lemma CannotListenToOwnEvents(h1: HandlerId, h2: HandlerId)
    ensures Use(NoHooks, Init(), FunctionPlugin([OnOp("foo", h1), OnOp("foo", h2),
      EmitOp("foo", [1], false), EmitOp("foo", [2], false), EmitOp("foo", [3], false), EmitOp("foo", [4], false)], 0)).calls
      == [CallPlugin]
  {
    var ons := [OnOp("foo", h1), OnOp("foo", h2)];
    var emits := [EmitOp("foo", [1], false), EmitOp("foo", [2], false), EmitOp("foo", [3], false), EmitOp("foo", [4], false)];
    assert ons + emits == [OnOp("foo", h1), OnOp("foo", h2),
      EmitOp("foo", [1], false), EmitOp("foo", [2], false), EmitOp("foo", [3], false), EmitOp("foo", [4], false)];
    ListenThenEmit(ons, emits, h1, h2);
  }

  /** Helper for CannotListenToOwnEvents: the two `on` calls, then the emissions. */
  lemma ListenThenEmit(ons: seq<Op>, emits: seq<Op>, h1: HandlerId, h2: HandlerId)
    requires ons == [OnOp("foo", h1), OnOp("foo", h2)]
    requires forall j :: 0 <= j < |emits| ==> emits[j].EmitOp? && emits[j].name == "foo" && !emits[j].suppress
    ensures Run(NoHooks, Init(), Load(Init()), ons + emits).calls == []
  {
    TwoOwnListeners(h1, h2);
    var r := Run(NoHooks, Init(), Load(Init()), ons);
    OwnEmitsUnheard(r.g, r.l, emits);
    RunAppend(NoHooks, Init(), Load(Init()), ons, emits);
  }

  /** Helper for CannotListenToOwnEvents: the two `on` calls. */
  lemma TwoOwnListeners(h1: HandlerId, h2: HandlerId)
    ensures var hs := if h1 == h2 then [h1] else [h1, h2];
      var r := Run(NoHooks, Init(), Load(Init()), [OnOp("foo", h1), OnOp("foo", h2)]);
      r.calls == [] && Get(r.g.events, "foo") == hs && Get(r.l.handlers, "foo") == hs
  {
    var o1, o2 := OnOp("foo", h1), OnOp("foo", h2);
    var g0, l0 := Init(), Load(Init());
    RunSingle(NoHooks, g0, l0, o1);
    assert [o1] + [o2] == [o1, o2];
    RunSnoc(NoHooks, g0, l0, [o1], o2);
  }

  /** Emissions of "foo" by a plugin whose own set for "foo" is the whole
      global set reach nobody and change no registry. */
  lemma {:induction false} OwnEmitsUnheard(g: Global, l: Local, emits: seq<Op>)
    requires forall j :: 0 <= j < |emits| ==> emits[j].EmitOp? && emits[j].name == "foo" && !emits[j].suppress
    requires Get(g.events, "foo") == Get(l.handlers, "foo")
    ensures var r := Run(NoHooks, g, l, emits); r.calls == [] && r.g.events == g.events && r.l == l
  {
    if emits != [] {
      var init := emits[..|emits| - 1];
      OwnEmitsUnheard(g, l, init);
      BroadcastToOwnIsEmpty(Get(g.events, "foo"), Get(l.handlers, "foo"), emits[|emits| - 1].args);
    }
  }

  /** `off` of a name nobody registered does nothing and does not fail (test.ts:151-159). */
  lemma OffUnknownIsHarmless(h1: HandlerId, h2: HandlerId)
    ensures Use(NoHooks, Init(), FunctionPlugin([OffOp("foo", h1), OffOp("foo", h2)], 0))
      == Loaded(Init(), [CallPlugin])
  {
    var o1, o2 := OffOp("foo", h1), OffOp("foo", h2);
    var g0, l0 := Init(), Load(Init());
    RunSingle(NoHooks, g0, l0, o1);
    assert [o1] + [o2] == [o1, o2];
    RunSnoc(NoHooks, g0, l0, [o1], o2);
  }

  /** `handleEmit` is called once per `emit`, with the name and arguments (test.ts:163-182). */
  lemma HandleEmitSeesEveryEmit()
    ensures Use(WithHandleEmit, Init(), FunctionPlugin([EmitOp("foo", [1], false), EmitOp("foo", [2], false), EmitOp("foo", [3], false)], 0)).calls
      == [CallPlugin, HandleEmit("foo", [1]), HandleEmit("foo", [2]), HandleEmit("foo", [3])]
  {
    var e1, e2, e3 := EmitOp("foo", [1], false), EmitOp("foo", [2], false), EmitOp("foo", [3], false);
    var g0, l0 := Init(), Load(Init());
    var r1 := Run(WithHandleEmit, g0, l0, [e1]);
    var r2 := Run(WithHandleEmit, g0, l0, [e1, e2]);
    var r3 := Run(WithHandleEmit, g0, l0, [e1, e2, e3]);
    assert r1.calls == [HandleEmit("foo", [1])] && r1.g.events == map[] && r1.l == l0 by {
      RunSingle(WithHandleEmit, g0, l0, e1);
    }
    assert r2.calls == [HandleEmit("foo", [1]), HandleEmit("foo", [2])] && r2.g.events == map[] && r2.l == l0 by {
      assert [e1] + [e2] == [e1, e2];
      RunSnoc(WithHandleEmit, g0, l0, [e1], e2);
    }
    assert r3.calls == [HandleEmit("foo", [1]), HandleEmit("foo", [2]), HandleEmit("foo", [3])] by {
      assert [e1, e2] + [e3] == [e1, e2, e3];
      RunSnoc(WithHandleEmit, g0, l0, [e1, e2], e3);
    }
  }

  /** An emission `handleEmit` suppresses reaches no listener (test.ts:184-202),
      and, because `emit` returns before logging it, a plugin loaded later
      does not get it replayed either. */
  lemma SuppressedEmitIsDroppedEntirely(h: HandlerId, late: HandlerId)
    ensures var a := Use(WithHandleEmit, Init(), FunctionPlugin([OnOp("foo", h)], 0));
      var b := Use(WithHandleEmit, a.g, FunctionPlugin([EmitOp("foo", [1], false), EmitOp("foo", [2], true), EmitOp("foo", [3], false)], 0));
      && b.calls == [CallPlugin, HandleEmit("foo", [1]), Invoke(h, [1]), HandleEmit("foo", [2]),
                     HandleEmit("foo", [3]), Invoke(h, [3])]
      && Use(WithHandleEmit, b.g, FunctionPlugin([OnOp("foo", late)], 0)).calls
        == [CallPlugin, Invoke(late, [1]), Invoke(late, [3])]
  {
    ListenerLoaded(WithHandleEmit, Init(), h);
    var a := Use(WithHandleEmit, Init(), FunctionPlugin([OnOp("foo", h)], 0));
    assert Get(a.g.events, "foo") == [h] && a.g.backfill == map[];
    SuppressedUse(a.g, h, late);
  }

  /** Helper for SuppressedEmitIsDroppedEntirely: the emitting plugin's `use`
      and the late listener's. */
  lemma SuppressedUse(g: Global, h: HandlerId, late: HandlerId)
    requires Get(g.events, "foo") == [h] && g.backfill == map[]
    ensures var b := Use(WithHandleEmit, g, FunctionPlugin([EmitOp("foo", [1], false), EmitOp("foo", [2], true), EmitOp("foo", [3], false)], 0));
      && b.calls == [CallPlugin, HandleEmit("foo", [1]), Invoke(h, [1]), HandleEmit("foo", [2]),
                     HandleEmit("foo", [3]), Invoke(h, [3])]
      && Use(WithHandleEmit, b.g, FunctionPlugin([OnOp("foo", late)], 0)).calls
        == [CallPlugin, Invoke(late, [1]), Invoke(late, [3])]
  {
    SuppressedRun(g, h);
    var b := Use(WithHandleEmit, g, FunctionPlugin([EmitOp("foo", [1], false), EmitOp("foo", [2], true), EmitOp("foo", [3], false)], 0));
    assert Get(b.g.backfill, "foo") == [[1], [3]];
    LateListener(WithHandleEmit, b.g, late);
  }

  /** Helper for SuppressedEmitIsDroppedEntirely: the emitting plugin's run. */
  lemma SuppressedRun(g: Global, h: HandlerId)
    requires Get(g.events, "foo") == [h] && g.backfill == map[]
    ensures var r := Run(WithHandleEmit, g, Load(g), [EmitOp("foo", [1], false), EmitOp("foo", [2], true), EmitOp("foo", [3], false)]);
      && r.calls == [HandleEmit("foo", [1]), Invoke(h, [1]), HandleEmit("foo", [2]), HandleEmit("foo", [3]), Invoke(h, [3])]
      && Get(r.g.backfill, "foo") == [[1], [3]]
  {
    var e1, e2, e3 := EmitOp("foo", [1], false), EmitOp("foo", [2], true), EmitOp("foo", [3], false);
    var l0 := Load(g);
    SuppressedRunTwo(g, h);
    assert [e1, e2] + [e3] == [e1, e2, e3];
    RunSnoc(WithHandleEmit, g, l0, [e1, e2], e3);
    assert Broadcast([h], [], [3]) == [Invoke(h, [3])];
  }

  /** Helper for SuppressedRun: the first two emissions. */
  lemma SuppressedRunTwo(g: Global, h: HandlerId)
    requires Get(g.events, "foo") == [h] && g.backfill == map[]
    ensures var r := Run(WithHandleEmit, g, Load(g), [EmitOp("foo", [1], false), EmitOp("foo", [2], true)]);
      && r.calls == [HandleEmit("foo", [1]), Invoke(h, [1]), HandleEmit("foo", [2])]
      && r.g.events == g.events && Get(r.g.backfill, "foo") == [[1]] && r.l == Load(g)
  {
    var e1, e2 := EmitOp("foo", [1], false), EmitOp("foo", [2], true);
    var l0 := Load(g);
    RunSingle(WithHandleEmit, g, l0, e1);
    assert Broadcast([h], [], [1]) == [Invoke(h, [1])];
    assert [e1] + [e2] == [e1, e2];
    RunSnoc(WithHandleEmit, g, l0, [e1], e2);
  }

  /** `count` adds up every plugin's distinct handlers, and is 0 for a name
      nobody listens to (test.ts:206-222). */
  lemma CountAcrossPlugins(h1: HandlerId, h2: HandlerId, h3: HandlerId)
    requires h1 != h2 && h1 != h3 && h2 != h3
    ensures var a := Use(NoHooks, Init(), FunctionPlugin([OnOp("foo", h1)], 0));
      var b := Use(NoHooks, a.g, FunctionPlugin([OnOp("foo", h2)], 0));
      var c := Use(NoHooks, b.g, FunctionPlugin([OnOp("foo", h3)], 0));
      Count(c.g, "foo") == 3 && Count(c.g, "bar") == 0
  {
    OneMoreListener(Init(), [], h1);
    var a := Use(NoHooks, Init(), FunctionPlugin([OnOp("foo", h1)], 0));
    assert [] + [h1] == [h1];
    TwoMoreListeners(a.g, h1, h2, h3);
  }

  /** Helper for CountAcrossPlugins: the second and third plugins. */
  lemma TwoMoreListeners(g: Global, h1: HandlerId, h2: HandlerId, h3: HandlerId)
    requires h1 != h2 && h1 != h3 && h2 != h3
    requires Get(g.events, "foo") == [h1] && g.backfill == map[] && "bar" !in g.events
    ensures var b := Use(NoHooks, g, FunctionPlugin([OnOp("foo", h2)], 0));
      var c := Use(NoHooks, b.g, FunctionPlugin([OnOp("foo", h3)], 0));
      Count(c.g, "foo") == 3 && Count(c.g, "bar") == 0
  {
    OneMoreListener(g, [h1], h2);
    var b := Use(NoHooks, g, FunctionPlugin([OnOp("foo", h2)], 0));
    OneMoreListener(b.g, [h1, h2], h3);
  }

  /** Helper for CountAcrossPlugins: a plugin adding a new listener to "foo". */
  lemma OneMoreListener(g: Global, hs: seq<HandlerId>, h: HandlerId)
    requires Get(g.events, "foo") == hs && h !in hs && g.backfill == map[] && "bar" !in g.events
    ensures var a := Use(NoHooks, g, FunctionPlugin([OnOp("foo", h)], 0));
      Get(a.g.events, "foo") == hs + [h] && a.g.backfill == map[] && "bar" !in a.g.events
  {
    ListenerLoaded(NoHooks, g, h);
  }

  /** The backfill copy shares its logs with the bus: a plugin that emits on
      a name it held at load and then listens to that name is replayed its
      own emission, although live delivery would have skipped it. */
  lemma OwnEmissionReplayed(h: HandlerId)
    ensures var a := Use(NoHooks, Init(), FunctionPlugin([EmitOp("foo", [1], false)], 0));
      Use(NoHooks, a.g, FunctionPlugin([EmitOp("foo", [2], false), OnOp("foo", h)], 0)).calls
        == [CallPlugin, Invoke(h, [1]), Invoke(h, [2])]
  {
    RunSingle(NoHooks, Init(), Load(Init()), EmitOp("foo", [1], false));
    var a := Use(NoHooks, Init(), FunctionPlugin([EmitOp("foo", [1], false)], 0));
    assert a.g.events == map[] && Get(a.g.backfill, "foo") == [[1]];
    var e, o := EmitOp("foo", [2], false), OnOp("foo", h);
    var l0 := Load(a.g);
    var r1 := Run(NoHooks, a.g, l0, [e]);
    assert r1.calls == [] && Get(r1.g.backfill, "foo") == [[1], [2]] && "foo" in r1.l.pending by {
      RunSingle(NoHooks, a.g, l0, e);
    }
    assert [e] + [o] == [e, o];
    RunSnoc(NoHooks, a.g, l0, [e], o);
  }

  /** Self-exclusion is by handler identity: a handler another plugin
      registered is heard until the emitting plugin registers the same
      handler itself, and from then on it is skipped. */
  lemma SharedHandlerSkipped(h: HandlerId, x: Value, y: Value)
    ensures var a := Use(NoHooks, Init(), FunctionPlugin([OnOp("foo", h)], 0));
      Use(NoHooks, a.g, FunctionPlugin([EmitOp("foo", [x], false), OnOp("foo", h), EmitOp("foo", [y], false)], 0)).calls
        == [CallPlugin, Invoke(h, [x])]
  {
    ListenerLoaded(NoHooks, Init(), h);
    var a := Use(NoHooks, Init(), FunctionPlugin([OnOp("foo", h)], 0));
    assert Get(a.g.events, "foo") == [h] && a.g.backfill == map[];
    SharedRun(a.g, h, x, y);
  }

  /** Helper for SharedHandlerSkipped: the emitting plugin's calls, one at a time. */
  lemma SharedRun(g: Global, h: HandlerId, x: Value, y: Value)
    requires Get(g.events, "foo") == [h] && g.backfill == map[]
    ensures Run(NoHooks, g, Load(g), [EmitOp("foo", [x], false), OnOp("foo", h), EmitOp("foo", [y], false)]).calls
      == [Invoke(h, [x])]
  {
    var e1, o, e2 := EmitOp("foo", [x], false), OnOp("foo", h), EmitOp("foo", [y], false);
    var l0 := Load(g);
    assert [e1, o] + [e2] == [e1, o, e2];
    SharedRunTwo(g, h, x);
    var r := Run(NoHooks, g, l0, [e1, o]);
    assert Exec(NoHooks, r.g, r.l, e2).calls == [] by {
      BroadcastToOwnIsEmpty([h], [h], [y]);
    }
    RunSnoc(NoHooks, g, l0, [e1, o], e2);
  }

  /** Helper for SharedRun: after the first emission and the `on`. */
  lemma SharedRunTwo(g: Global, h: HandlerId, x: Value)
    requires Get(g.events, "foo") == [h] && g.backfill == map[]
    ensures var r := Run(NoHooks, g, Load(g), [EmitOp("foo", [x], false), OnOp("foo", h)]);
      r.calls == [Invoke(h, [x])] && Get(r.g.events, "foo") == [h] && Get(r.l.handlers, "foo") == [h]
  {
    var e1, o := EmitOp("foo", [x], false), OnOp("foo", h);
    var l0 := Load(g);
    RunSingle(NoHooks, g, l0, e1);
    assert Broadcast([h], [], [x]) == [Invoke(h, [x])];
    assert [e1] + [o] == [e1, o];
    RunSnoc(NoHooks, g, l0, [e1], o);
  }
}
