/** The vocabulary of the bus: event names, handler identities, argument
    tuples, and the calls the bus makes into user code. Handler functions are
    represented by opaque ids (JavaScript compares them by identity), and
    "calling a handler" becomes an entry in an output trace of `Call`s. */
module Delivery {
  import opened OrderedSet

  type Name = string
  /** A key of an object plugin, as `Object.keys` yields it. */
  type Key = string
  /** The identity of a handler function. */
  type HandlerId = nat
  /** Any value passed through the bus; the bus never inspects one. */
  type Value = int
  /** The arguments of one `emit`, as one tuple. */
  type Args = seq<Value>

  /** One call the bus makes into code it does not own. */
  datatype Call =
    | Invoke(handler: HandlerId, args: Args)       // an event handler runs with `args`
    | HandleEmit(name: Name, args: Args)           // `options.handleEmit` is consulted
    | CallPlugin                                   // a plugin function is called with its emitter
    | HandleReturn(value: Value)                   // `options.handleReturn` gets the plugin's result
    | HandleObject(key: Key, value: Value)         // `options.handleObject` gets one entry

  /** The handler calls of one delivered `emit`: the registered handlers in
      registration order, skipping those in the emitting plugin's own set.
      Every call runs a registered handler that is not the plugin's own,
      with exactly the emitted arguments, and there is at most one call per
      registered handler. */
  function Broadcast(handlers: seq<HandlerId>, own: seq<HandlerId>, args: Args): (calls: seq<Call>)
    ensures |calls| <= |handlers|
    ensures forall i :: 0 <= i < |calls| ==>
      calls[i].Invoke? && calls[i].handler in handlers && calls[i].handler !in own && calls[i].args == args
  {
    if handlers == [] then []
    else
      var init, h := handlers[..|handlers| - 1], handlers[|handlers| - 1];
      assert forall x :: x in init ==> x in handlers;
      Broadcast(init, own, args) + (if h in own then [] else [Invoke(h, args)])
  }

  /** The calls that replay a backfill log to one new handler: one per
      logged tuple, in logging order. */
  function Replay(handler: HandlerId, log: seq<Args>): (calls: seq<Call>)
    ensures |calls| == |log|
    ensures forall i :: 0 <= i < |log| ==> calls[i] == Invoke(handler, log[i])
  {
    if log == [] then []
    else Replay(handler, log[..|log| - 1]) + [Invoke(handler, log[|log| - 1])]
  }

  /** Over a duplicate-free registry, a broadcast calls each eligible handler
      exactly once and every other handler never. */
  lemma {:induction false} BroadcastOnce(handlers: seq<HandlerId>, own: seq<HandlerId>, args: Args, h: HandlerId)
    requires NoDup(handlers)
    ensures multiset(Broadcast(handlers, own, args))[Invoke(h, args)] ==
      if h in handlers && h !in own then 1 else 0
  {
    if handlers != [] {
      var n := |handlers| - 1;
      var init, last := handlers[..n], handlers[n];
      assert NoDup(init);
      assert last !in init by {
        forall k | 0 <= k < |init| ensures init[k] != last {
          assert init[k] == handlers[k];
        }
      }
      assert handlers == init + [last];
      BroadcastOnce(init, own, args, h);
    }
  }

  /** Deliveries follow registration order: the handlers registered before
      position k are all called before any handler registered from k on. */
  lemma {:induction false} BroadcastInRegistrationOrder(handlers: seq<HandlerId>, own: seq<HandlerId>, args: Args, k: nat)
    requires k <= |handlers|
    ensures Broadcast(handlers, own, args) ==
      Broadcast(handlers[..k], own, args) + Broadcast(handlers[k..], own, args)
  {
    if k == |handlers| {
      assert handlers[..k] == handlers;
      assert handlers[k..] == [];
    } else {
      var n := |handlers| - 1;
      var init, h := handlers[..n], handlers[n];
      var last: seq<Call> := if h in own then [] else [Invoke(h, args)];
      BroadcastInRegistrationOrder(init, own, args, k);
      assert init[..k] == handlers[..k];
      var tail := handlers[k..];
      assert tail[..|tail| - 1] == init[k..];
      assert tail[|tail| - 1] == h;
      assert Broadcast(tail, own, args) == Broadcast(init[k..], own, args) + last;
      assert Broadcast(handlers, own, args) == Broadcast(init, own, args) + last;
    }
  }

  /** A plugin whose own set holds every registered handler hears nothing:
      its emission calls no handler at all. */
  lemma {:induction false} BroadcastToOwnIsEmpty(handlers: seq<HandlerId>, own: seq<HandlerId>, args: Args)
    requires forall h :: h in handlers ==> h in own
    ensures Broadcast(handlers, own, args) == []
  {
    if handlers != [] {
      BroadcastToOwnIsEmpty(handlers[..|handlers| - 1], own, args);
    }
  }
}
