/** Event proxies: each holds the ordered list of entities registered to
    receive one native event type, and delivers an event to their script
    objects by calling the proxy's handler method on each.

    `BroadcastPythonEventProxy` delivers to every registered entity; the test
    suite's `CollisionEventProxy` (handler `on_collision`) delivers only to
    registered entities that take part in the collision.  Both use the
    default eligibility test: the script object has the handler attribute. */
module Proxies {
  import opened Ids
  import opened Values
  import opened Worlds

  datatype Delivery = Broadcast | Participants

  /** `delete_receiver` on a list: drop the first entry equal to `e`. */
  function RemoveFirst(s: seq<EntityId>, e: EntityId): seq<EntityId>
    decreases |s|
  {
    if s == [] then []
    else if s[0] == e then s[1..]
    else [s[0]] + RemoveFirst(s[1..], e)
  }

  /** Where `e` first occurs at `i`, exactly that entry goes and the others
      keep their order. */
  lemma {:induction false} RemoveFirstAt(s: seq<EntityId>, e: EntityId, i: nat)
    requires i < |s| && s[i] == e
    requires forall k | 0 <= k < i :: s[k] != e
    ensures RemoveFirst(s, e) == s[..i] + s[i + 1..]
    decreases i
  {
    if i > 0 {
      RemoveFirstAt(s[1..], e, i - 1);
      assert s[1..][..i - 1] == s[1..i];
      assert s[1..][i..] == s[i + 1..];
      assert [s[0]] + s[1..i] == s[..i];
    }
  }

  /** Removing an entity that is not registered changes nothing. */
  lemma {:induction false} RemoveFirstAbsent(s: seq<EntityId>, e: EntityId)
    requires e !in s
    ensures RemoveFirst(s, e) == s
    decreases |s|
  {
    if s != [] {
      RemoveFirstAbsent(s[1..], e);
      assert [s[0]] + s[1..] == s;
    }
  }

  /** Exactly one occurrence of `e` goes, when there is one. */
  lemma {:induction false} RemoveFirstCounts(s: seq<EntityId>, e: EntityId)
    ensures multiset(RemoveFirst(s, e)) == multiset(s) - multiset{e}
    decreases |s|
  {
    if s != [] {
      assert s == [s[0]] + s[1..];
      RemoveFirstCounts(s[1..], e);
    }
  }

  /** The delivery-time filter. */
  predicate Selected(d: Delivery, e: EntityId, ev: Event) {
    match d
    case Broadcast => true
    case Participants => ev.Collision? && (e == ev.a || e == ev.b)
  }

  /** The registered entities a delivery of `ev` reaches, in list order. */
  function Targets(d: Delivery, s: seq<EntityId>, ev: Event): seq<EntityId>
    decreases |s|
  {
    if s == [] then []
    else (if Selected(d, s[0], ev) then [s[0]] else []) + Targets(d, s[1..], ev)
  }

  lemma {:induction false} BroadcastReachesAll(s: seq<EntityId>, ev: Event)
    ensures Targets(Broadcast, s, ev) == s
    decreases |s|
  {
    if s != [] {
      BroadcastReachesAll(s[1..], ev);
      assert [s[0]] + s[1..] == s;
    }
  }

  /** Filtering keeps list order: it distributes over concatenation. */
  lemma {:induction false} TargetsConcat(d: Delivery, a: seq<EntityId>, b: seq<EntityId>, ev: Event)
    ensures Targets(d, a + b, ev) == Targets(d, a, ev) + Targets(d, b, ev)
    decreases |a|
  {
    if a == [] {
      assert a + b == b;
    } else {
      assert (a + b)[1..] == a[1..] + b;
      TargetsConcat(d, a[1..], b, ev);
    }
  }

  /** Each selected entity is reached as many times as it is registered,
      and no other entity is reached. */
  lemma {:induction false} TargetsCount(d: Delivery, s: seq<EntityId>, ev: Event, x: EntityId)
    ensures multiset(Targets(d, s, ev))[x] == if Selected(d, x, ev) then multiset(s)[x] else 0
    decreases |s|
  {
    if s != [] {
      assert s == [s[0]] + s[1..];
      TargetsCount(d, s[1..], ev, x);
    }
  }

  /** After `delete_receiver` of an entity registered once, no later
      delivery reaches it. */
  lemma DeletedNotReached(d: Delivery, s: seq<EntityId>, e: EntityId, ev: Event)
    requires multiset(s)[e] <= 1
    ensures e !in Targets(d, RemoveFirst(s, e), ev)
  {
    RemoveFirstCounts(s, e);
    TargetsCount(d, RemoveFirst(s, e), ev, e);
  }

  /** Delivering to one entity: find its script component and call the
      handler on the script object with the arguments (the event, for a
      proxy). */
  function Notify(w: World, py: Python, e: EntityId, name: string, args: seq<Value>): (o: Outcome<()>)
    ensures o.world.slots == w.slots && o.world.modules == w.modules && o.world.sysPath == w.sysPath
    ensures ScriptOf(w, e).None? ==> o == Failed(w, InvalidHandle)
    ensures o.Done? ==> o.world.calls == w.calls + [HandlerCall(w, e, name, args)]
    ensures o.world.calls == w.calls || o.world.calls == w.calls + [HandlerCall(w, e, name, args)]
  {
    match ScriptOf(w, e)
    case None => Failed(w, InvalidHandle)
    case Some(s) =>
      match CallMethod(w, py, OnValue(s.scriptObject), name, args)
      case Done(w', _) => Done(w', ())
      case Failed(w', err) => Failed(w', err)
  }

  /** Delivering to a list of entities in order; the first error aborts the
      rest. */
  function Deliver(w: World, py: Python, targets: seq<EntityId>, name: string, args: seq<Value>): Outcome<()>
    decreases |targets|
  {
    if targets == [] then Done(w, ())
    else
      match Notify(w, py, targets[0], name, args)
      case Failed(w', err) => Failed(w', err)
      case Done(w', _) => Deliver(w', py, targets[1..], name, args)
  }

  /** The call a delivery makes for entity `t`. */
  function HandlerCall(w: World, t: EntityId, name: string, args: seq<Value>): Call {
    var target := match ScriptOf(w, t) case Some(s) => s.scriptObject case None => NoneValue;
    Call(OnValue(target), name, args)
  }

  function HandlerCalls(w: World, targets: seq<EntityId>, name: string, args: seq<Value>): (r: seq<Call>)
    ensures |r| == |targets|
    ensures forall k | 0 <= k < |targets| :: r[k] == HandlerCall(w, targets[k], name, args)
    decreases |targets|
  {
    if targets == [] then [] else [HandlerCall(w, targets[0], name, args)] + HandlerCalls(w, targets[1..], name, args)
  }

  /** A delivery calls the handler once per target, in target order, on that
      target's script object, and makes no other call; an error stops it
      part way.  The entity table is untouched. */
  lemma {:induction false} DeliverCalls(w: World, py: Python, targets: seq<EntityId>, name: string, args: seq<Value>)
    ensures var o := Deliver(w, py, targets, name, args);
      && o.world.slots == w.slots && o.world.modules == w.modules && o.world.sysPath == w.sysPath
      && (o.Done? ==> o.world.calls == w.calls + HandlerCalls(w, targets, name, args))
      && w.calls <= o.world.calls <= w.calls + HandlerCalls(w, targets, name, args)
    decreases |targets|
  {
    if targets != [] {
      var t, tail := targets[0], targets[1..];
      var n := Notify(w, py, t, name, args);
      var first := HandlerCall(w, t, name, args);
      var rest := HandlerCalls(w, tail, name, args);
      assert HandlerCalls(w, targets, name, args) == [first] + rest;
      assert targets == [t] + tail;
      DeliverCons(w, py, t, tail, name, args);
      if n.Done? {
        DeliverCalls(n.world, py, tail, name, args);
        SameSlotsSameCalls(w, n.world, tail, name, args);
        ChainCalls(w.calls, first, rest, n.world.calls, Deliver(n.world, py, tail, name, args).world.calls);
      } else {
        StopCalls(w.calls, first, rest, n.world.calls);
      }
    }
  }

  /** The call trace of a delivery that went on after its first call. */
  lemma ChainCalls(c: seq<Call>, first: Call, rest: seq<Call>, c1: seq<Call>, c2: seq<Call>)
    requires c1 == c + [first] && c1 <= c2 <= c1 + rest
    ensures c <= c2 <= c + ([first] + rest)
    ensures c2 == c1 + rest ==> c2 == c + ([first] + rest)
  {
    assert c1 + rest == c + ([first] + rest);
    assert c <= c1;
  }

  /** The call trace of a delivery that stopped at its first target. */
  lemma StopCalls(c: seq<Call>, first: Call, rest: seq<Call>, c1: seq<Call>)
    requires c1 == c || c1 == c + [first]
    ensures c <= c1 <= c + ([first] + rest)
  {
    assert c + ([first] + rest) == (c + [first]) + rest;
  }

  lemma SameSlotsSameCalls(w: World, w': World, targets: seq<EntityId>, name: string, args: seq<Value>)
    requires w'.slots == w.slots
    ensures HandlerCalls(w', targets, name, args) == HandlerCalls(w, targets, name, args)
  {
    assert forall t :: ScriptOf(w', t) == ScriptOf(w, t);
  }

  /** One unfolding step of a delivery to `[t] + rest`. */
  lemma DeliverCons(w: World, py: Python, t: EntityId, rest: seq<EntityId>, name: string, args: seq<Value>)
    ensures var n := Notify(w, py, t, name, args);
      Deliver(w, py, [t] + rest, name, args) == if n.Failed? then n else Deliver(n.world, py, rest, name, args)
  {
    assert ([t] + rest)[1..] == rest;
  }

  class EventProxy {
    /** The handler method called on each script object. */
    const handlerName: string
    const delivery: Delivery
    /** The registered receivers (`entities`), in registration order. */
    var entities: seq<EntityId>

    /** `BroadcastPythonEventProxy<Event>(handler_name)`. */
    constructor Broadcasting(handlerName: string)
      ensures this.handlerName == handlerName && delivery == Broadcast && entities == []
    {
      this.handlerName := handlerName;
      delivery := Broadcast;
      entities := [];
    }

    /** The test suite's `CollisionEventProxy()`. */
    constructor Collision()
      ensures handlerName == "on_collision" && delivery == Participants && entities == []
    {
      handlerName := "on_collision";
      delivery := Participants;
      entities := [];
    }

    /** `can_send(object)`: the script object has the handler attribute. */
    predicate CanSend(s: Store, scriptObject: Value)
      ensures CanSend(s, scriptObject) <==>
        && scriptObject.ObjValue? && scriptObject.ref in s.heap
        && (handlerName in s.heap[scriptObject.ref].attrs || Lookup(s.heap[scriptObject.ref].cls, handlerName).Some?)
    {
      ValueHasAttr(s, scriptObject, handlerName)
    }

    /** `can_send` is exactly the condition under which delivering to an
        entity reaches its script code: when it holds the handler is called,
        and when it fails the handler lookup raises AttributeError. */
    lemma CanSendIffHandlerCalled(w: World, py: Python, e: EntityId, ev: Event)
      requires ScriptOf(w, e).Some?
      ensures var n := Notify(w, py, e, handlerName, [EventValue(ev)]);
        && (CanSend(w.store, ScriptOf(w, e).value.scriptObject) <==>
              n.world.calls == w.calls + [HandlerCall(w, e, handlerName, [EventValue(ev)])])
        && (!CanSend(w.store, ScriptOf(w, e).value.scriptObject) ==> n == Failed(w, AttributeError(handlerName)))
    {
      var s := ScriptOf(w, e).value;
      var c := CallMethod(w, py, OnValue(s.scriptObject), handlerName, [EventValue(ev)]);
      assert CalleeHasAttr(w.store, OnValue(s.scriptObject), handlerName) == CanSend(w.store, s.scriptObject);
    }

    /** `add_receiver`: append, duplicates included. */
    method AddReceiver(e: EntityId)
      modifies this
      ensures entities == old(entities) + [e]
    {
      entities := entities + [e];
    }

    /** `delete_receiver`: erase the first equal entry, if any. */
    method DeleteReceiver(e: EntityId)
      modifies this
      ensures entities == RemoveFirst(old(entities), e)
    {
      var i := 0;
      while i < |entities|
        invariant 0 <= i <= |entities|
        invariant entities == old(entities)
        invariant forall k | 0 <= k < i :: entities[k] != e
      {
        if entities[i] == e {
          RemoveFirstAt(entities, e, i);
          entities := entities[..i] + entities[i + 1..];
          return;
        }
        i := i + 1;
      }
      RemoveFirstAbsent(entities, e);
    }

    /** `receive(event)`: walk the registered entities in order and deliver
        to those the proxy selects. */
    method Receive(w: World, py: Python, ev: Event) returns (o: Outcome<()>)
      ensures o == Deliver(w, py, Targets(delivery, entities, ev), handlerName, [EventValue(ev)])
    {
      var cur := w;
      var i := 0;
      while i < |entities|
        invariant 0 <= i <= |entities|
        invariant Deliver(w, py, Targets(delivery, entities, ev), handlerName, [EventValue(ev)])
               == Deliver(cur, py, Targets(delivery, entities[i..], ev), handlerName, [EventValue(ev)])
      {
        var e := entities[i];
        assert entities[i..] == [e] + entities[i + 1..];
        assert entities[i..][1..] == entities[i + 1..];
        assert Targets(delivery, entities[i..], ev)
            == (if Selected(delivery, e, ev) then [e] else []) + Targets(delivery, entities[i + 1..], ev);
        if Selected(delivery, e, ev) {
          DeliverCons(cur, py, e, Targets(delivery, entities[i + 1..], ev), handlerName, [EventValue(ev)]);
          var r := Notify(cur, py, e, handlerName, [EventValue(ev)]);
          if r.Failed? {
            return r;
          }
          cur := r.world;
        } else {
          assert [] + Targets(delivery, entities[i + 1..], ev) == Targets(delivery, entities[i + 1..], ev);
        }
        i := i + 1;
      }
      o := Done(cur, ());
    }
  }
}
