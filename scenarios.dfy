/** The bridge and the script-side layer together, and the test suite's
    scenarios: a script component created natively is realized through
    `_from_raw_entity` before `assign` returns, its constructor arguments
    reach `__init__`, collision events reach only the participants, and an
    update reaches every scripted entity. */
module Scenarios {
  import opened Options
  import opened Ids
  import opened Values
  import opened Scripts
  import opened Worlds
  import opened Proxies
  import opened Bridge
  import opened Components
  import opened Metaclass
  import opened Entities

  /** The interpreter with the convenience layer loaded: a call of a
      script class's `_from_raw_entity` runs `Entity._from_raw_entity`
      (building components with `construct`, iterating each class's table
      in the order `orderOf` gives); every other call is the user's script
      code. */
  function Layered(user: Python, orderOf: PyClass -> seq<string>, construct: Construct): Python {
    (s: Store, c: Call) =>
      if c.callee.OnClass? && c.attr == "_from_raw_entity" then
        FromRawEntity(s, user, c.callee.cls, c.args, orderOf(c.callee.cls), construct)
      else user(s, c)
  }

  /** With constructors that succeed, the component loop completes. */
  lemma {:induction false} BuildAllCompletes(s: Store, ref: ObjRef, id: EntityId, t: map<string, ComponentDescriptor>,
                                             order: seq<string>, construct: Construct)
    requires ref in s.heap
    requires forall d :: construct(d).Ok?
    ensures BuildAll(s, ref, id, t, order, construct).Returned?
    decreases |order|
  {
    if order != [] {
      if order[0] !in t {
        BuildAllCompletes(s, ref, id, t, order[1..], construct);
      } else {
        var d := t[order[0]];
        if ComponentKey(id, d.ctype) !in s.components {
          BuildAbsent(s, d, id, construct);
        }
        var b := Build(s, d, id, construct);
        BuildAllCompletes(SetAttr(b.store, ref, order[0], b.value), ref, id, t, order[1..], construct);
      }
    }
  }

  /** The realization call forwards the component's arguments after the
      entity id, in order. */
  lemma RealizeForwardsArguments(w: World, e: EntityId, py: Python, moduleName: string, className: string, args: seq<Value>)
    requires ScriptOf(w, e) == Some(FromClass(moduleName, className, args))
    requires moduleName in w.modules && className in w.modules[moduleName]
    requires Lookup(w.modules[moduleName][className], "_from_raw_entity").Some?
    ensures Realize(w, e, py).world.calls
         == w.calls + [Call(OnClass(w.modules[moduleName][className]), "_from_raw_entity", [IdValue(e)] + args)]
  {
  }

  /** "Component added" with the layer loaded: once `assign` of a script
      component returns, its object is a fresh instance of the script class
      bound to the entity, and every component the class declares exists
      on the entity (here with constructors that succeed and the default,
      do-nothing `__init__`). */
  lemma RealizationIsSynchronous(w: World, e: EntityId, user: Python, orderOf: PyClass -> seq<string>,
                                 construct: Construct, t: map<string, ComponentDescriptor>)
    requires ScriptOf(w, e).Some? && !Truthy(ScriptOf(w, e).value.scriptObject)
    requires var s := ScriptOf(w, e).value; s.moduleName in w.modules && s.className in w.modules[s.moduleName]
    requires var s := ScriptOf(w, e).value; var cls := w.modules[s.moduleName][s.className];
      && Lookup(cls, "_from_raw_entity").Some? && Lookup(cls, "__init__").Some?
      && Lookup(cls, COMPONENTS) == Some(Table(t)) && Covers(orderOf(cls), t) && ENTITY_ID !in t
      && (forall st: Store, args: seq<Value> :: user(st, Call(OnClass(cls), "__init__", args)) == Returned(st, NoneValue))
    requires StoreOk(w.store) && forall d :: construct(d).Ok?
    ensures var o := Realize(w, e, Layered(user, orderOf, construct));
      && o.Done? && ScriptOf(o.world, e).Some?
      && var v := ScriptOf(o.world, e).value.scriptObject;
      && v == ObjValue(w.store.nextRef) && v.ref in o.world.store.heap
      && ENTITY_ID in o.world.store.heap[v.ref].attrs && o.world.store.heap[v.ref].attrs[ENTITY_ID] == IdValue(e)
      && forall k | k in t :: ComponentKey(e, t[k].ctype) in o.world.store.components
  {
    var s := ScriptOf(w, e).value;
    var cls := w.modules[s.moduleName][s.className];
    var py := Layered(user, orderOf, construct);
    var order := orderOf(cls);
    var ref := w.store.nextRef;
    var s1 := SetAttr(Allocate(w.store, cls), ref, ENTITY_ID, IdValue(e));
    BuildAllCompletes(s1, ref, e, t, order, construct);
    BindNewBinds(w.store, cls, e, order, construct, t);
    var b := BindNew(w.store, cls, e, order, construct);
    var args := [IdValue(e)] + s.args;
    assert args[1..] == s.args;
    assert b == Returned(b.store, ObjValue(ref));
    assert user(b.store, Call(OnClass(cls), "__init__", [b.value] + args[1..])) == Returned(b.store, NoneValue);
    assert FromRawEntity(w.store, user, cls, args, order, construct) == Returned(b.store, ObjValue(ref));
    assert py(w.store, Call(OnClass(cls), "_from_raw_entity", args)) == FromRawEntity(w.store, user, cls, args, order, construct);
    var call := CallMethod(w, py, OnClass(cls), "_from_raw_entity", args);
    assert call.Done? && call.value == ObjValue(ref) && call.world.store == b.store;
    RealizeKeepsScripts(w, e, py);
  }

  // The event delivery test: three entities f, e, g with `EventTest`
  // scripts, registered with the collision proxy in the order e, f, g.

  const F := EntityId(0, 1)
  const E := EntityId(1, 1)
  const G := EntityId(2, 1)

  const EVENT_TEST := PyClass("entityx.tests.event_test", "EventTest", [],
                              map["on_collision" := Method, "collided" := Data(BoolValue(false))])

  function EventScene(): World {
    World([Slot(1, true, Some(FromObject(ObjValue(0)))),
           Slot(1, true, Some(FromObject(ObjValue(1)))),
           Slot(1, true, Some(FromObject(ObjValue(2))))],
          map[], [],
          Store(map[0 := PyObject(EVENT_TEST, map[]), 1 := PyObject(EVENT_TEST, map[]), 2 := PyObject(EVENT_TEST, map[])], 3, map[]),
          [])
  }

  /** The script's `on_collision` handler: `self.collided = True`. */
  function Collider(): Python {
    (s: Store, c: Call) =>
      if c.attr == "on_collision" && c.callee.OnValue? && c.callee.target.ObjValue? && c.callee.target.ref in s.heap
      then Returned(SetAttr(s, c.callee.target.ref, "collided", BoolValue(true)), NoneValue)
      else Returned(s, NoneValue)
  }

  /** `script.object.collided` is true. */
  predicate Flagged(w: World, e: EntityId, flag: string) {
    && ScriptOf(w, e).Some?
    && var v := ScriptOf(w, e).value.scriptObject;
    && v.ObjValue? && v.ref in w.store.heap
    && flag in w.store.heap[v.ref].attrs && w.store.heap[v.ref].attrs[flag] == BoolValue(true)
  }

  function Collide(w: World, a: EntityId, b: EntityId): Outcome<()> {
    Deliver(w, Collider(), Targets(Participants, [E, F, G], Collision(a, b)), "on_collision", [EventValue(Collision(a, b))])
  }

  /** Each entity is registered with the collision proxy: its script object
      has `on_collision`. */
  lemma SceneCanSend()
    ensures forall x | x in [F, E, G] :: ValueHasAttr(EventScene().store, ScriptOf(EventScene(), x).value.scriptObject, "on_collision")
  {
  }

  /** Delivering a collision to an entity whose script object (at `r`) has
      the handler flags that object and nothing else. */
  lemma NotifyFlags(w: World, x: EntityId, r: ObjRef, ev: Event)
    requires ScriptOf(w, x) == Some(FromObject(ObjValue(r))) && r in w.store.heap
    requires HasAttr(w.store.heap[r], "on_collision")
    ensures var n := Notify(w, Collider(), x, "on_collision", [EventValue(ev)]);
      && n.Done? && n.world.slots == w.slots
      && n.world.store == SetAttr(w.store, r, "collided", BoolValue(true))
  {
    var call := Call(OnValue(ObjValue(r)), "on_collision", [EventValue(ev)]);
    assert Collider()(w.store, call) == Returned(SetAttr(w.store, r, "collided", BoolValue(true)), NoneValue);
  }

  /** Delivering a collision to one entity whose script object has the
      handler flags that object. */
  lemma DeliverToOne(w: World, y: EntityId, ry: ObjRef, ev: Event)
    requires ScriptOf(w, y) == Some(FromObject(ObjValue(ry))) && ry in w.store.heap
    requires HasAttr(w.store.heap[ry], "on_collision")
    ensures var o := Deliver(w, Collider(), [y], "on_collision", [EventValue(ev)]);
      && o.Done? && o.world.slots == w.slots
      && o.world.store == SetAttr(w.store, ry, "collided", BoolValue(true))
  {
    NotifyFlags(w, y, ry, ev);
    assert [y] == [y] + [];
    DeliverCons(w, Collider(), y, [], "on_collision", [EventValue(ev)]);
  }

  /** Delivering a collision to two entities whose script objects have the
      handler flags both objects, in that order. */
  lemma DeliverToTwo(w: World, x: EntityId, rx: ObjRef, y: EntityId, ry: ObjRef, ev: Event)
    requires ScriptOf(w, x) == Some(FromObject(ObjValue(rx))) && ScriptOf(w, y) == Some(FromObject(ObjValue(ry)))
    requires rx in w.store.heap && ry in w.store.heap
    requires HasAttr(w.store.heap[rx], "on_collision") && HasAttr(w.store.heap[ry], "on_collision")
    ensures var o := Deliver(w, Collider(), [x, y], "on_collision", [EventValue(ev)]);
      && o.Done? && o.world.slots == w.slots
      && o.world.store == SetAttr(SetAttr(w.store, rx, "collided", BoolValue(true)), ry, "collided", BoolValue(true))
  {
    NotifyFlags(w, x, rx, ev);
    var w1 := Notify(w, Collider(), x, "on_collision", [EventValue(ev)]).world;
    assert [x, y] == [x] + [y];
    DeliverCons(w, Collider(), x, [y], "on_collision", [EventValue(ev)]);
    assert w1.store.heap[ry].cls == w.store.heap[ry].cls;
    DeliverToOne(w1, y, ry, ev);
  }

  /** The collision proxy's filter over the registration order e, f, g. */
  lemma CollisionTargets()
    ensures Targets(Participants, [E, F, G], Collision(F, G)) == [F, G]
    ensures Targets(Participants, [E, F, G], Collision(E, F)) == [E, F]
  {
    assert [E, F, G][1..] == [F, G] && [F, G][1..] == [G] && [G][1..] == [];
    assert Targets(Participants, [G], Collision(F, G)) == [G];
    assert Targets(Participants, [F, G], Collision(F, G)) == [F, G];
    assert Targets(Participants, [G], Collision(E, F)) == [];
    assert Targets(Participants, [F, G], Collision(E, F)) == [F];
  }

  /** Emitting `Collision(f, g)` flags f and not e; emitting `Collision(e, f)`
      afterwards flags e and f stays flagged. */
  lemma EventDeliveryScenario()
    ensures !Flagged(EventScene(), E, "collided") && !Flagged(EventScene(), F, "collided")
    ensures Collide(EventScene(), F, G).Done?
    ensures var w1 := Collide(EventScene(), F, G).world;
      && Flagged(w1, F, "collided") && !Flagged(w1, E, "collided")
      && Collide(w1, E, F).Done?
      && Flagged(Collide(w1, E, F).world, E, "collided") && Flagged(Collide(w1, E, F).world, F, "collided")
  {
    var w0 := EventScene();
    CollisionTargets();
    // Collision(f, g): f's object (0), then g's object (2).
    DeliverToTwo(w0, F, 0, G, 2, Collision(F, G));
    var w1 := Collide(w0, F, G).world;
    assert w1.store.heap[1] == w0.store.heap[1];
    assert w1.store.heap[0].attrs["collided"] == BoolValue(true);
    // Collision(e, f): e's object (1), then f's object (0).
    DeliverToTwo(w1, E, 1, F, 0, Collision(E, F));
    var w2 := Collide(w1, E, F).world;
    assert w2.store.heap[0].attrs["collided"] == BoolValue(true);
    assert w2.store.heap[1].attrs["collided"] == BoolValue(true);
  }

  /** Adding the script component of a test entity (whose object is
      already realized) registers it with the collision proxy. */
  method Register(sys: PythonSystem, p: EventProxy, x: EntityId, ref: ObjRef)
    requires sys.Valid() && sys.proxies == [p] && p.handlerName == "on_collision"
    requires ScriptOf(EventScene(), x) == Some(FromObject(ObjValue(ref))) && ref in EventScene().store.heap
    modifies p
    ensures p.entities == old(p.entities) + [x]
  {
    var w := EventScene();
    assert p.CanSend(w.store, ObjValue(ref));
    assert Realize(w, x, Collider()) == Done(w, ());
    var r := sys.ReceiveComponentAdded(w, x, Collider());
    assert r.Done? && r.world == w && sys.proxies[0] == p;
  }

  /** The set-up of the event delivery test: a system with the collision
      proxy, and the script components of e, f and g added in that order. */
  method RegisterScene() returns (p: EventProxy)
    ensures fresh(p) && p.handlerName == "on_collision" && p.delivery == Participants
    ensures p.entities == [E, F, G]
  {
    var sys := new PythonSystem();
    p := new EventProxy.Collision();
    sys.AddCustomEventProxy(p);
    Register(sys, p, E, 1);
    Register(sys, p, F, 0);
    Register(sys, p, G, 2);
  }

  /** The event delivery test end to end: a system with the collision
      proxy; the script components of e, f and g are added in that order
      (each already holding its realized object), which registers them;
      then `Collision(f, g)` and `Collision(e, f)` are emitted. */
  method EventDeliveryTest() returns (p: EventProxy, w1: World, w2: World)
    ensures p.entities == [E, F, G]
    ensures !Flagged(EventScene(), E, "collided") && !Flagged(EventScene(), F, "collided")
    ensures Flagged(w1, F, "collided") && !Flagged(w1, E, "collided")
    ensures Flagged(w2, E, "collided") && Flagged(w2, F, "collided")
  {
    p := RegisterScene();
    var w := EventScene();
    EventDeliveryScenario();
    var o1 := p.Receive(w, Collider(), Collision(F, G));
    w1 := o1.world;
    var o2 := p.Receive(w1, Collider(), Collision(E, F));
    w2 := o2.world;
  }

  // The update test: one entity with an `UpdateTest` script.

  const UPDATE_TEST := PyClass("entityx.tests.update_test", "UpdateTest", [],
                               map["update" := Method, "updated" := Data(BoolValue(false))])

  function UpdateScene(): World {
    World([Slot(1, true, Some(FromObject(ObjValue(0))))], map[], [],
          Store(map[0 := PyObject(UPDATE_TEST, map[])], 1, map[]), [])
  }

  /** The script's `update(dt)`: `self.updated = True`. */
  function Updater(): Python {
    (s: Store, c: Call) =>
      if c.attr == "update" && c.callee.OnValue? && c.callee.target.ObjValue? && c.callee.target.ref in s.heap
      then Returned(SetAttr(s, c.callee.target.ref, "updated", BoolValue(true)), NoneValue)
      else Returned(s, NoneValue)
  }

  /** `updated` is false after assignment and true after one update. */
  lemma UpdateScenario(dt: Value)
    ensures !Flagged(UpdateScene(), F, "updated")
    ensures Deliver(UpdateScene(), Updater(), Scripted(UpdateScene().slots, 0), "update", [dt]).Done?
    ensures Flagged(Deliver(UpdateScene(), Updater(), Scripted(UpdateScene().slots, 0), "update", [dt]).world, F, "updated")
  {
    assert Scripted(UpdateScene().slots, 0) == [F];
  }
}
