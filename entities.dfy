/** The script-side `Entity` base class: binding a new script object to an
    entity (a fresh one, or the one given by `entity_id`), building every
    declared component on it, `_from_raw_entity` (the hook the bridge calls
    to realize a script component created natively) and `__repr__`. */
module Entities {
  import opened Options
  import opened Ids
  import opened Values
  import opened Scripts
  import opened Worlds
  import opened Bridge
  import opened Components
  import opened Metaclass

  const ENTITY_ID := "_entity_id"

  /** `setattr(obj, k, v)` on an instance in the heap. */
  function SetAttr(s: Store, ref: ObjRef, k: string, v: Value): (r: Store)
    requires ref in s.heap
    ensures r.heap.Keys == s.heap.Keys && r.nextRef == s.nextRef && r.components == s.components
    ensures r.heap[ref] == s.heap[ref].(attrs := s.heap[ref].attrs[k := v])
    ensures forall q | q in s.heap && q != ref :: r.heap[q] == s.heap[q]
  {
    s.(heap := s.heap[ref := s.heap[ref].(attrs := s.heap[ref].attrs[k := v])])
  }

  /** `_entityx.Entity.__new__(cls)`: a new instance of `cls` with no
      attributes, at the next free reference. */
  function Allocate(s: Store, cls: PyClass): (r: Store)
    ensures r.nextRef == s.nextRef + 1 && s.nextRef in r.heap && r.heap[s.nextRef] == PyObject(cls, map[])
    ensures r.components == s.components
    ensures forall q | q in s.heap && q != s.nextRef :: q in r.heap && r.heap[q] == s.heap[q]
    ensures StoreOk(s) ==> StoreOk(r) && s.nextRef !in s.heap && r.heap.Keys == s.heap.Keys + {s.nextRef}
  {
    s.(heap := s.heap[s.nextRef := PyObject(cls, map[])], nextRef := s.nextRef + 1)
  }

  /** The loop of `__new__`: for each key of the class's `_components` table,
      in the table's iteration order `order`, build the component and set
      it as the instance attribute of that name. */
  function BuildAll(s: Store, ref: ObjRef, id: EntityId, t: map<string, ComponentDescriptor>,
                    order: seq<string>, construct: Construct): (r: Reply)
    requires ref in s.heap
    ensures r.store.heap.Keys == s.heap.Keys && r.store.nextRef == s.nextRef
    decreases |order|
  {
    if order == [] then Returned(s, ObjValue(ref))
    else if order[0] !in t then BuildAll(s, ref, id, t, order[1..], construct)
    else
      match Build(s, t[order[0]], id, construct)
      case Threw(s', err) => Threw(s', err)
      case Returned(s', c) => BuildAll(SetAttr(s', ref, order[0], c), ref, id, t, order[1..], construct)
  }

  /** What the loop leaves alone: other objects, the instance's class, the
      attributes it does not visit, and every component that already
      existed. */
  lemma {:induction false} BuildAllFrame(s: Store, ref: ObjRef, id: EntityId, t: map<string, ComponentDescriptor>,
                                         order: seq<string>, construct: Construct)
    requires ref in s.heap
    ensures var r := BuildAll(s, ref, id, t, order, construct);
      && r.store.heap.Keys == s.heap.Keys && r.store.nextRef == s.nextRef
      && r.store.heap[ref].cls == s.heap[ref].cls
      && (r.Returned? ==> r.value == ObjValue(ref))
      && (forall q | q in s.heap && q != ref :: r.store.heap[q] == s.heap[q])
      && (forall k | k in s.components :: k in r.store.components && r.store.components[k] == s.components[k])
      && (forall a | a in s.heap[ref].attrs && a !in order ::
            a in r.store.heap[ref].attrs && r.store.heap[ref].attrs[a] == s.heap[ref].attrs[a])
    decreases |order|
  {
    if order != [] {
      if order[0] !in t {
        BuildAllFrame(s, ref, id, t, order[1..], construct);
      } else {
        var b := Build(s, t[order[0]], id, construct);
        BuildKeepsComponents(s, t[order[0]], id, construct);
        if b.Returned? {
          var s' := SetAttr(b.store, ref, order[0], b.value);
          BuildAllFrame(s', ref, id, t, order[1..], construct);
        }
      }
    }
  }

  /** A loop that completes has set every key it visits to the entity's
      component of the declared type, and that component exists. */
  lemma {:induction false} BuildAllSetsEvery(s: Store, ref: ObjRef, id: EntityId, t: map<string, ComponentDescriptor>,
                                             order: seq<string>, construct: Construct, k: string)
    requires ref in s.heap && BuildAll(s, ref, id, t, order, construct).Returned?
    requires k in order && k in t
    ensures var r := BuildAll(s, ref, id, t, order, construct);
      && k in r.store.heap[ref].attrs
      && r.store.heap[ref].attrs[k] == ComponentRef(ComponentKey(id, t[k].ctype))
      && ComponentKey(id, t[k].ctype) in r.store.components
    decreases |order|
  {
    if order[0] !in t {
      BuildAllSetsEvery(s, ref, id, t, order[1..], construct, k);
    } else {
      var b := Build(s, t[order[0]], id, construct);
      var s' := SetAttr(b.store, ref, order[0], b.value);
      if k in order[1..] {
        BuildAllSetsEvery(s', ref, id, t, order[1..], construct, k);
      } else {
        BuildAllFrame(s', ref, id, t, order[1..], construct);
      }
    }
  }

  /** `Entity.__new__(cls, entity_id=id)`: allocate the instance, bind it to
      `id` (`_entityx.Entity.__init__`), then build the declared components. */
  function BindNew(s: Store, cls: PyClass, id: EntityId, order: seq<string>, construct: Construct): Reply {
    var ref := s.nextRef;
    var s1 := SetAttr(Allocate(s, cls), ref, ENTITY_ID, IdValue(id));
    match Lookup(cls, COMPONENTS)
    case Some(Table(t)) => BuildAll(s1, ref, id, t, order, construct)
    case None => Threw(s1, AttributeError(COMPONENTS))
    case Some(_) => Threw(s1, TypeError)
  }

  /** Iterating the table `t` visits each of its keys. */
  predicate Covers(order: seq<string>, t: map<string, ComponentDescriptor>) {
    forall k | k in t :: k in order
  }

  /** A completed `__new__` returns a fresh instance of `cls` bound to `id`
      that holds, under every declared name, the entity's component of the
      declared type; components that existed are kept, other objects are
      untouched. */
  lemma BindNewBinds(s: Store, cls: PyClass, id: EntityId, order: seq<string>, construct: Construct,
                     t: map<string, ComponentDescriptor>)
    requires StoreOk(s) && Lookup(cls, COMPONENTS) == Some(Table(t))
    requires Covers(order, t) && ENTITY_ID !in t
    requires BindNew(s, cls, id, order, construct).Returned?
    ensures var r := BindNew(s, cls, id, order, construct);
      && r.value == ObjValue(s.nextRef) && s.nextRef !in s.heap
      && s.nextRef in r.store.heap && r.store.heap[s.nextRef].cls == cls
      && ENTITY_ID in r.store.heap[s.nextRef].attrs && r.store.heap[s.nextRef].attrs[ENTITY_ID] == IdValue(id)
      && (forall k | k in t ::
            && k in r.store.heap[s.nextRef].attrs
            && r.store.heap[s.nextRef].attrs[k] == ComponentRef(ComponentKey(id, t[k].ctype))
            && ComponentKey(id, t[k].ctype) in r.store.components)
      && (forall c | c in s.components :: c in r.store.components && r.store.components[c] == s.components[c])
      && (forall q | q in s.heap :: q in r.store.heap && r.store.heap[q] == s.heap[q])
  {
    var ref := s.nextRef;
    var s1 := SetAttr(Allocate(s, cls), ref, ENTITY_ID, IdValue(id));
    BuildAllFrame(s1, ref, id, t, order, construct);
    forall k | k in t
      ensures var r := BuildAll(s1, ref, id, t, order, construct);
        && k in r.store.heap[ref].attrs
        && r.store.heap[ref].attrs[k] == ComponentRef(ComponentKey(id, t[k].ctype))
        && ComponentKey(id, t[k].ctype) in r.store.components
    {
      BuildAllSetsEvery(s1, ref, id, t, order, construct, k);
    }
    if ENTITY_ID in order {
      // the key is not in the table, so the loop never sets it
      BuildAllKeepsUnlisted(s1, ref, id, t, order, construct, ENTITY_ID);
    }
  }

  /** Keys listed in the iteration order but absent from the table are not
      touched either. */
  lemma {:induction false} BuildAllKeepsUnlisted(s: Store, ref: ObjRef, id: EntityId, t: map<string, ComponentDescriptor>,
                                                 order: seq<string>, construct: Construct, a: string)
    requires ref in s.heap && a !in t && a in s.heap[ref].attrs
    ensures var r := BuildAll(s, ref, id, t, order, construct);
      a in r.store.heap[ref].attrs && r.store.heap[ref].attrs[a] == s.heap[ref].attrs[a]
    decreases |order|
  {
    if order != [] {
      if order[0] !in t {
        BuildAllKeepsUnlisted(s, ref, id, t, order[1..], construct, a);
      } else {
        var b := Build(s, t[order[0]], id, construct);
        if b.Returned? {
          BuildAllKeepsUnlisted(SetAttr(b.store, ref, order[0], b.value), ref, id, t, order[1..], construct, a);
        }
      }
    }
  }

  /** `Entity.__new__(cls, *args, entity_id=...)`: without an id a new
      entity is created for the instance through the entity manager's
      `configure` (which registers it with the proxies that can send to it);
      with one, the instance is bound to it and nothing is created.  Either
      way the declared components are then built and set, one by one. */
  method EntityNew(sys: PythonSystem, w: World, py: Python, cls: PyClass, entityId: Option<EntityId>,
                   order: seq<string>, construct: Construct) returns (o: Outcome<Value>)
    requires sys.Valid() && StoreOk(w.store)
    requires entityId.None? ==> |w.slots| < ID_LIMIT
    modifies sys.proxies
    ensures var id := if entityId.Some? then entityId.value else EntityId(|w.slots|, 1);
      var b := BindNew(w.store, cls, id, order, construct);
      && o.world.store == b.store
      && (o.Done? <==> b.Returned?)
      && (o.Done? ==> o.value == b.value)
      && (o.Failed? ==> o.error == b.error)
    ensures o.world.calls == w.calls && o.world.modules == w.modules && o.world.sysPath == w.sysPath
    ensures entityId.Some? ==> o.world.slots == w.slots
    ensures entityId.Some? ==> forall k | 0 <= k < |sys.proxies| :: sys.proxies[k].entities == old(sys.proxies[k].entities)
    ensures entityId.None? ==> o.world.slots == w.slots + [Slot(1, true, Some(FromObject(ObjValue(w.store.nextRef))))]
    ensures entityId.None? ==> forall k | 0 <= k < |sys.proxies| ::
      sys.proxies[k].entities == old(sys.proxies[k].entities)
        + (if sys.proxies[k].CanSend(Allocate(w.store, cls), ObjValue(w.store.nextRef)) then [EntityId(|w.slots|, 1)] else [])
  {
    var ref := w.store.nextRef;
    var cur := w.(store := Allocate(w.store, cls));
    var id: EntityId;
    if entityId.None? {
      var c := EntityManagerConfigure(sys, cur, ObjValue(ref), py);
      cur, id := c.world, c.value;
    } else {
      id := entityId.value;
    }
    cur := cur.(store := SetAttr(cur.store, ref, ENTITY_ID, IdValue(id)));
    var components := Lookup(cls, COMPONENTS);
    if components.None? {
      return Failed(cur, AttributeError(COMPONENTS));
    }
    if !components.value.Table? {
      return Failed(cur, TypeError);
    }
    o := BuildComponents(cur, ref, id, components.value.components, order, construct);
  }

  /** The component loop of `Entity.__new__`: for each key of the table in
      iteration order, build the component and set it on the instance; the
      first error stops the loop.  Only the store changes. */
  method BuildComponents(w: World, ref: ObjRef, id: EntityId, t: map<string, ComponentDescriptor>,
                         order: seq<string>, construct: Construct) returns (o: Outcome<Value>)
    requires ref in w.store.heap
    ensures var b := BuildAll(w.store, ref, id, t, order, construct);
      && o.world == w.(store := b.store)
      && (o.Done? <==> b.Returned?)
      && (o.Done? ==> o.value == b.value)
      && (o.Failed? ==> o.error == b.error)
  {
    var cur := w;
    var i := 0;
    while i < |order|
      invariant 0 <= i <= |order|
      invariant ref in cur.store.heap
      invariant cur == w.(store := cur.store)
      invariant BuildAll(w.store, ref, id, t, order, construct) == BuildAll(cur.store, ref, id, t, order[i..], construct)
    {
      var k := order[i];
      assert order[i..][1..] == order[i + 1..];
      if k in t {
        var b := Build(cur.store, t[k], id, construct);
        if b.Threw? {
          return Failed(cur.(store := b.store), b.error);
        }
        cur := cur.(store := SetAttr(b.store, ref, k, b.value));
      }
      i := i + 1;
    }
    o := Done(cur, ObjValue(ref));
  }

  /** `Entity._from_raw_entity(cls, entity_id, *args)`: bind a new instance
      to `entity_id`, then call `cls.__init__(self, *args)`; the instance is
      the result. */
  function FromRawEntity(s: Store, py: Python, cls: PyClass, args: seq<Value>, order: seq<string>, construct: Construct): (r: Reply)
    ensures |args| > 0 && args[0].IdValue? && BindNew(s, cls, args[0].id, order, construct).Threw? ==>
      r == BindNew(s, cls, args[0].id, order, construct)
    ensures |args| > 0 && args[0].IdValue? && BindNew(s, cls, args[0].id, order, construct).Returned? ==>
      var b := BindNew(s, cls, args[0].id, order, construct);
      var init := Call(OnClass(cls), "__init__", [b.value] + args[1..]);
      && (Lookup(cls, "__init__").None? ==> r == Threw(b.store, AttributeError("__init__")))
      && (Lookup(cls, "__init__").Some? ==>
           && r.store == py(b.store, init).store
           && (r.Returned? <==> py(b.store, init).Returned?)
           && (r.Returned? ==> r.value == b.value))
  {
    if |args| == 0 || !args[0].IdValue? then Threw(s, TypeError)
    else
      match BindNew(s, cls, args[0].id, order, construct)
      case Threw(s1, err) => Threw(s1, err)
      case Returned(s1, self) =>
        if Lookup(cls, "__init__").None? then Threw(s1, AttributeError("__init__"))
        else
          match py(s1, Call(OnClass(cls), "__init__", [self] + args[1..]))
          case Threw(s2, err) => Threw(s2, err)
          case Returned(s2, _) => Returned(s2, self)
  }

  /** The prefix of an instance's repr: `<module.Class `. */
  function ReprPrefix(c: PyClass): string {
    "<" + c.moduleName + "." + c.name + " "
  }

  /** `Entity.__repr__`: `<module.Class index.version>`; an instance not
      bound to an entity has no `_entity_id` and raises. */
  function EntityRepr(o: PyObject): (r: Result<string>)
    ensures r.Ok? <==> ENTITY_ID in o.attrs && o.attrs[ENTITY_ID].IdValue?
    ensures r.Ok? ==>
      && |r.value| > |ReprPrefix(o.cls)| && r.value[..|ReprPrefix(o.cls)|] == ReprPrefix(o.cls)
      && r.value[|r.value| - 1] == '>'
      && ParseTagged(ReprPrefix(o.cls), r.value) == Some(o.attrs[ENTITY_ID].id)
  {
    if ENTITY_ID !in o.attrs || !o.attrs[ENTITY_ID].IdValue? then Err(AttributeError(ENTITY_ID))
    else
      var id := o.attrs[ENTITY_ID].id;
      TaggedRoundTrip(ReprPrefix(o.cls), id);
      Ok(Tagged(ReprPrefix(o.cls), id))
  }
}
