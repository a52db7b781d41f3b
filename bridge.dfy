/** The bridge system (`PythonSystem`): the registries of script search
    paths and event proxies, the interpreter path set-up, the per-frame
    update of every scripted entity, and the two lifecycle handlers that
    keep the proxies' receiver lists in step with the entities. */
module Bridge {
  import opened Options
  import opened Ids
  import opened Values
  import opened Scripts
  import opened Worlds
  import opened Proxies

  function Reversed(s: seq<string>): (r: seq<string>)
    ensures |r| == |s|
    ensures forall k | 0 <= k < |s| :: r[k] == s[|s| - 1 - k]
    decreases |s|
  {
    if s == [] then [] else Reversed(s[1..]) + [s[0]]
  }

  /** Reversing one more path puts it in front. */
  lemma ReversedSnoc(s: seq<string>, x: string)
    ensures Reversed(s + [x]) == [x] + Reversed(s)
  {
    var a, b := Reversed(s + [x]), [x] + Reversed(s);
    assert |a| == |b|;
    forall k | 0 <= k < |a| ensures a[k] == b[k] {
      if k > 0 {
        assert (s + [x])[|s| - k] == s[|s| - k];
      }
    }
  }

  /** The entities `em.each<PythonScript>` visits from index `from` on: the
      live ones holding a script component, in index order. */
  function Scripted(slots: seq<Slot>, from: nat): (r: seq<EntityId>)
    requires from <= |slots| <= ID_LIMIT
    ensures forall k | 0 <= k < |r| ::
      && from <= r[k].index < |slots|
      && slots[r[k].index].alive && slots[r[k].index].script.Some?
      && r[k].version == slots[r[k].index].version
    ensures forall i | from <= i < |slots| && slots[i].alive && slots[i].script.Some? ::
      EntityId(i, slots[i].version) in r
    ensures forall j, k | 0 <= j < k < |r| :: r[j].index < r[k].index
    decreases |slots| - from
  {
    if from == |slots| then []
    else
      var rest := Scripted(slots, from + 1);
      if slots[from].alive && slots[from].script.Some? then [EntityId(from, slots[from].version)] + rest
      else rest
  }

  /** Every entity `update` visits has a script component, so the update
      never delivers through an empty handle. */
  lemma ScriptedHaveScripts(w: World)
    requires |w.slots| <= ID_LIMIT
    ensures forall t | t in Scripted(w.slots, 0) :: ScriptOf(w, t).Some?
  {
  }

  /** An update that completes has called `update(dt)` on the script object
      of every live scripted entity. */
  lemma {:induction false} UpdateReachesEveryScripted(w: World, py: Python, dt: Value, i: nat)
    requires |w.slots| <= ID_LIMIT
    requires i < |w.slots| && w.slots[i].alive && w.slots[i].script.Some?
    ensures var o := Deliver(w, py, Scripted(w.slots, 0), "update", [dt]);
      o.Done? ==>
        && |w.calls| <= |o.world.calls|
        && Call(OnValue(w.slots[i].script.value.scriptObject), "update", [dt]) in o.world.calls[|w.calls|..]
  {
    var targets := Scripted(w.slots, 0);
    var o := Deliver(w, py, targets, "update", [dt]);
    DeliverCalls(w, py, targets, "update", [dt]);
    if !o.Done? {
      return;
    }
    var id := EntityId(i, w.slots[i].version);
    var k :| 0 <= k < |targets| && targets[k] == id;
    var calls := HandlerCalls(w, targets, "update", [dt]);
    assert o.world.calls[|w.calls|..] == calls;
    assert calls[k] == HandlerCall(w, id, "update", [dt]);
    assert ScriptOf(w, id) == w.slots[i].script;
  }

  /** Realizing the script object on "component added": when the component
      has none yet, import the module, look the class up, and call its
      `_from_raw_entity` with the entity id first and then the stored
      arguments; the result becomes the script object. */
  function Realize(w: World, e: EntityId, py: Python): (o: Outcome<()>)
    requires ScriptOf(w, e).Some?
    ensures o.world.slots == w.slots || !Truthy(ScriptOf(w, e).value.scriptObject)
    ensures o.world.modules == w.modules && o.world.sysPath == w.sysPath
    ensures Truthy(ScriptOf(w, e).value.scriptObject) ==> o == Done(w, ())
    ensures var s := ScriptOf(w, e).value;
      !Truthy(s.scriptObject) && s.moduleName !in w.modules ==> o == Failed(w, ImportError(s.moduleName))
    ensures var s := ScriptOf(w, e).value;
      !Truthy(s.scriptObject) && s.moduleName in w.modules && s.className !in w.modules[s.moduleName] ==>
      o == Failed(w, AttributeError(s.className))
    ensures var s := ScriptOf(w, e).value;
      !Truthy(s.scriptObject) && s.moduleName in w.modules && s.className in w.modules[s.moduleName] ==>
      var cls := w.modules[s.moduleName][s.className];
      var call := CallMethod(w, py, OnClass(cls), "_from_raw_entity", [IdValue(e)] + s.args);
      && (call.Failed? ==> o == Failed(call.world, call.error))
      && (call.Done? ==> o.Done? && o.world == WithScript(call.world, e, s.(scriptObject := call.value)))
  {
    var s := ScriptOf(w, e).value;
    if Truthy(s.scriptObject) then Done(w, ())
    else if s.moduleName !in w.modules then Failed(w, ImportError(s.moduleName))
    else if s.className !in w.modules[s.moduleName] then Failed(w, AttributeError(s.className))
    else
      var cls := w.modules[s.moduleName][s.className];
      var call :=
        if |s.args| == 0 then CallMethod(w, py, OnClass(cls), "_from_raw_entity", [IdValue(e)])
        else CallMethod(w, py, OnClass(cls), "_from_raw_entity", [IdValue(e)] + s.args);
      assert |s.args| == 0 ==> [IdValue(e)] + s.args == [IdValue(e)];
      match call
      case Failed(w', err) => Failed(w', err)
      case Done(w', v) => Done(WithScript(w', e, s.(scriptObject := v)), ())
  }

  /** After a realization that completes, the entity's script component is
      the one it had, holding the object `_from_raw_entity` returned, and
      every other entity's script component is as before. */
  lemma RealizeKeepsScripts(w: World, e: EntityId, py: Python)
    requires ScriptOf(w, e).Some?
    requires Realize(w, e, py).Done?
    ensures var s, s' := ScriptOf(w, e).value, ScriptOf(Realize(w, e, py).world, e);
      && s'.Some?
      && s'.value.moduleName == s.moduleName && s'.value.className == s.className && s'.value.args == s.args
    ensures forall d | d != e :: ScriptOf(Realize(w, e, py).world, d) == ScriptOf(w, d)
  {
    var s := ScriptOf(w, e).value;
    if !Truthy(s.scriptObject) {
      var cls := w.modules[s.moduleName][s.className];
      var call := CallMethod(w, py, OnClass(cls), "_from_raw_entity", [IdValue(e)] + s.args);
      assert forall d :: ScriptOf(call.world, d) == ScriptOf(w, d);
    }
  }

  class PythonSystem {
    /** `python_paths_`, in the order they were added. */
    var pythonPaths: seq<string>
    /** `event_proxies_`, in the order they were added. */
    var proxies: seq<EventProxy>

    /** Each proxy is registered once. */
    ghost predicate Valid()
      reads this
    {
      forall i, j | 0 <= i < j < |proxies| :: proxies[i] != proxies[j]
    }

    constructor ()
      ensures pythonPaths == [] && proxies == [] && Valid()
    {
      pythonPaths, proxies := [], [];
    }

    /** `add_path`. */
    method AddPath(path: string)
      modifies this
      ensures pythonPaths == old(pythonPaths) + [path]
      ensures proxies == old(proxies)
    {
      pythonPaths := pythonPaths + [path];
    }

    /** `add_paths`: `add_path` for each path in turn. */
    method AddPaths(paths: seq<string>)
      modifies this
      ensures pythonPaths == old(pythonPaths) + paths
      ensures proxies == old(proxies)
    {
      for i := 0 to |paths|
        invariant pythonPaths == old(pythonPaths) + paths[..i]
        invariant proxies == old(proxies)
      {
        assert paths[..i + 1] == paths[..i] + [paths[i]];
        AddPath(paths[i]);
      }
      assert paths[..|paths|] == paths;
    }

    /** `python_paths()`: the registry as stored. */
    function PythonPaths(): (r: seq<string>)
      reads this
      ensures r == pythonPaths
    {
      pythonPaths
    }

    /** `add_event_proxy<Event>(em, handler_name)`: a new broadcasting proxy
        at the end of the registry. */
    method AddEventProxy(handlerName: string) returns (p: EventProxy)
      requires Valid()
      modifies this
      ensures fresh(p) && p.handlerName == handlerName && p.delivery == Broadcast && p.entities == []
      ensures proxies == old(proxies) + [p]
      ensures pythonPaths == old(pythonPaths)
      ensures Valid()
    {
      p := new EventProxy.Broadcasting(handlerName);
      proxies := proxies + [p];
    }

    /** `add_event_proxy<Event>(em, proxy)`: a given proxy at the end of the
        registry. */
    method AddCustomEventProxy(p: EventProxy)
      requires Valid() && p !in proxies
      modifies this
      ensures proxies == old(proxies) + [p]
      ensures pythonPaths == old(pythonPaths)
      ensures Valid()
    {
      proxies := proxies + [p];
    }

    /** The path part of `configure`: each path is inserted at the front of
        `sys.path` in turn, so they end up in reverse order ahead of the
        interpreter's own entries.  Nothing else in the world changes. */
    method Configure(w: World) returns (w': World)
      ensures w'.sysPath == Reversed(pythonPaths) + w.sysPath
      ensures w' == w.(sysPath := w'.sysPath)
    {
      w' := w;
      for i := 0 to |pythonPaths|
        invariant w'.sysPath == Reversed(pythonPaths[..i]) + w.sysPath
        invariant w' == w.(sysPath := w'.sysPath)
      {
        assert pythonPaths[..i + 1] == pythonPaths[..i] + [pythonPaths[i]];
        ReversedSnoc(pythonPaths[..i], pythonPaths[i]);
        w' := w'.(sysPath := [pythonPaths[i]] + w'.sysPath);
      }
      assert pythonPaths[..|pythonPaths|] == pythonPaths;
    }

    /** `update`: call `update(dt)` on the script object of each live
        scripted entity in index order; an error is re-raised and the
        remaining entities are not visited. */
    method Update(w: World, py: Python, dt: Value) returns (o: Outcome<()>)
      requires |w.slots| <= ID_LIMIT
      ensures o == Deliver(w, py, Scripted(w.slots, 0), "update", [dt])
    {
      var cur := w;
      var i := 0;
      while i < |w.slots|
        invariant 0 <= i <= |w.slots|
        invariant cur.slots == w.slots
        invariant Deliver(w, py, Scripted(w.slots, 0), "update", [dt])
               == Deliver(cur, py, Scripted(w.slots, i), "update", [dt])
      {
        var slot := w.slots[i];
        if slot.alive && slot.script.Some? {
          var id := EntityId(i, slot.version);
          DeliverCons(cur, py, id, Scripted(w.slots, i + 1), "update", [dt]);
          var r := Notify(cur, py, id, "update", [dt]);
          if r.Failed? {
            return r;
          }
          cur := r.world;
        }
        i := i + 1;
      }
      o := Done(cur, ());
    }

    /** `receive(EntityDestroyedEvent)`: every proxy drops its first entry
        for the entity. */
    method ReceiveEntityDestroyed(e: EntityId)
      requires Valid()
      modifies proxies
      ensures forall k | 0 <= k < |proxies| :: proxies[k].entities == RemoveFirst(old(proxies[k].entities), e)
    {
      for i := 0 to |proxies|
        invariant forall k | 0 <= k < i :: proxies[k].entities == RemoveFirst(old(proxies[k].entities), e)
        invariant forall k | i <= k < |proxies| :: proxies[k].entities == old(proxies[k].entities)
      {
        proxies[i].DeleteReceiver(e);
      }
    }

    /** `receive(ComponentAddedEvent<PythonScript>)`: realize the script
        object if the component has none, then register the entity with
        exactly the proxies that can send to that object. */
    method ReceiveComponentAdded(w: World, e: EntityId, py: Python) returns (o: Outcome<()>)
      requires Valid() && ScriptOf(w, e).Some?
      modifies proxies
      ensures o.world == Realize(w, e, py).world && o.Done? == Realize(w, e, py).Done?
      ensures o.Failed? ==> o == Realize(w, e, py)
      ensures o.Failed? ==> forall k | 0 <= k < |proxies| :: proxies[k].entities == old(proxies[k].entities)
      ensures o.Done? ==> ScriptOf(o.world, e).Some?
      ensures o.Done? ==> forall k | 0 <= k < |proxies| ::
        proxies[k].entities == old(proxies[k].entities)
          + (if proxies[k].CanSend(o.world.store, ScriptOf(o.world, e).value.scriptObject) then [e] else [])
    {
      o := Realize(w, e, py);
      if o.Failed? {
        return;
      }
      if !Truthy(ScriptOf(w, e).value.scriptObject) {
        RealizeKeepsScripts(w, e, py);
      }
      var scriptObject := ScriptOf(o.world, e).value.scriptObject;
      for i := 0 to |proxies|
        invariant forall k | 0 <= k < i ::
          proxies[k].entities == old(proxies[k].entities)
            + (if proxies[k].CanSend(o.world.store, scriptObject) then [e] else [])
        invariant forall k | i <= k < |proxies| :: proxies[k].entities == old(proxies[k].entities)
      {
        if proxies[i].CanSend(o.world.store, scriptObject) {
          proxies[i].AddReceiver(e);
        }
      }
    }
  }

  /** `entity_manager.create()`: a new live entity at the next index. */
  function CreateEntity(w: World): (r: (World, EntityId))
    requires |w.slots| < ID_LIMIT
    ensures r.1.index == |w.slots| && Alive(r.0, r.1) && ScriptOf(r.0, r.1).None?
    ensures r.0 == w.(slots := w.slots + [Slot(r.1.version, true, None)])
  {
    var id := EntityId(|w.slots|, 1);
    (w.(slots := w.slots + [Slot(1, true, None)]), id)
  }

  /** `EntityManager_configure(em, self)`: create an entity, give it a
      script component that already holds `self` (which the bridge's
      "component added" handler then registers without realizing), and
      return its id. */
  method EntityManagerConfigure(sys: PythonSystem, w: World, self: Value, py: Python)
    returns (o: Outcome<EntityId>)
    requires sys.Valid() && |w.slots| < ID_LIMIT
    modifies sys.proxies
    ensures o.Done? ==> o.value.index == |w.slots| && ScriptOf(o.world, o.value).Some?
    ensures Truthy(self) ==>
      && o == Done(w.(slots := w.slots + [Slot(1, true, Some(FromObject(self)))]), EntityId(|w.slots|, 1))
      && ScriptOf(o.world, o.value) == Some(FromObject(self))
    ensures o.Done? ==> forall k | 0 <= k < |sys.proxies| ::
      sys.proxies[k].entities == old(sys.proxies[k].entities)
        + (if sys.proxies[k].CanSend(o.world.store, ScriptOf(o.world, o.value).value.scriptObject) then [o.value] else [])
  {
    var (w1, id) := CreateEntity(w);
    var w2 := WithScript(w1, id, FromObject(self));
    var r := sys.ReceiveComponentAdded(w2, id, py);
    if r.Failed? {
      return Failed(r.world, r.error);
    }
    if !Truthy(self) {
      RealizeKeepsScripts(w2, id, py);
    }
    assert w2.slots == w.slots + [Slot(1, true, Some(FromObject(self)))];
    o := Done(r.world, id);
  }
}
