/** What the bridge works against: the entity manager's table of entities
    with their script components, the interpreter (its importable modules,
    `sys.path`, heap) and the native data components, plus the record of
    every call the bridge makes into script code. */
module Worlds {
  import opened Options
  import opened Ids
  import opened Values
  import opened Scripts

  /** One entity index: its current version, whether it is alive, and its
      script component if it has one. */
  datatype Slot = Slot(version: U32, alive: bool, script: Option<PythonScript>)

  datatype World = World(
    slots: seq<Slot>,
    modules: map<string, map<string, PyClass>>,
    sysPath: seq<string>,
    store: Store,
    calls: seq<Call>)

  /** The result of an operation that may raise: the world it leaves (with
      the effects made before an error) and a value or the error. */
  datatype Outcome<+T> = Done(world: World, value: T) | Failed(world: World, error: PyError)

  predicate Alive(w: World, e: EntityId) {
    e.index < |w.slots| && w.slots[e.index].alive && w.slots[e.index].version == e.version
  }

  /** `entity.component<PythonScript>()`: the entity's script component, or
      None for an entity that has none or is not alive. */
  function ScriptOf(w: World, e: EntityId): (r: Option<PythonScript>)
    ensures r.Some? ==> Alive(w, e)
  {
    if Alive(w, e) then w.slots[e.index].script else None
  }

  /** The world with entity `e`'s script component replaced. */
  function WithScript(w: World, e: EntityId, s: PythonScript): (r: World)
    requires Alive(w, e)
    ensures |r.slots| == |w.slots| && ScriptOf(r, e) == Some(s)
    ensures forall d | d != e :: ScriptOf(r, d) == ScriptOf(w, d)
    ensures r.modules == w.modules && r.sysPath == w.sysPath && r.store == w.store && r.calls == w.calls
  {
    w.(slots := w.slots[e.index := w.slots[e.index].(script := Some(s))])
  }

  /** `callee.attr(name)(args...)`: looking the attribute up raises
      AttributeError when it is missing; otherwise the call is made (and
      recorded) and the script code runs.  Script code touches only the store. */
  function CallMethod(w: World, py: Python, callee: Callee, name: string, args: seq<Value>): (o: Outcome<Value>)
    ensures o.world.slots == w.slots && o.world.modules == w.modules && o.world.sysPath == w.sysPath
    ensures !CalleeHasAttr(w.store, callee, name) ==> o == Failed(w, AttributeError(name))
    ensures CalleeHasAttr(w.store, callee, name) ==>
      var reply := py(w.store, Call(callee, name, args));
      && o.world.calls == w.calls + [Call(callee, name, args)]
      && o.world.store == reply.store
      && (o.Done? <==> reply.Returned?)
      && (o.Done? ==> o.value == reply.value)
      && (o.Failed? ==> o.error == reply.error)
  {
    if !CalleeHasAttr(w.store, callee, name) then Failed(w, AttributeError(name))
    else
      var call := Call(callee, name, args);
      var w1 := w.(calls := w.calls + [call]);
      match py(w.store, call)
      case Returned(s, v) => Done(w1.(store := s), v)
      case Threw(s, err) => Failed(w1.(store := s), err)
  }
}
