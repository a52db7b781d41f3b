/** The script side as the bridge sees it: Python values, classes, instances,
    the interpreter's heap and the native data components that scripts reach
    through the entity manager.

    Script code itself (an entity's `update`, its event handlers, its
    `__init__`) is not visible to the bridge; it is the parameter `Python`,
    a function from the current store and a call to the store afterwards and
    either a returned value or a raised error. */
module Values {
  import opened Options
  import opened Ids

  type ObjRef = nat

  datatype Value =
    | NoneValue
    | BoolValue(b: bool)
    | IntValue(i: int)
    | StrValue(s: string)
    | IdValue(id: EntityId)
    | ObjValue(ref: ObjRef)
    | ComponentRef(key: ComponentKey)
    | EventValue(event: Event)

  /** Native events that proxies deliver.  `Collision` is the test suite's
      `CollisionEvent(a, b)`; any other event type is a `Signal`. */
  datatype Event =
    | Collision(a: EntityId, b: EntityId)
    | Signal(name: string, payload: seq<Value>)

  /** A native data component (such as `Position`) is keyed by its entity
      and its type, and holds its constructor-visible values. */
  datatype ComponentKey = ComponentKey(entity: EntityId, ctype: string)
  datatype ComponentData = ComponentData(ctype: string, values: seq<Value>)

  /** `Component(cls, *args, **kwargs)`: a class-level declaration that
      instances have a component of type `ctype`, built from these arguments. */
  datatype ComponentDescriptor = ComponentDescriptor(ctype: string, args: seq<Value>, kwargs: map<string, Value>)

  /** A class attribute: a method, a component declaration, the
      `_components` table the metaclass builds, or plain data. */
  datatype Attr =
    | Method
    | Declared(component: ComponentDescriptor)
    | Table(components: map<string, ComponentDescriptor>)
    | Data(value: Value)

  datatype PyClass = PyClass(moduleName: string, name: string, bases: seq<PyClass>, dict: map<string, Attr>)

  /** An instance: its class and its own attributes (`__dict__`). */
  datatype PyObject = PyObject(cls: PyClass, attrs: map<string, Value>)

  /** Class attribute lookup: the class itself, then its bases depth-first
      from left to right. */
  function Lookup(c: PyClass, name: string): Option<Attr>
    decreases c, 1
  {
    if name in c.dict then Some(c.dict[name]) else LookupIn(c.bases, name)
  }

  function LookupIn(bases: seq<PyClass>, name: string): Option<Attr>
    decreases bases, 0
  {
    if bases == [] then None
    else
      match Lookup(bases[0], name)
      case Some(a) => Some(a)
      case None => LookupIn(bases[1..], name)
  }

  /** `hasattr(o, name)`: an own attribute or one found on the class. */
  predicate HasAttr(o: PyObject, name: string) {
    name in o.attrs || Lookup(o.cls, name).Some?
  }

  /** Python truthiness, as `!object` and `REQUIRE(object.attr(...))` test it.
      Instances, ids, component references and events are true. */
  predicate Truthy(v: Value) {
    match v
    case NoneValue => false
    case BoolValue(b) => b
    case IntValue(i) => i != 0
    case StrValue(s) => s != ""
    case _ => true
  }

  /** The interpreter's heap, the allocator's next free reference and the
      native data components. */
  datatype Store = Store(heap: map<ObjRef, PyObject>, nextRef: ObjRef, components: map<ComponentKey, ComponentData>)

  predicate StoreOk(s: Store) {
    forall r | r in s.heap :: r < s.nextRef
  }

  /** Whether a value is an instance that has the attribute. */
  predicate ValueHasAttr(s: Store, v: Value, name: string) {
    v.ObjValue? && v.ref in s.heap && HasAttr(s.heap[v.ref], name)
  }

  datatype PyError =
    | ImportError(moduleName: string)
    | AttributeError(name: string)
    | TypeError
    | ScriptError(message: string)
    | InvalidHandle

  datatype Result<+T> = Ok(value: T) | Err(error: PyError)

  /** The receiver of a call: an instance (or any value) or a class. */
  datatype Callee = OnValue(target: Value) | OnClass(cls: PyClass)

  datatype Call = Call(callee: Callee, attr: string, args: seq<Value>)

  /** What running script code leaves behind: the store, and a value or an
      error.  Effects before an error stay. */
  datatype Reply = Returned(store: Store, value: Value) | Threw(store: Store, error: PyError)

  /** Script code, as far as the bridge can observe it. */
  type Python = (Store, Call) -> Reply

  /** Whether the callee has the attribute the call looks up. */
  predicate CalleeHasAttr(s: Store, callee: Callee, name: string) {
    match callee
    case OnValue(v) => ValueHasAttr(s, v, name)
    case OnClass(c) => Lookup(c, name).Some?
  }

  /** `get_component<C>(em, id)`: a reference to the entity's component of
      that type, or None (NULL) when it has none. */
  function GetComponent(s: Store, id: EntityId, ctype: string): (r: Option<Value>)
    ensures r.Some? <==> ComponentKey(id, ctype) in s.components
    ensures r.Some? ==> r.value == ComponentRef(ComponentKey(id, ctype))
  {
    var key := ComponentKey(id, ctype);
    if key in s.components then Some(ComponentRef(key)) else None
  }

  /** `assign_to(em, id)`: the entity now has this component of type `ctype`,
      and no other component changes. */
  function AssignTo(s: Store, id: EntityId, ctype: string, data: ComponentData): (r: Store)
    ensures r.heap == s.heap && r.nextRef == s.nextRef
    ensures r.components.Keys == s.components.Keys + {ComponentKey(id, ctype)}
    ensures r.components[ComponentKey(id, ctype)] == data
    ensures forall k | k in s.components && k != ComponentKey(id, ctype) :: r.components[k] == s.components[k]
  {
    s.(components := s.components[ComponentKey(id, ctype) := data])
  }

  /** A component assigned is a component found. */
  lemma GetAfterAssign(s: Store, id: EntityId, ctype: string, data: ComponentData)
    ensures GetComponent(AssignTo(s, id, ctype, data), id, ctype) == Some(ComponentRef(ComponentKey(id, ctype)))
  {
  }
}
