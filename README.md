# entityx_python in Dafny

A model of the core of `entityx_python`. This is the bridge that lets
entities of the EntityX entity-component system be scripted in Python.
The model proves properties of each part. It covers:

- **The event proxies.** Each proxy keeps an ordered list of receiver
  entities and forwards one native event type to them by calling a handler
  method on each entity's script object. The broadcasting proxy forwards to
  every registered entity. The test suite's collision proxy forwards only to
  the two entities that take part in the collision.
- **The bridge system (`PythonSystem`).**
  - It keeps append-only registries of search paths and proxies.
  - It puts its paths in front of `sys.path`.
  - It runs `update(dt)` on every scripted entity.
  - It has two lifecycle handlers. On "component added" it realizes a
    natively created script component through the class's
    `_from_raw_entity` and registers the entity with every proxy that can
    send to its object. On "entity destroyed" it removes the entity from
    every proxy.
- **The line-buffering logger.** This is the stream that replaces
  `sys.stdout`/`sys.stderr`. It hands each complete line to a callback
  without its newline, and hands over the rest on a forced flush.
- **The script-side convenience layer** (`entityx/__init__.py`):
  - the get-or-create `Component._build`;
  - the metaclass that merges component declarations;
  - `Entity.__new__` and `_from_raw_entity`, which bind an instance to an
    entity and build its components;
  - `__repr__`.

Python is modelled abstractly:

- A value is a `Values.Value`. Classes carry a dictionary and their bases.
- Attribute lookup searches the class, then its bases, depth-first.
- The heap is a map from references to instances, so the script object a
  component holds and the `self` of a constructor can be the same object.
- The native data components are a map keyed by (entity, component type).
- User script code (`update`, handlers, `__init__`) is a parameter
  `Python = (Store, Call) -> Reply`. It may change the store and may raise.
  It cannot change the entity table or the proxies.
- Every call the bridge makes into script code is appended to
  `World.calls`. This is how "once per entry, in list order" is stated.
- The outcome of a step that can raise keeps the effects made before the
  error (`Worlds.Outcome`).

Two consequences of the code are worth stating because they are easy to
assume otherwise:

- A registered entity whose script object lacks the handler is not skipped
  at delivery. The handler lookup `object.attr(handler_name)` raises
  `AttributeError`, which propagates (PythonSystem.h:150,
  PythonSystem_test.cc:59).
- `add_receiver` appends without checking for duplicates
  (PythonSystem.h:98-100), so an entity can be registered with a proxy more
  than once.

Modules, one per part:

- `Strings`, `Ids`: entity ids and their text forms.
- `Logging`: the logger.
- `Values`, `Scripts`, `Worlds`: the Python side, the script component, and
  the world it all runs in.
- `Proxies`: the event proxies.
- `Bridge`: `PythonSystem` and `EntityManager_configure`.
- `Components`, `Metaclass`, `Entities`: the convenience layer.
- `Scenarios`: the bridge and the layer composed, and the test suite's
  scenarios.

## Model

| member | source | states |
|---|---|---|
| Strings.Find | entityx/python/PythonSystem.cc:41 | `find('\n')`: the index of the first occurrence, or none when the character is absent |
| Logging.SplitConserves | entityx/python/PythonSystem.cc:39-45 | the complete lines, each followed by a newline, then the remainder, give back the text exactly |
| Logging.LinesHaveNoNewline | entityx/python/PythonSystem.cc:41-44 | no line handed to the callback contains a newline |
| Logging.RemainderHasNoNewline | entityx/python/PythonSystem.cc:41-45 | what stays buffered after the loop contains no newline |
| Logging.WithoutNewlineNothingSplits | entityx/python/PythonSystem.cc:41 | text without a newline yields no line and stays buffered whole |
| Logging.Logger.constructor | entityx/python/PythonSystem.cc:30 | a new logger has an empty buffer and has emitted nothing |
| Logging.Logger.Write | entityx/python/PythonSystem.cc:33-36 | `write` appends the text, then emits the complete lines of buffer+text in order; the buffer becomes the remainder; conservation and newline-freedom are kept |
| Logging.Logger.Flush | entityx/python/PythonSystem.cc:39-50 | the loop emits every complete line in order; a forced flush also emits a non-empty remainder and leaves the buffer empty |
| Logging.Logger.Close | entityx/python/PythonSystem.cc:31 | the destructor forces a flush: a non-empty buffer is emitted as a last line, and the emitted lines then account for all text written |
| Ids.Decimal | entityx/python/PythonSystem.cc:80 | the `<<` of an index or version prints a non-empty string of decimal digits without leading zeros |
| Ids.DigitsValueOfDecimal | entityx/python/PythonSystem.cc:80 | reading back the printed digits gives the number |
| Ids.IdTextRoundTrip | entityx/python/PythonSystem.cc:80 | `index.version` parses back to the id |
| Ids.TaggedRoundTrip | entityx/python/PythonSystem.cc:78-88 | a tagged id text `<prefix>index.version>` parses back to the id |
| Ids.TaggedInjective | entityx/python/PythonSystem.cc:78-88 | distinct ids print differently |
| Ids.PythonEntityRepr | entityx/python/PythonSystem.cc:78-82 | `<Entity i.v>`: starts with the prefix, ends in `>`, and parses back to the id |
| Ids.EntityIdRepr | entityx/python/PythonSystem.cc:84-88 | `<Entity::Id i.v>`: starts with the prefix, ends in `>`, and parses back to the id |
| Ids.ReprFormsDiffer | entityx/python/PythonSystem.cc:78-88 | an entity's repr never equals an id's repr |
| Scripts.UnpackArgs | entityx/python/PythonSystem.h:52-58 | appending the arguments one at a time gives them all, in call order |
| Scripts.FromClass | entityx/python/PythonSystem.h:37-40 | the variadic constructor stores module and class, keeps the arguments in order, and leaves the object empty (false) |
| Scripts.FromObject | entityx/python/PythonSystem.h:45 | the object constructor holds the object, with no arguments and empty module and class |
| Values.GetComponent | entityx/python/PythonSystem.h:130-135 | `get_component` returns a reference exactly when the entity has a component of that type, and NULL (None) otherwise |
| Values.AssignTo | entityx/python/PythonSystem.h:121-123 | `assign_to` gives the entity the component and changes no other component |
| Proxies.RemoveFirstAt | entityx/python/PythonSystem.h:107-114 | where the entity first occurs at `i`, exactly that entry goes and the rest keep their order |
| Proxies.RemoveFirstAbsent | entityx/python/PythonSystem.h:107-114 | removing an unregistered entity leaves the list unchanged |
| Proxies.RemoveFirstCounts | entityx/python/PythonSystem.h:107-114 | exactly one occurrence goes when there is one (multiset difference) |
| Proxies.BroadcastReachesAll | entityx/python/PythonSystem.h:147-152 | the broadcast delivery reaches every entry |
| Proxies.TargetsConcat | entityx/python/PythonSystem.h:148 | the delivery filter keeps list order |
| Proxies.TargetsCount | entityx/python/PythonSystem_test.cc:56-57 | a selected entity is reached as often as it is registered; an unselected one never (collision: only `a` and `b`) |
| Proxies.DeletedNotReached | entityx/python/PythonSystem.cc:251-255 | after destruction of an entity registered once, no delivery reaches it |
| Proxies.EventProxy.CanSend | entityx/python/PythonSystem.h:84-86 | the default `can_send(object)` holds exactly when the object is an instance with an attribute named `handler_name`, its own or found on its class or a base |
| Proxies.EventProxy.CanSendIffHandlerCalled | entityx/python/PythonSystem.h:84-86 | `can_send(object)` (the object has the handler attribute) holds exactly when delivering to the entity calls the handler; when it fails, delivery raises AttributeError and makes no call |
| Proxies.Notify | entityx/python/PythonSystem.h:149-150 | delivering to one entity calls the handler on its script object with the event; the entity table is unchanged (an entity without a script fails: see Left out) |
| Proxies.DeliverCalls | entityx/python/PythonSystem.h:147-152 | a delivery that completes calls the handler once per target, in order, on that target's object, with no other call; one that fails made a prefix of those calls |
| Proxies.EventProxy.Broadcasting | entityx/python/PythonSystem.h:144 | a broadcasting proxy with the given handler and no receivers |
| Proxies.EventProxy.Collision | entityx/python/PythonSystem_test.cc:53 | the collision proxy: handler `on_collision`, participant delivery, no receivers |
| Proxies.EventProxy.AddReceiver | entityx/python/PythonSystem.h:98-100 | the list becomes `old + [e]`, duplicates included |
| Proxies.EventProxy.DeleteReceiver | entityx/python/PythonSystem.h:107-114 | the list becomes the old list without its first `e` |
| Proxies.EventProxy.Receive | entityx/python/PythonSystem_test.cc:55-62 | the loop delivers, in list order, to every entry (broadcast) or to the entries equal to `event.a` or `event.b` (collision), stopping at the first error |
| Bridge.Reversed | entityx/python/PythonSystem.cc:214-217 | position `k` of the result holds position `n-1-k` of the input |
| Bridge.Scripted | entityx/python/PythonSystem.cc:232 | `each<PythonScript>` visits exactly the live entities with a script component, in index order |
| Bridge.ScriptedHaveScripts | entityx/python/PythonSystem.cc:232-236 | every entity `update` visits has a script component, so the handle `update` calls through is never empty |
| Bridge.UpdateReachesEveryScripted | entityx/python/PythonSystem.cc:230-244 | an update that completes has called `update(dt)` on the object of every live scripted entity |
| Bridge.Realize | entityx/python/PythonSystem.cc:260-273 | a set object means no realization; a missing module raises ImportError and a missing class AttributeError; otherwise `_from_raw_entity(id, args...)` is called, with the id first, and its result becomes the object |
| Bridge.RealizeKeepsScripts | entityx/python/PythonSystem.cc:265-272 | realization changes only the object of this entity's component (module, class and arguments stay) and no other entity's component |
| Bridge.PythonSystem.constructor | entityx/python/PythonSystem.cc:154-155 | empty registries |
| Bridge.PythonSystem.AddPath | entityx/python/PythonSystem.cc:191-193 | the path is appended |
| Bridge.PythonSystem.AddPaths | entityx/python/PythonSystem.h:184-189 | the paths are appended in iteration order |
| Bridge.PythonSystem.PythonPaths | entityx/python/PythonSystem.h:192-194 | returns the path registry as stored |
| Bridge.PythonSystem.AddEventProxy | entityx/python/PythonSystem.h:207-212 | a new broadcasting proxy with that handler is appended |
| Bridge.PythonSystem.AddCustomEventProxy | entityx/python/PythonSystem.h:217-221 | the given proxy is appended |
| Bridge.PythonSystem.Configure | entityx/python/PythonSystem.cc:214-217 | inserting each path at index 0 in turn puts the paths, reversed, ahead of the old `sys.path`, and changes nothing else |
| Bridge.PythonSystem.Update | entityx/python/PythonSystem.cc:230-244 | `update` is the delivery of `update(dt)` to the scripted entities in index order; an error aborts the rest |
| Bridge.PythonSystem.ReceiveEntityDestroyed | entityx/python/PythonSystem.cc:251-255 | every proxy drops its first entry for the entity, and nothing else changes |
| Bridge.PythonSystem.ReceiveComponentAdded | entityx/python/PythonSystem.cc:257-281 | after realization, the entity is appended to exactly the proxies whose `can_send(object)` holds; a failed realization registers nothing |
| Bridge.EntityManagerConfigure | entityx/python/PythonSystem.cc:99-103 | a fresh entity at the next index gets a script component holding `self`; it is registered without a realization call; its id is returned |
| Components.Build | entityx/python/entityx/__init__.py:43-49 | `_build` returns a reference to the entity's component of the declared type, which then exists, and allocates no object |
| Components.BuildExisting | entityx/python/entityx/__init__.py:44-49 | an existing component is returned and nothing is constructed |
| Components.BuildAbsent | entityx/python/entityx/__init__.py:45-48 | an absent component is constructed from the declared arguments and assigned; a failing constructor changes nothing |
| Components.BuildTwice | entityx/python/entityx/__init__.py:43-49 | a second `_build` creates nothing and returns the same component |
| Components.BuildKeepsComponents | entityx/python/entityx/__init__.py:43-49 | building never removes or replaces an existing component |
| Metaclass.MergedKeys | entityx/python/entityx/__init__.py:61-63 | the merged table has exactly the keys of the bases' own tables |
| Metaclass.LaterBaseWins | entityx/python/entityx/__init__.py:61-63 | an entry comes from the last base whose table has the key |
| Metaclass.OwnDeclarationWins | entityx/python/entityx/__init__.py:65-67 | the class's own declarations override every base |
| Metaclass.TableKeys | entityx/python/entityx/__init__.py:59-67 | the table's keys are the bases' keys plus the class's `Component` attributes; other attributes contribute nothing |
| Metaclass.MergeBaseTables | entityx/python/entityx/__init__.py:61-63 | the first loop computes the base merge in base order |
| Metaclass.AddDeclarations | entityx/python/entityx/__init__.py:65-67 | the second loop puts every `Component` entry of the body over the base merge |
| Metaclass.MetaclassNew | entityx/python/entityx/__init__.py:58-68 | the class is created with `_components` set to the merged table and its other attributes as given |
| Entities.Allocate | entityx/python/entityx/__init__.py:82 | `_entityx.Entity.__new__` allocates a fresh instance of the class with no attributes |
| Entities.BuildComponents | entityx/python/entityx/__init__.py:86-87 | the loop builds and sets the components in table order, stops at the first error, and changes only the store, exactly as the spec function of the loop does |
| Entities.BuildAllFrame | entityx/python/entityx/__init__.py:86-87 | the component loop leaves other objects, unvisited attributes and existing components alone |
| Entities.BuildAllSetsEvery | entityx/python/entityx/__init__.py:86-87 | after the loop every visited key holds the entity's component of its declared type, which exists |
| Entities.BindNewBinds | entityx/python/entityx/__init__.py:80-88 | a completed `__new__` returns a fresh instance bound to the id with every declared component set |
| Entities.EntityNew | entityx/python/entityx/__init__.py:80-88 | without `entity_id`, a new entity is created through `configure(self)` and registered; with one, nothing is created; the components are then built one by one |
| Entities.FromRawEntity | entityx/python/entityx/__init__.py:97-104 | `_from_raw_entity(id, *args)` binds a new instance to `id`, calls `__init__` with exactly `args`, and returns the instance |
| Entities.EntityRepr | entityx/python/entityx/__init__.py:93-94 | `<module.Class index.version>`, which parses back to the bound id; an unbound instance raises |
| Scenarios.RealizeForwardsArguments | entityx/python/PythonSystem_test.cc:169-173 | the constructor arguments reach `_from_raw_entity` positionally, after the id |
| Scenarios.RealizationIsSynchronous | entityx/python/PythonSystem_test.cc:128-131 | once `assign` returns, the script object is a fresh instance bound to the entity, and its declared components exist |
| Scenarios.SceneCanSend | entityx/python/PythonSystem_test.cc:187-189 | each test entity's script object has an `on_collision` attribute |
| Scenarios.Register | entityx/python/PythonSystem_test.cc:187-189 | adding a test entity's script component, whose object is set, appends the entity to the collision proxy's list |
| Scenarios.RegisterScene | entityx/python/PythonSystem_test.cc:187-189 | after the script components of e, f and g are added in that order, the collision proxy's list is `[e, f, g]` |
| Scenarios.CollisionTargets | entityx/python/PythonSystem_test.cc:55-62 | with receivers e, f, g, `Collision(f, g)` reaches f then g, and `Collision(e, f)` reaches e then f |
| Scenarios.EventDeliveryTest | entityx/python/PythonSystem_test.cc:182-197 | the whole test through `ReceiveComponentAdded` and `Receive`: e, f and g are registered in that order; `Collision(f, g)` flags f and not e; `Collision(e, f)` then flags e, and f stays flagged |
| Scenarios.EventDeliveryScenario | entityx/python/PythonSystem_test.cc:190-197 | `Collision(f, g)` flags f and not e; a later `Collision(e, f)` flags e, and f stays flagged |
| Scenarios.UpdateScenario | entityx/python/PythonSystem_test.cc:113-116 | `updated` is false after assignment and true after one update |

## Left out

- I/O.
  - The logger's callback is modelled as the list of lines it has received.
  - `sys.stdout`/`sys.stderr` redirection and `log_to`, `log_to_stdout` and `log_to_stderr` are not modelled.
  - The default-constructed logger with no callback is not modelled.
- Interpreter lifecycle: `Py_Initialize`, the one-time module registration, and the destructor's teardown and `gc.collect`. These are process-global plumbing.
- The boost::python module definitions, converters and implicit conversions. The test's binding module is left out too. None of them has logic of its own.
- `PyErr_Print`/`PyErr_Clear`. An error is an `Outcome.Failed`, and it propagates.
- The event manager.
  - Subscription, and synchronous dispatch of a native event to subscribers, are not modelled: a proxy's `Receive` is what a dispatch runs.
  - Python-side `emit` is not modelled, so the test of an event emitted from script (PythonSystem_test.cc:249-258) is not covered.
- The entity manager's internals. Entity creation always uses the next index with version 1, and freed indices are not reused. Removing a script component from a live entity is not modelled.
- Real module import, and class creation by the interpreter. Modules are a map from names to classes.
- Python's C3 method resolution order. Attribute lookup searches bases depth-first from left to right.
- User-defined `__bool__`/`__len__` and `__getattr__`: truthiness and `hasattr` are structural.
- Script code (`update`, `__init__`, handlers) is a parameter that changes only the store.
- Floats (`dt`, `Position` fields) are opaque values.
- `add_installed_library_path`: it is `add_path` on a build-time constant.
- Keyword arguments to `_from_raw_entity` are not modelled. The bridge passes none.
- The iteration order of a `_components` dict is a parameter, because Python leaves it unspecified.
- Proxies.Notify: delivering to an entity that is not alive or has no script component gives `Failed(w, InvalidHandle)`. The source dereferences `entity.component<PythonComponent>()` without a check (PythonSystem.h:149-150, PythonSystem_test.cc:58-59): entityx asserts or dereferences a null handle, and no Python error propagates. This error path is therefore the model's own. So is a proxy delivery that it cuts short, which is one of the failure cases `Proxies.DeliverCalls` covers. `Bridge.PythonSystem.Update` never takes this path, because it visits only live entities that have a script component (`Bridge.ScriptedHaveScripts`). A delivery or an update stopped by a raised Python error is the source's own behaviour: `update` rethrows (PythonSystem.cc:238-241), and neither `receive` loop catches anything (PythonSystem.h:148-151, PythonSystem_test.cc:56-61).
- Custom proxies: `can_send` is virtual (PythonSystem.h:84) and `add_event_proxy<Event, Proxy>` accepts any subclass (PythonSystem.h:217-221). The model fixes `can_send` to the attribute test and the `receive` filter to one of two kinds: broadcast, or the test's participant filter. An overridden `can_send`, and any other custom `receive` filter, are not modelled. So `Bridge.PythonSystem.AddCustomEventProxy` covers only proxies of these two kinds.
- Bridge.PythonSystem.AddCustomEventProxy: requires the proxy not to be registered already. Registering the same proxy object twice would make "destroyed" remove two entries from its one list, and this model keeps proxies distinct.
- Entities.FromRawEntity: a first argument that is not an entity id (the bridge always passes one) raises `TypeError` before allocating. The source would reach `configure` or fail inside `_entityx.Entity.__init__`.
- Entities.BindNewBinds: assumes no declared component is named `_entity_id`. That name is a read-only property in the source.
- Scenarios.RealizationIsSynchronous: stated for component constructors that succeed and for the default `__init__`, which does nothing.
- Scenarios.RegisterScene: each script component is added with its object already set, so in this scenario the bridge registers the entity without realizing it. `Scenarios.RealizationIsSynchronous` covers realization on its own.
- The test-suite scenarios run on concrete worlds. The deep-subclass and Python-side entity creation tests (PythonSystem_test.cc:206-234) run script code that is not part of this model.
