/** The `Component` field of the script-side convenience layer: a
    declaration of one native component type (with constructor arguments)
    and its get-or-create `_build`. */
module Components {
  import opened Ids
  import opened Values

  /** The native component constructor `cls(*args, **kwargs)`, which may
      raise. */
  type Construct = ComponentDescriptor -> Result<ComponentData>

  /** `_build(entity_id)`: the entity's component of the declared type if it
      has one; otherwise construct one, assign it, and look again. */
  function Build(s: Store, d: ComponentDescriptor, id: EntityId, construct: Construct): (r: Reply)
    ensures r.store.heap == s.heap && r.store.nextRef == s.nextRef
    ensures r.Returned? ==> r.value == ComponentRef(ComponentKey(id, d.ctype)) && ComponentKey(id, d.ctype) in r.store.components
    decreases if ComponentKey(id, d.ctype) in s.components then 0 else 1
  {
    match GetComponent(s, id, d.ctype)
    case Some(c) => Returned(s, c)
    case None =>
      match construct(d)
      case Err(err) => Threw(s, err)
      case Ok(data) => Build(AssignTo(s, id, d.ctype, data), d, id, construct)
  }

  /** An entity that already has the component gets it back, and nothing is
      constructed or assigned. */
  lemma BuildExisting(s: Store, d: ComponentDescriptor, id: EntityId, construct: Construct)
    requires ComponentKey(id, d.ctype) in s.components
    ensures Build(s, d, id, construct) == Returned(s, ComponentRef(ComponentKey(id, d.ctype)))
  {
  }

  /** An entity without it gets one component built from the declared
      arguments; a failing constructor changes nothing and its error
      propagates. */
  lemma BuildAbsent(s: Store, d: ComponentDescriptor, id: EntityId, construct: Construct)
    requires ComponentKey(id, d.ctype) !in s.components
    ensures construct(d).Err? ==> Build(s, d, id, construct) == Threw(s, construct(d).error)
    ensures construct(d).Ok? ==>
      Build(s, d, id, construct) == Returned(AssignTo(s, id, d.ctype, construct(d).value), ComponentRef(ComponentKey(id, d.ctype)))
  {
    if construct(d).Ok? {
      var s' := AssignTo(s, id, d.ctype, construct(d).value);
      GetAfterAssign(s, id, d.ctype, construct(d).value);
      assert Build(s', d, id, construct) == Returned(s', ComponentRef(ComponentKey(id, d.ctype)));
    }
  }

  /** A second `_build` creates nothing and returns the same component. */
  lemma BuildTwice(s: Store, d: ComponentDescriptor, id: EntityId, construct: Construct)
    requires Build(s, d, id, construct).Returned?
    ensures var r := Build(s, d, id, construct);
      Build(r.store, d, id, construct) == r
  {
    var r := Build(s, d, id, construct);
    if ComponentKey(id, d.ctype) !in s.components {
      BuildAbsent(s, d, id, construct);
    }
    BuildExisting(r.store, d, id, construct);
  }

  /** Building never removes or replaces a component that exists. */
  lemma BuildKeepsComponents(s: Store, d: ComponentDescriptor, id: EntityId, construct: Construct)
    ensures var r := Build(s, d, id, construct);
      forall k | k in s.components :: k in r.store.components && r.store.components[k] == s.components[k]
  {
    if ComponentKey(id, d.ctype) !in s.components {
      BuildAbsent(s, d, id, construct);
    }
  }
}
