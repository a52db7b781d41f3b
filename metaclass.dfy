/** `EntityMetaClass.__new__`: at class creation, collect the component
    declarations of a script entity class into its `_components` table —
    first the tables of its bases, in base order, then its own `Component`
    attributes. */
module Metaclass {
  import opened Values

  const COMPONENTS := "_components"

  /** The `_components` table a class defines in its own dictionary, or the
      empty table when it defines none (or something else under that name). */
  function TableOf(c: PyClass): map<string, ComponentDescriptor> {
    if COMPONENTS in c.dict && c.dict[COMPONENTS].Table? then c.dict[COMPONENTS].components else map[]
  }

  /** The first loop: update an empty table with each base's own table in
      turn.  A base whose `_components` is not a table makes `update` raise. */
  function MergeBases(bases: seq<PyClass>): Result<map<string, ComponentDescriptor>>
    decreases |bases|
  {
    if bases == [] then Ok(map[])
    else
      match MergeBases(bases[..|bases| - 1])
      case Err(err) => Err(err)
      case Ok(m) =>
        var b := bases[|bases| - 1];
        if COMPONENTS !in b.dict then Ok(m)
        else if b.dict[COMPONENTS].Table? then Ok(m + b.dict[COMPONENTS].components)
        else Err(TypeError)
  }

  /** The `Component`-valued entries among `keys` of a class body. */
  function DeclaredAmong(dct: map<string, Attr>, keys: set<string>): map<string, ComponentDescriptor> {
    map k | k in keys && k in dct && dct[k].Declared? :: dct[k].component
  }

  /** The table a completed class creation stores: the bases' tables merged,
      then the class's own declarations.  `_components` itself has already
      been replaced by the (not yet filled) table when the body is scanned,
      so it is never a declaration. */
  function ComponentsTable(bases: seq<PyClass>, dct: map<string, Attr>): Result<map<string, ComponentDescriptor>> {
    match MergeBases(bases)
    case Err(err) => Err(err)
    case Ok(m) => Ok(m + DeclaredAmong(dct, dct.Keys - {COMPONENTS}))
  }

  /** Once a prefix of the bases fails to merge, the whole merge fails with
      that error. */
  lemma {:induction false} MergeErrorPersists(bases: seq<PyClass>, n: nat)
    requires n <= |bases| && MergeBases(bases[..n]).Err?
    ensures MergeBases(bases) == MergeBases(bases[..n])
    decreases |bases| - n
  {
    if n < |bases| {
      assert bases[..n + 1][..n] == bases[..n];
      MergeErrorPersists(bases, n + 1);
    } else {
      assert bases[..n] == bases;
    }
  }

  /** Keys: the merged table has exactly the keys some base's table has. */
  lemma {:induction false} MergedKeys(bases: seq<PyClass>, k: string)
    requires MergeBases(bases).Ok?
    ensures k in MergeBases(bases).value <==> exists i | 0 <= i < |bases| :: k in TableOf(bases[i])
    decreases |bases|
  {
    if bases != [] {
      var init := bases[..|bases| - 1];
      MergedKeys(init, k);
      assert forall i | 0 <= i < |init| :: init[i] == bases[i];
      if k in TableOf(bases[|bases| - 1]) {
        assert exists i | 0 <= i < |bases| :: k in TableOf(bases[i]);
      }
    }
  }

  /** Later bases override earlier ones: an entry comes from the last base
      whose table has the key. */
  lemma {:induction false} LaterBaseWins(bases: seq<PyClass>, i: nat, k: string)
    requires MergeBases(bases).Ok?
    requires i < |bases| && k in TableOf(bases[i])
    requires forall j | i < j < |bases| :: k !in TableOf(bases[j])
    ensures k in MergeBases(bases).value && MergeBases(bases).value[k] == TableOf(bases[i])[k]
    decreases |bases|
  {
    var init := bases[..|bases| - 1];
    if i < |bases| - 1 {
      assert forall j | i < j < |init| :: init[j] == bases[j];
      LaterBaseWins(init, i, k);
    }
  }

  /** The class's own declarations override everything its bases declare. */
  lemma OwnDeclarationWins(bases: seq<PyClass>, dct: map<string, Attr>, k: string)
    requires ComponentsTable(bases, dct).Ok?
    requires k in dct && k != COMPONENTS && dct[k].Declared?
    ensures k in ComponentsTable(bases, dct).value && ComponentsTable(bases, dct).value[k] == dct[k].component
  {
  }

  /** An attribute of the class body that is not a `Component` contributes
      nothing: the table's keys are the bases' keys and the declared ones. */
  lemma TableKeys(bases: seq<PyClass>, dct: map<string, Attr>, k: string)
    requires ComponentsTable(bases, dct).Ok?
    ensures k in ComponentsTable(bases, dct).value <==>
      (exists i | 0 <= i < |bases| :: k in TableOf(bases[i])) || (k in dct && k != COMPONENTS && dct[k].Declared?)
  {
    MergedKeys(bases, k);
  }

  /** Scanning one more key of the body. */
  lemma DeclaredStep(merged: map<string, ComponentDescriptor>, body: map<string, Attr>, seen: set<string>, k: string)
    requires k in body && k !in seen
    ensures merged + DeclaredAmong(body, seen + {k}) ==
      if body[k].Declared? then (merged + DeclaredAmong(body, seen))[k := body[k].component]
      else merged + DeclaredAmong(body, seen)
  {
  }

  /** Scanning the body with `_components` already replaced by a table is
      scanning the original body without that key. */
  lemma DeclaredInBody(dct: map<string, Attr>, t: map<string, ComponentDescriptor>)
    ensures DeclaredAmong(dct[COMPONENTS := Table(t)], dct[COMPONENTS := Table(t)].Keys) == DeclaredAmong(dct, dct.Keys - {COMPONENTS})
  {
  }

  /** The first loop of `__new__`: update the table with each base's own
      `_components` in base order. */
  method MergeBaseTables(bases: seq<PyClass>) returns (r: Result<map<string, ComponentDescriptor>>)
    ensures r == MergeBases(bases)
  {
    var components: map<string, ComponentDescriptor> := map[];
    for i := 0 to |bases|
      invariant MergeBases(bases[..i]) == Ok(components)
    {
      assert bases[..i + 1][..i] == bases[..i];
      var base := bases[i];
      if COMPONENTS in base.dict {
        if base.dict[COMPONENTS].Table? {
          components := components + base.dict[COMPONENTS].components;
        } else {
          MergeErrorPersists(bases, i + 1);
          return Err(TypeError);
        }
      }
    }
    assert bases[..|bases|] == bases;
    r := Ok(components);
  }

  /** The second loop of `__new__`: every `Component` entry of the body
      goes into the table, over whatever came from the bases.  The body's
      keys are distinct, so the order of the scan does not matter. */
  method AddDeclarations(merged: map<string, ComponentDescriptor>, body: map<string, Attr>)
    returns (components: map<string, ComponentDescriptor>)
    ensures components == merged + DeclaredAmong(body, body.Keys)
  {
    components := merged;
    var keys := body.Keys;
    ghost var seen: set<string> := {};
    while keys != {}
      invariant keys + seen == body.Keys && keys !! seen
      invariant components == merged + DeclaredAmong(body, seen)
      decreases |keys|
    {
      var k :| k in keys;
      DeclaredStep(merged, body, seen, k);
      if body[k].Declared? {
        components := components[k := body[k].component];
      }
      keys, seen := keys - {k}, seen + {k};
    }
  }

  /** `EntityMetaClass.__new__(cls, name, bases, dct)`: the class is created
      with `_components` holding the merged table, every other entry of the
      body as given. */
  method MetaclassNew(moduleName: string, name: string, bases: seq<PyClass>, dct: map<string, Attr>)
    returns (r: Result<PyClass>)
    ensures ComponentsTable(bases, dct).Err? ==> r == Err(ComponentsTable(bases, dct).error)
    ensures ComponentsTable(bases, dct).Ok? ==>
      r == Ok(PyClass(moduleName, name, bases, dct[COMPONENTS := Table(ComponentsTable(bases, dct).value)]))
  {
    var body := dct[COMPONENTS := Table(map[])];
    var fromBases := MergeBaseTables(bases);
    if fromBases.Err? {
      return Err(fromBases.error);
    }
    var components := AddDeclarations(fromBases.value, body);
    DeclaredInBody(dct, map[]);
    assert body[COMPONENTS := Table(components)] == dct[COMPONENTS := Table(components)];
    r := Ok(PyClass(moduleName, name, bases, body[COMPONENTS := Table(components)]));
  }
}
