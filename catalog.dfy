/** Finding the objects under test and choosing a public callable among the
    members of one of them (`_find_objects_under_test`, `_random_public_method`). */
module Catalog {
  import opened Types

  /** The objects of a list of `(name, object)` pairs, in order. */
  function Objects(ms: seq<Member>): (r: seq<PyObject>)
    ensures |r| == |ms|
    ensures forall i :: 0 <= i < |ms| ==> r[i] == ms[i].value
  {
    if ms == [] then [] else [ms[0].value] + Objects(ms[1..])
  }

  /** The members of every module, module after module. */
  function ModuleMembers(alg: Algorithm, modules: seq<PyObject>): seq<PyObject>
  {
    if modules == [] then [] else Objects(alg.moduleMembers(modules[0])) + ModuleMembers(alg, modules[1..])
  }

  /** How many members the modules have altogether. */
  function MemberCount(alg: Algorithm, modules: seq<PyObject>): nat
  {
    if modules == [] then 0 else |alg.moduleMembers(modules[0])| + MemberCount(alg, modules[1..])
  }

  lemma {:induction false} ModuleMembersLength(alg: Algorithm, modules: seq<PyObject>)
    ensures |ModuleMembers(alg, modules)| == MemberCount(alg, modules)
  {
    if modules != [] {
      ModuleMembersLength(alg, modules[1..]);
    }
  }

  /** Collecting the members of one more module extends the list at its end. */
  lemma {:induction false} ModuleMembersSnoc(alg: Algorithm, modules: seq<PyObject>, m: PyObject)
    ensures ModuleMembers(alg, modules + [m]) == ModuleMembers(alg, modules) + Objects(alg.moduleMembers(m))
  {
    if modules == [] {
      assert modules + [m] == [m];
    } else {
      assert (modules + [m])[1..] == modules[1..] + [m];
      ModuleMembersSnoc(alg, modules[1..], m);
    }
  }

  /** The input types come first and unchanged, then the members of each
      module in module order. */
  method FindObjectsUnderTest(alg: Algorithm, types: seq<PyObject>) returns (objects: seq<PyObject>)
    ensures objects == types + ModuleMembers(alg, types)
    ensures |objects| == |types| + MemberCount(alg, types)
  {
    objects := types;
    for i := 0 to |types|
      invariant objects == types + ModuleMembers(alg, types[..i])
    {
      FindStep(alg, types, i);
      objects := objects + Objects(alg.moduleMembers(types[i]));
    }
    assert types[..|types|] == types;
    ModuleMembersLength(alg, types);
  }

  /** One more module's members extend what the earlier modules gave. */
  lemma FindStep(alg: Algorithm, types: seq<PyObject>, i: nat)
    requires i < |types|
    ensures types + ModuleMembers(alg, types[..i + 1]) ==
      (types + ModuleMembers(alg, types[..i])) + Objects(alg.moduleMembers(types[i]))
  {
    assert types[..i + 1] == types[..i] + [types[i]];
    ModuleMembersSnoc(alg, types[..i], types[i]);
  }

  /** The members `inspect.getmembers` returns with the member predicate of
      `_random_public_method`: classes, methods and functions, in order. The
      first member the predicate cannot inspect raises `GenerationException`. */
  function InspectMembers(ms: seq<Member>): (r: Result<seq<Member>>)
    ensures r.Ok? <==> forall m :: m in ms ==> !m.value.kind.Uninspectable?
    ensures r.Err? ==> r.error.GenerationException?
    ensures r.Ok? ==> forall m :: m in r.value <==> m in ms && IsClassOrRoutine(m.value.kind)
  {
    if ms == [] then Ok([])
    else if ms[0].value.kind.Uninspectable? then
      Err(GenerationException("Test member: " + ms[0].value.kind.reason))
    else
      match InspectMembers(ms[1..])
      case Err(e) => Err(e)
      case Ok(rest) => Ok(if IsClassOrRoutine(ms[0].value.kind) then [ms[0]] + rest else rest)
  }

  /** `InspectMembers` keeps the members in the order `inspect.getmembers`
      lists them: one more member is appended when it is a class, method or
      function, skipped otherwise, and raises when it cannot be inspected
      (unless an earlier member already raised). */
  lemma {:induction false} InspectMembersSnoc(ms: seq<Member>, m: Member)
    ensures InspectMembers(ms + [m]) ==
      match InspectMembers(ms)
      case Err(e) => Err(e)
      case Ok(r) =>
        if m.value.kind.Uninspectable? then Err(GenerationException("Test member: " + m.value.kind.reason))
        else Ok(r + (if IsClassOrRoutine(m.value.kind) then [m] else []))
  {
    if ms == [] {
      assert ms + [m] == [m];
      assert [m][1..] == [];
      assert InspectMembers([m][1..]) == Ok([]);
      if !m.value.kind.Uninspectable? {
        var tail := if IsClassOrRoutine(m.value.kind) then [m] else [];
        assert InspectMembers([m]) == Ok(if IsClassOrRoutine(m.value.kind) then [m] + [] else []);
        assert InspectMembers(ms) == Ok([]);
        assert [m] + [] == [m];
        assert [] + tail == tail;
      }
    } else {
      assert (ms + [m])[0] == ms[0];
      assert (ms + [m])[1..] == ms[1..] + [m];
      InspectMembersSnoc(ms[1..], m);
      var tail := if IsClassOrRoutine(m.value.kind) then [m] else [];
      if !ms[0].value.kind.Uninspectable? && InspectMembers(ms[1..]).Ok? && !m.value.kind.Uninspectable? {
        var rest := InspectMembers(ms[1..]).value;
        assert [ms[0]] + (rest + tail) == ([ms[0]] + rest) + tail;
      }
    }
  }

  /** A member is public when its name does not start with `_` and the object
      is not the `_recording_isinstance` hook. */
  predicate IsPublic(m: Member)
  {
    m.name[0] != '_' && m.value.name != "_recording_isinstance"
  }

  /** The objects of the public members, in order. */
  function PublicMembers(ms: seq<Member>): (r: seq<PyObject>)
    ensures |r| <= |ms|
    ensures forall o :: o in r <==> exists m :: m in ms && IsPublic(m) && m.value == o
  {
    if ms == [] then []
    else
      var rest := PublicMembers(ms[1..]);
      assert forall m :: m in ms[1..] ==> m in ms;
      assert forall m :: m in ms ==> m == ms[0] || m in ms[1..];
      if IsPublic(ms[0]) then [ms[0].value] + rest else rest
  }

  const EmptyChoice := "Cannot choose from an empty sequence"

  /** The object under test a draw picks. */
  function ChosenObject(objects: seq<PyObject>, d: Draws): PyObject
    requires objects != []
  {
    objects[Reduce(d.objectPick, |objects|)]
  }

  /** Every object under test can be the one `random.choice` picks: a draw
      below the number of objects picks its own position. */
  lemma EveryObjectSelectable(objects: seq<PyObject>, i: nat)
    requires i < |objects|
    ensures exists d: Draws :: ChosenObject(objects, d) == objects[i]
  {
    var d := Draws(i, 0, 0, _ => 0);
    assert ChosenObject(objects, d) == objects[i];
  }

  /** `_random_public_method`: choose an object under test, list its public
      classes, methods and functions, and choose one of them. Choosing from no
      objects at all raises Python's IndexError, which is not a
      `GenerationException`; an object without public callables raises one. */
  function RandomPublicMethod(alg: Algorithm, objects: seq<PyObject>, d: Draws): (r: Result<PyObject>)
    ensures r.Err? && r.error.OtherException? <==> objects == []
    ensures r.Ok? ==>
      r.value.name != "_recording_isinstance" &&
      exists m :: m in alg.members(ChosenObject(objects, d)) && m.value == r.value &&
                  m.name[0] != '_' && IsClassOrRoutine(m.value.kind)
  {
    if objects == [] then Err(OtherException(EmptyChoice))
    else
      var target := ChosenObject(objects, d);
      match InspectMembers(alg.members(target))
      case Err(e) => Err(e)
      case Ok(members) =>
        var publics := PublicMembers(members);
        if publics == [] then Err(GenerationException(target.name + " has no public callables."))
        else
          var o := publics[Reduce(d.methodPick, |publics|)];
          assert o in publics;
          Ok(o)
  }

  /** The selector raises "has no public callables" exactly when the chosen
      object can be inspected and none of its classes, methods and functions
      is public. */
  lemma NoPublicCallables(alg: Algorithm, objects: seq<PyObject>, d: Draws)
    requires objects != []
    requires InspectMembers(alg.members(ChosenObject(objects, d))).Ok?
    ensures RandomPublicMethod(alg, objects, d) == Err(GenerationException(ChosenObject(objects, d).name + " has no public callables."))
        <==> forall m :: m in alg.members(ChosenObject(objects, d)) && IsClassOrRoutine(m.value.kind) ==> !IsPublic(m)
  {
    var target := ChosenObject(objects, d);
    var members := InspectMembers(alg.members(target)).value;
    if !forall m :: m in alg.members(target) && IsClassOrRoutine(m.value.kind) ==> !IsPublic(m) {
      var m :| m in alg.members(target) && IsClassOrRoutine(m.value.kind) && IsPublic(m);
      assert m.value in PublicMembers(members);
    }
  }

  /** Every public callable of every object under test can be selected: some
      draws make the selector return it. */
  lemma EveryPublicCallableSelectable(alg: Algorithm, objects: seq<PyObject>, i: nat, m: Member)
    requires i < |objects|
    requires m in alg.members(objects[i]) && IsClassOrRoutine(m.value.kind) && IsPublic(m)
    requires InspectMembers(alg.members(objects[i])).Ok?
    ensures exists d: Draws :: RandomPublicMethod(alg, objects, d) == Ok(m.value)
  {
    var members := InspectMembers(alg.members(objects[i])).value;
    var publics := PublicMembers(members);
    assert m.value in publics;
    var j :| 0 <= j < |publics| && publics[j] == m.value;
    var d := Draws(i, j, 0, k => 0);
    assert ChosenObject(objects, d) == objects[i];
    assert InspectMembers(alg.members(ChosenObject(objects, d))) == Ok(members);
    assert RandomPublicMethod(alg, objects, d) == Ok(m.value);
  }
}
