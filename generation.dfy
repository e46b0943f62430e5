/** One step of the generator and the time-bounded loop around it
    (`_generate_sequence`, `generate_sequences`). */
module Generation {
  import opened Types
  import opened Catalog
  import opened Sampler
  import opened Extender

  /** A Python list of test cases, which the generation step appends to in place. */
  class TestCaseList {
    var items: seq<TestCase>

    constructor ()
      ensures items == []
    {
      items := [];
    }

    method Append(t: TestCase)
      modifies this
      ensures items == old(items) + [t]
    {
      items := items + [t];
    }
  }

  /** The passing and the failing test cases at one moment. */
  datatype Pools = Pools(passing: seq<TestCase>, failing: seq<TestCase>)

  /** No test case occurs twice. */
  predicate Distinct(s: seq<TestCase>)
  {
    forall i, j :: 0 <= i < j < |s| ==> s[i] != s[j]
  }

  /** Neither pool holds a test case twice and no test case is in both. */
  predicate Valid(p: Pools)
  {
    Distinct(p.passing) && Distinct(p.failing) && forall t :: t in p.passing ==> t !in p.failing
  }

  /** The test case equals one already accepted, passing or failing. */
  predicate IsDuplicate(candidate: TestCase, p: Pools)
  {
    candidate in p.passing || candidate in p.failing
  }

  /** The end of `_generate_sequence`: discard a duplicate without executing
      it, otherwise execute it and append it to the failing pool on a
      violation and to the passing pool otherwise. */
  function Classify(p: Pools, candidate: TestCase, execute: TestCase -> bool): Pools
  {
    if IsDuplicate(candidate, p) then p
    else if execute(candidate) then Pools(p.passing, p.failing + [candidate])
    else Pools(p.passing + [candidate], p.failing)
  }

  /** A duplicate leaves both pools as they were, whatever the executor would
      say: the executor is not consulted. Otherwise exactly one pool grows, by
      the candidate at its end, and the other is unchanged. */
  lemma ClassifyRoutes(p: Pools, candidate: TestCase, execute: TestCase -> bool, other: TestCase -> bool)
    ensures IsDuplicate(candidate, p) ==>
      Classify(p, candidate, execute) == p == Classify(p, candidate, other)
    ensures !IsDuplicate(candidate, p) ==>
      var q := Classify(p, candidate, execute);
      |q.passing| + |q.failing| == |p.passing| + |p.failing| + 1 &&
      (candidate in q.failing <==> execute(candidate)) &&
      (candidate in q.passing <==> !execute(candidate)) &&
      (execute(candidate) ==> q.passing == p.passing && q.failing == p.failing + [candidate]) &&
      (!execute(candidate) ==> q.failing == p.failing && q.passing == p.passing + [candidate])
  {
  }

  /** Appending a test case not yet in a list keeps it free of repetitions. */
  lemma {:induction false} DistinctAppend(s: seq<TestCase>, t: TestCase)
    requires Distinct(s) && t !in s
    ensures Distinct(s + [t])
  {
    forall i, j | 0 <= i < j < |s + [t]| ensures (s + [t])[i] != (s + [t])[j] {
      if j == |s| {
        assert (s + [t])[i] == s[i];
        assert s[i] in s;
      }
    }
  }

  /** Classification only appends to the pools and keeps them duplicate-free
      and disjoint. */
  lemma {:induction false} ClassifyKeepsValid(p: Pools, candidate: TestCase, execute: TestCase -> bool)
    requires Valid(p)
    ensures p.passing <= Classify(p, candidate, execute).passing
    ensures p.failing <= Classify(p, candidate, execute).failing
    ensures Valid(Classify(p, candidate, execute))
  {
    if !IsDuplicate(candidate, p) {
      if execute(candidate) {
        DistinctAppend(p.failing, candidate);
      } else {
        DistinctAppend(p.passing, candidate);
      }
    }
  }

  /** The new test case one iteration builds, or the exception it raises on
      the way: choose a public callable, sample passing test cases, build the
      arguments and extend. */
  function Candidate(alg: Algorithm, p: Pools, objects: seq<PyObject>, d: Draws): Result<TestCase>
  {
    match RandomPublicMethod(alg, objects, d)
    case Err(e) => Err(e)
    case Ok(callable) =>
      var tests := RandomTestCases(alg.configuration, p.passing, d);
      match Arguments(alg, p.passing, NonSelf(callable.parameters))
      case Err(e) => Err(e)
      case Ok(values) => Ok(Extended(alg, callable, tests, values))
  }

  /** `_generate_sequence` on values: the new pools, or the exception raised. */
  function Step(alg: Algorithm, p: Pools, objects: seq<PyObject>, d: Draws): Result<Pools>
  {
    match Candidate(alg, p, objects, d)
    case Err(e) => Err(e)
    case Ok(candidate) => Ok(Classify(p, candidate, alg.execute))
  }

  /** How a call of `_generate_sequence` ended. */
  datatype Outcome = Completed | Raised(error: Error)

  /** A step whose result was `r` ended with `outcome` and took the lists
      from `before` to `after`: on success they are the step's new pools, on
      an exception they are left as they were. */
  ghost predicate Ended(r: Result<Pools>, outcome: Outcome, before: Pools, after: Pools)
  {
    after == (if r.Ok? then r.value else before) &&
    outcome == (if r.Ok? then Completed else Raised(r.error))
  }

  /** `_generate_sequence`: one step of the algorithm, which appends to the
      given lists in place or raises before touching them. */
  method GenerateSequence(alg: Algorithm, testCases: TestCaseList, failingTestCases: TestCaseList,
                          objectsUnderTest: seq<PyObject>, d: Draws) returns (outcome: Outcome)
    requires testCases != failingTestCases
    modifies testCases, failingTestCases
    ensures Ended(Step(alg, Pools(old(testCases.items), old(failingTestCases.items)), objectsUnderTest, d), outcome,
                  Pools(old(testCases.items), old(failingTestCases.items)), Pools(testCases.items, failingTestCases.items))
  {
    var callable := RandomPublicMethod(alg, objectsUnderTest, d);
    if callable.Err? {
      return Raised(callable.error);
    }
    var tests := RandomTestCases(alg.configuration, testCases.items, d);
    var values := RandomValues(alg, testCases.items, callable.value);
    if values.Err? {
      return Raised(values.error);
    }
    var newTestCase := Extend(alg, callable.value, tests, values.value);

    if newTestCase in testCases.items || newTestCase in failingTestCases.items {
      return Completed;
    }
    var violated := alg.execute(newTestCase);
    if violated {
      failingTestCases.Append(newTestCase);
    } else {
      testCases.Append(newTestCase);
    }
    outcome := Completed;
  }

  /** What `generate_sequences` ends with: both pools and the number of
      iterations it ran. */
  datatype Generated = Generated(testCases: seq<TestCase>, failingTestCases: seq<TestCase>, executionCounter: nat)

  /** The loop from the given pools and counter, one iteration per element of
      `rounds` (the iterations that start before the time limit), each done by
      `step`. An iteration that raises `GenerationException` is counted and
      changes nothing; any other exception leaves the loop. */
  function Loop(step: (Pools, Draws) -> Result<Pools>, p: Pools, counter: nat, rounds: seq<Draws>): Result<Generated>
    decreases |rounds|
  {
    if rounds == [] then Ok(Generated(p.passing, p.failing, counter))
    else
      match step(p, rounds[0])
      case Ok(q) => Loop(step, q, counter + 1, rounds[1..])
      case Err(e) =>
        if e.GenerationException? then Loop(step, p, counter + 1, rounds[1..]) else Err(e)
  }

  /** One iteration of the loop over the given objects under test. */
  function Iteration(alg: Algorithm, objects: seq<PyObject>): (Pools, Draws) -> Result<Pools>
  {
    (p, d) => Step(alg, p, objects, d)
  }

  /** `generate_sequences` on values: start with empty pools and a zero
      counter over the modules and their members. */
  function Generate(alg: Algorithm, modules: seq<PyObject>, rounds: seq<Draws>): Result<Generated>
  {
    Loop(Iteration(alg, modules + ModuleMembers(alg, modules)), Pools([], []), 0, rounds)
  }

  /** `generate_sequences`: find the objects under test, then run one
      generation step per iteration until time is up, swallowing
      `GenerationException`. */
  method GenerateSequences(alg: Algorithm, modules: seq<PyObject>, rounds: seq<Draws>) returns (r: Result<Generated>)
    ensures r == Generate(alg, modules, rounds)
    ensures r.Ok? ==> r.value.executionCounter == |rounds|
    ensures r.Ok? ==> Valid(Pools(r.value.testCases, r.value.failingTestCases))
  {
    var testCases := new TestCaseList();
    var failingTestCases := new TestCaseList();
    var executionCounter := 0;
    var objectsUnderTest := FindObjectsUnderTest(alg, modules);
    assert objectsUnderTest == modules + ModuleMembers(alg, modules);

    var i := 0;
    while i < |rounds|
      invariant 0 <= i <= |rounds|
      invariant testCases != failingTestCases
      invariant Loop(Iteration(alg, objectsUnderTest), Pools(testCases.items, failingTestCases.items), executionCounter, rounds[i..])
                == Generate(alg, modules, rounds)
    {
      var outcome := Round(alg, testCases, failingTestCases, objectsUnderTest, rounds, i, executionCounter);
      executionCounter := executionCounter + 1;
      if outcome.Raised? && !outcome.error.GenerationException? {
        return Err(outcome.error);
      }
      i := i + 1;
    }
    r := Ok(Generated(testCases.items, failingTestCases.items, executionCounter));
    GenerateProperties(alg, modules, rounds);
  }

  /** The `try` block of one iteration of `generate_sequences`, run once the
      iteration has been counted: call `_generate_sequence`. An exception
      leaves both lists as they were; otherwise they are what one iteration of
      `Loop` makes of them. An exception other than `GenerationException` is
      what the loop raises; otherwise the loop goes on from the new lists. */
  method Round(alg: Algorithm, testCases: TestCaseList, failingTestCases: TestCaseList,
               objects: seq<PyObject>, rounds: seq<Draws>, i: nat, counter: nat) returns (outcome: Outcome)
    requires i < |rounds|
    requires testCases != failingTestCases
    modifies testCases, failingTestCases
    ensures outcome.Raised? ==>
      testCases.items == old(testCases.items) && failingTestCases.items == old(failingTestCases.items)
    ensures outcome.Raised? && !outcome.error.GenerationException? ==>
      Loop(Iteration(alg, objects), Pools(old(testCases.items), old(failingTestCases.items)), counter, [rounds[i]])
      == Err(outcome.error)
    ensures !(outcome.Raised? && !outcome.error.GenerationException?) ==>
      Loop(Iteration(alg, objects), Pools(old(testCases.items), old(failingTestCases.items)), counter, [rounds[i]])
      == Ok(Generated(testCases.items, failingTestCases.items, counter + 1))
    ensures outcome.Raised? && !outcome.error.GenerationException? ==>
      Loop(Iteration(alg, objects), Pools(old(testCases.items), old(failingTestCases.items)), counter, rounds[i..])
      == Err(outcome.error)
    ensures !(outcome.Raised? && !outcome.error.GenerationException?) ==>
      Loop(Iteration(alg, objects), Pools(old(testCases.items), old(failingTestCases.items)), counter, rounds[i..])
      == Loop(Iteration(alg, objects), Pools(testCases.items, failingTestCases.items), counter + 1, rounds[i + 1..])
  {
    ghost var before := Pools(testCases.items, failingTestCases.items);
    outcome := GenerateSequence(alg, testCases, failingTestCases, objects, rounds[i]);
    assert Iteration(alg, objects)(before, rounds[i]) == Step(alg, before, objects, rounds[i]);
    LoopByStep(Iteration(alg, objects), before, counter, rounds, i, outcome,
               Pools(testCases.items, failingTestCases.items));
  }

  /** One iteration of the loop, seen from the iteration at index `i`, for a
      step that ended with `outcome` and left the pools `after`: an exception
      other than `GenerationException` is what the loop raises; otherwise the
      loop goes on from `after`, one iteration further. */
  lemma LoopByStep(step: (Pools, Draws) -> Result<Pools>, p: Pools, counter: nat, rounds: seq<Draws>, i: nat,
                   outcome: Outcome, after: Pools)
    requires i < |rounds|
    requires Ended(step(p, rounds[i]), outcome, p, after)
    ensures outcome.Raised? && !outcome.error.GenerationException? ==>
      Loop(step, p, counter, rounds[i..]) == Err(outcome.error)
    ensures !(outcome.Raised? && !outcome.error.GenerationException?) ==>
      Loop(step, p, counter, rounds[i..]) == Loop(step, after, counter + 1, rounds[i + 1..])
  {
    assert rounds[i..][0] == rounds[i];
    assert rounds[i..][1..] == rounds[i + 1..];
  }

  /** One step only appends to the pools and keeps them duplicate-free and disjoint. */
  lemma StepKeepsValid(alg: Algorithm, p: Pools, objects: seq<PyObject>, d: Draws)
    requires Valid(p)
    ensures var r := Step(alg, p, objects, d);
      r.Ok? ==> p.passing <= r.value.passing && p.failing <= r.value.failing && Valid(r.value)
  {
    var c := Candidate(alg, p, objects, d);
    if c.Ok? {
      var q := Classify(p, c.value, alg.execute);
      ClassifyKeepsValid(p, c.value, alg.execute);
      assert Step(alg, p, objects, d) == Ok(q);
    }
  }

  /** An iteration that only appends to valid pools and keeps them valid. */
  ghost predicate AppendsValidly(step: (Pools, Draws) -> Result<Pools>)
  {
    forall q, d :: Valid(q) && step(q, d).Ok? ==>
      q.passing <= step(q, d).value.passing && q.failing <= step(q, d).value.failing && Valid(step(q, d).value)
  }

  /** Across the loop both pools are append-only, they stay duplicate-free
      and disjoint, and the counter grows by one per iteration. */
  lemma {:induction false} LoopProperties(step: (Pools, Draws) -> Result<Pools>, p: Pools, counter: nat, rounds: seq<Draws>)
    requires AppendsValidly(step)
    requires Valid(p)
    ensures var r := Loop(step, p, counter, rounds);
      r.Ok? ==>
        r.value.executionCounter == counter + |rounds| &&
        p.passing <= r.value.testCases && p.failing <= r.value.failingTestCases &&
        Valid(Pools(r.value.testCases, r.value.failingTestCases))
    decreases |rounds|
  {
    if rounds != [] {
      match step(p, rounds[0])
      case Ok(q) => LoopProperties(step, q, counter + 1, rounds[1..]);
      case Err(_) => LoopProperties(step, p, counter + 1, rounds[1..]);
    }
  }

  /** `generate_sequences` returns duplicate-free, disjoint pools and the
      number of iterations it ran. */
  lemma GenerateProperties(alg: Algorithm, modules: seq<PyObject>, rounds: seq<Draws>)
    ensures var r := Generate(alg, modules, rounds);
      r.Ok? ==> r.value.executionCounter == |rounds| && Valid(Pools(r.value.testCases, r.value.failingTestCases))
  {
    var objects := modules + ModuleMembers(alg, modules);
    forall q, d | Valid(q)
      ensures var r := Iteration(alg, objects)(q, d);
        r.Ok? ==> q.passing <= r.value.passing && q.failing <= r.value.failing && Valid(r.value)
    {
      StepKeepsValid(alg, q, objects, d);
    }
    LoopProperties(Iteration(alg, objects), Pools([], []), 0, rounds);
  }

  /** An iteration that raises `GenerationException` every time leaves the
      pools as they were; the loop still runs, and counts, every iteration. */
  lemma {:induction false} LoopWhenEveryStepRaises(step: (Pools, Draws) -> Result<Pools>, p: Pools, counter: nat, rounds: seq<Draws>)
    requires forall q, d :: step(q, d).Err? && step(q, d).error.GenerationException?
    ensures Loop(step, p, counter, rounds) == Ok(Generated(p.passing, p.failing, counter + |rounds|))
    decreases |rounds|
  {
    if rounds != [] {
      LoopWhenEveryStepRaises(step, p, counter + 1, rounds[1..]);
    }
  }

  /** Only an exception other than `GenerationException` ends the loop early. */
  lemma {:induction false} LoopCompletes(step: (Pools, Draws) -> Result<Pools>, p: Pools, counter: nat, rounds: seq<Draws>)
    requires forall q, d :: step(q, d).Err? ==> step(q, d).error.GenerationException?
    ensures Loop(step, p, counter, rounds).Ok?
    decreases |rounds|
  {
    if rounds != [] {
      match step(p, rounds[0])
      case Ok(q) => LoopCompletes(step, q, counter + 1, rounds[1..]);
      case Err(_) => LoopCompletes(step, p, counter + 1, rounds[1..]);
    }
  }

  /** With no modules there is nothing to choose from: the first iteration
      raises Python's IndexError, which the loop does not catch. Otherwise, as
      long as `init_value` raises nothing but `GenerationException`, the loop
      runs until time is up. */
  lemma GenerateRaises(alg: Algorithm, modules: seq<PyObject>, rounds: seq<Draws>)
    requires forall a, ts :: alg.initValue(a, ts).Err? ==> alg.initValue(a, ts).error.GenerationException?
    ensures Generate(alg, modules, rounds).Err? <==> modules == [] && rounds != []
    ensures modules == [] && rounds != [] ==> Generate(alg, modules, rounds) == Err(OtherException(EmptyChoice))
  {
    var objects := modules + ModuleMembers(alg, modules);
    if modules == [] {
      assert objects == [];
    } else {
      assert objects[0] == modules[0];
      forall q, d ensures Iteration(alg, objects)(q, d).Err? ==> Iteration(alg, objects)(q, d).error.GenerationException? {
        if Candidate(alg, q, objects, d).Err? && RandomPublicMethod(alg, objects, d).Ok? {
          ArgumentsError(alg, q.passing, NonSelf(RandomPublicMethod(alg, objects, d).value.parameters));
        }
      }
      LoopCompletes(Iteration(alg, objects), Pools([], []), 0, rounds);
    }
  }

  /** When no class, method or function member of any object under test is
      public, choosing a callable raises `GenerationException`. */
  lemma NoPublicMemberRaises(alg: Algorithm, objects: seq<PyObject>, d: Draws)
    requires objects != []
    requires forall o, m :: o in objects && m in alg.members(o) && IsClassOrRoutine(m.value.kind) ==> !IsPublic(m)
    ensures RandomPublicMethod(alg, objects, d).Err? && RandomPublicMethod(alg, objects, d).error.GenerationException?
  {
    var target := ChosenObject(objects, d);
    assert target in objects;
    var inspected := InspectMembers(alg.members(target));
    if inspected.Ok? && PublicMembers(inspected.value) != [] {
      assert PublicMembers(inspected.value)[0] in PublicMembers(inspected.value);
    }
  }

  /** When no class, method or function member of any object under test is
      public, every iteration raises `GenerationException`: both pools stay
      empty and the counter still reaches the number of iterations. */
  lemma NoPublicCallablesAnywhere(alg: Algorithm, modules: seq<PyObject>, rounds: seq<Draws>)
    requires modules != []
    requires forall o, m :: o in modules + ModuleMembers(alg, modules) && m in alg.members(o) && IsClassOrRoutine(m.value.kind) ==> !IsPublic(m)
    ensures Generate(alg, modules, rounds) == Ok(Generated([], [], |rounds|))
  {
    var objects := modules + ModuleMembers(alg, modules);
    forall q, d ensures Iteration(alg, objects)(q, d).Err? && Iteration(alg, objects)(q, d).error.GenerationException? {
      NoPublicMemberRaises(alg, objects, d);
    }
    LoopWhenEveryStepRaises(Iteration(alg, objects), Pools([], []), 0, rounds);
  }

  /** An iteration that never grows the passing pool. */
  ghost predicate KeepsPassing(step: (Pools, Draws) -> Result<Pools>)
  {
    forall q, d :: step(q, d).Ok? ==> step(q, d).value.passing == q.passing
  }

  lemma {:induction false} LoopKeepsPassing(step: (Pools, Draws) -> Result<Pools>, p: Pools, counter: nat, rounds: seq<Draws>)
    requires KeepsPassing(step)
    ensures Loop(step, p, counter, rounds).Ok? ==> Loop(step, p, counter, rounds).value.testCases == p.passing
    decreases |rounds|
  {
    if rounds != [] {
      match step(p, rounds[0])
      case Ok(q) => LoopKeepsPassing(step, q, counter + 1, rounds[1..]);
      case Err(_) => LoopKeepsPassing(step, p, counter + 1, rounds[1..]);
    }
  }

  /** When the executor reports a violation for every test case, the passing
      pool stays empty. */
  lemma EveryExecutionViolates(alg: Algorithm, modules: seq<PyObject>, rounds: seq<Draws>)
    requires forall t :: alg.execute(t)
    ensures Generate(alg, modules, rounds).Ok? ==> Generate(alg, modules, rounds).value.testCases == []
  {
    var objects := modules + ModuleMembers(alg, modules);
    LoopKeepsPassing(Iteration(alg, objects), Pools([], []), 0, rounds);
  }

  /** `statements` are those of the test cases `tests`, drawn once each
      from the passing pool and within both limits, followed by exactly one
      statement the factory creates for `callable` with one argument per
      parameter other than `self`. */
  ghost predicate BuiltFrom(alg: Algorithm, passing: seq<TestCase>, callable: PyObject, statements: seq<Statement>,
                            tests: seq<TestCase>, values: seq<Argument>)
  {
    statements == Concat(tests) + [alg.createStatement(TestCase(Concat(tests)), callable, values)] &&
    |values| == |NonSelf(callable.parameters)| &&
    multiset(tests) <= multiset(passing) &&
    (alg.configuration.maxSequencesCombined != 0 ==> |tests| <= alg.configuration.maxSequencesCombined) &&
    (alg.configuration.maxSequenceLength != 0 ==> forall t :: t in tests ==> |t.statements| < alg.configuration.maxSequenceLength)
  }

  /** The test case one iteration builds is the statements of some passing
      test cases, at most `maxSequencesCombined` of them when that is not 0,
      each drawn once and shorter than `maxSequenceLength` when that is not 0,
      followed by exactly one statement the factory creates for the public
      callable chosen, with one argument per parameter other than `self`. */
  lemma CandidateShape(alg: Algorithm, p: Pools, objects: seq<PyObject>, d: Draws)
    ensures var c := Candidate(alg, p, objects, d);
      c.Ok? ==>
        RandomPublicMethod(alg, objects, d).Ok? &&
        exists tests: seq<TestCase>, values: seq<Argument> ::
          BuiltFrom(alg, p.passing, RandomPublicMethod(alg, objects, d).value, c.value.statements, tests, values)
  {
    if Candidate(alg, p, objects, d).Ok? {
      var callable := RandomPublicMethod(alg, objects, d).value;
      var tests := RandomTestCases(alg.configuration, p.passing, d);
      var values := Arguments(alg, p.passing, NonSelf(callable.parameters)).value;
      CandidateIsExtended(alg, p, objects, d);
      ArgumentsLength(alg, p.passing, NonSelf(callable.parameters));
      RandomTestCasesDrawn(alg.configuration, p.passing, d);
      assert BuiltFrom(alg, p.passing, callable, Candidate(alg, p, objects, d).value.statements, tests, values);
    }
  }

  /** A candidate that is built extends the sampled test cases by a call of
      the chosen callable with the arguments built for it. */
  lemma CandidateIsExtended(alg: Algorithm, p: Pools, objects: seq<PyObject>, d: Draws)
    requires Candidate(alg, p, objects, d).Ok?
    ensures RandomPublicMethod(alg, objects, d).Ok?
    ensures Arguments(alg, p.passing, NonSelf(RandomPublicMethod(alg, objects, d).value.parameters)).Ok?
    ensures Candidate(alg, p, objects, d).value ==
      Extended(alg, RandomPublicMethod(alg, objects, d).value, RandomTestCases(alg.configuration, p.passing, d),
               Arguments(alg, p.passing, NonSelf(RandomPublicMethod(alg, objects, d).value.parameters)).value)
  {
  }
}
