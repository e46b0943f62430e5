/** The data model of the Randoop-style generator: reflected Python objects,
    statements and test cases, the exceptions one iteration can raise, the
    configuration, the collaborators of the algorithm and the random draws of
    one iteration. */
module Types {

  /** An attribute name as `inspect.getmembers` reports it. Python attribute
      names reached through `dir()` are identifiers, so never empty. */
  type Name = s: string | |s| > 0 witness "a"

  /** What the member predicate of `_random_public_method` finds an object to
      be. `Uninspectable` stands for an object on which the class, method and
      function tests themselves raise; `reason` is the exception's repr. */
  datatype Kind =
    | ClassKind
    | MethodKind
    | FunctionKind
    | OtherKind
    | Uninspectable(reason: string)

  /** True for what `inspect.isclass`, `inspect.ismethod` or `inspect.isfunction` accepts. */
  predicate IsClassOrRoutine(k: Kind)
  {
    k.ClassKind? || k.MethodKind? || k.FunctionKind?
  }

  /** One formal parameter of a signature: its name and its annotation. */
  datatype Parameter = Parameter(name: string, annotation: string)

  /** A reflected object (module, class, method or function): its `__name__`,
      its kind and the parameters `inspect.signature` lists for it. */
  datatype PyObject = PyObject(name: string, kind: Kind, parameters: seq<Parameter>)

  /** One `(name, object)` pair as `inspect.getmembers` and
      `get_members_from_module` return them. */
  datatype Member = Member(name: Name, value: PyObject)

  /** A value produced by `init_value`: a fresh literal, or a reference to the
      result of an earlier statement. */
  datatype Value = Literal(text: string) | Reference(position: nat)

  /** One `(name, param, value)` entry built by `_random_values`. */
  datatype Argument = Argument(name: string, param: Parameter, value: Value)

  /** A statement as the statement factory builds it: the callable it invokes
      and the arguments bound to it. */
  datatype Statement = Statement(callee: PyObject, arguments: seq<Argument>)

  /** A test case is its list of statements; equality is structural, which is
      what the duplicate check relies on. */
  datatype TestCase = TestCase(statements: seq<Statement>)

  /** `GenerationException` is what the driver loop catches; every other
      exception leaves `generate_sequences`. */
  datatype Error =
    | GenerationException(message: string)
    | OtherException(message: string)

  datatype Result<T> = Ok(value: T) | Err(error: Error)

  /** The two settings the sampler reads; 0 means "no limit" for both. */
  datatype Configuration = Configuration(maxSequenceLength: nat, maxSequencesCombined: nat)

  /** What a `RandomGenerationAlgorithm` works with, fixed for a whole run: its
      configuration, the reflection it performs and its collaborators.
      - `moduleMembers(m)`: the pairs `get_members_from_module(m)` yields;
      - `members(o)`: the attributes `inspect.getmembers(o, ...)` visits, in its order;
      - `initValue(annotation, testCases)`: `init_value`, which may raise;
      - `createStatement(test, callable, values)`: `StatementFactory.create_statement`;
      - `execute(test)`: the executor's verdict, true when a contract is violated. */
  datatype Algorithm = Algorithm(
    configuration: Configuration,
    moduleMembers: PyObject -> seq<Member>,
    members: PyObject -> seq<Member>,
    initValue: (string, seq<TestCase>) -> Result<Value>,
    createStatement: (TestCase, PyObject, seq<Argument>) -> Statement,
    execute: TestCase -> bool)

  /** The raw draws of the shared random source in one iteration. A choice
      among `n > 0` items takes the draw modulo `n` (`Reduce`): `objectPick` for the object
      under test, `methodPick` for the public callable, `sizePick` for the
      sample size in `[0, upperBound]`, and `samplePicks(j)` for the `j`-th
      element drawn without replacement. */
  datatype Draws = Draws(objectPick: nat, methodPick: nat, sizePick: nat, samplePicks: nat -> nat)

  /** A raw draw reduced into `[0, n)` by repeated subtraction of `n`; a draw
      below `n` picks itself. */
  function Reduce(draw: nat, n: nat): (r: nat)
    requires n > 0
    ensures r < n
    ensures draw < n ==> r == draw
    decreases draw
  {
    if draw < n then draw else Reduce(draw - n, n)
  }

  /** `Reduce` is the remainder of the draw divided by `n`. */
  lemma {:induction false} ReduceIsModulo(draw: nat, n: nat)
    requires n > 0
    ensures Reduce(draw, n) == draw % n
    decreases draw
  {
    if draw >= n {
      ReduceIsModulo(draw - n, n);
      ShiftModulo(draw - n, n);
    }
  }

  /** Adding `n` does not change the remainder modulo `n`. */
  lemma ShiftModulo(x: nat, n: nat)
    requires n > 0
    ensures (x + n) % n == x % n
  {
    var a, b := x / n, (x + n) / n;
    assert x == n * a + x % n;
    assert x + n == n * b + (x + n) % n;
    assert n * (b - a - 1) == x % n - (x + n) % n;
    SmallMultiple(b - a - 1, n);
  }

  /** The only multiple of `n` strictly between `-n` and `n` is 0. */
  lemma SmallMultiple(k: int, n: int)
    requires n > 0 && -n < n * k < n
    ensures k == 0
  {
  }
}
