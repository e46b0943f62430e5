/** Building the arguments of the chosen callable and the new test case
    (`_random_values`, `_extend`). */
module Extender {
  import opened Types

  /** The parameters of a signature other than `self`, in signature order. */
  function NonSelf(ps: seq<Parameter>): (r: seq<Parameter>)
    ensures |r| <= |ps|
    ensures forall p :: p in r <==> p in ps && p.name != "self"
  {
    if ps == [] then []
    else
      var rest := NonSelf(ps[1..]);
      assert forall p :: p in ps <==> p == ps[0] || p in ps[1..];
      if ps[0].name != "self" then [ps[0]] + rest else rest
  }

  /** `NonSelf` keeps signature order and each parameter once: filtering a
      longer list appends the last parameter exactly when it is not `self`.
      With `NonSelf([]) == []` this determines the result completely. */
  lemma {:induction false} NonSelfSnoc(ps: seq<Parameter>, p: Parameter)
    ensures NonSelf(ps + [p]) == NonSelf(ps) + (if p.name != "self" then [p] else [])
  {
    if ps == [] {
      assert ps + [p] == [p];
      assert [p][1..] == [];
    } else {
      assert (ps + [p])[0] == ps[0];
      assert (ps + [p])[1..] == ps[1..] + [p];
      NonSelfSnoc(ps[1..], p);
    }
  }

  /** One `(name, param, value)` entry per parameter, in order, each value from
      `init_value`; the first parameter whose value cannot be produced raises. */
  function Arguments(alg: Algorithm, testCases: seq<TestCase>, ps: seq<Parameter>): Result<seq<Argument>>
  {
    if ps == [] then Ok([])
    else
      match alg.initValue(ps[0].annotation, testCases)
      case Err(e) => Err(e)
      case Ok(v) =>
        match Arguments(alg, testCases, ps[1..])
        case Err(e) => Err(e)
        case Ok(rest) => Ok([Argument(ps[0].name, ps[0], v)] + rest)
  }

  /** Building the arguments of a longer parameter list continues from those
      of its prefix. */
  lemma {:induction false} ArgumentsSnoc(alg: Algorithm, testCases: seq<TestCase>, ps: seq<Parameter>, p: Parameter)
    requires Arguments(alg, testCases, ps).Ok?
    ensures Arguments(alg, testCases, ps + [p]) ==
      match alg.initValue(p.annotation, testCases)
      case Err(e) => Err(e)
      case Ok(v) => Ok(Arguments(alg, testCases, ps).value + [Argument(p.name, p, v)])
  {
    if ps == [] {
      assert ps + [p] == [p];
      assert [p][1..] == [];
      match alg.initValue(p.annotation, testCases)
      case Err(e) =>
      case Ok(w) =>
        assert [Argument(p.name, p, w)] + [] == [] + [Argument(p.name, p, w)];
    } else {
      assert (ps + [p])[0] == ps[0];
      assert (ps + [p])[1..] == ps[1..] + [p];
      ArgumentsSnoc(alg, testCases, ps[1..], p);
      var v := alg.initValue(ps[0].annotation, testCases).value;
      var head := Argument(ps[0].name, ps[0], v);
      assert Arguments(alg, testCases, ps).value == [head] + Arguments(alg, testCases, ps[1..]).value;
      match alg.initValue(p.annotation, testCases)
      case Err(e) =>
      case Ok(w) =>
        assert [head] + (Arguments(alg, testCases, ps[1..]).value + [Argument(p.name, p, w)])
          == Arguments(alg, testCases, ps).value + [Argument(p.name, p, w)];
    }
  }

  /** The arguments line up with the parameters: same number, same order,
      each with the parameter's name and the value `init_value` gave. */
  lemma {:induction false} ArgumentsMatchParameters(alg: Algorithm, testCases: seq<TestCase>, ps: seq<Parameter>)
    requires Arguments(alg, testCases, ps).Ok?
    ensures var args := Arguments(alg, testCases, ps).value;
      |args| == |ps| &&
      forall i :: 0 <= i < |ps| ==>
        args[i].name == ps[i].name && args[i].param == ps[i] &&
        alg.initValue(ps[i].annotation, testCases) == Ok(args[i].value)
  {
    if ps != [] {
      ArgumentsMatchParameters(alg, testCases, ps[1..]);
    }
  }

  /** Built arguments number the parameters. */
  lemma {:induction false} ArgumentsLength(alg: Algorithm, testCases: seq<TestCase>, ps: seq<Parameter>)
    ensures Arguments(alg, testCases, ps).Ok? ==> |Arguments(alg, testCases, ps).value| == |ps|
  {
    if ps != [] {
      ArgumentsLength(alg, testCases, ps[1..]);
    }
  }

  /** Building the arguments raises exactly when `init_value` raises for one
      of the parameters. */
  lemma {:induction false} ArgumentsRaise(alg: Algorithm, testCases: seq<TestCase>, ps: seq<Parameter>)
    ensures Arguments(alg, testCases, ps).Err? <==>
      exists p :: p in ps && alg.initValue(p.annotation, testCases).Err?
  {
    if ps != [] {
      ArgumentsRaise(alg, testCases, ps[1..]);
      assert forall p :: p in ps <==> p == ps[0] || p in ps[1..];
    }
  }

  /** The exception building the arguments raises is one `init_value` raised
      for one of the parameters. */
  lemma {:induction false} ArgumentsError(alg: Algorithm, testCases: seq<TestCase>, ps: seq<Parameter>)
    requires Arguments(alg, testCases, ps).Err?
    ensures exists p :: p in ps && alg.initValue(p.annotation, testCases) == Err(Arguments(alg, testCases, ps).error)
  {
    if alg.initValue(ps[0].annotation, testCases).Ok? {
      ArgumentsError(alg, testCases, ps[1..]);
      var p :| p in ps[1..] && alg.initValue(p.annotation, testCases) == Err(Arguments(alg, testCases, ps[1..]).error);
      assert p in ps;
    }
  }

  /** `_random_values`: one entry per parameter of the callable other than
      `self`, values drawn with the passing test cases as context. */
  method RandomValues(alg: Algorithm, testCases: seq<TestCase>, callable: PyObject) returns (r: Result<seq<Argument>>)
    ensures r == Arguments(alg, testCases, NonSelf(callable.parameters))
    ensures r.Err? <==> exists p :: p in callable.parameters && p.name != "self" && alg.initValue(p.annotation, testCases).Err?
  {
    var parameters := NonSelf(callable.parameters);
    ArgumentsRaise(alg, testCases, parameters);
    var values := [];
    for i := 0 to |parameters|
      invariant Arguments(alg, testCases, parameters[..i]) == Ok(values)
    {
      var p := parameters[i];
      assert parameters[..i + 1] == parameters[..i] + [p];
      ArgumentsSnoc(alg, testCases, parameters[..i], p);
      var value := alg.initValue(p.annotation, testCases);
      if value.Err? {
        ArgumentsPrefixRaises(alg, testCases, parameters, i + 1);
        return Err(value.error);
      }
      values := values + [Argument(p.name, p, value.value)];
    }
    assert parameters[..|parameters|] == parameters;
    r := Ok(values);
  }

  /** Once a prefix of the parameters raises, the whole list raises the same. */
  lemma {:induction false} ArgumentsPrefixRaises(alg: Algorithm, testCases: seq<TestCase>, ps: seq<Parameter>, n: nat)
    requires n <= |ps|
    requires Arguments(alg, testCases, ps[..n]).Err?
    ensures Arguments(alg, testCases, ps) == Arguments(alg, testCases, ps[..n])
  {
    if ps != [] && n > 0 {
      assert ps[..n][1..] == ps[1..][..n - 1];
      assert ps[..n][0] == ps[0];
      if alg.initValue(ps[0].annotation, testCases).Ok? {
        ArgumentsPrefixRaises(alg, testCases, ps[1..], n - 1);
      }
    }
  }

  /** The statements of the test cases, one test case after another. */
  function Concat(testCases: seq<TestCase>): seq<Statement>
  {
    if testCases == [] then [] else testCases[0].statements + Concat(testCases[1..])
  }

  /** The total number of statements of the test cases. */
  function TotalLength(testCases: seq<TestCase>): nat
  {
    if testCases == [] then 0 else |testCases[0].statements| + TotalLength(testCases[1..])
  }

  lemma {:induction false} ConcatSnoc(testCases: seq<TestCase>, t: TestCase)
    ensures Concat(testCases + [t]) == Concat(testCases) + t.statements
    ensures TotalLength(testCases + [t]) == TotalLength(testCases) + |t.statements|
  {
    if testCases == [] {
      assert testCases + [t] == [t];
    } else {
      assert (testCases + [t])[1..] == testCases[1..] + [t];
      ConcatSnoc(testCases[1..], t);
    }
  }

  lemma {:induction false} ConcatLength(testCases: seq<TestCase>)
    ensures |Concat(testCases)| == TotalLength(testCases)
  {
    if testCases != [] {
      ConcatLength(testCases[1..]);
    }
  }

  /** Each sampled test case appears whole and in sample order: test case `i`
      occupies the statements from the total length of those before it. */
  lemma {:induction false} ConcatBlock(testCases: seq<TestCase>, i: nat)
    requires i < |testCases|
    ensures TotalLength(testCases[..i + 1]) == TotalLength(testCases[..i]) + |testCases[i].statements|
    ensures TotalLength(testCases[..i + 1]) <= |Concat(testCases)|
    ensures Concat(testCases)[TotalLength(testCases[..i])..TotalLength(testCases[..i + 1])] == testCases[i].statements
  {
    assert testCases == testCases[..i + 1] + testCases[i + 1..];
    ConcatAppend(testCases[..i + 1], testCases[i + 1..]);
    assert testCases[..i + 1] == testCases[..i] + [testCases[i]];
    ConcatSnoc(testCases[..i], testCases[i]);
    ConcatLength(testCases[..i]);
    ConcatLength(testCases[..i + 1]);
  }

  lemma {:induction false} ConcatAppend(xs: seq<TestCase>, ys: seq<TestCase>)
    ensures Concat(xs + ys) == Concat(xs) + Concat(ys)
  {
    if xs == [] {
      assert xs + ys == ys;
    } else {
      assert (xs + ys)[1..] == xs[1..] + ys;
      ConcatAppend(xs[1..], ys);
    }
  }

  /** The test case `_extend` builds: the sampled test cases' statements, then
      the statement the factory creates for the callable. */
  function Extended(alg: Algorithm, callable: PyObject, testCases: seq<TestCase>, values: seq<Argument>): TestCase
  {
    var prefix := Concat(testCases);
    TestCase(prefix + [alg.createStatement(TestCase(prefix), callable, values)])
  }

  /** `_extend`: start from an empty test case, append every sampled test case
      in order, then add one statement for the callable. */
  method Extend(alg: Algorithm, callable: PyObject, testCases: seq<TestCase>, values: seq<Argument>) returns (newTest: TestCase)
    ensures newTest == Extended(alg, callable, testCases, values)
    ensures |newTest.statements| == TotalLength(testCases) + 1
    ensures newTest.statements[..TotalLength(testCases)] == Concat(testCases)
    ensures newTest.statements[TotalLength(testCases)] ==
      alg.createStatement(TestCase(Concat(testCases)), callable, values)
  {
    var statements := [];
    for i := 0 to |testCases|
      invariant statements == Concat(testCases[..i])
    {
      assert testCases[..i + 1] == testCases[..i] + [testCases[i]];
      ConcatSnoc(testCases[..i], testCases[i]);
      statements := statements + testCases[i].statements;
    }
    assert testCases[..|testCases|] == testCases;
    ConcatLength(testCases);
    var statement := alg.createStatement(TestCase(statements), callable, values);
    newTest := TestCase(statements + [statement]);
  }
}
