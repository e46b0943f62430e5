# Randoop-style random test generation in Pynguin, modelled in Dafny

This project models the random test-generation algorithm of Pynguin
(`RandomGenerationAlgorithm` in `pynguin/generation/algorithms/randoopy/algorithm.py`),
which follows Randoop. Until a time limit runs out, the algorithm repeats one step:

1. Choose an object under test and, among its public classes, methods and functions,
   one callable.
2. Sample some of the passing test cases.
3. Build one value per parameter of the callable.
4. Concatenate the sampled test cases and append one statement calling the callable.
5. Discard the new test case if it equals one already kept. Otherwise execute it
   and append it to the failing list on a contract violation, or to the passing
   list if there is none.

The modules follow the parts of the algorithm:

- `types.dfy` (`Types`): reflected objects, members, parameters, statements, test
  cases, the two kinds of exception, the configuration, the collaborators of the
  algorithm (`Algorithm`) and the random draws of one iteration (`Draws`).
- `catalog.dfy` (`Catalog`): `_find_objects_under_test` and `_random_public_method`.
- `sampler.dfy` (`Sampler`): `_random_test_cases`.
- `extender.dfy` (`Extender`): `_random_values` and `_extend`.
- `generation.dfy` (`Generation`): `_generate_sequence` and `generate_sequences`.

How the parts of the source that cannot be modelled directly are represented:

- Randomness. `random.choice`, `random.randint` and `random.sample` take raw draws
  from a `Draws` record and reduce each draw modulo the size of its range (`Reduce`,
  which `ReduceIsModulo` shows equal to the remainder). Sampling
  without replacement removes each drawn element before the next draw. Every outcome
  of `random.choice`, `random.randint` and `random.sample` is still reachable:
  `EveryObjectSelectable` shows it for the chosen object under test,
  `EveryPublicCallableSelectable` for the chosen callable of an object whose members
  can all be inspected, `EverySampleSizeReachable` for the sample size and
  `EverySampleReachable` for the sampled test cases themselves (any list that takes no
  eligible test case more often than it occurs, in any order, up to the bound).
- Time. The wall-clock check becomes a list `rounds`, with one `Draws` per iteration
  that starts before the time limit.
- Reflection and collaborators. `get_members_from_module`, the attribute list that
  `inspect.getmembers` visits, `init_value`, `StatementFactory.create_statement` and
  the executor's verdict are function-valued fields of `Algorithm`.
- Python lists. `_generate_sequence` appends to its two lists in place. These lists
  are objects of class `TestCaseList`. `GenerateSequence` is proved against the
  value-level function `Step`, and the driver loop is proved against `Generate`.

Three behaviours of the code that the model keeps as they are:

- `_random_values` passes the whole passing list to `init_value` (algorithm.py:103,
  192), not the test case being built.
- The public-member filter is applied when a callable is chosen (algorithm.py:147-151).
  `_find_objects_under_test` keeps every member of every module.
- Choosing from an empty list of objects under test raises Python's `IndexError`
  (algorithm.py:144). That is not a `GenerationException`, so it leaves
  `generate_sequences`. `GenerateRaises` shows that the driver raises exactly when there
  are no modules and at least one iteration runs. This holds only because in the model
  nothing else raises: `init_value` is assumed to raise nothing but
  `GenerationException`, and the executor, `create_statement`, `append_test_case` and
  `add_statement` never raise.

## Model

| member | source | states |
|---|---|---|
| `Types.Reduce` | pynguin/generation/algorithms/randoopy/algorithm.py:144 | a raw draw reduced into the range of a `random.choice` over `n` items: below `n`, and a draw already below `n` picks itself |
| `Types.ReduceIsModulo` | pynguin/generation/algorithms/randoopy/algorithm.py:144 | the reduced draw is the draw modulo `n` |
| `Catalog.Objects` | pynguin/generation/algorithms/randoopy/algorithm.py:129 | the objects of `(name, object)` pairs, one per pair, in order |
| `Catalog.ModuleMembers` | pynguin/generation/algorithms/randoopy/algorithm.py:126-129 | definition: the members of every module, module after module; its length and its loop-by-loop growth are stated by `ModuleMembersLength` and `ModuleMembersSnoc` |
| `Catalog.FindObjectsUnderTest` | pynguin/generation/algorithms/randoopy/algorithm.py:123-130 | the result starts with the input types unchanged, then lists the members of each module in module order; its length is the number of types plus the total member count |
| `Catalog.ModuleMembersLength` | pynguin/generation/algorithms/randoopy/algorithm.py:126-129 | the collected members number exactly the sum of the modules' member counts |
| `Catalog.ModuleMembersSnoc` | pynguin/generation/algorithms/randoopy/algorithm.py:126-129 | each loop iteration extends the accumulator at its end with one module's members |
| `Catalog.FindStep` | pynguin/generation/algorithms/randoopy/algorithm.py:126-129 | one iteration of the loop adds the next module's members after everything collected so far |
| `Catalog.InspectMembers` | pynguin/generation/algorithms/randoopy/algorithm.py:133-145 | the members kept are exactly the classes, methods and functions; an object the predicate cannot inspect raises `GenerationException`, and nothing else does |
| `Catalog.InspectMembersSnoc` | pynguin/generation/algorithms/randoopy/algorithm.py:133-145 | members are kept in the order `inspect.getmembers` lists them: one more member is appended when it is a class, method or function, skipped otherwise, and raises `GenerationException` with the reflection error when it cannot be inspected, unless an earlier member raised |
| `Catalog.IsPublic` | pynguin/generation/algorithms/randoopy/algorithm.py:150 | definition of the filter: the name does not start with `_` and the object is not `_recording_isinstance`; `PublicMembers` and `NoPublicCallables` state its use |
| `Catalog.PublicMembers` | pynguin/generation/algorithms/randoopy/algorithm.py:147-151 | an object is kept iff some member holding it has a name not starting with `_` and the object is not `_recording_isinstance` |
| `Catalog.ChosenObject` | pynguin/generation/algorithms/randoopy/algorithm.py:144 | definition: `random.choice` over the objects under test, the draw reduced modulo their number; `EveryObjectSelectable` shows every index is drawn |
| `Catalog.EveryObjectSelectable` | pynguin/generation/algorithms/randoopy/algorithm.py:144 | every object under test is the one `random.choice` returns for some draws |
| `Catalog.RandomPublicMethod` | pynguin/generation/algorithms/randoopy/algorithm.py:132-159 | a returned callable is a class, method or function member of the chosen object, with a name not starting with `_`, and is not `_recording_isinstance`; the selector raises a non-`GenerationException` exactly when there are no objects under test |
| `Catalog.NoPublicCallables` | pynguin/generation/algorithms/randoopy/algorithm.py:153-156 | "has no public callables" is raised iff no class, method or function member of the chosen object is public |
| `Catalog.EveryPublicCallableSelectable` | pynguin/generation/algorithms/randoopy/algorithm.py:144-158 | every public callable of every object under test whose members can all be inspected is returned for some draws |
| `Sampler.ShorterThan` | pynguin/generation/algorithms/randoopy/algorithm.py:165-169 | keeps the test cases with fewer statements than the bound and no others, none more often than it occurs; `ShorterThanSnoc` fixes the order and the count of each |
| `Sampler.ShorterThanSnoc` | pynguin/generation/algorithms/randoopy/algorithm.py:165-169 | the filter keeps input order and every occurrence: one more test case is appended at the end exactly when it is shorter than the bound |
| `Sampler.Selectables` | pynguin/generation/algorithms/randoopy/algorithm.py:162-169 | with length limit 0 every passing test case is eligible; otherwise exactly those shorter than the limit |
| `Sampler.UpperBound` | pynguin/generation/algorithms/randoopy/algorithm.py:170-175 | the bound is the eligible count capped by `max_sequences_combined` (no cap when 0): at most both, and equal to one of them |
| `Sampler.Sample` | pynguin/generation/algorithms/randoopy/algorithm.py:176 | `random.sample` by successive draws, each removing the element taken: a sample of exactly the requested size |
| `Sampler.SampleWithoutReplacement` | pynguin/generation/algorithms/randoopy/algorithm.py:176 | the sample takes no element more often than it occurs in the population |
| `Sampler.SampleFrame` | pynguin/generation/algorithms/randoopy/algorithm.py:176 | a sample depends only on the draws from its own first draw on |
| `Sampler.SampleReachable` | pynguin/generation/algorithms/randoopy/algorithm.py:176 | conversely, every list that takes no element more often than it occurs, in any order, is the sample for some draws |
| `Sampler.SampleReachableStep` | pynguin/generation/algorithms/randoopy/algorithm.py:176 | drawing the position of the first wanted element, then draws that sample the rest from the others, samples the whole list |
| `Sampler.RandomTestCases` | pynguin/generation/algorithms/randoopy/algorithm.py:161-182 | at most `min(#eligible, max_sequences_combined)` test cases (`#eligible` when the cap is 0) |
| `Sampler.SampleSize` | pynguin/generation/algorithms/randoopy/algorithm.py:170-176 | the drawn size never exceeds the upper bound |
| `Sampler.RandomTestCasesDrawn` | pynguin/generation/algorithms/randoopy/algorithm.py:161-182 | the sample takes no eligible test case more often than it occurs among them; each one is a passing test case, shorter than `max_sequence_length` when that is not 0 |
| `Sampler.SampleSizeIsDrawn` | pynguin/generation/algorithms/randoopy/algorithm.py:170-176 | the sample has exactly the size drawn in `[0, upper bound]` |
| `Sampler.EverySampleSizeReachable` | pynguin/generation/algorithms/randoopy/algorithm.py:170-176 | every sample size from 0 to the upper bound can be drawn |
| `Sampler.EverySampleReachable` | pynguin/generation/algorithms/randoopy/algorithm.py:161-182 | every list of eligible test cases that takes none more often than it occurs and is no longer than the upper bound is returned for some draws: with `RandomTestCasesDrawn`, the possible results are exactly these lists |
| `Sampler.DrawsProduce` | pynguin/generation/algorithms/randoopy/algorithm.py:170-176 | draws that ask for the length of a list and then sample it return that list |
| `Extender.NonSelf` | pynguin/generation/algorithms/randoopy/algorithm.py:188 | keeps exactly the parameters not named `self` |
| `Extender.NonSelfSnoc` | pynguin/generation/algorithms/randoopy/algorithm.py:188 | the filter keeps signature order and each parameter once: a longer signature adds its last parameter at the end exactly when it is not `self` |
| `Extender.Arguments` | pynguin/generation/algorithms/randoopy/algorithm.py:189-199 | definition of the loop on values: one `(name, param, value)` entry per parameter, or the first exception of `init_value`; stated by `ArgumentsSnoc`, `ArgumentsMatchParameters`, `ArgumentsRaise` and `ArgumentsError` |
| `Extender.ArgumentsSnoc` | pynguin/generation/algorithms/randoopy/algorithm.py:190-199 | one more loop iteration appends one entry or raises what `init_value` raised |
| `Extender.ArgumentsMatchParameters` | pynguin/generation/algorithms/randoopy/algorithm.py:189-200 | one `(name, param, value)` entry per parameter, in parameter order, each value the one `init_value` gave |
| `Extender.ArgumentsLength` | pynguin/generation/algorithms/randoopy/algorithm.py:189-200 | built arguments number the parameters |
| `Extender.ArgumentsRaise` | pynguin/generation/algorithms/randoopy/algorithm.py:190-192 | building the arguments raises iff `init_value` raises for some parameter |
| `Extender.ArgumentsError` | pynguin/generation/algorithms/randoopy/algorithm.py:192 | the exception raised is one `init_value` raised for one of the parameters |
| `Extender.ArgumentsPrefixRaises` | pynguin/generation/algorithms/randoopy/algorithm.py:190-192 | once a prefix of the parameters raises, the remaining ones are never reached |
| `Extender.RandomValues` | pynguin/generation/algorithms/randoopy/algorithm.py:184-200 | the loop yields the entries for every parameter except `self` (one each, in signature order, by `NonSelfSnoc` and `ArgumentsMatchParameters`); it raises iff `init_value` raises for such a parameter |
| `Extender.Concat` | pynguin/generation/algorithms/randoopy/algorithm.py:209-210 | definition: the statements of the test cases, one test case after another; stated by `ConcatSnoc`, `ConcatLength`, `ConcatBlock` and `ConcatAppend` |
| `Extender.ConcatSnoc` | pynguin/generation/algorithms/randoopy/algorithm.py:209-210 | appending one more test case extends the statements at their end by its statements |
| `Extender.ConcatLength` | pynguin/generation/algorithms/randoopy/algorithm.py:209-210 | the concatenated statements number the sum of the test cases' lengths |
| `Extender.ConcatBlock` | pynguin/generation/algorithms/randoopy/algorithm.py:209-210 | each sampled test case appears whole, in sample order, right after the statements of those before it |
| `Extender.ConcatAppend` | pynguin/generation/algorithms/randoopy/algorithm.py:209-210 | concatenating two lists of test cases concatenates their statements |
| `Extender.Extended` | pynguin/generation/algorithms/randoopy/algorithm.py:202-217 | definition of `_extend` on values: the sampled statements, then one factory statement; `Extend` proves its loop computes it and states its shape |
| `Extender.Extend` | pynguin/generation/algorithms/randoopy/algorithm.py:202-217 | the new test case is the sampled test cases' statements in sample order, then exactly one statement from the factory; its length is the sum of the sampled lengths plus 1 |
| `Generation.TestCaseList.Append` | pynguin/generation/algorithms/randoopy/algorithm.py:118-120 | `list.append`: the list grows by the test case at its end |
| `Generation.IsDuplicate` | pynguin/generation/algorithms/randoopy/algorithm.py:108 | definition: the candidate equals a test case in either list; `ClassifyRoutes` states its effect |
| `Generation.Classify` | pynguin/generation/algorithms/randoopy/algorithm.py:107-120 | definition of the end of an iteration on values; stated by `ClassifyRoutes` and `ClassifyKeepsValid` |
| `Generation.ClassifyRoutes` | pynguin/generation/algorithms/randoopy/algorithm.py:107-120 | a duplicate leaves both pools unchanged whatever the executor would say; otherwise exactly one pool grows, by the candidate at its end, and it is the failing pool iff the verdict is a violation |
| `Generation.DistinctAppend` | pynguin/generation/algorithms/randoopy/algorithm.py:107-120 | appending a test case not yet present keeps a list free of repetitions |
| `Generation.ClassifyKeepsValid` | pynguin/generation/algorithms/randoopy/algorithm.py:107-120 | pools that are duplicate-free and disjoint stay so after classification |
| `Generation.Candidate` | pynguin/generation/algorithms/randoopy/algorithm.py:101-105 | definition of the new test case or the exception raised on the way; stated by `CandidateShape` |
| `Generation.CandidateShape` | pynguin/generation/algorithms/randoopy/algorithm.py:101-105 | a new test case is some passing test cases (drawn without replacement and within both limits), concatenated, then exactly one statement the factory creates for the chosen public callable, with one argument per parameter other than `self` |
| `Generation.Step` | pynguin/generation/algorithms/randoopy/algorithm.py:88-120 | definition of one iteration on values; `GenerateSequence` is proved against it, `StepKeepsValid` states what it preserves |
| `Generation.GenerateSequence` | pynguin/generation/algorithms/randoopy/algorithm.py:88-120 | the lists end as `Step` says, or are untouched when the step raises |
| `Generation.StepKeepsValid` | pynguin/generation/algorithms/randoopy/algorithm.py:101-120 | one step only appends to the pools and keeps them duplicate-free and disjoint |
| `Generation.Loop` | pynguin/generation/algorithms/randoopy/algorithm.py:70-79 | definition of the driver loop on values, one iteration per round; stated by `Round`, `LoopProperties`, `LoopWhenEveryStepRaises`, `LoopCompletes` and `LoopKeepsPassing` |
| `Generation.Generate` | pynguin/generation/algorithms/randoopy/algorithm.py:56-86 | definition of `generate_sequences` on values: the loop from empty lists and a zero counter over the modules and their members; `GenerateSequences` is proved against it |
| `Generation.GenerateSequences` | pynguin/generation/algorithms/randoopy/algorithm.py:56-86 | the loop computes `Generate`; when it finishes, the counter equals the number of iterations and the pools are duplicate-free and disjoint |
| `Generation.Round` | pynguin/generation/algorithms/randoopy/algorithm.py:71-79 | one guarded call of `_generate_sequence` on the lists: an exception leaves both lists unchanged; otherwise the new lists are exactly those one iteration of `Loop` from the old lists produces; an exception other than `GenerationException` is what the loop raises, otherwise the loop continues from the new lists, one iteration further |
| `Generation.LoopProperties` | pynguin/generation/algorithms/randoopy/algorithm.py:70-79 | across the loop both pools are append-only (earlier entries never change), they stay duplicate-free and disjoint, and the counter grows by one per iteration |
| `Generation.GenerateProperties` | pynguin/generation/algorithms/randoopy/algorithm.py:63-86 | starting from empty lists, the result's pools are duplicate-free and disjoint and the counter is the number of iterations |
| `Generation.LoopWhenEveryStepRaises` | pynguin/generation/algorithms/randoopy/algorithm.py:70-79 | iterations that raise `GenerationException` leave the pools as they were, are counted, and do not end the loop |
| `Generation.LoopCompletes` | pynguin/generation/algorithms/randoopy/algorithm.py:70-79 | if no iteration raises anything but `GenerationException`, only the time check ends the loop |
| `Generation.GenerateRaises` | pynguin/generation/algorithms/randoopy/algorithm.py:68-79 | given that `init_value` raises only `GenerationException` (and with the executor, `create_statement`, `append_test_case` and `add_statement` never raising), the driver raises iff there are no modules and at least one iteration runs, and then it raises the `IndexError` of the empty choice |
| `Generation.NoPublicMemberRaises` | pynguin/generation/algorithms/randoopy/algorithm.py:144-156 | with at least one object under test, when no class, method or function member of any of them is public, the selection raises `GenerationException` whatever the draws |
| `Generation.NoPublicCallablesAnywhere` | pynguin/generation/algorithms/randoopy/algorithm.py:144-156 | with at least one module, if no class, method or function member of any object under test is public, both pools stay empty and the counter equals the number of iterations |
| `Generation.LoopKeepsPassing` | pynguin/generation/algorithms/randoopy/algorithm.py:70-79 | an iteration that never grows the passing pool leaves it unchanged across the loop |
| `Generation.EveryExecutionViolates` | pynguin/generation/algorithms/randoopy/algorithm.py:114-120 | when every execution reports a violation, the passing pool stays empty |

## Left out

- Wall-clock time (`datetime.now()`, algorithm.py:65, 70) is not modelled: the number of iterations that start before the limit is given as the length of `rounds`.
- Logging calls are not modelled; they do not affect the result.
- The probability distributions of `random.*` are not modelled, only which outcomes are possible. The model's sampling algorithm (remove the drawn element) also differs from CPython's `random.sample`. Its possible outcomes are proved (`RandomTestCasesDrawn`, `EverySampleReachable`) to be every ordered selection without replacement, which is the outcome set `random.sample` documents.
- `init_value` and the statement factory take their random draws from the same generator in the source. Here they are plain functions of their arguments.
- Reflection (`inspect.getmembers`, `inspect.signature`, `inspect.isclass`, `inspect.ismethod`, `inspect.isfunction`, `get_members_from_module`) is given as data: a `Kind` per object, its parameter list, and member lists from `Algorithm`. Sorting by name and attribute lookups that fail inside `inspect.getmembers` are assumed to be done already in those lists.
- The `BaseException` wrapping in `inspect_member` (algorithm.py:140-142) is modelled only as "an `Uninspectable` object raises `GenerationException`". Any other exception that reflection could raise (from `inspect.signature` or `get_members_from_module`) is not modelled.
- Member names are non-empty (`Types.Name`). For an empty attribute name the source's `m[0][0]` would raise `IndexError`; that case is not modelled.
- The configuration values are natural numbers. Negative `max_sequence_length` or `max_sequences_combined` are not modelled.
- `DefaultTestCase.append_test_case` and `add_statement` are not part of this model. Statements are copied as values, so the renumbering of variable references when test cases are merged is not modelled. Neither is the rule that no statement refers to a later one, which depends on that code and on the statement factory.
- `Executor.execute`, `init_value` and `StatementFactory.create_statement` are not part of this model. They are opaque functions: the executor has no side effects, and the factory does not change the test case it is given. The executor, `create_statement`, `append_test_case` and `add_statement` never raise in the model; in the source an exception other than `GenerationException` from any of them would leave `generate_sequences`.
- Test-case equality is taken to be structural equality of the statement lists.
- Python object identity is not modelled. An object is the value `PyObject(name, kind, parameters)` (types.dfy), and `Algorithm.members` and `Algorithm.moduleMembers` are functions of that value. So two distinct classes or modules with the same name, kind and signature share one member list, and statements that call them compare equal in the duplicate check of `_generate_sequence`.
- Determinism under a fixed seed has no separate lemma: `Generate` is a function of the modules, the collaborators and the draws.
- `execution_counter` is only logged by the source. The model returns it so that its value can be stated.
- tests/slicer/test_assertionslicer.py is not part of this model. It exercises the slicer and instrumentation, not the generation algorithm.
