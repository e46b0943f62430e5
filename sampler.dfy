/** Choosing the passing test cases a new test case is built on (`_random_test_cases`). */
module Sampler {
  import opened Types

  /** The test cases with fewer statements than `maxLength`, in order. */
  function ShorterThan(testCases: seq<TestCase>, maxLength: nat): (r: seq<TestCase>)
    ensures |r| <= |testCases|
    ensures multiset(r) <= multiset(testCases)
    ensures forall t :: t in r <==> t in testCases && |t.statements| < maxLength
  {
    if testCases == [] then []
    else
      var rest := ShorterThan(testCases[1..], maxLength);
      assert testCases == [testCases[0]] + testCases[1..];
      if |testCases[0].statements| < maxLength then [testCases[0]] + rest else rest
  }

  /** `ShorterThan` keeps the input order and each occurrence once: filtering
      a longer list appends its last test case exactly when that one is
      shorter than the bound. With `ShorterThan([], n) == []` this determines
      the result completely. */
  lemma {:induction false} ShorterThanSnoc(testCases: seq<TestCase>, t: TestCase, maxLength: nat)
    ensures ShorterThan(testCases + [t], maxLength) ==
            ShorterThan(testCases, maxLength) + (if |t.statements| < maxLength then [t] else [])
    decreases |testCases|
  {
    if testCases == [] {
      assert testCases + [t] == [t];
      assert [t][1..] == [];
    } else {
      var rest := testCases[1..];
      assert (testCases + [t])[1..] == rest + [t];
      ShorterThanSnoc(rest, t, maxLength);
    }
  }

  /** The passing test cases the sampler may choose from: all of them when
      the maximal sequence length is 0, else those below it. */
  function Selectables(testCases: seq<TestCase>, maxSequenceLength: nat): (r: seq<TestCase>)
    ensures maxSequenceLength == 0 ==> r == testCases
    ensures multiset(r) <= multiset(testCases)
    ensures forall t :: t in r <==> t in testCases && (maxSequenceLength == 0 || |t.statements| < maxSequenceLength)
  {
    if maxSequenceLength == 0 then testCases else ShorterThan(testCases, maxSequenceLength)
  }

  /** How many test cases may be combined: the number available, capped by
      `maxSequencesCombined` unless that is 0. */
  function UpperBound(available: nat, maxSequencesCombined: nat): (bound: nat)
    ensures bound <= available
    ensures maxSequencesCombined != 0 ==> bound <= maxSequencesCombined
    ensures bound == available || (maxSequencesCombined != 0 && bound == maxSequencesCombined)
  {
    if maxSequencesCombined == 0 then available
    else if available <= maxSequencesCombined then available
    else maxSequencesCombined
  }

  /** `random.sample(xs, k)`: `k` elements drawn one after another; the draw
      numbered `j` takes the element at position `picks(j)` modulo the number
      of elements still available, and removes it. */
  function Sample<X>(xs: seq<X>, k: nat, picks: nat -> nat, j: nat): (r: seq<X>)
    requires k <= |xs|
    ensures |r| == k
    decreases k
  {
    if k == 0 then []
    else
      var i := Reduce(picks(j), |xs|);
      [xs[i]] + Sample(xs[..i] + xs[i + 1..], k - 1, picks, j + 1)
  }

  /** The first draw takes one element and the sample goes on from the rest. */
  lemma SampleFirst<X>(xs: seq<X>, k: nat, picks: nat -> nat, j: nat, i: nat)
    requires 0 < k <= |xs|
    requires i == Reduce(picks(j), |xs|)
    ensures i < |xs|
    ensures Sample(xs, k, picks, j) == [xs[i]] + Sample(xs[..i] + xs[i + 1..], k - 1, picks, j + 1)
  {
  }

  /** The sample is drawn without replacement: no element is taken more often
      than it occurs in the population. */
  lemma {:induction false} SampleWithoutReplacement<X>(xs: seq<X>, k: nat, picks: nat -> nat, j: nat)
    requires k <= |xs|
    ensures multiset(Sample(xs, k, picks, j)) <= multiset(xs)
    decreases k
  {
    if k > 0 {
      var i := Reduce(picks(j), |xs|);
      var rest := xs[..i] + xs[i + 1..];
      SampleWithoutReplacement(rest, k - 1, picks, j + 1);
      TakeOne(xs, i, Sample(rest, k - 1, picks, j + 1));
      SampleFirst(xs, k, picks, j, i);
    }
  }

  /** Taking the element at position `i` first, then some of the others,
      takes no element more often than it occurs. */
  lemma TakeOne<X>(xs: seq<X>, i: nat, later: seq<X>)
    requires i < |xs|
    requires multiset(later) <= multiset(xs[..i] + xs[i + 1..])
    ensures multiset([xs[i]] + later) <= multiset(xs)
  {
    RemoveAt(xs, i);
    assert multiset([xs[i]] + later) == multiset{xs[i]} + multiset(later);
  }

  /** Removing the element at position `i` removes one occurrence of it. */
  lemma RemoveAt<X>(xs: seq<X>, i: nat)
    requires i < |xs|
    ensures multiset(xs) == multiset(xs[..i] + xs[i + 1..]) + multiset{xs[i]}
  {
    assert xs == xs[..i] + [xs[i]] + xs[i + 1..];
  }

  /** A sample depends only on the draws from number `j` on. */
  lemma {:induction false} SampleFrame<X>(xs: seq<X>, k: nat, picks: nat -> nat, other: nat -> nat, j: nat)
    requires k <= |xs|
    requires forall n :: j <= n ==> picks(n) == other(n)
    ensures Sample(xs, k, picks, j) == Sample(xs, k, other, j)
    decreases k
  {
    if k > 0 {
      var i := Reduce(picks(j), |xs|);
      SampleFrame(xs[..i] + xs[i + 1..], k - 1, picks, other, j + 1);
    }
  }

  /** The draws `picks`, from number `j` on, sample exactly `target` from `xs`. */
  ghost predicate SamplesTo<X>(xs: seq<X>, picks: nat -> nat, j: nat, target: seq<X>)
  {
    |target| <= |xs| && Sample(xs, |target|, picks, j) == target
  }

  /** The draws `later`, with draw number `j` replaced by `i`. */
  function Prepend(i: nat, later: nat -> nat, j: nat): (picks: nat -> nat)
    ensures picks(j) == i
    ensures forall n :: j < n ==> picks(n) == later(n)
  {
    n => if n == j then i else later(n)
  }

  /** Drawing without replacement can produce every ordering of every
      selection of distinct positions: any list whose multiset is included in
      the population's is the sample for some draws. */
  lemma {:induction false} SampleReachable<X>(xs: seq<X>, target: seq<X>, j: nat)
    requires multiset(target) <= multiset(xs)
    ensures exists picks: nat -> nat :: SamplesTo(xs, picks, j, target)
    decreases |target|
  {
    SubMultisetSize(multiset(target), multiset(xs));
    if target == [] {
      var picks: nat -> nat := n => 0;
      assert SamplesTo(xs, picks, j, target);
    } else {
      assert target[0] in multiset(xs);
      var i :| 0 <= i < |xs| && xs[i] == target[0];
      RemoveOne(xs, target, i);
      SampleReachable(xs[..i] + xs[i + 1..], target[1..], j + 1);
      var later: nat -> nat :| SamplesTo(xs[..i] + xs[i + 1..], later, j + 1, target[1..]);
      SampleReachableStep(xs, target, j, i, later, Prepend(i, later, j));
    }
  }

  /** If `later` samples the rest of `target` from `xs` without position `i`,
      drawing `i` first and then `later` samples all of `target`. */
  lemma SampleReachableStep<X>(xs: seq<X>, target: seq<X>, j: nat, i: nat, later: nat -> nat, picks: nat -> nat)
    requires target != [] && i < |xs| && xs[i] == target[0]
    requires SamplesTo(xs[..i] + xs[i + 1..], later, j + 1, target[1..])
    requires picks(j) == i
    requires forall n :: j < n ==> picks(n) == later(n)
    ensures SamplesTo(xs, picks, j, target)
  {
    var rest := xs[..i] + xs[i + 1..];
    SampleFirst(xs, |target|, picks, j, i);
    var tail := target[1..];
    assert Sample(rest, |tail|, later, j + 1) == tail;
    SampleFrame(rest, |tail|, picks, later, j + 1);
    assert target == [xs[i]] + tail;
  }

  /** Taking the first element of `target` from position `i` of `xs` leaves
      the rest of `target` within the rest of `xs`. */
  lemma RemoveOne<X>(xs: seq<X>, target: seq<X>, i: nat)
    requires target != [] && i < |xs| && xs[i] == target[0]
    requires multiset(target) <= multiset(xs)
    ensures multiset(target[1..]) <= multiset(xs[..i] + xs[i + 1..])
  {
    var rest := xs[..i] + xs[i + 1..];
    RemoveAt(xs, i);
    assert target == [target[0]] + target[1..];
    assert multiset(target) == multiset{xs[i]} + multiset(target[1..]);
    CancelOne(multiset(target[1..]), multiset(rest), xs[i]);
  }

  /** One occurrence of `x` on both sides cancels. */
  lemma CancelOne<X>(a: multiset<X>, b: multiset<X>, x: X)
    requires multiset{x} + a <= b + multiset{x}
    ensures a <= b
  {
    forall y | y in a
      ensures a[y] <= b[y]
    {
      assert (multiset{x} + a)[y] <= (b + multiset{x})[y];
    }
  }

  /** A multiset included in another is no larger. */
  lemma SubMultisetSize<X>(a: multiset<X>, b: multiset<X>)
    requires a <= b
    ensures |a| <= |b|
  {
    assert b == a + (b - a);
  }

  /** Every element of a sub-multiset occurs in the larger collection. */
  lemma SubMultisetMembers<X>(r: seq<X>, s: seq<X>)
    requires multiset(r) <= multiset(s)
    ensures forall t :: t in r ==> t in s
  {
    forall t | t in r
      ensures t in s
    {
      assert t in multiset(r);
    }
  }

  /** `_random_test_cases`: filter the passing test cases by length, bound the
      sample size, draw a size in `[0, bound]` and sample that many.
      `RandomTestCasesDrawn` states which test cases the sample holds, and
      `EverySampleReachable` that every such sample can be drawn. */
  function RandomTestCases(config: Configuration, testCases: seq<TestCase>, d: Draws): (r: seq<TestCase>)
    ensures |r| <= |Selectables(testCases, config.maxSequenceLength)|
    ensures config.maxSequencesCombined != 0 ==> |r| <= config.maxSequencesCombined
  {
    Sample(Selectables(testCases, config.maxSequenceLength), SampleSize(config, testCases, d), d.samplePicks, 0)
  }

  /** The drawn sample size, `randint(0, bound)`. */
  function SampleSize(config: Configuration, testCases: seq<TestCase>, d: Draws): (k: nat)
    ensures k <= UpperBound(|Selectables(testCases, config.maxSequenceLength)|, config.maxSequencesCombined)
  {
    Reduce(d.sizePick, UpperBound(|Selectables(testCases, config.maxSequenceLength)|, config.maxSequencesCombined) + 1)
  }

  /** The sample takes no eligible test case more often than it occurs among
      them; each one taken is a passing test case, shorter than the length
      limit when there is one. */
  lemma RandomTestCasesDrawn(config: Configuration, testCases: seq<TestCase>, d: Draws)
    ensures multiset(RandomTestCases(config, testCases, d)) <= multiset(Selectables(testCases, config.maxSequenceLength))
    ensures forall t :: t in RandomTestCases(config, testCases, d) ==> t in testCases
    ensures config.maxSequenceLength != 0 ==>
      forall t :: t in RandomTestCases(config, testCases, d) ==> |t.statements| < config.maxSequenceLength
  {
    var selectables := Selectables(testCases, config.maxSequenceLength);
    SampleWithoutReplacement(selectables, SampleSize(config, testCases, d), d.samplePicks, 0);
    SubMultisetMembers(RandomTestCases(config, testCases, d), selectables);
  }

  /** The sample has the size drawn from `[0, bound]`. */
  lemma SampleSizeIsDrawn(config: Configuration, testCases: seq<TestCase>, d: Draws)
    ensures |RandomTestCases(config, testCases, d)| ==
      Reduce(d.sizePick, UpperBound(|Selectables(testCases, config.maxSequenceLength)|, config.maxSequencesCombined) + 1)
  {
    var k := SampleSize(config, testCases, d);
    assert |Sample(Selectables(testCases, config.maxSequenceLength), k, d.samplePicks, 0)| == k;
  }

  /** Every sample size from 0 up to the bound can be drawn. */
  lemma EverySampleSizeReachable(config: Configuration, testCases: seq<TestCase>, k: nat)
    requires k <= UpperBound(|Selectables(testCases, config.maxSequenceLength)|, config.maxSequencesCombined)
    ensures exists d: Draws :: |RandomTestCases(config, testCases, d)| == k
  {
    var d := Draws(0, 0, k, j => 0);
    assert SampleSize(config, testCases, d) == k;
    assert |RandomTestCases(config, testCases, d)| == k;
  }

  /** The converse of `RandomTestCasesDrawn` and the size bound: every list
      that takes no eligible test case more often than it occurs, in any
      order, and is no longer than the bound, is the sample for some draws. */
  lemma EverySampleReachable(config: Configuration, testCases: seq<TestCase>, target: seq<TestCase>)
    requires multiset(target) <= multiset(Selectables(testCases, config.maxSequenceLength))
    requires |target| <= UpperBound(|Selectables(testCases, config.maxSequenceLength)|, config.maxSequencesCombined)
    ensures exists d: Draws :: RandomTestCases(config, testCases, d) == target
  {
    var selectables := Selectables(testCases, config.maxSequenceLength);
    SampleReachable(selectables, target, 0);
    var picks: nat -> nat :| SamplesTo(selectables, picks, 0, target);
    DrawsProduce(config, testCases, picks, target);
  }

  /** Draws that ask for the size of `target` and then sample it produce it. */
  lemma DrawsProduce(config: Configuration, testCases: seq<TestCase>, picks: nat -> nat, target: seq<TestCase>)
    requires SamplesTo(Selectables(testCases, config.maxSequenceLength), picks, 0, target)
    requires |target| <= UpperBound(|Selectables(testCases, config.maxSequenceLength)|, config.maxSequencesCombined)
    ensures RandomTestCases(config, testCases, Draws(0, 0, |target|, picks)) == target
  {
    assert SampleSize(config, testCases, Draws(0, 0, |target|, picks)) == |target|;
  }
}
