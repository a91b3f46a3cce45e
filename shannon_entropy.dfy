/** The bookkeeping half of the Shannon-entropy analysis: a tally of how often each element
    was observed. */
module Entropy {

  /** The count `observations[element, default: 0]` reads: the stored count, or 0 for an
      element never observed. */
  function Count<T>(counts: map<T, int>, element: T): int {
    if element in counts then counts[element] else 0
  }

  /** The tally after one more observation of `element`. */
  function Added<T>(counts: map<T, int>, element: T): map<T, int> {
    counts[element := Count(counts, element) + 1]
  }

  /** The tally after observing `elements` one after the other, in order. */
  function AddedAll<T>(counts: map<T, int>, elements: seq<T>): map<T, int> {
    if |elements| == 0 then counts
    else Added(AddedAll(counts, elements[..|elements| - 1]), elements[|elements| - 1])
  }

  /** The distinct elements of a sequence. */
  function Distinct<T>(elements: seq<T>): set<T> {
    set element | element in elements
  }

  /** Every stored count is at least 1: an element is only stored once it has been observed. */
  predicate CountsPositive<T>(counts: map<T, int>) {
    forall element :: element in counts ==> counts[element] >= 1
  }

  /** After a sequence of observations, each element's count is its count before plus the
      number of times it occurs in the sequence. */
  lemma {:induction false} AddedAllCount<T>(counts: map<T, int>, elements: seq<T>, element: T)
    ensures Count(AddedAll(counts, elements), element) == Count(counts, element) + multiset(elements)[element]
  {
    if |elements| > 0 {
      var front, last := elements[..|elements| - 1], elements[|elements| - 1];
      AddedAllCount(counts, front, element);
      assert elements == front + [last];
      assert multiset(elements) == multiset(front) + multiset{last};
    }
  }

  /** After a sequence of observations, the stored elements are those stored before and those
      observed. */
  lemma {:induction false} AddedAllKeys<T>(counts: map<T, int>, elements: seq<T>)
    ensures AddedAll(counts, elements).Keys == counts.Keys + Distinct(elements)
  {
    if |elements| > 0 {
      var front, last := elements[..|elements| - 1], elements[|elements| - 1];
      AddedAllKeys(counts, front);
      assert elements == front + [last];
      assert Distinct(elements) == Distinct(front) + {last};
    }
  }

  /** Observations keep every stored count at least 1. */
  lemma {:induction false} AddedAllPositive<T>(counts: map<T, int>, elements: seq<T>)
    requires CountsPositive(counts)
    ensures CountsPositive(AddedAll(counts, elements))
  {
    if |elements| > 0 {
      AddedAllPositive(counts, elements[..|elements| - 1]);
    }
  }

  /** Starting from no observations, the number of stored elements, which `entropy()` compares
      with `domainCount`, is the number of distinct elements observed. */
  lemma DistinctCountAfter<T>(elements: seq<T>)
    ensures |AddedAll(map[], elements).Keys| == |Distinct(elements)|
  {
    var empty: map<T, int> := map[];
    AddedAllKeys(empty, elements);
    assert empty.Keys == {};
  }

  /** `ShannonEntropy`: the tally of observations, with the two counts fixed at creation. */
  class ShannonEntropy<T(==)> {
    var observations: map<T, int>
    var observationCount: int
    var domainCount: int

    /** What `init(domainCount:)` establishes and every `add` keeps: a positive domain count,
        an observation count of 0 (no operation changes it), and positive stored counts. */
    predicate Valid()
      reads this
    {
      domainCount > 0 && observationCount == 0 && CountsPositive(observations)
    }

    /** `init(domainCount:)`: the domain count must be positive; there are no observations
        yet. */
    constructor (domainCount: int)
      requires domainCount > 0
      ensures observations == map[] && observationCount == 0 && this.domainCount == domainCount
      ensures Valid()
    {
      observations := map[];
      observationCount := 0;
      this.domainCount := domainCount;
    }

    /** `add(observation:)`: the count of `element` goes up by one, from 0 if it was never
        observed; no other count and neither of the two fields changes. */
    method AddObservation(element: T)
      modifies this
      ensures observations == Added(old(observations), element)
      ensures observations[element] == Count(old(observations), element) + 1
      ensures forall other :: other != element ==> Count(observations, other) == Count(old(observations), other)
      ensures observationCount == old(observationCount) && domainCount == old(domainCount)
      ensures old(Valid()) ==> Valid()
    {
      observations := observations[element := Count(observations, element) + 1];
    }

    /** `add(observations:)`: `add(observation:)` on each element, in order. */
    method AddObservations(elements: seq<T>)
      modifies this
      ensures observations == AddedAll(old(observations), elements)
      ensures observationCount == old(observationCount) && domainCount == old(domainCount)
      ensures old(Valid()) ==> Valid()
    {
      ghost var initial := observations;
      for i := 0 to |elements|
        invariant observations == AddedAll(initial, elements[..i])
        invariant observationCount == old(observationCount) && domainCount == old(domainCount)
      {
        AddObservation(elements[i]);
        assert elements[..i + 1][..i] == elements[..i];
      }
      assert elements[..|elements|] == elements;
      if old(Valid()) {
        AddedAllPositive(initial, elements);
      }
    }

    /** The precondition of `entropy()`: no more distinct elements were observed than the
        domain holds. */
    predicate EntropyDefined()
      reads this
    {
      |observations| <= domainCount
    }
  }

  /** A fresh tally fed `elements` meets the precondition of `entropy()` exactly when
      `elements` holds at most `domainCount` distinct elements; each element's count
      is its number of occurrences. */
  method TallyOf<T(==)>(domainCount: int, elements: seq<T>) returns (defined: bool, counts: map<T, int>)
    requires domainCount > 0
    ensures defined <==> |Distinct(elements)| <= domainCount
    ensures forall element :: Count(counts, element) == multiset(elements)[element]
  {
    var tally := new ShannonEntropy<T>(domainCount);
    tally.AddObservations(elements);
    DistinctCountAfter(elements);
    forall element
      ensures Count(tally.observations, element) == multiset(elements)[element]
    {
      AddedAllCount(map[], elements, element);
    }
    defined := tally.EntropyDefined();
    counts := tally.observations;
  }
}
