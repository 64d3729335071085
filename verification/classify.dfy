/**
 * Inference (`ApparelClassifier`): featurize the product text, ask the loaded
 * model for a probability distribution, keep the labels above the noise floor
 * and rank them by probability, highest first.
 *
 * The model itself (`prob_classify`, `labels`, `explain` of the unpickled
 * MaxentClassifier) is not part of this model; it enters as the functions of
 * a `Maxent` value.
 */
module Classify {
  import opened Wrappers
  import opened Features

  type Label = string

  /** `probdist.samples()`, each paired with `probdist.prob(label)`, in sample order. */
  type Distribution = seq<(Label, real)>

  /** A label is reported only when its probability is strictly above this floor. */
  const NoiseFloor: real := 0.01

  /** The parts of the unpickled classifier that inference calls. */
  datatype Maxent = Maxent(probClassify: FeatureMap -> Distribution, labels: seq<Label>)

  /** The list comprehension of `classify`: the pairs above the floor, in sample order. */
  function AboveFloor(d: Distribution): (r: Distribution)
    ensures |r| <= |d|
    ensures forall i :: 0 <= i < |r| ==> r[i] in d && r[i].1 > NoiseFloor
    decreases |d|
  {
    if d == [] then []
    else (if d[0].1 > NoiseFloor then [d[0]] else []) + AboveFloor(d[1..])
  }

  /** Places `x` in front of the first entry whose probability is not above its own. */
  function Insert(x: (Label, real), s: Distribution): (r: Distribution)
    ensures |r| == |s| + 1 && x in r
    ensures forall e :: e in s ==> e in r
    decreases |s|
  {
    if s == [] then [x]
    else if s[0].1 <= x.1 then [x] + s
    else [s[0]] + Insert(x, s[1..])
  }

  /** `sorted(..., key=itemgetter(1), reverse=True)`, a stable sort on probability, highest first. */
  function SortDescending(s: Distribution): (r: Distribution)
    ensures |r| == |s|
    ensures forall e :: e in s ==> e in r
    decreases |s|
  {
    if s == [] then [] else Insert(s[0], SortDescending(s[1..]))
  }

  /** What `classify` returns for the distribution the model produced. */
  function Ranked(d: Distribution): Distribution {
    SortDescending(AboveFloor(d))
  }

  ghost predicate Descending(s: Distribution) {
    forall i, j :: 0 <= i < j < |s| ==> s[i].1 >= s[j].1
  }

  /** The entries of `s` whose probability is exactly `p`, in order. */
  function WithProbability(s: Distribution, p: real): Distribution
    decreases |s|
  {
    if s == [] then []
    else (if s[0].1 == p then [s[0]] else []) + WithProbability(s[1..], p)
  }

  lemma {:induction false} WithProbabilityAppend(a: Distribution, b: Distribution, p: real)
    ensures WithProbability(a + b, p) == WithProbability(a, p) + WithProbability(b, p)
    decreases |a|
  {
    if a == [] {
      assert a + b == b;
    } else {
      var head := if a[0].1 == p then [a[0]] else [];
      assert (a + b)[0] == a[0] && (a + b)[1..] == a[1..] + b;
      assert WithProbability(a + b, p) == head + WithProbability(a[1..] + b, p);
      WithProbabilityAppend(a[1..], b, p);
      assert head + (WithProbability(a[1..], p) + WithProbability(b, p))
          == (head + WithProbability(a[1..], p)) + WithProbability(b, p);
    }
  }

  /** The filter keeps exactly the entries above the floor. */
  lemma {:induction false} AboveFloorMembers(d: Distribution)
    ensures forall e :: e in AboveFloor(d) <==> e in d && e.1 > NoiseFloor
    decreases |d|
  {
    if d != [] {
      AboveFloorMembers(d[1..]);
      assert d == [d[0]] + d[1..];
    }
  }

  /** The filter keeps entries above the floor in their order, equal probabilities included. */
  lemma {:induction false} AboveFloorOrder(d: Distribution, p: real)
    ensures p > NoiseFloor ==> WithProbability(AboveFloor(d), p) == WithProbability(d, p)
    ensures p <= NoiseFloor ==> WithProbability(AboveFloor(d), p) == []
    decreases |d|
  {
    if d != [] {
      AboveFloorOrder(d[1..], p);
      WithProbabilityAppend(if d[0].1 > NoiseFloor then [d[0]] else [], AboveFloor(d[1..]), p);
    }
  }

  /** Inserting adds exactly `x`. */
  lemma {:induction false} InsertAdds(x: (Label, real), s: Distribution)
    ensures multiset(Insert(x, s)) == multiset{x} + multiset(s)
    decreases |s|
  {
    if s != [] && s[0].1 > x.1 {
      InsertAdds(x, s[1..]);
      assert s == [s[0]] + s[1..];
    }
  }

  /** Inserting into a descending list keeps it descending. */
  lemma {:induction false} InsertDescending(x: (Label, real), s: Distribution)
    requires Descending(s)
    ensures Descending(Insert(x, s))
    decreases |s|
  {
    if s != [] && s[0].1 > x.1 {
      var t := Insert(x, s[1..]);
      InsertDescending(x, s[1..]);
      InsertAdds(x, s[1..]);
      forall k | 0 <= k < |t| ensures s[0].1 >= t[k].1 {
        assert t[k] in multiset(t);
        if t[k] != x {
          assert t[k] in multiset(s[1..]);
          var m :| 0 <= m < |s[1..]| && s[1..][m] == t[k];
          assert s[m + 1] == t[k];
        }
      }
      assert Insert(x, s) == [s[0]] + t;
    }
  }

  /** `x` goes ahead of every entry with the same probability (the stable half of the sort). */
  lemma {:induction false} InsertStable(x: (Label, real), s: Distribution, p: real)
    ensures WithProbability(Insert(x, s), p) == (if x.1 == p then [x] else []) + WithProbability(s, p)
    decreases |s|
  {
    if s == [] {
      WithProbabilityAppend([x], [], p);
    } else if s[0].1 <= x.1 {
      WithProbabilityAppend([x], s, p);
    } else {
      InsertStable(x, s[1..], p);
      WithProbabilityAppend([s[0]], Insert(x, s[1..]), p);
      WithProbabilityAppend([s[0]], s[1..], p);
      assert s == [s[0]] + s[1..];
    }
  }

  /** The sort returns a descending permutation of its input. */
  lemma {:induction false} SortDescendingSorts(s: Distribution)
    ensures Descending(SortDescending(s))
    ensures multiset(SortDescending(s)) == multiset(s)
    decreases |s|
  {
    if s != [] {
      SortDescendingSorts(s[1..]);
      InsertDescending(s[0], SortDescending(s[1..]));
      InsertAdds(s[0], SortDescending(s[1..]));
      assert s == [s[0]] + s[1..];
    }
  }

  /** The sort is stable: entries of equal probability keep their relative order. */
  lemma {:induction false} SortDescendingStable(s: Distribution, p: real)
    ensures WithProbability(SortDescending(s), p) == WithProbability(s, p)
    decreases |s|
  {
    if s != [] {
      SortDescendingStable(s[1..], p);
      InsertStable(s[0], SortDescending(s[1..]), p);
      WithProbabilityAppend([s[0]], s[1..], p);
      assert s == [s[0]] + s[1..];
    }
  }

  /**
   * `classify` reports exactly the labels of the distribution whose
   * probability is strictly above 0.01, each with its own probability, in
   * non-increasing order of probability; it is a permutation of the filtered
   * list, and labels with equal probability keep their `samples()` order.
   */
  lemma RankedSpec(d: Distribution)
    ensures forall e :: e in Ranked(d) <==> e in d && e.1 > NoiseFloor
    ensures Descending(Ranked(d))
    ensures multiset(Ranked(d)) == multiset(AboveFloor(d))
    ensures forall p :: p > NoiseFloor ==> WithProbability(Ranked(d), p) == WithProbability(d, p)
  {
    AboveFloorMembers(d);
    SortDescendingSorts(AboveFloor(d));
    forall e ensures e in Ranked(d) <==> e in AboveFloor(d) {
      assert e in Ranked(d) <==> e in multiset(Ranked(d));
      assert e in AboveFloor(d) <==> e in multiset(AboveFloor(d));
    }
    forall p | p > NoiseFloor ensures WithProbability(Ranked(d), p) == WithProbability(d, p) {
      SortDescendingStable(AboveFloor(d), p);
      AboveFloorOrder(d, p);
    }
  }

  /** A label whose probability is exactly the floor is not reported. */
  lemma FloorExcluded(d: Distribution, sample: Label)
    ensures (sample, NoiseFloor) !in Ranked(d)
  {
    RankedSpec(d);
  }

  class ApparelClassifier {
    /** `_classifier`, the model unpickled at construction. */
    const classifier: Maxent
    /** The featurizer shared by `classify` and `explain`. */
    const featurizer: ProductFeatures

    constructor (classifier: Maxent, featurizer: ProductFeatures)
      ensures this.classifier == classifier && this.featurizer == featurizer
    {
      this.classifier := classifier;
      this.featurizer := featurizer;
    }

    /** `classify(name, description, keywords)`. */
    method Classify(name: string, description: Option<string>, keywords: Option<string>)
      returns (ranked: Distribution)
      ensures ranked == Ranked(classifier.probClassify(featurizer.Features(name, description, keywords)))
      ensures forall i :: 0 <= i < |ranked| ==> ranked[i].1 > NoiseFloor
      ensures Descending(ranked)
    {
      var features := featurizer.Featurize(name, description, keywords);
      var probdist := classifier.probClassify(features);
      var labels := AboveFloor(probdist);
      ranked := SortDescending(labels);
      RankedSpec(probdist);
    }

    /**
     * `explain(name, description, keywords)`: the explanation itself is only
     * printed; what is modelled is the feature map handed to the model, which
     * is the one `classify` uses for the same arguments.
     */
    method Explain(name: string, description: Option<string>, keywords: Option<string>)
      returns (explained: FeatureMap)
      ensures explained == featurizer.Features(name, description, keywords)
    {
      explained := featurizer.Featurize(name, description, keywords);
    }

    /** `labels()`: the model's labels, unfiltered. */
    function Labels(): (r: seq<Label>)
      ensures r == classifier.labels
    {
      classifier.labels
    }
  }
}
