/** The adaptive sampler of `src/sampler.js`: it turns a list of per-pair
    variances into running cumulative sums and picks the pair whose slice of
    the cumulative total contains a random threshold, so that each pair is
    chosen with probability proportional to its variance. */
module Sampler {
  import opened Results

  /** One input entry: a pair of items and its variance. */
  datatype PairVariance = PairVariance(alpha: string, beta: string, variance: real)

  /** One stored entry: a pair of items and the running total up to it. */
  datatype Candidate = Candidate(alpha: string, beta: string, cumSumVariance: real)

  datatype Error =
    | NoPairs  // "AdaptiveSampler: Cannot sample less than one pair"

  // ---------------------------------------------------------------------
  // Specification
  // ---------------------------------------------------------------------

  /** The running total `sumVariance` after the given entries, added left to right. */
  function Total(vs: seq<PairVariance>): real
  {
    if |vs| == 0 then 0.0 else Total(vs[..|vs| - 1]) + vs[|vs| - 1].variance
  }

  /** The list the constructor stores: each entry keeps its pair and records
      the total of the variances up to and including itself. */
  function Cumulative(vs: seq<PairVariance>): (cs: seq<Candidate>)
    ensures |cs| == |vs|
    ensures forall k :: 0 <= k < |vs| ==>
      && cs[k].alpha == vs[k].alpha && cs[k].beta == vs[k].beta
      && cs[k].cumSumVariance == Total(vs[..k + 1])
    ensures |vs| > 0 ==> cs[|vs| - 1].cumSumVariance == Total(vs)
  {
    if |vs| == 0 then []
    else
      var init, last := vs[..|vs| - 1], vs[|vs| - 1];
      assert forall j :: 0 < j <= |init| ==> init[..j] == vs[..j];
      assert vs[..|vs|] == vs;
      Cumulative(init) + [Candidate(last.alpha, last.beta, Total(vs))]
  }

  predicate NonNegativeVariances(vs: seq<PairVariance>)
  {
    forall k :: 0 <= k < |vs| ==> vs[k].variance >= 0.0
  }

  /** The search in `samplePair`, as an index: the first entry whose
      cumulative sum reaches the threshold. */
  function Select(cs: seq<Candidate>, threshold: real): (r: Option<nat>)
    ensures r.Some? ==> r.value < |cs| && cs[r.value].cumSumVariance >= threshold
    ensures r.Some? ==> forall i :: 0 <= i < r.value ==> cs[i].cumSumVariance < threshold
    ensures r.None? ==> forall i :: 0 <= i < |cs| ==> cs[i].cumSumVariance < threshold
  {
    if |cs| == 0 then None
    else if cs[0].cumSumVariance >= threshold then Some(0)
    else
      match Select(cs[1..], threshold)
      case None => None
      case Some(k) => Some(k + 1)
  }

  /** The threshold `samplePair` draws: the random fraction `u` of the total. */
  function Threshold(u: real, sumVariance: real): real
  {
    u * sumVariance
  }

  /** The entry `find` returns: the one `Select` names, if any. */
  function Found(cs: seq<Candidate>, threshold: real): Option<Candidate>
  {
    match Select(cs, threshold)
    case None => None
    case Some(k) => Some(cs[k])
  }

  /** The first entry to reach the threshold is the one `Select` names. */
  lemma SelectFirst(cs: seq<Candidate>, threshold: real, k: nat)
    requires k < |cs| && cs[k].cumSumVariance >= threshold
    requires forall i :: 0 <= i < k ==> cs[i].cumSumVariance < threshold
    ensures Select(cs, threshold) == Some(k)
  {
    var r := Select(cs, threshold);
    assert r.Some?;
    assert !(r.value < k);
  }

  /** When no entry reaches the threshold, `Select` finds nothing. */
  lemma SelectNone(cs: seq<Candidate>, threshold: real)
    requires forall i :: 0 <= i < |cs| ==> cs[i].cumSumVariance < threshold
    ensures Select(cs, threshold) == None
  {
    var r := Select(cs, threshold);
    assert !r.Some?;
  }

  // ---------------------------------------------------------------------
  // Properties of the cumulative sums
  // ---------------------------------------------------------------------

  /** With non-negative variances a longer prefix never has a smaller total. */
  lemma {:induction false} TotalMonotone(vs: seq<PairVariance>, i: nat, j: nat)
    requires NonNegativeVariances(vs) && i <= j <= |vs|
    ensures Total(vs[..i]) <= Total(vs[..j])
  {
    if i < j {
      TotalMonotone(vs, i, j - 1);
      assert vs[..j][..j - 1] == vs[..j - 1];
    }
  }

  /** With non-negative variances no prefix has a negative total. */
  lemma {:induction false} TotalNonNegative(vs: seq<PairVariance>)
    requires NonNegativeVariances(vs)
    ensures Total(vs) >= 0.0
  {
    if |vs| > 0 {
      assert NonNegativeVariances(vs[..|vs| - 1]);
      TotalNonNegative(vs[..|vs| - 1]);
    }
  }

  /** With non-negative variances the cumulative sums never decrease along
      the list, which is what the search in `samplePair` relies on. */
  lemma CumulativeNonDecreasing(vs: seq<PairVariance>)
    requires NonNegativeVariances(vs)
    ensures forall i, j :: 0 <= i <= j < |vs| ==>
      Cumulative(vs)[i].cumSumVariance <= Cumulative(vs)[j].cumSumVariance
  {
    var cs := Cumulative(vs);
    forall i, j | 0 <= i <= j < |vs|
      ensures cs[i].cumSumVariance <= cs[j].cumSumVariance
    {
      TotalMonotone(vs, i + 1, j + 1);
    }
  }

  /** With non-negative variances every cumulative sum lies between zero and
      the grand total `sumVariance`. */
  lemma CumulativeBounded(vs: seq<PairVariance>)
    requires NonNegativeVariances(vs)
    ensures forall k :: 0 <= k < |vs| ==>
      0.0 <= Cumulative(vs)[k].cumSumVariance <= Total(vs)
  {
    var cs := Cumulative(vs);
    forall k | 0 <= k < |vs|
      ensures 0.0 <= cs[k].cumSumVariance <= Total(vs)
    {
      TotalNonNegative(vs[..k + 1]);
      TotalMonotone(vs, k + 1, |vs|);
      assert vs[..|vs|] == vs;
    }
  }

  /** Entry k is chosen exactly when the threshold lies in its slice
      `(Total(vs[..k]), Total(vs[..k+1])]` of the cumulative total (the first
      slice is open below), a slice as wide as the entry's own variance; a
      uniform threshold therefore picks each pair in proportion to its variance. */
  lemma SelectedSlice(vs: seq<PairVariance>, threshold: real, k: nat)
    requires NonNegativeVariances(vs) && k < |vs|
    ensures Select(Cumulative(vs), threshold) == Some(k)
        <==> (k == 0 || Total(vs[..k]) < threshold) && threshold <= Total(vs[..k + 1])
    ensures Total(vs[..k + 1]) - Total(vs[..k]) == vs[k].variance
  {
    var cs := Cumulative(vs);
    assert vs[..k + 1][..k] == vs[..k];
    if (k == 0 || Total(vs[..k]) < threshold) && threshold <= Total(vs[..k + 1]) {
      CumulativeNonDecreasing(vs);
      forall i | 0 <= i < k
        ensures cs[i].cumSumVariance < threshold
      {
        assert cs[i].cumSumVariance <= cs[k - 1].cumSumVariance;
      }
      SelectFirst(cs, threshold, k);
    }
  }

  // ---------------------------------------------------------------------
  // The sampler
  // ---------------------------------------------------------------------

  class AdaptiveSampler {
    var variances: seq<Candidate>
    var sumVariance: real
    /** The constructor's argument, which only the stored list remembers. */
    ghost var input: seq<PairVariance>

    ghost predicate Valid()
      reads this
    {
      && |input| >= 1
      && variances == Cumulative(input)
      && sumVariance == Total(input)
    }

    /** The `AdaptiveSampler` constructor, which throws on an empty list. */
    static method Create(vs: seq<PairVariance>) returns (r: Result<AdaptiveSampler, Error>)
      ensures r.Failure? <==> |vs| < 1
      ensures r.Failure? ==> r.error == NoPairs
      ensures r.Success? ==> fresh(r.value) && r.value.Valid() && r.value.input == vs
    {
      if |vs| < 1 {
        return Failure(NoPairs);
      }
      var sampler := new AdaptiveSampler(vs);
      return Success(sampler);
    }

    /** The body of the constructor once the size check has passed: one pass
        that adds each variance to `sumVariance` and records the running value. */
    constructor (vs: seq<PairVariance>)
      requires |vs| >= 1
      ensures Valid() && input == vs
    {
      input := vs;
      sumVariance := 0.0;
      new;
      var entries: seq<Candidate> := [];
      for k := 0 to |vs|
        invariant input == vs
        invariant sumVariance == Total(vs[..k])
        invariant entries == Cumulative(vs[..k])
      {
        var entry := vs[k];
        assert vs[..k + 1][..k] == vs[..k];
        sumVariance := sumVariance + entry.variance;
        entries := entries + [Candidate(entry.alpha, entry.beta, sumVariance)];
      }
      assert vs[..|vs|] == vs;
      variances := entries;
    }

    /** `samplePair` with the random draw `u` (JavaScript's uniform draw in `[0, 1)`)
        passed in: the first stored entry whose cumulative sum reaches
        `u * sumVariance`, or `None` (JavaScript's `undefined`) when none does. */
    method SamplePair(u: real) returns (pair: Option<Candidate>)
      requires Valid()
      ensures pair == Found(variances, Threshold(u, sumVariance))
      ensures NonNegativeVariances(input) && u <= 1.0 ==> pair.Some?
      ensures pair.Some? && NonNegativeVariances(input) ==> pair.value.cumSumVariance <= sumVariance
      ensures pair.Some? ==>
        exists k :: 0 <= k < |input| && pair.value.alpha == input[k].alpha && pair.value.beta == input[k].beta
    {
      var threshold := Threshold(u, sumVariance);
      if NonNegativeVariances(input) && u <= 1.0 {
        TotalNonNegative(input);
        AtMostWhole(u, sumVariance);
      }
      pair := Find(threshold);
    }

    /** The `find` over the stored list for a given threshold. */
    method Find(threshold: real) returns (pair: Option<Candidate>)
      requires Valid()
      ensures pair == Found(variances, threshold)
      ensures NonNegativeVariances(input) && threshold <= sumVariance ==> pair.Some?
      ensures pair.Some? && NonNegativeVariances(input) ==> pair.value.cumSumVariance <= sumVariance
      ensures pair.Some? ==>
        exists k :: 0 <= k < |input| && pair.value.alpha == input[k].alpha && pair.value.beta == input[k].beta
    {
      if NonNegativeVariances(input) {
        CumulativeBounded(input);
      }
      for k := 0 to |variances|
        invariant forall i :: 0 <= i < k ==> variances[i].cumSumVariance < threshold
      {
        if variances[k].cumSumVariance >= threshold {
          SelectFirst(variances, threshold, k);
          assert variances[k].alpha == input[k].alpha && variances[k].beta == input[k].beta;
          return Some(variances[k]);
        }
      }
      SelectNone(variances, threshold);
      return None;
    }
  }

  /** A fraction `u <= 1` of a non-negative total does not exceed it. */
  lemma AtMostWhole(u: real, total: real)
    requires u <= 1.0 && total >= 0.0
    ensures Threshold(u, total) <= total
  {
    assert total - u * total == (1.0 - u) * total;
  }
}
