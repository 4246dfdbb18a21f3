/**
  Walker's alias method as an object: `Prepare` rebuilds the probability and
  bucket vectors from a weight vector with two LIFO worklists of indices;
  `Probability` and `Sample` read the built table.
 */
module Alias {
  import opened Reals
  import opened Buckets
  import opened Worklists

  /** Every weight is non-negative. */
  predicate NonNegative(w: seq<real>)
  {
    forall k :: 0 <= k < |w| ==> 0.0 <= w[k]
  }

  /** Every weight equals the first. */
  predicate AllEqual(w: seq<real>)
  {
    forall k :: 0 <= k < |w| ==> w[k] == w[0]
  }

  /** Non-negative weights have a non-negative sum. */
  lemma {:induction false} SumNonNegative(w: seq<real>)
    requires NonNegative(w)
    ensures 0.0 <= Sum(w)
  {
    if w != [] {
      SumNonNegative(w[..|w| - 1]);
    }
  }

  /** With all weights equal, every initial height is exactly 1. */
  lemma {:induction false} UniformHeights(weights: seq<real>, k: nat)
    requires AllEqual(weights) && Sum(weights) != 0.0 && k < |weights|
    ensures (weights[k] / Sum(weights)) * |weights| as real == 1.0
  {
    var x := weights[0];
    SumConstant(weights, x);
    CancelUniform(x, |weights| as real);
  }

  /** The normalised weights sum to exactly 1. */
  lemma ProbabilitiesSumToOne(weights: seq<real>, probs: seq<real>)
    requires Sum(weights) != 0.0 && |probs| == |weights|
    requires forall k :: 0 <= k < |weights| ==> probs[k] == weights[k] / Sum(weights)
    ensures Sum(probs) == 1.0
  {
    var wSum := Sum(weights);
    SumScaled(weights, probs, wSum);
    DivideBySelf(wSum);
  }

  /** Non-negative weights give non-negative probabilities. */
  lemma {:induction false} NonNegativeProbabilities(weights: seq<real>, probs: seq<real>)
    requires Sum(weights) != 0.0 && |probs| == |weights| && NonNegative(weights)
    requires forall k :: 0 <= k < |weights| ==> probs[k] == weights[k] / Sum(weights)
    ensures NonNegative(probs)
  {
    SumNonNegative(weights);
    forall k | 0 <= k < |weights| ensures 0.0 <= probs[k] {
      NonNegativeQuotient(weights[k], Sum(weights));
    }
  }

  /** With all weights equal, every probability is 1/N, so every initial height is exactly 1. */
  lemma UniformScaledHeights(weights: seq<real>, probs: seq<real>)
    requires Sum(weights) != 0.0 && |probs| == |weights| && AllEqual(weights)
    requires forall k :: 0 <= k < |weights| ==> probs[k] == weights[k] / Sum(weights)
    ensures forall k :: 0 <= k < |weights| ==> Scaled(probs[k], |weights|) == 1.0
  {
    forall k | 0 <= k < |weights| ensures Scaled(probs[k], |weights|) == 1.0 {
      UniformHeights(weights, k);
    }
  }

  /** Heights that are non-negative probabilities times N are non-negative. */
  lemma NonNegativeHeights(probs: seq<real>, scaled: seq<Bucket>)
    requires |scaled| == |probs| && NonNegative(probs)
    requires forall k :: 0 <= k < |probs| ==> scaled[k].height == Scaled(probs[k], |probs|)
    ensures forall k :: 0 <= k < |scaled| ==> 0.0 <= scaled[k].height
  {
    forall k | 0 <= k < |scaled| ensures 0.0 <= scaled[k].height {
      NonNegativeProduct(probs[k], |probs| as real);
    }
  }

  /** A finished table in which every outcome keeps, through its own height and
      what the others lend it, its initial height probs[i] * N, has
      SampleProbability exactly probs[i] for each outcome i. */
  lemma PreparedLaw(probs: seq<real>, scaled: seq<Bucket>, b: seq<Bucket>)
    requires |b| == |scaled| == |probs| >= 1 && WellFormed(b)
    requires forall k :: 0 <= k < |probs| ==> scaled[k].height == Scaled(probs[k], |probs|)
    requires forall j :: 0 <= j < |b| ==> Credit(b, j) == scaled[j].height
    ensures forall i :: 0 <= i < |b| ==> SampleProbability(b, i) == probs[i]
  {
    SamplingLaw(b, probs);
  }

  /** The first phase of a build: normalise the weights into probabilities
      and scale each to a height, so that an outcome of average weight has
      height exactly 1; no bucket has an alias yet. */
  method Normalize(weights: seq<real>) returns (probs: seq<real>, buckets: seq<Bucket>)
    requires Sum(weights) != 0.0
    ensures |probs| == |buckets| == |weights|
    ensures forall k :: 0 <= k < |weights| ==> probs[k] == weights[k] / Sum(weights)
    ensures forall k :: 0 <= k < |weights| ==>
      buckets[k] == Bucket(Scaled(probs[k], |weights|), NoAlias)
    ensures Sum(probs) == 1.0
    ensures Mass(buckets) == |weights| as real
    ensures NonNegative(weights) ==> NonNegative(probs)
    ensures AllEqual(weights) ==> forall k :: 0 <= k < |buckets| ==> buckets[k].height == 1.0
  {
    var wSum := Sum(weights);
    var n := |weights|;
    probs := seq(n, _ => 0.0);
    buckets := seq(n, _ => Blank);
    for i := 0 to n
      invariant |probs| == n && |buckets| == n
      invariant forall k :: 0 <= k < i ==> probs[k] == weights[k] / wSum
      invariant forall k :: 0 <= k < i ==> buckets[k] == Bucket(Scaled(probs[k], n), NoAlias)
      invariant forall k :: i <= k < n ==> buckets[k] == Blank
    {
      probs := probs[i := weights[i] / wSum];
      buckets := buckets[i := buckets[i].(height := Scaled(probs[i], n))];
    }
    ProbabilitiesSumToOne(weights, probs);
    MassScaled(buckets, probs, n);
    if NonNegative(weights) {
      NonNegativeProbabilities(weights, probs);
    }
    if AllEqual(weights) {
      UniformScaledHeights(weights, probs);
    }
  }

  /** The second phase: every index goes, in ascending order, onto `lower`
      when its bucket is below 1 and onto `upper` otherwise. */
  method Partition(b: seq<Bucket>) returns (lower: seq<int>, upper: seq<int>)
    ensures InRange(lower, |b|) && InRange(upper, |b|) && Ascending(lower) && Ascending(upper)
    ensures forall p :: 0 <= p < |lower| ==> b[lower[p]].height < 1.0
    ensures forall p :: 0 <= p < |upper| ==> 1.0 <= b[upper[p]].height
    ensures forall k :: 0 <= k < |b| ==> OnStack(lower, upper, k)
    ensures |lower| + |upper| == |b|
    ensures WorkSum(b, lower) + WorkSum(b, upper) == Mass(b)
  {
    lower, upper := [], [];
    for i := 0 to |b|
      invariant Classified(b, i, lower, upper)
    {
      if b[i].height < 1.0 {
        ClassifyLower(b, i, lower, upper);
        lower := lower + [i];
      } else {
        ClassifyUpper(b, i, lower, upper);
        upper := upper + [i];
      }
    }
    assert b[..|b|] == b;
  }

  /** The third phase: while both stacks are non-empty, pair the top of
      `lower` with the top of `upper` (PairStep).

      Starting from buckets without aliases, each of them on one of the two
      stacks, and stacks holding as much mass as they have entries, the
      result is a finished table in which every outcome keeps, through its
      own height and what others lend it, exactly the height it started
      with. */
  method PairUp(b0: seq<Bucket>, lower0: seq<int>, upper0: seq<int>) returns (b: seq<Bucket>)
    requires Stacked(b0, lower0, upper0) && Balanced(b0, lower0, upper0)
    requires forall k :: 0 <= k < |b0| ==> b0[k].alias == NoAlias
    requires forall k :: 0 <= k < |b0| ==> OnStack(lower0, upper0, k)
    ensures |b| == |b0| && WellFormed(b)
    ensures forall j :: 0 <= j < |b| ==> Credit(b, j) == b0[j].height
    ensures (forall k :: 0 <= k < |b0| ==> 0.0 <= b0[k].height) ==>
      forall k :: 0 <= k < |b| ==> 0.0 <= b[k].height
    ensures lower0 == [] ==> b == b0
  {
    b := b0;
    var lower, upper := lower0, upper0;
    PairingStart(b0, lower0, upper0);
    while |lower| > 0 && |upper| > 0
      invariant Pairing(b0, b, lower, upper)
      invariant lower0 == [] ==> lower == [] && b == b0
      decreases |lower| + |upper|
    {
      ghost var (b1, lower1, upper1) := (b, lower, upper);
      StepIndices(b, lower, upper);

      var lowerIndex := lower[|lower| - 1];
      lower := lower[..|lower| - 1];
      var upperIndex := upper[|upper| - 1];
      upper := upper[..|upper| - 1];

      assert 1.0 <= b[upperIndex].height;
      assert b[lowerIndex].alias == NoAlias;

      var mov := 1.0 - b[lowerIndex].height;
      b := b[upperIndex := b[upperIndex].(height := b[upperIndex].height - mov)];
      b := b[lowerIndex := b[lowerIndex].(alias := upperIndex)];

      if b[upperIndex].height < 1.0 {
        lower := lower + [upperIndex];
      } else {
        upper := upper + [upperIndex];
      }

      assert PairStep(b1, lower1, upper1, b, lower, upper);
      PairingTurn(b0, b1, lower1, upper1, b, lower, upper);
    }
    PairingDone(b, lower, upper);
  }

  class AliasMethod {
    /** probs[i]: the normalised weight of outcome i. */
    var probs: seq<real>
    /** buckets[i]: the column of outcome i. */
    var buckets: seq<Bucket>

    /** A built table: one probability per bucket, at least one bucket, the
        buckets finished, and SampleProbability equal to probs[i] for each
        outcome i. With non-negative heights, as non-negative weights give,
        that is the probability that a draw returns i. A default object is
        not built: it has no bucket to draw from. */
    ghost predicate Built()
      reads this
    {
      |probs| == |buckets| >= 1 &&
      WellFormed(buckets) &&
      forall i :: 0 <= i < |buckets| ==> SampleProbability(buckets, i) == probs[i]
    }

    /** An object starts with both vectors empty. */
    constructor ()
      ensures probs == [] && buckets == []
    {
      probs := [];
      buckets := [];
    }

    /** Rebuilds the table from the weights. Both vectors are cleared first,
        so nothing of an earlier build survives: the new state is determined
        by the weights alone. */
    method Prepare(weights: seq<real>)
      requires Sum(weights) != 0.0
      modifies this
      ensures Built()
      ensures |probs| == |weights|
      ensures forall i :: 0 <= i < |weights| ==> probs[i] == weights[i] / Sum(weights)
      ensures Sum(probs) == 1.0
      ensures NonNegative(weights) ==> forall k :: 0 <= k < |buckets| ==> 0.0 <= buckets[k].height <= 1.0
      ensures AllEqual(weights) ==> forall k :: 0 <= k < |buckets| ==> buckets[k].alias == NoAlias
    {
      // probs.clear() and buckets.clear()
      probs := [];
      buckets := [];
      var p, scaled := Normalize(weights);
      var lower, upper := Partition(scaled);
      if NonNegative(weights) {
        NonNegativeHeights(p, scaled);
      }
      var b := PairUp(scaled, lower, upper);
      PreparedLaw(p, scaled, b);
      probs, buckets := p, b;
    }

    /** The probability of outcome i: the normalised weight, which is also
        SampleProbability, the probability that Sample returns i when the
        heights are non-negative. */
    function Probability(i: int): (p: real)
      reads this
      requires Built() && 0 <= i < |probs|
      ensures p == probs[i]
      ensures p == SampleProbability(buckets, i)
    {
      probs[i]
    }

    /** One draw from two uniform numbers: u0 picks the column, u1 decides
        between the column and its alias. */
    function Sample(u0: real, u1: real): (r: int)
      reads this
      requires Built()
      ensures 0 <= r < |buckets|
      ensures var c := Column(u0, |buckets|);
        (buckets[c].alias < 0 ==> r == c) &&
        (0 <= buckets[c].alias ==> (r == c <==> u1 < buckets[c].height)) &&
        (r == c || r == buckets[c].alias)
    {
      Pick(buckets, Column(u0, |buckets|), u1)
    }
  }

  /** With a single outcome the table is one full bucket without an alias:
      every draw returns 0, which has probability 1. */
  lemma SingleOutcome(a: AliasMethod, u0: real, u1: real)
    requires a.Built() && |a.buckets| == 1
    ensures a.buckets[0] == Bucket(1.0, NoAlias)
    ensures a.Sample(u0, u1) == 0 && a.Probability(0) == 1.0
  {
    SingleBucket(a.buckets);
    assert ShareSum(a.buckets, 1, 0) == 1.0;
  }

  /** A table without aliases, as equal weights build, returns the column u0
      selects, whatever u1 is. */
  lemma UnaliasedSample(a: AliasMethod, u0: real, u1: real)
    requires a.Built()
    requires forall k :: 0 <= k < |a.buckets| ==> a.buckets[k].alias == NoAlias
    ensures a.Sample(u0, u1) == Column(u0, |a.buckets|)
  {
  }

  /** An outcome of probability 0 (a zero weight) is never drawn when the
      heights are non-negative, as they are for non-negative weights: the
      draw never stops in its own column and no column lends to it. */
  lemma ZeroProbabilityNeverSampled(a: AliasMethod, i: int, u0: real, u1: real)
    requires a.Built() && 0 <= i < |a.probs| && a.probs[i] == 0.0 && 0.0 <= u1
    requires forall k :: 0 <= k < |a.buckets| ==> 0.0 <= a.buckets[k].height
    ensures a.Sample(u0, u1) != i
  {
    NeverDrawn(a.buckets, i, Column(u0, |a.buckets|), u1);
  }
}
