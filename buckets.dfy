/**
  The value side of Walker's alias method: the bucket record, exact sums over
  weights and buckets, the two halves of a draw (choosing a column from u0,
  then the column's own outcome or its alias from u1), and the sampling law
  that a table of buckets induces.
 */
module Buckets {
  import opened Reals

  /** One unit-wide column of the table. The outcome keeps the part of the
      column below `height`; the part above belongs to `alias`, or to nobody
      when `alias` is NoAlias. */
  datatype Bucket = Bucket(height: real, alias: int)

  /** The "no alias" marker of a bucket. */
  const NoAlias: int := -1

  /** A fresh bucket as the table is resized: height 0, no alias. */
  const Blank: Bucket := Bucket(0.0, NoAlias)

  /** Left-to-right sum of a sequence, the exact counterpart of accumulating with `+` from 0. */
  function Sum(s: seq<real>): real
  {
    if s == [] then 0.0 else Sum(s[..|s| - 1]) + s[|s| - 1]
  }

  /** Dividing every term by the same non-zero c divides the sum by c; with
      c the sum itself this is "the normalised weights sum to 1". */
  lemma {:induction false} SumScaled(w: seq<real>, p: seq<real>, c: real)
    requires c != 0.0 && |p| == |w|
    requires forall k :: 0 <= k < |w| ==> p[k] == w[k] / c
    ensures Sum(p) == Sum(w) / c
  {
    if w != [] {
      var m := |w| - 1;
      SumScaled(w[..m], p[..m], c);
      assert Sum(w[..m]) / c + w[m] / c == (Sum(w[..m]) + w[m]) / c;
    }
  }

  /** n copies of x sum to n * x. */
  lemma {:induction false} SumConstant(w: seq<real>, x: real)
    requires forall k :: 0 <= k < |w| ==> w[k] == x
    ensures Sum(w) == |w| as real * x
  {
    if w != [] {
      SumConstant(w[..|w| - 1], x);
    }
  }

  /** The sum of the heights of all buckets. */
  function Mass(b: seq<Bucket>): real
  {
    if b == [] then 0.0 else Mass(b[..|b| - 1]) + b[|b| - 1].height
  }

  /** The initial height of an outcome of probability p in a table of n
      buckets: p scaled so that an outcome of average probability gets 1. */
  function Scaled(p: real, n: int): real
  {
    p * n as real
  }

  /** Heights that are the probabilities scaled to n buckets have as their
      mass the sum of the probabilities, scaled. */
  lemma {:induction false} MassScaled(b: seq<Bucket>, p: seq<real>, n: nat)
    requires |b| == |p|
    requires forall k :: 0 <= k < |b| ==> b[k].height == Scaled(p[k], n)
    ensures Mass(b) == Scaled(Sum(p), n)
  {
    if b != [] {
      var m := |b| - 1;
      var c := n as real;
      MassScaled(b[..m], p[..m], n);
      assert Sum(p[..m]) * c + p[m] * c == (Sum(p[..m]) + p[m]) * c;
    }
  }

  /** What one bucket hands to outcome i through its alias: the part of its
      column above its height. */
  function Borrowed(bk: Bucket, i: int): real
  {
    if bk.alias == i then 1.0 - bk.height else 0.0
  }

  /** The mass the first n buckets hand to outcome i through their aliases. */
  function Inflow(b: seq<Bucket>, n: nat, i: int): real
    requires n <= |b|
  {
    if n == 0 then 0.0 else Inflow(b, n - 1, i) + Borrowed(b[n - 1], i)
  }

  /** What outcome i holds in the whole table: the height of its own column
      plus what every column lends it through its alias. */
  function Credit(b: seq<Bucket>, i: nat): real
    requires i < |b|
  {
    b[i].height + Inflow(b, |b|, i)
  }

  /** Replacing one bucket changes the inflow to i by exactly the difference
      of what the old and the new bucket hand to i. */
  lemma {:induction false} InflowUpdate(b: seq<Bucket>, n: nat, k: int, x: Bucket, i: int)
    requires n <= |b| && 0 <= k < |b|
    ensures Inflow(b[k := x], n, i)
         == Inflow(b, n, i) + (if k < n then Borrowed(x, i) - Borrowed(b[k], i) else 0.0)
  {
    if n > 0 {
      InflowUpdate(b, n - 1, k, x, i);
    }
  }

  /** A table in which no bucket has an alias lends nothing to any outcome. */
  lemma {:induction false} NoAliasNoInflow(b: seq<Bucket>, n: nat, i: int)
    requires n <= |b| && 0 <= i
    requires forall k :: 0 <= k < n ==> b[k].alias == NoAlias
    ensures Inflow(b, n, i) == 0.0
  {
    if n > 0 {
      NoAliasNoInflow(b, n - 1, i);
    }
  }

  /** The part of a column that its own outcome keeps: all of it without an
      alias, else the part below its height. */
  function Own(bk: Bucket): real
  {
    if bk.alias < 0 then 1.0 else bk.height
  }

  /** A finished table: a bucket without an alias is full (height exactly 1);
      a bucket with one points at another valid outcome and is below 1. */
  predicate WellFormed(b: seq<Bucket>)
  {
    forall k :: 0 <= k < |b| ==>
      if b[k].alias == NoAlias then b[k].height == 1.0
      else 0 <= b[k].alias < |b| && b[k].alias != k && b[k].height < 1.0
  }

  /** A finished table of one outcome is a single full bucket without an
      alias: there is no other index it could lend to. */
  lemma SingleBucket(b: seq<Bucket>)
    requires |b| == 1 && WellFormed(b)
    ensures b[0] == Bucket(1.0, NoAlias)
  {
    assert b[0].alias == NoAlias;
  }

  /** The length of the set of u1 in [0,1) for which column c yields outcome i
      (see PickRegion): its own part if c is i, plus its borrowed part if its
      alias is i. */
  function ColumnShare(b: seq<Bucket>, c: nat, i: int): real
    requires c < |b|
  {
    (if c == i then Own(b[c]) else 0.0) + Borrowed(b[c], i)
  }

  /** The sum of the shares of outcome i over the first n columns. */
  function ShareSum(b: seq<Bucket>, n: nat, i: int): real
    requires n <= |b|
  {
    if n == 0 then 0.0 else ShareSum(b, n - 1, i) + ColumnShare(b, n - 1, i)
  }

  /** Outcome i's total share over the columns, divided by |b|. When every
      height is non-negative this is the probability that a draw returns i for
      independent uniform u0 and u1 on [0,1): every column is chosen with
      probability 1/|b| (ColumnInterval) and then yields i on an interval of
      u1 of length ColumnShare (PickInterval). With a negative height it is
      only a formal sum (NegativeHeightTable). */
  ghost function SampleProbability(b: seq<Bucket>, i: int): real
    requires |b| >= 1
  {
    ShareSum(b, |b|, i) / |b| as real
  }

  /** Outcome i's total share is its own column's part plus what the other
      columns lend it. */
  lemma {:induction false} ShareSumSplit(b: seq<Bucket>, n: nat, i: int)
    requires n <= |b| && 0 <= i
    ensures ShareSum(b, n, i) == (if i < n then Own(b[i]) else 0.0) + Inflow(b, n, i)
  {
    if n > 0 {
      ShareSumSplit(b, n - 1, i);
    }
  }

  /** In a finished table no bucket lends a negative amount, and an outcome
      that receives nothing is the alias of no bucket. */
  lemma {:induction false} InflowBounds(b: seq<Bucket>, n: nat, i: int)
    requires n <= |b| && WellFormed(b) && 0 <= i
    ensures 0.0 <= Inflow(b, n, i)
    ensures Inflow(b, n, i) == 0.0 ==> forall c :: 0 <= c < n ==> b[c].alias != i
  {
    if n > 0 {
      InflowBounds(b, n - 1, i);
      assert 0.0 <= Borrowed(b[n - 1], i);
    }
  }

  /** The sampling law for one outcome: if its height plus its inflow is
      x * N in a finished table, a draw returns it with probability exactly x. */
  lemma SamplingLawAt(b: seq<Bucket>, i: nat, x: real)
    requires i < |b| && WellFormed(b)
    requires Credit(b, i) == Scaled(x, |b|)
    ensures SampleProbability(b, i) == x
  {
    var n := |b| as real;
    ShareSumSplit(b, |b|, i);
    assert Own(b[i]) == b[i].height;
    assert ShareSum(b, |b|, i) == x * n;
    CancelFactor(x, n);
  }

  /** The sampling law: in a finished table whose height-plus-inflow of every
      outcome i is p[i] * N, a draw returns i with probability exactly p[i]. */
  lemma {:induction false} SamplingLaw(b: seq<Bucket>, p: seq<real>)
    requires |b| == |p| >= 1 && WellFormed(b)
    requires forall i :: 0 <= i < |b| ==> Credit(b, i) == Scaled(p[i], |b|)
    ensures forall i :: 0 <= i < |b| ==> SampleProbability(b, i) == p[i]
  {
    forall i | 0 <= i < |b| {
      SamplingLawAt(b, i, p[i]);
    }
  }

  /** A float-to-int cast: truncation toward zero. */
  function Trunc(x: real): (t: int)
    ensures 0.0 <= x ==> t as real <= x < t as real + 1.0
    ensures x < 0.0 ==> t as real - 1.0 < x <= t as real
  {
    if 0.0 <= x then x.Floor else -((-x).Floor)
  }

  /** The column a draw u0 selects in a table of n buckets: u0 * n truncated,
      then clamped into [0, n). */
  function Column(u0: real, n: int): (c: int)
    requires n >= 1
    ensures 0 <= c < n
  {
    var index := Trunc(u0 * n as real);
    var atLeastZero := if index < 0 then 0 else index;
    if atLeastZero < n - 1 then atLeastZero else n - 1
  }

  /** For u0 in [0,1) the clamp never acts: the column is the floor of u0 * n. */
  lemma ColumnFloor(u0: real, n: int)
    requires n >= 1 && 0.0 <= u0 < 1.0
    ensures Column(u0, n) as real <= u0 * n as real < Column(u0, n) as real + 1.0
  {
    var x := u0 * n as real;
    UnitScaled(u0, n as real);
    var index := Trunc(x);
    FloorInRange(x, index, n);
    assert Column(u0, n) == index;
  }

  /** Each column is chosen by exactly the u0 in [c/n, (c+1)/n): an interval
      of length 1/n, so a uniform u0 picks every column with probability 1/n. */
  lemma ColumnInterval(u0: real, n: int, c: int)
    requires n >= 1 && 0 <= c < n && 0.0 <= u0 < 1.0
    ensures Column(u0, n) == c <==> c as real / n as real <= u0 < (c + 1) as real / n as real
  {
    var nr := n as real;
    ColumnFloor(u0, n);
    QuotientOrder(c as real, u0, nr);
    QuotientOrder((c + 1) as real, u0, nr);
    FloorUnique(u0 * nr, Column(u0, n), c);
  }

  /** The outcome a draw u1 yields in column c: the column itself when it has
      no alias or u1 falls below its height, else its alias. */
  function Pick(b: seq<Bucket>, c: nat, u1: real): (r: int)
    requires c < |b| && WellFormed(b)
    ensures 0 <= r < |b|
    ensures r == c || r == b[c].alias
  {
    if b[c].alias < 0 then c
    else if u1 < b[c].height then c
    else b[c].alias
  }

  /** An outcome that a finished table with non-negative heights draws with
      probability 0 is never drawn: its own column keeps nothing of itself
      and no column lends to it. */
  lemma NeverDrawn(b: seq<Bucket>, i: nat, c: nat, u1: real)
    requires WellFormed(b) && i < |b| && c < |b| && 0.0 <= u1
    requires forall k :: 0 <= k < |b| ==> 0.0 <= b[k].height
    requires SampleProbability(b, i) == 0.0
    ensures Pick(b, c, u1) != i
  {
    ShareSumSplit(b, |b|, i);
    ZeroQuotient(ShareSum(b, |b|, i), |b| as real);
    InflowBounds(b, |b|, i);
    assert Own(b[i]) == 0.0 && Inflow(b, |b|, i) == 0.0;
  }

  /** Column c yields i exactly for u1 below Own when i is c and for u1 from
      Own on when i is c's alias; ColumnShare adds up both parts. */
  lemma PickRegion(b: seq<Bucket>, c: nat, i: int, u1: real)
    requires c < |b| && WellFormed(b) && 0 <= i < |b| && 0.0 <= u1 < 1.0
    ensures Pick(b, c, u1) == i
        <==> (c == i && u1 < Own(b[c])) || (b[c].alias == i && Own(b[c]) <= u1)
    ensures ColumnShare(b, c, i)
         == (if c == i then Own(b[c]) else 0.0) + (if b[c].alias == i then 1.0 - Own(b[c]) else 0.0)
  {
  }

  /** The interval of u1 on which column c yields i: [0, Own) for the column
      itself, [Own, 1) for its alias, and empty otherwise. */
  function RegionLow(bk: Bucket, c: int, i: int): real
  {
    if c == i then 0.0 else Own(bk)
  }

  function RegionHigh(bk: Bucket, c: int, i: int): real
  {
    if c == i then Own(bk) else if bk.alias == i then 1.0 else Own(bk)
  }

  /** With a non-negative height, the u1 of [0,1) for which column c yields i
      form an interval inside [0,1) whose length is ColumnShare: the reading
      of SampleProbability as the probability of a draw. */
  lemma PickInterval(b: seq<Bucket>, c: nat, i: int, u1: real)
    requires c < |b| && WellFormed(b) && 0 <= i < |b| && 0.0 <= u1 < 1.0
    requires 0.0 <= b[c].height
    ensures 0.0 <= RegionLow(b[c], c, i) <= RegionHigh(b[c], c, i) <= 1.0
    ensures Pick(b, c, u1) == i <==> RegionLow(b[c], c, i) <= u1 < RegionHigh(b[c], c, i)
    ensures ColumnShare(b, c, i) == RegionHigh(b[c], c, i) - RegionLow(b[c], c, i)
  {
  }

  /** A negative height breaks that reading. The finished table a weight
      vector [2, -1] builds has SampleProbability -1 for outcome 1, yet no
      draw with u1 in [0,1) ever returns 1. */
  lemma NegativeHeightTable(c: nat, u1: real)
    requires c < 2 && 0.0 <= u1 < 1.0
    ensures var b := [Bucket(1.0, NoAlias), Bucket(-2.0, 0)];
      WellFormed(b) && SampleProbability(b, 1) == -1.0 && Pick(b, c, u1) != 1
  {
    var b := [Bucket(1.0, NoAlias), Bucket(-2.0, 0)];
    assert ColumnShare(b, 0, 1) == 0.0;
    assert ColumnShare(b, 1, 1) == -2.0;
    assert ShareSum(b, 1, 1) == 0.0;
    assert ShareSum(b, 2, 1) == -2.0;
  }
}
