/**
  The two worklists of the build: stacks of table indices, the sums of the
  heights on them, the classification of every index by its initial height,
  and the pairing loop's turns with the invariants each turn keeps.
 */
module Worklists {
  import opened Buckets

  /** Every index on a worklist is an index of a table of n buckets. */
  predicate InRange(w: seq<int>, n: int)
  {
    forall p :: 0 <= p < |w| ==> 0 <= w[p] < n
  }

  /** No index occurs twice on a worklist. */
  predicate NoDup(w: seq<int>)
  {
    forall p, q :: 0 <= p < q < |w| ==> w[p] != w[q]
  }

  /** The sum of the current heights of the buckets on a worklist, bottom to top. */
  function WorkSum(b: seq<Bucket>, w: seq<int>): real
    requires InRange(w, |b|)
  {
    if w == [] then 0.0 else WorkSum(b, w[..|w| - 1]) + b[w[|w| - 1]].height
  }

  /** The sum of a worklist depends only on the heights of the buckets on it. */
  lemma {:induction false} WorkSumFrame(b: seq<Bucket>, b': seq<Bucket>, w: seq<int>)
    requires |b'| == |b| && InRange(w, |b|)
    requires forall p :: 0 <= p < |w| ==> b'[w[p]].height == b[w[p]].height
    ensures WorkSum(b', w) == WorkSum(b, w)
  {
    if w != [] {
      WorkSumFrame(b, b', w[..|w| - 1]);
    }
  }

  /** Pushing an index adds its height to the sum. */
  lemma WorkSumPush(b: seq<Bucket>, w: seq<int>, k: int)
    requires InRange(w, |b|) && 0 <= k < |b|
    ensures InRange(w + [k], |b|) && WorkSum(b, w + [k]) == WorkSum(b, w) + b[k].height
  {
    assert (w + [k])[..|w|] == w;
  }

  /** A worklist whose buckets are all below 1 holds less mass than its
      length, unless it is empty. */
  lemma {:induction false} WorkSumBelow(b: seq<Bucket>, w: seq<int>)
    requires InRange(w, |b|)
    requires forall p :: 0 <= p < |w| ==> b[w[p]].height < 1.0
    ensures WorkSum(b, w) <= |w| as real
    ensures w != [] ==> WorkSum(b, w) < |w| as real
  {
    if w != [] {
      WorkSumBelow(b, w[..|w| - 1]);
    }
  }

  /** A worklist whose buckets are all at least 1 holds at least its length,
      and exactly its length only when every one of them is exactly 1. */
  lemma {:induction false} WorkSumAtLeast(b: seq<Bucket>, w: seq<int>)
    requires InRange(w, |b|)
    requires forall p :: 0 <= p < |w| ==> 1.0 <= b[w[p]].height
    ensures |w| as real <= WorkSum(b, w)
    ensures WorkSum(b, w) == |w| as real ==> forall p :: 0 <= p < |w| ==> b[w[p]].height == 1.0
  {
    if w != [] {
      WorkSumAtLeast(b, w[..|w| - 1]);
    }
  }

  /** Extending a prefix of the table by one bucket adds that bucket's height. */
  lemma MassPush(b: seq<Bucket>, i: nat)
    requires i < |b|
    ensures Mass(b[..i + 1]) == Mass(b[..i]) + b[i].height
  {
    assert b[..i + 1][..i] == b[..i];
  }

  /** Indices pushed in ascending order. */
  predicate Ascending(w: seq<int>)
  {
    forall p, q :: 0 <= p < q < |w| ==> w[p] < w[q]
  }

  /** Pushing an index above every index on an ascending worklist keeps it
      ascending, and a worklist of indices below i stays below i + 1. */
  lemma PushAscending(w: seq<int>, i: int)
    requires Ascending(w) && InRange(w, i) && 0 <= i
    ensures Ascending(w + [i]) && InRange(w + [i], i + 1)
  {
  }

  /** Index k is on one of the two stacks. */
  predicate OnStack(lower: seq<int>, upper: seq<int>, k: int)
  {
    k in lower || k in upper
  }

  /** The state of the classification loop after the first n buckets: each
      of them is on exactly the stack its height belongs to, in ascending
      order, and the stacks hold the mass of those n buckets. */
  ghost predicate Classified(b: seq<Bucket>, n: nat, lower: seq<int>, upper: seq<int>)
  {
    n <= |b| && InRange(lower, n) && InRange(upper, n) && Ascending(lower) && Ascending(upper) &&
    (forall p :: 0 <= p < |lower| ==> b[lower[p]].height < 1.0) &&
    (forall p :: 0 <= p < |upper| ==> 1.0 <= b[upper[p]].height) &&
    (forall k :: 0 <= k < n ==> OnStack(lower, upper, k)) &&
    |lower| + |upper| == n &&
    WorkSum(b, lower) + WorkSum(b, upper) == Mass(b[..n])
  }

  /** Pushing index i onto `lower`, when its bucket is below 1, classifies it. */
  lemma ClassifyLower(b: seq<Bucket>, i: nat, lower: seq<int>, upper: seq<int>)
    requires i < |b| && Classified(b, i, lower, upper) && b[i].height < 1.0
    ensures Classified(b, i + 1, lower + [i], upper)
  {
    MassPush(b, i);
    WorkSumPush(b, lower, i);
    PushAscending(lower, i);
    assert forall k :: 0 <= k < i ==> OnStack(lower, upper, k) ==> OnStack(lower + [i], upper, k);
  }

  /** Pushing index i onto `upper`, when its bucket is at or above 1, classifies it. */
  lemma ClassifyUpper(b: seq<Bucket>, i: nat, lower: seq<int>, upper: seq<int>)
    requires i < |b| && Classified(b, i, lower, upper) && 1.0 <= b[i].height
    ensures Classified(b, i + 1, lower, upper + [i])
  {
    MassPush(b, i);
    WorkSumPush(b, upper, i);
    PushAscending(upper, i);
    assert forall k :: 0 <= k < i ==> OnStack(lower, upper, k) ==> OnStack(lower, upper + [i], k);
  }

  /** The two stacks of the pairing loop: indices of the table without
      repeats, `lower` holding buckets below 1 and `upper` buckets at or
      above 1, none of them aliased yet. */
  ghost predicate Stacked(b: seq<Bucket>, lower: seq<int>, upper: seq<int>)
  {
    InRange(lower, |b|) && InRange(upper, |b|) && NoDup(lower) && NoDup(upper) &&
    (forall p :: 0 <= p < |lower| ==> b[lower[p]].height < 1.0 && b[lower[p]].alias == NoAlias) &&
    (forall p :: 0 <= p < |upper| ==> 1.0 <= b[upper[p]].height && b[upper[p]].alias == NoAlias)
  }

  /** Every bucket without an alias is still waiting on one of the stacks. */
  ghost predicate Pending(b: seq<Bucket>, lower: seq<int>, upper: seq<int>)
  {
    forall k {:trigger OnStack(lower, upper, k)} :: 0 <= k < |b| && b[k].alias == NoAlias ==> OnStack(lower, upper, k)
  }

  /** Every bucket with an alias is done: it lends to another valid index and
      is below 1. */
  ghost predicate Settled(b: seq<Bucket>)
  {
    forall k :: 0 <= k < |b| && b[k].alias != NoAlias ==>
      0 <= b[k].alias < |b| && b[k].alias != k && b[k].height < 1.0
  }

  /** Conservation of mass: the buckets on the stacks hold exactly as much
      height as there are of them. */
  ghost predicate Balanced(b: seq<Bucket>, lower: seq<int>, upper: seq<int>)
  {
    InRange(lower, |b|) && InRange(upper, |b|) &&
    WorkSum(b, lower) + WorkSum(b, upper) == (|lower| + |upper|) as real
  }

  /** One turn of the pairing loop: pop L from `lower` and U from `upper`,
      lower U by 1 - height(L), give L the alias U, and push U back on the
      stack its new height belongs to. */
  ghost predicate PairStep(b: seq<Bucket>, lower: seq<int>, upper: seq<int>,
                           b': seq<Bucket>, lower': seq<int>, upper': seq<int>)
  {
    0 < |lower| && 0 < |upper| && InRange(lower, |b|) && InRange(upper, |b|) &&
    var l, u := lower[|lower| - 1], upper[|upper| - 1];
    var h := b[u].height - (1.0 - b[l].height);
    b' == b[u := b[u].(height := h)][l := b[l].(alias := u)] &&
    if h < 1.0 then
      lower' == lower[..|lower| - 1] + [u] && upper' == upper[..|upper| - 1]
    else
      lower' == lower[..|lower| - 1] && upper' == upper[..|upper| - 1] + [u]
  }

  /** The popped indices are distinct and neither is left on the popped stacks. */
  lemma StepIndices(b: seq<Bucket>, lower: seq<int>, upper: seq<int>)
    requires Stacked(b, lower, upper) && 0 < |lower| && 0 < |upper|
    ensures var l, u := lower[|lower| - 1], upper[|upper| - 1];
      l != u && 1.0 <= b[u].height && b[l].alias == NoAlias &&
      (forall p :: 0 <= p < |lower| - 1 ==> lower[p] != l && lower[p] != u) &&
      (forall p :: 0 <= p < |upper| - 1 ==> upper[p] != l && upper[p] != u)
  {
  }

  /** A turn keeps the stacks well formed: in particular the bucket popped
      from `upper` is at or above 1 and the popped `lower` index is never
      pushed again. */
  lemma StepStacked(b: seq<Bucket>, lower: seq<int>, upper: seq<int>,
                    b': seq<Bucket>, lower': seq<int>, upper': seq<int>)
    requires Stacked(b, lower, upper) && PairStep(b, lower, upper, b', lower', upper')
    ensures Stacked(b', lower', upper') && |lower'| + |upper'| == |lower| + |upper| - 1
  {
    StepIndices(b, lower, upper);
  }

  /** A turn keeps every unaliased bucket on a stack. */
  lemma StepPending(b: seq<Bucket>, lower: seq<int>, upper: seq<int>,
                    b': seq<Bucket>, lower': seq<int>, upper': seq<int>)
    requires Stacked(b, lower, upper) && Pending(b, lower, upper)
    requires PairStep(b, lower, upper, b', lower', upper')
    ensures Pending(b', lower', upper')
  {
    StepIndices(b, lower, upper);
    var l, u := lower[|lower| - 1], upper[|upper| - 1];
    forall k | 0 <= k < |b'| && b'[k].alias == NoAlias
      ensures OnStack(lower', upper', k)
    {
      if k == u {
        if b'[u].height < 1.0 {
          assert lower'[|lower'| - 1] == u;
        } else {
          assert upper'[|upper'| - 1] == u;
        }
      } else {
        assert k != l && b[k].alias == NoAlias && OnStack(lower, upper, k);
        if k in lower {
          var p :| 0 <= p < |lower| && lower[p] == k;
          assert lower[..|lower| - 1][p] == k;
          assert lower'[p] == k;
        } else {
          var p :| 0 <= p < |upper| && upper[p] == k;
          assert upper[..|upper| - 1][p] == k;
          assert upper'[p] == k;
        }
      }
    }
  }

  /** A turn settles L with a valid alias and leaves the settled buckets alone. */
  lemma StepSettled(b: seq<Bucket>, lower: seq<int>, upper: seq<int>,
                    b': seq<Bucket>, lower': seq<int>, upper': seq<int>)
    requires Stacked(b, lower, upper) && Settled(b)
    requires PairStep(b, lower, upper, b', lower', upper')
    ensures Settled(b')
    ensures b[lower[|lower| - 1]].alias == NoAlias && b'[lower[|lower| - 1]].alias == upper[|upper| - 1]
    ensures forall k :: 0 <= k < |b| && b[k].alias != NoAlias ==> b'[k] == b[k]
  {
    StepIndices(b, lower, upper);
  }

  /** A turn conserves mass: the stacks lose L and one unit of height. */
  lemma StepBalanced(b: seq<Bucket>, lower: seq<int>, upper: seq<int>,
                     b': seq<Bucket>, lower': seq<int>, upper': seq<int>)
    requires Stacked(b, lower, upper) && Balanced(b, lower, upper)
    requires PairStep(b, lower, upper, b', lower', upper')
    ensures Balanced(b', lower', upper')
  {
    StepIndices(b, lower, upper);
    var l, u := lower[|lower| - 1], upper[|upper| - 1];
    var restLower, restUpper := lower[..|lower| - 1], upper[..|upper| - 1];
    WorkSumFrame(b, b', restLower);
    WorkSumFrame(b, b', restUpper);
    if b'[u].height < 1.0 {
      WorkSumPush(b', restLower, u);
    } else {
      WorkSumPush(b', restUpper, u);
    }
  }

  /** A turn keeps every outcome's height plus inflow: what U gives up it now
      receives back through L's alias. */
  lemma StepCredit(b: seq<Bucket>, lower: seq<int>, upper: seq<int>,
                   b': seq<Bucket>, lower': seq<int>, upper': seq<int>, j: int)
    requires Stacked(b, lower, upper) && PairStep(b, lower, upper, b', lower', upper')
    requires 0 <= j < |b|
    ensures Credit(b', j) == Credit(b, j)
  {
    StepIndices(b, lower, upper);
    var l, u := lower[|lower| - 1], upper[|upper| - 1];
    var middle := b[u := b[u].(height := b[u].height - (1.0 - b[l].height))];
    InflowUpdate(b, |b|, u, middle[u], j);
    InflowUpdate(middle, |b|, l, b'[l], j);
  }

  /** With non-negative heights a turn keeps them non-negative: U's new height
      is at least L's. */
  lemma StepNonNegative(b: seq<Bucket>, lower: seq<int>, upper: seq<int>,
                        b': seq<Bucket>, lower': seq<int>, upper': seq<int>)
    requires Stacked(b, lower, upper) && PairStep(b, lower, upper, b', lower', upper')
    requires forall k :: 0 <= k < |b| ==> 0.0 <= b[k].height
    ensures forall k :: 0 <= k < |b'| ==> 0.0 <= b'[k].height
  {
    StepIndices(b, lower, upper);
  }

  /** When the loop stops (a stack is empty) `lower` is the empty one and the
      table is finished: every bucket left on `upper` is exactly full. */
  lemma PairingDone(b: seq<Bucket>, lower: seq<int>, upper: seq<int>)
    requires Stacked(b, lower, upper) && Pending(b, lower, upper) && Settled(b)
    requires Balanced(b, lower, upper) && (lower == [] || upper == [])
    ensures lower == [] && WellFormed(b)
  {
    WorkSumBelow(b, lower);
    WorkSumAtLeast(b, upper);
    forall k | 0 <= k < |b| && b[k].alias == NoAlias ensures b[k].height == 1.0 {
      assert OnStack(lower, upper, k);
      var p :| 0 <= p < |upper| && upper[p] == k;
    }
  }

  /** The state of the pairing loop, for a table that started as b0: the
      stacks are well formed, every unaliased bucket is on one of them, the
      aliased buckets are settled, mass is conserved, non-negative heights
      stay non-negative, and every outcome keeps, through its own height
      and what others lend it, the height it started with. */
  ghost predicate Pairing(b0: seq<Bucket>, b: seq<Bucket>, lower: seq<int>, upper: seq<int>)
  {
    |b| == |b0| &&
    Stacked(b, lower, upper) && Pending(b, lower, upper) && Settled(b) && Balanced(b, lower, upper) &&
    ((forall k :: 0 <= k < |b0| ==> 0.0 <= b0[k].height) ==> forall k :: 0 <= k < |b| ==> 0.0 <= b[k].height) &&
    forall j :: 0 <= j < |b| ==> Credit(b, j) == b0[j].height
  }

  /** Before the first turn: no bucket has an alias, so none lends anything. */
  lemma PairingStart(b0: seq<Bucket>, lower0: seq<int>, upper0: seq<int>)
    requires Stacked(b0, lower0, upper0) && Balanced(b0, lower0, upper0)
    requires forall k :: 0 <= k < |b0| ==> b0[k].alias == NoAlias
    requires forall k :: 0 <= k < |b0| ==> OnStack(lower0, upper0, k)
    ensures Pairing(b0, b0, lower0, upper0)
  {
    forall j | 0 <= j < |b0| ensures Inflow(b0, |b0|, j) == 0.0 {
      NoAliasNoInflow(b0, |b0|, j);
    }
  }

  /** Every turn of the pairing loop keeps its state. */
  lemma PairingTurn(b0: seq<Bucket>, b: seq<Bucket>, lower: seq<int>, upper: seq<int>,
                    b': seq<Bucket>, lower': seq<int>, upper': seq<int>)
    requires Pairing(b0, b, lower, upper) && PairStep(b, lower, upper, b', lower', upper')
    ensures Pairing(b0, b', lower', upper') && |lower'| + |upper'| < |lower| + |upper|
  {
    StepStacked(b, lower, upper, b', lower', upper');
    StepPending(b, lower, upper, b', lower', upper');
    StepSettled(b, lower, upper, b', lower', upper');
    StepBalanced(b, lower, upper, b', lower', upper');
    if forall k :: 0 <= k < |b0| ==> 0.0 <= b0[k].height {
      StepNonNegative(b, lower, upper, b', lower', upper');
    }
    forall j | 0 <= j < |b'| ensures Credit(b', j) == b0[j].height {
      StepCredit(b, lower, upper, b', lower', upper', j);
    }
  }
}
