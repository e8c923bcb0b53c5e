/**
 Holm's correction (benchmark/comparison/statistics.go:424-439): step-down adjusted p-values,
 written in place. The sort of the source is not stable, so the order it yields is any
 permutation of the indices that is sorted by p-value.
 */
module Holm {
  import opened Sequences

  function MinReal(a: real, b: real): real {
    if a <= b then a else b
  }

  function MaxReal(a: real, b: real): real {
    if a >= b then a else b
  }

  /** Every index once. */
  ghost predicate Permutation(order: seq<nat>, n: nat) {
    |order| == n && Distinct(order) && forall k :: 0 <= k < n ==> order[k] < n
  }

  ghost predicate SortedBy(order: seq<nat>, p: seq<real>) {
    Permutation(order, |p|) && forall j, k :: 0 <= j <= k < |order| ==> p[order[j]] <= p[order[k]]
  }

  ghost predicate NonNegative(p: seq<real>) {
    forall i :: 0 <= i < |p| ==> p[i] >= 0.0
  }

  /** What the item in place `rank` would get on its own. */
  function Scaled(p: seq<real>, order: seq<nat>, rank: nat): real
    requires rank < |order| && order[rank] < |p| && rank <= |p|
  {
    MinReal(1.0, (|p| - rank) as real * p[order[rank]])
  }

  /** The running maximum that the loop carries. */
  function Adjusted(p: seq<real>, order: seq<nat>, rank: nat): real
    requires rank < |order| == |p| && forall k :: 0 <= k < |order| ==> order[k] < |p|
  {
    if rank == 0 then MaxReal(0.0, Scaled(p, order, 0))
    else MaxReal(Adjusted(p, order, rank - 1), Scaled(p, order, rank))
  }

  /** Each adjusted value is written to the place of its item. */
  method ApplyHolm(p: seq<real>, order: seq<nat>, adjusted: array<real>)
    requires SortedBy(order, p) && adjusted.Length == |p|
    modifies adjusted
    ensures forall rank :: 0 <= rank < |p| ==> adjusted[order[rank]] == Adjusted(p, order, rank)
  {
    hide Scaled;
    var previous := 0.0;
    var rank := 0;
    while rank < |order|
      invariant 0 <= rank <= |order|
      invariant previous == if rank == 0 then 0.0 else Adjusted(p, order, rank - 1)
      invariant forall k :: 0 <= k < rank ==> adjusted[order[k]] == Adjusted(p, order, k)
    {
      var index := order[rank];
      var value := Scaled(p, order, rank);
      if value < previous {
        value := previous;
      }
      adjusted[index] := value;
      previous := value;
      rank := rank + 1;
    }
  }

  // ---------------------------------------------------------------- a closed form without any order

  function AtLeast(p: seq<real>, x: real): set<nat> {
    set i: nat | 0 <= i < |p| && p[i] >= x
  }

  /** The p-value of item k times the number of items that are not smaller. */
  function Bound(p: seq<real>, k: nat): real
    requires k < |p|
  {
    MinReal(1.0, |AtLeast(p, p[k])| as real * p[k])
  }

  /** `v` is the largest bound among the items with no larger p-value than item i. */
  ghost predicate LargestBound(p: seq<real>, i: nat, v: real)
    requires i < |p|
  {
    && (forall k :: 0 <= k < |p| && p[k] <= p[i] ==> Bound(p, k) <= v)
    && (exists k :: 0 <= k < |p| && p[k] <= p[i] && Bound(p, k) == v)
  }

  lemma LargestBoundIsUnique(p: seq<real>, i: nat, v: real, w: real)
    requires i < |p| && LargestBound(p, i, v) && LargestBound(p, i, w)
    ensures v == w
  {
  }

  lemma TailSize(order: seq<nat>, n: nat, r: nat)
    requires Permutation(order, n) && r <= n
    ensures |Elements(order[r..])| == n - r
  {
    DistinctIffSize(order[r..]);
  }

  /** From its place on, nothing is smaller. */
  lemma LaterAreAtLeast(p: seq<real>, order: seq<nat>, r: nat)
    requires SortedBy(order, p) && r < |p|
    ensures |AtLeast(p, p[order[r]])| >= |p| - r
  {
    TailSize(order, |p|, r);
    forall i | i in Elements(order[r..])
      ensures i in AtLeast(p, p[order[r]])
    {
      var k :| 0 <= k < |order[r..]| && order[r..][k] == i;
      assert order[r..][k] == order[r + k];
    }
    SubsetSize(Elements(order[r..]), AtLeast(p, p[order[r]]));
  }

  /** The first of equals has exactly the rest at or above it. */
  lemma FirstOfEquals(p: seq<real>, order: seq<nat>, r: nat)
    requires SortedBy(order, p) && r < |p| && forall k :: 0 <= k < r ==> p[order[k]] < p[order[r]]
    ensures |AtLeast(p, p[order[r]])| == |p| - r
  {
    LaterAreAtLeast(p, order, r);
    forall i | i in AtLeast(p, p[order[r]])
      ensures i in Elements(order[r..])
    {
      var k := PlaceOf(order, |p|, i);
      assert k >= r;
      assert order[r..][k - r] == i;
    }
    SubsetSize(AtLeast(p, p[order[r]]), Elements(order[r..]));
    TailSize(order, |p|, r);
  }

  function Range(n: nat): (r: seq<nat>)
    ensures |r| == n && forall i :: 0 <= i < n ==> r[i] == i
  {
    if n == 0 then [] else Range(n - 1) + [n - 1]
  }

  /** A permutation reaches every index. */
  lemma PlaceOf(order: seq<nat>, n: nat, i: nat) returns (k: nat)
    requires Permutation(order, n) && i < n
    ensures k < n && order[k] == i
  {
    DistinctIffSize(order);
    var all := Range(n);
    DistinctIffSize(all);
    forall x | x in Elements(order)
      ensures x in Elements(all)
    {
      var j :| 0 <= j < |order| && order[j] == x;
      assert all[x] == x;
    }
    SubsetSize(Elements(order), Elements(all));
    assert all[i] == i && i in Elements(all);
    assert i in Elements(order);
    k :| 0 <= k < |order| && order[k] == i;
  }

  lemma {:induction false} FirstPlace(p: seq<real>, order: seq<nat>, r: nat) returns (first: nat)
    requires SortedBy(order, p) && r < |p|
    ensures first <= r && p[order[first]] == p[order[r]] && forall k :: 0 <= k < first ==> p[order[k]] < p[order[first]]
  {
    if r == 0 || p[order[r - 1]] < p[order[r]] {
      first := r;
    } else {
      first := FirstPlace(p, order, r - 1);
    }
  }

  lemma Monotone(a: nat, b: nat, x: real)
    requires a <= b && x >= 0.0
    ensures a as real * x <= b as real * x
    ensures MinReal(1.0, a as real * x) <= MinReal(1.0, b as real * x)
  {
  }

  lemma {:induction false} AdjustedDominates(p: seq<real>, order: seq<nat>, r: nat, rank: nat)
    requires SortedBy(order, p) && r <= rank < |p|
    ensures Scaled(p, order, r) <= Adjusted(p, order, rank)
  {
    if r < rank {
      AdjustedDominates(p, order, r, rank - 1);
    }
  }

  lemma {:induction false} AdjustedIsScaled(p: seq<real>, order: seq<nat>, rank: nat) returns (r: nat)
    requires SortedBy(order, p) && rank < |p| && NonNegative(p)
    ensures r <= rank && Adjusted(p, order, rank) == Scaled(p, order, r)
  {
    Monotone(0, |p| - rank, p[order[rank]]);
    if rank == 0 || Scaled(p, order, rank) >= Adjusted(p, order, rank - 1) {
      r := rank;
    } else {
      r := AdjustedIsScaled(p, order, rank - 1);
    }
  }

  /** The first of equals is scaled by exactly its bound. */
  lemma FirstIsBound(p: seq<real>, order: seq<nat>, r: nat) returns (first: nat)
    requires SortedBy(order, p) && r < |p| && NonNegative(p)
    ensures first <= r && p[order[first]] == p[order[r]]
    ensures Scaled(p, order, first) == Bound(p, order[first]) == Bound(p, order[r])
    ensures Scaled(p, order, r) <= Scaled(p, order, first)
    ensures forall k :: 0 <= k < first ==> p[order[k]] < p[order[first]]
  {
    first := FirstPlace(p, order, r);
    FirstOfEquals(p, order, first);
    LaterIsScaledLess(p, order, first, r);
  }

  lemma LaterIsScaledLess(p: seq<real>, order: seq<nat>, first: nat, r: nat)
    requires SortedBy(order, p) && first <= r < |p| && NonNegative(p) && p[order[first]] == p[order[r]]
    ensures Scaled(p, order, r) <= Scaled(p, order, first)
  {
    var x := p[order[r]];
    assert Scaled(p, order, r) == MinReal(1.0, (|p| - r) as real * x);
    assert Scaled(p, order, first) == MinReal(1.0, (|p| - first) as real * x);
    Monotone(|p| - r, |p| - first, x);
  }

  lemma BoundIsReached(p: seq<real>, order: seq<nat>, rank: nat, k: nat)
    requires SortedBy(order, p) && rank < |p| && NonNegative(p) && k < |p| && p[k] <= p[order[rank]]
    ensures Bound(p, k) <= Adjusted(p, order, rank)
  {
    hide Scaled, Bound, Adjusted;
    var r := PlaceOf(order, |p|, k);
    var first := FirstIsBound(p, order, r);
    assert first <= rank;
    AdjustedDominates(p, order, first, rank);
  }

  /** The running maximum is the largest bound: the closed form of the correction. */
  lemma AdjustedIsLargestBound(p: seq<real>, order: seq<nat>, rank: nat)
    requires SortedBy(order, p) && rank < |p| && NonNegative(p)
    ensures LargestBound(p, order[rank], Adjusted(p, order, rank))
  {
    hide Scaled, Bound, Adjusted;
    var v := Adjusted(p, order, rank);
    forall k | 0 <= k < |p| && p[k] <= p[order[rank]]
      ensures Bound(p, k) <= v
    {
      BoundIsReached(p, order, rank, k);
    }
    var r := AdjustedIsScaled(p, order, rank);
    var first := FirstIsBound(p, order, r);
    AdjustedDominates(p, order, first, rank);
    assert Bound(p, order[first]) == v;
  }

  /** Which of two equal p-values the sort puts first makes no difference. */
  lemma TieOrderIsIrrelevant(p: seq<real>, order: seq<nat>, other: seq<nat>, j: nat, k: nat)
    requires SortedBy(order, p) && SortedBy(other, p) && NonNegative(p) && j < |p| && k < |p| && order[j] == other[k]
    ensures Adjusted(p, order, j) == Adjusted(p, other, k)
  {
    AdjustedIsLargestBound(p, order, j);
    AdjustedIsLargestBound(p, other, k);
    LargestBoundIsUnique(p, order[j], Adjusted(p, order, j), Adjusted(p, other, k));
  }

  // ---------------------------------------------------------------- what the adjusted values are for

  /** Holm's procedure: go on rejecting while the p-value is small for the number of hypotheses left. */
  predicate Rejects(p: seq<real>, order: seq<nat>, alpha: real, rank: nat)
    requires rank < |order| == |p| && forall k :: 0 <= k < |order| ==> order[k] < |p|
  {
    (rank == 0 || Rejects(p, order, alpha, rank - 1)) && (|p| - rank) as real * p[order[rank]] <= alpha
  }

  /** Below level one, comparing an adjusted value with the level is the step-down procedure. */
  lemma {:induction false} AdjustedDecides(p: seq<real>, order: seq<nat>, alpha: real, rank: nat)
    requires SortedBy(order, p) && rank < |p| && 0.0 <= alpha < 1.0
    ensures Adjusted(p, order, rank) <= alpha <==> Rejects(p, order, alpha, rank)
  {
    if rank > 0 {
      AdjustedDecides(p, order, alpha, rank - 1);
    }
  }

  lemma ScaledRange(p: seq<real>, order: seq<nat>, rank: nat)
    requires SortedBy(order, p) && rank < |p| && NonNegative(p) && forall i :: 0 <= i < |p| ==> p[i] <= 1.0
    ensures p[order[rank]] <= Scaled(p, order, rank) <= 1.0
  {
    Monotone(1, |p| - rank, p[order[rank]]);
  }

  /** Adjusted values are never below the raw ones, never above one, and keep their order. */
  lemma {:induction false} AdjustedRange(p: seq<real>, order: seq<nat>, rank: nat)
    requires SortedBy(order, p) && rank < |p| && NonNegative(p) && forall i :: 0 <= i < |p| ==> p[i] <= 1.0
    ensures p[order[rank]] <= Adjusted(p, order, rank) <= 1.0
    ensures rank > 0 ==> Adjusted(p, order, rank - 1) <= Adjusted(p, order, rank)
  {
    hide Scaled;
    ScaledRange(p, order, rank);
    if rank > 0 {
      AdjustedRange(p, order, rank - 1);
    }
  }

  /** At level one every hypothesis passes the comparison, while the procedure may already have stopped. */
  lemma LevelOneDiffers()
    ensures Adjusted([1.0, 1.0], [0, 1], 0) <= 1.0 && !Rejects([1.0, 1.0], [0, 1], 1.0, 0)
  {
  }
}
