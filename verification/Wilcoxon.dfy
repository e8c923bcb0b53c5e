/**
 The Wilcoxon signed-rank test (benchmark/comparison/statistics.go:387-422): midranks over
 groups of near-equal magnitudes. The normal tail is any function of the distance from the
 mean and the sample size.
 */
module Wilcoxon {
  import opened Sorting
  import opened Sequences

  const EPSILON := 0.000000000001

  datatype Sample = Sample(absolute: real, signed: real)

  function Abs(x: real): real {
    if x < 0.0 then -x else x
  }

  /** The values that are not zero, up to rounding. */
  function Samples(values: seq<real>): seq<Sample> {
    if values == [] then []
    else
      var last := values[|values| - 1];
      Samples(values[..|values| - 1]) + if Abs(last) > EPSILON then [Sample(Abs(last), last)] else []
  }

  predicate Smaller(a: Sample, b: Sample) {
    a.absolute <= b.absolute
  }

  /** The end of the group that starts at `start`: every member is within a rounding error of the first. */
  function GroupEnd(samples: seq<Sample>, start: nat, end: nat): (e: nat)
    requires start < end <= |samples|
    ensures end <= e <= |samples|
    decreases |samples| - end
  {
    if end < |samples| && Abs(samples[end].absolute - samples[start].absolute) < EPSILON
    then GroupEnd(samples, start, end + 1) else end
  }

  function MidRank(start: nat, end: nat): real {
    (start + 1 + end) as real / 2.0
  }

  function CountPositive(samples: seq<Sample>, first: nat, past: nat): nat
    requires first <= past <= |samples|
    decreases past
  {
    if first == past then 0 else CountPositive(samples, first, past - 1) + if samples[past - 1].signed > 0.0 then 1 else 0
  }

  /** What one group adds to the positive and to the negative rank sum. */
  function Gain(samples: seq<Sample>, start: nat, end: nat): real
    requires start <= end <= |samples|
  {
    CountPositive(samples, start, end) as real * MidRank(start, end)
  }

  function Loss(samples: seq<Sample>, start: nat, end: nat): real
    requires start <= end <= |samples|
  {
    (end - start - CountPositive(samples, start, end)) as real * MidRank(start, end)
  }

  /** The rank sums of the positive and of the other samples, group by group. */
  function RankSums(samples: seq<Sample>, start: nat): (real, real)
    requires start <= |samples|
    decreases |samples| - start
  {
    if start == |samples| then (0.0, 0.0)
    else
      var end := GroupEnd(samples, start, start + 1);
      var rest := RankSums(samples, end);
      (Gain(samples, start, end) + rest.0, Loss(samples, start, end) + rest.1)
  }

  function Triangle(n: nat): real {
    (n * (n + 1)) as real / 2.0
  }

  /** A group hands out exactly the ranks of its positions. */
  lemma GroupMass(samples: seq<Sample>, start: nat, end: nat)
    requires start <= end <= |samples|
    ensures Gain(samples, start, end) + Loss(samples, start, end) == Triangle(end) - Triangle(start)
    ensures Gain(samples, start, end) >= 0.0 && Loss(samples, start, end) >= 0.0
  {
    hide CountPositive;
    CountFits(samples, start, end);
    var m, p := MidRank(start, end), CountPositive(samples, start, end);
    Split(p, end - start - p, m);
    assert (end - start) as real * (start + 1 + end) as real == ((end - start) * (start + 1 + end)) as real;
    assert (end - start) * (start + 1 + end) == end * (end + 1) - start * (start + 1);
  }

  lemma Split(p: nat, q: nat, m: real)
    requires m >= 0.0
    ensures p as real * m + q as real * m == (p + q) as real * m
    ensures p as real * m >= 0.0 && q as real * m >= 0.0
  {
  }

  lemma {:induction false} CountFits(samples: seq<Sample>, first: nat, past: nat)
    requires first <= past <= |samples|
    ensures CountPositive(samples, first, past) <= past - first
    decreases past
  {
    if first < past {
      CountFits(samples, first, past - 1);
    }
  }

  /** For any pattern of ties the two rank sums add up to n(n+1)/2. */
  lemma {:induction false} RankMassIsConserved(samples: seq<Sample>, start: nat)
    requires start <= |samples|
    ensures RankSums(samples, start).0 + RankSums(samples, start).1 == Triangle(|samples|) - Triangle(start)
    ensures RankSums(samples, start).0 >= 0.0 && RankSums(samples, start).1 >= 0.0
    decreases |samples| - start
  {
    hide Gain, Loss, Triangle;
    if start < |samples| {
      var end := GroupEnd(samples, start, start + 1);
      RankMassIsConserved(samples, end);
      GroupMass(samples, start, end);
    }
  }

  // ---------------------------------------------------------------- the loops

  method Rank(samples: seq<Sample>) returns (positive: real, negative: real)
    ensures (positive, negative) == RankSums(samples, 0)
  {
    hide Gain, Loss;
    positive, negative := 0.0, 0.0;
    var start := 0;
    while start < |samples|
      invariant 0 <= start <= |samples|
      invariant positive + RankSums(samples, start).0 == RankSums(samples, 0).0
      invariant negative + RankSums(samples, start).1 == RankSums(samples, 0).1
    {
      var end := start + 1;
      while end < |samples| && Abs(samples[end].absolute - samples[start].absolute) < EPSILON
        invariant start < end <= |samples| && GroupEnd(samples, start, start + 1) == GroupEnd(samples, start, end)
      {
        end := end + 1;
      }
      var p, n := AddGroup(samples, start, end, MidRank(start, end));
      positive, negative := positive + p, negative + n;
      start := end;
    }
  }

  method AddGroup(samples: seq<Sample>, start: nat, end: nat, rank: real) returns (positive: real, negative: real)
    requires start <= end <= |samples| && rank == MidRank(start, end)
    ensures positive == Gain(samples, start, end) && negative == Loss(samples, start, end)
  {
    positive, negative := 0.0, 0.0;
    var index := start;
    while index < end
      invariant start <= index <= end
      invariant positive == CountPositive(samples, start, index) as real * rank
      invariant negative == (index - start - CountPositive(samples, start, index)) as real * rank
    {
      if samples[index].signed > 0.0 {
        positive := positive + rank;
      } else {
        negative := negative + rank;
      }
      index := index + 1;
    }
  }

  /** The p-value and the effect; `tail` stands for the normal tail of |z| at a sample size. */
  function SignedRank(values: seq<real>, tail: (real, nat) -> real): (real, real) {
    var samples := Sort(Smaller, Samples(values));
    if samples == [] then (1.0, 0.0)
    else
      var (positive, negative) := RankSums(samples, 0);
      var mean := Triangle(|samples|) / 2.0;
      SumsArePositive(samples);
      (tail(Abs(positive - mean), |samples|), (positive - negative) / (positive + negative))
  }

  lemma SumsArePositive(samples: seq<Sample>)
    requires samples != []
    ensures RankSums(samples, 0).0 + RankSums(samples, 0).1 > 0.0
  {
    RankMassIsConserved(samples, 0);
    assert |samples| * (|samples| + 1) > 0;
  }

  method WilcoxonSignedRank(values: seq<real>, tail: (real, nat) -> real) returns (p: real, effect: real)
    ensures (p, effect) == SignedRank(values, tail)
    ensures -1.0 <= effect <= 1.0
  {
    EffectInUnit(values, tail);
    var samples: seq<Sample> := [];
    var k := 0;
    while k < |values|
      invariant 0 <= k <= |values| && samples == Samples(values[..k])
    {
      assert values[..k + 1][..k] == values[..k];
      if Abs(values[k]) > EPSILON {
        samples := samples + [Sample(Abs(values[k]), values[k])];
      }
      k := k + 1;
    }
    assert values[..k] == values;
    SortPermutes(Smaller, samples);
    if |samples| == 0 {
      return 1.0, 0.0;
    }
    samples := Sort(Smaller, samples);
    var positive, negative := Rank(samples);
    SumsArePositive(samples);
    var mean := Triangle(|samples|) / 2.0;
    p, effect := tail(Abs(positive - mean), |samples|), (positive - negative) / (positive + negative);
  }

  // ---------------------------------------------------------------- range and symmetry

  lemma Share(p: real, n: real)
    requires p >= 0.0 && n >= 0.0 && p + n > 0.0
    ensures -1.0 <= (p - n) / (p + n) <= 1.0
    ensures (n - p) / (n + p) == -((p - n) / (p + n))
  {
    var q := (p - n) / (p + n);
    assert q * (p + n) == p - n;
    assert (-q) * (n + p) == n - p;
  }

  lemma EffectInUnit(values: seq<real>, tail: (real, nat) -> real)
    ensures -1.0 <= SignedRank(values, tail).1 <= 1.0
  {
    var samples := Sort(Smaller, Samples(values));
    if samples != [] {
      RankMassIsConserved(samples, 0);
      SumsArePositive(samples);
      Share(RankSums(samples, 0).0, RankSums(samples, 0).1);
    }
  }

  function Negated(values: seq<real>): seq<real> {
    seq(|values|, k requires 0 <= k < |values| => -values[k])
  }

  function Flip(s: Sample): Sample {
    Sample(s.absolute, -s.signed)
  }

  function Flipped(samples: seq<Sample>): seq<Sample> {
    seq(|samples|, k requires 0 <= k < |samples| => Flip(samples[k]))
  }

  lemma {:induction false} SamplesFlip(values: seq<real>)
    ensures Samples(Negated(values)) == Flipped(Samples(values))
  {
    if values != [] {
      var n := |values| - 1;
      SamplesFlip(values[..n]);
      assert Negated(values)[..n] == Negated(values[..n]);
    }
  }

  lemma {:induction false} InsertFlips(x: Sample, s: seq<Sample>)
    ensures Insert(Smaller, Flip(x), Flipped(s)) == Flipped(Insert(Smaller, x, s))
  {
    if s != [] && !Smaller(x, s[0]) {
      InsertFlips(x, s[1..]);
      assert Flipped(s)[1..] == Flipped(s[1..]);
      assert Flipped([s[0]] + Insert(Smaller, x, s[1..])) == [Flip(s[0])] + Flipped(Insert(Smaller, x, s[1..]));
    } else {
      assert Flipped([x] + s) == [Flip(x)] + Flipped(s);
    }
  }

  /** Sorting looks at magnitudes only. */
  lemma {:induction false} SortFlips(s: seq<Sample>)
    ensures Sort(Smaller, Flipped(s)) == Flipped(Sort(Smaller, s))
  {
    if s != [] {
      SortFlips(s[1..]);
      assert Flipped(s)[1..] == Flipped(s[1..]);
      InsertFlips(s[0], Sort(Smaller, s[1..]));
    }
  }

  lemma {:induction false} GroupFlips(samples: seq<Sample>, start: nat, end: nat)
    requires start < end <= |samples|
    ensures GroupEnd(Flipped(samples), start, end) == GroupEnd(samples, start, end)
    decreases |samples| - end
  {
    if end < |samples| && Abs(samples[end].absolute - samples[start].absolute) < EPSILON {
      GroupFlips(samples, start, end + 1);
    }
  }

  ghost predicate NoZeros(samples: seq<Sample>) {
    forall k :: 0 <= k < |samples| ==> samples[k].signed != 0.0
  }

  lemma {:induction false} CountFlips(samples: seq<Sample>, first: nat, past: nat)
    requires first <= past <= |samples| && NoZeros(samples)
    ensures CountPositive(Flipped(samples), first, past) == past - first - CountPositive(samples, first, past)
    decreases past
  {
    if first < past {
      CountFlips(samples, first, past - 1);
    }
  }

  lemma GroupSwaps(samples: seq<Sample>, start: nat, end: nat)
    requires start <= end <= |samples| && NoZeros(samples)
    ensures Gain(Flipped(samples), start, end) == Loss(samples, start, end)
    ensures Loss(Flipped(samples), start, end) == Gain(samples, start, end)
  {
    CountFlips(samples, start, end);
  }

  lemma {:induction false} RankSumsSwap(samples: seq<Sample>, start: nat)
    requires start <= |samples| && NoZeros(samples)
    ensures RankSums(Flipped(samples), start) == (RankSums(samples, start).1, RankSums(samples, start).0)
    decreases |samples| - start
  {
    hide Gain, Loss;
    if start < |samples| {
      var end := GroupEnd(samples, start, start + 1);
      GroupFlips(samples, start, start + 1);
      GroupSwaps(samples, start, end);
      RankSumsSwap(samples, end);
    }
  }

  lemma {:induction false} SamplesAreNotZero(values: seq<real>)
    ensures NoZeros(Samples(values))
  {
    if values != [] {
      SamplesAreNotZero(values[..|values| - 1]);
    }
  }

  /** Negating every value negates the effect and leaves the p-value alone. */
  lemma NegationFlipsEffect(values: seq<real>, tail: (real, nat) -> real)
    ensures SignedRank(Negated(values), tail).0 == SignedRank(values, tail).0
    ensures SignedRank(Negated(values), tail).1 == -SignedRank(values, tail).1
  {
    hide RankSums, Sort;
    var samples := Sort(Smaller, Samples(values));
    SamplesFlip(values);
    SortFlips(Samples(values));
    SamplesAreNotZero(values);
    SortKeepsNonZero(Samples(values));
    if samples != [] {
      RankSumsSwap(samples, 0);
      RankMassIsConserved(samples, 0);
      SumsArePositive(samples);
      Share(RankSums(samples, 0).0, RankSums(samples, 0).1);
    }
  }

  lemma SortKeepsNonZero(samples: seq<Sample>)
    requires NoZeros(samples)
    ensures NoZeros(Sort(Smaller, samples))
  {
    SortPermutes(Smaller, samples);
    forall k | 0 <= k < |Sort(Smaller, samples)|
      ensures Sort(Smaller, samples)[k].signed != 0.0
    {
      assert Sort(Smaller, samples)[k] in samples;
    }
  }

  // ---------------------------------------------------------------- the order of the values

  function Positive(s: Sample): seq<bool> {
    if s.signed > 0.0 then [true] else []
  }

  lemma {:induction false} CountIsYield(samples: seq<Sample>, first: nat, past: nat)
    requires first <= past <= |samples|
    ensures CountPositive(samples, first, past) == |Yield(Positive, samples[first..past])|
    decreases past
  {
    hide Yield;
    var part := samples[first..past];
    if first < past {
      CountIsYield(samples, first, past - 1);
      assert part[..|part| - 1] == samples[first..past - 1];
      YieldLast(Positive, part);
      assert |multiset(Positive(part[|part| - 1]))| == if samples[past - 1].signed > 0.0 then 1 else 0;
    } else {
      NothingYields();
      assert part == [];
    }
  }

  lemma NothingYields()
    ensures Yield(Positive, []) == multiset{}
  {
  }

  function Magnitudes(samples: seq<Sample>): seq<real> {
    seq(|samples|, k requires 0 <= k < |samples| => samples[k].absolute)
  }

  /** A position between groups: everything before it is strictly smaller than everything after it. */
  predicate Boundary(samples: seq<Sample>, k: nat) {
    k <= |samples| && forall i, j :: 0 <= i < k <= j < |samples| ==> samples[i].absolute < samples[j].absolute
  }

  function Magnitude(s: Sample): seq<real> {
    [s.absolute]
  }

  lemma {:induction false} MagnitudesAreYield(samples: seq<Sample>)
    ensures multiset(Magnitudes(samples)) == Yield(Magnitude, samples)
  {
    if samples != [] {
      var n := |samples| - 1;
      MagnitudesAreYield(samples[..n]);
      assert Magnitudes(samples) == Magnitudes(samples[..n]) + [samples[n].absolute];
    }
  }

  predicate AtMost(a: real, b: real) {
    a <= b
  }

  lemma SameMagnitudes(s: seq<Sample>, t: seq<Sample>)
    requires multiset(s) == multiset(t) && Ordered(Smaller, s) && Ordered(Smaller, t)
    ensures Magnitudes(s) == Magnitudes(t)
  {
    MagnitudesAreYield(s);
    MagnitudesAreYield(t);
    YieldIgnoresOrder(Magnitude, s, t);
    MagnitudesOrdered(s);
    MagnitudesOrdered(t);
    OrderedUnique(AtMost, Magnitudes(s), Magnitudes(t));
  }

  lemma MagnitudesOrdered(s: seq<Sample>)
    requires Ordered(Smaller, s)
    ensures Ordered(AtMost, Magnitudes(s))
  {
    forall i, j | 0 <= i < j < |s|
      ensures AtMost(Magnitudes(s)[i], Magnitudes(s)[j])
    {
      assert Smaller(s[i], s[j]);
    }
  }

  lemma MagnitudesAgree(s: seq<Sample>, t: seq<Sample>)
    requires Magnitudes(s) == Magnitudes(t)
    ensures |s| == |t| && forall i :: 0 <= i < |s| ==> s[i].absolute == t[i].absolute
  {
    assert |s| == |Magnitudes(s)| == |t|;
    assert forall i :: 0 <= i < |s| ==> Magnitudes(s)[i] == s[i].absolute && Magnitudes(t)[i] == t[i].absolute;
  }

  /** Up to a boundary, two orderings of the same samples hold the same samples. */
  lemma PrefixIsShared(s: seq<Sample>, t: seq<Sample>, k: nat)
    requires multiset(s) == multiset(t) && Ordered(Smaller, s) && Ordered(Smaller, t) && Boundary(s, k)
    requires Magnitudes(s) == Magnitudes(t)
    ensures |s| == |t| && multiset(s[..k]) == multiset(t[..k])
  {
    MagnitudesAgree(s, t);
    BoundaryIsShared(s, t, k);
    forall x
      ensures multiset(s[..k])[x] == multiset(t[..k])[x]
    {
      CountUpTo(s, k, x);
      CountUpTo(t, k, x);
    }
  }

  lemma CountUpTo(s: seq<Sample>, k: nat, x: Sample)
    requires Ordered(Smaller, s) && Boundary(s, k)
    ensures multiset(s[..k])[x] == if k == |s| || x.absolute < s[k].absolute then multiset(s)[x] else 0
  {
    assert s == s[..k] + s[k..];
    if x in s[..k] {
      assert k < |s| ==> x.absolute < s[k].absolute;
    }
    if x in s[k..] {
      var j :| k <= j < |s| && s[j] == x;
      assert k < j ==> Smaller(s[k], s[j]);
    }
  }

  lemma BoundaryIsShared(s: seq<Sample>, t: seq<Sample>, k: nat)
    requires Boundary(s, k) && Magnitudes(s) == Magnitudes(t)
    ensures Boundary(t, k)
  {
    MagnitudesAgree(s, t);
  }

  lemma {:induction false} GroupIsShared(s: seq<Sample>, t: seq<Sample>, start: nat, end: nat)
    requires Magnitudes(s) == Magnitudes(t) && start < end <= |s|
    ensures |s| == |t| && GroupEnd(s, start, end) == GroupEnd(t, start, end)
    decreases |s| - end
  {
    MagnitudesAgree(s, t);
    if end < |s| && Abs(s[end].absolute - s[start].absolute) < EPSILON {
      GroupIsShared(s, t, start, end + 1);
    }
  }

  /** A group ends where the magnitude jumps, so never between equal magnitudes. */
  lemma {:induction false} GroupEndsAtBoundary(samples: seq<Sample>, start: nat, end: nat)
    requires Ordered(Smaller, samples) && start < end <= |samples|
    requires forall i :: start <= i < end ==> samples[i].absolute - samples[start].absolute < EPSILON
    ensures Boundary(samples, GroupEnd(samples, start, end))
    decreases |samples| - end
  {
    if end < |samples| {
      assert Smaller(samples[start], samples[end]);
      if Abs(samples[end].absolute - samples[start].absolute) < EPSILON {
        GroupEndsAtBoundary(samples, start, end + 1);
      } else {
        JumpIsBoundary(samples, start, end);
      }
    }
  }

  lemma JumpIsBoundary(samples: seq<Sample>, start: nat, end: nat)
    requires Ordered(Smaller, samples) && start < end < |samples|
    requires forall i :: start <= i < end ==> samples[i].absolute - samples[start].absolute < EPSILON
    requires samples[end].absolute - samples[start].absolute >= EPSILON
    ensures Boundary(samples, end)
  {
    forall i, j | 0 <= i < end <= j < |samples|
      ensures samples[i].absolute < samples[j].absolute
    {
      assert i < end - 1 ==> Smaller(samples[i], samples[end - 1]);
      assert end < j ==> Smaller(samples[end], samples[j]);
    }
  }

  lemma GroupCountIsShared(s: seq<Sample>, t: seq<Sample>, start: nat, end: nat)
    requires multiset(s) == multiset(t) && Magnitudes(s) == Magnitudes(t) && Ordered(Smaller, s) && Ordered(Smaller, t)
    requires start <= end && Boundary(s, start) && Boundary(s, end)
    ensures |s| == |t| && CountPositive(s, start, end) == CountPositive(t, start, end)
  {
    MagnitudesAgree(s, t);
    CountFromPrefixes(s, start, end);
    CountFromPrefixes(t, start, end);
    PrefixIsShared(s, t, start);
    PrefixIsShared(s, t, end);
    YieldIgnoresOrder(Positive, s[..start], t[..start]);
    YieldIgnoresOrder(Positive, s[..end], t[..end]);
  }

  lemma CountFromPrefixes(s: seq<Sample>, start: nat, end: nat)
    requires start <= end <= |s|
    ensures CountPositive(s, start, end) == |Yield(Positive, s[..end])| - |Yield(Positive, s[..start])|
  {
    hide Yield, CountPositive;
    CountIsYield(s, start, end);
    YieldSplits(Positive, s[..start], s[start..end]);
    assert s[..start] + s[start..end] == s[..end];
  }

  lemma GroupWeightIsShared(s: seq<Sample>, t: seq<Sample>, start: nat, end: nat)
    requires multiset(s) == multiset(t) && Magnitudes(s) == Magnitudes(t) && Ordered(Smaller, s) && Ordered(Smaller, t)
    requires start <= end && Boundary(s, start) && Boundary(s, end)
    ensures |s| == |t| && Gain(s, start, end) == Gain(t, start, end) && Loss(s, start, end) == Loss(t, start, end)
  {
    hide Ordered, Boundary, CountPositive;
    GroupCountIsShared(s, t, start, end);
  }

  /** The rank sums do not depend on how equal magnitudes are ordered. */
  lemma {:induction false} RankSumsIgnoreTieOrder(s: seq<Sample>, t: seq<Sample>, start: nat)
    requires multiset(s) == multiset(t) && Magnitudes(s) == Magnitudes(t) && Ordered(Smaller, s) && Ordered(Smaller, t)
    requires Boundary(s, start)
    ensures |s| == |t| && RankSums(s, start) == RankSums(t, start)
    decreases |s| - start
  {
    hide GroupEnd, Ordered, Gain, Loss, Magnitudes;
    MagnitudesAgree(s, t);
    if start < |s| {
      var end := GroupEnd(s, start, start + 1);
      GroupIsShared(s, t, start, start + 1);
      GroupEndsAtBoundary(s, start, start + 1);
      GroupWeightIsShared(s, t, start, end);
      RankSumsIgnoreTieOrder(s, t, end);
    }
  }

  function Kept(value: real): seq<Sample> {
    if Abs(value) > EPSILON then [Sample(Abs(value), value)] else []
  }

  lemma {:induction false} SamplesAreYield(values: seq<real>)
    ensures multiset(Samples(values)) == Yield(Kept, values)
  {
    if values != [] {
      SamplesAreYield(values[..|values| - 1]);
    }
  }

  /** Neither the order of the values nor that of tied magnitudes matters. */
  lemma ValueOrderIsIrrelevant(values: seq<real>, others: seq<real>, tail: (real, nat) -> real)
    requires multiset(values) == multiset(others)
    ensures SignedRank(values, tail) == SignedRank(others, tail)
  {
    hide RankSums, Sort, Samples, Yield, Ordered, Magnitudes;
    var s, t := Sort(Smaller, Samples(values)), Sort(Smaller, Samples(others));
    SamplesAreYield(values);
    SamplesAreYield(others);
    YieldIgnoresOrder(Kept, values, others);
    SortPermutes(Smaller, Samples(values));
    SortPermutes(Smaller, Samples(others));
    SortOrders(Smaller, Samples(values));
    SortOrders(Smaller, Samples(others));
    SameMagnitudes(s, t);
    RankSumsIgnoreTieOrder(s, t, 0);
  }

  // ---------------------------------------------------------------- ranks by counting

  function Below(m: real): Sample -> real {
    (s: Sample) => if s.absolute < m then 1.0 else 0.0
  }

  function Level(m: real): Sample -> real {
    (s: Sample) => if s.absolute == m then 1.0 else 0.0
  }

  /** The rank of a magnitude by counting: the smaller ones, and the middle of the equal ones. */
  function CountedRank(samples: seq<Sample>, m: real): real {
    SumOf(Below(m), samples) + (SumOf(Level(m), samples) + 1.0) / 2.0
  }

  function Sign(s: Sample): real {
    if s.signed > 0.0 then 1.0 else -1.0
  }

  function SignedRankOf(samples: seq<Sample>): Sample -> real {
    (s: Sample) => Sign(s) * CountedRank(samples, s.absolute)
  }

  /** The sum over all samples of their sign times their counted rank. */
  function SignedSum(samples: seq<Sample>): real {
    SumOf(SignedRankOf(samples), samples)
  }

  /** Two magnitudes are equal or further apart than a rounding error. */
  ghost predicate Apart(samples: seq<Sample>) {
    forall a, b :: a in samples && b in samples ==> a.absolute == b.absolute || Abs(a.absolute - b.absolute) >= EPSILON
  }

  lemma SignedSumIgnoresOrder(s: seq<Sample>, t: seq<Sample>)
    requires multiset(s) == multiset(t)
    ensures SignedSum(s) == SignedSum(t) && (Apart(s) <==> Apart(t))
  {
    assert forall x :: x in s <==> x in multiset(s);
    assert forall x :: x in t <==> x in multiset(t);
    forall x: Sample
      ensures SignedRankOf(s)(x) == SignedRankOf(t)(x)
    {
      SumIgnoresOrder(Below(x.absolute), s, t);
      SumIgnoresOrder(Level(x.absolute), s, t);
    }
    SumIgnoresOrder(SignedRankOf(s), s, t);
    SumsAgree(SignedRankOf(s), SignedRankOf(t), t);
  }

  /** A group is one magnitude, everything before it is smaller and everything after it larger. */
  predicate OneLevel(samples: seq<Sample>, start: nat, end: nat) {
    && start < end <= |samples|
    && (forall i :: 0 <= i < start ==> samples[i].absolute < samples[start].absolute)
    && (forall i :: start <= i < end ==> samples[i].absolute == samples[start].absolute)
    && (forall i :: end <= i < |samples| ==> samples[i].absolute > samples[start].absolute)
  }

  lemma {:induction false} GroupMembers(samples: seq<Sample>, start: nat, end: nat)
    requires start < end <= |samples| && forall i :: start <= i < end ==> Abs(samples[i].absolute - samples[start].absolute) < EPSILON
    ensures forall i :: start <= i < GroupEnd(samples, start, end) ==> Abs(samples[i].absolute - samples[start].absolute) < EPSILON
    decreases |samples| - end
  {
    if end < |samples| && Abs(samples[end].absolute - samples[start].absolute) < EPSILON {
      GroupMembers(samples, start, end + 1);
    }
  }

  lemma GroupIsLevel(samples: seq<Sample>, start: nat, end: nat)
    requires Apart(samples) && start < end <= |samples|
    requires forall i :: start <= i < end ==> Abs(samples[i].absolute - samples[start].absolute) < EPSILON
    ensures forall i :: start <= i < end ==> samples[i].absolute == samples[start].absolute
  {
    forall i | start <= i < end
      ensures samples[i].absolute == samples[start].absolute
    {
      assert samples[i] in samples && samples[start] in samples;
    }
  }

  lemma LevelBetween(samples: seq<Sample>, start: nat, end: nat)
    requires start < end && Boundary(samples, start) && Boundary(samples, end)
    requires forall i :: start <= i < end <= |samples| ==> samples[i].absolute == samples[start].absolute
    ensures OneLevel(samples, start, end)
  {
    hide Abs;
  }

  lemma SumOfThree(f: Sample -> real, samples: seq<Sample>, start: nat, end: nat)
    requires start <= end <= |samples|
    ensures SumOf(f, samples) == SumOf(f, samples[..start]) + SumOf(f, samples[start..end]) + SumOf(f, samples[end..])
  {
    hide SumOf;
    SumSplits(f, samples[..start], samples[start..end]);
    SumSplits(f, samples[..start] + samples[start..end], samples[end..]);
    assert samples == samples[..start] + samples[start..end] + samples[end..];
  }

  lemma CountBelow(samples: seq<Sample>, start: nat, end: nat)
    requires OneLevel(samples, start, end)
    ensures SumOf(Below(samples[start].absolute), samples) == start as real
  {
    var m := samples[start].absolute;
    SumOfThree(Below(m), samples, start, end);
    SumOfConstant(Below(m), samples[..start], 1.0);
    SumOfConstant(Below(m), samples[start..end], 0.0);
    SumOfConstant(Below(m), samples[end..], 0.0);
    hide SumOf;
  }

  lemma CountLevel(samples: seq<Sample>, start: nat, end: nat)
    requires OneLevel(samples, start, end)
    ensures SumOf(Level(samples[start].absolute), samples) == (end - start) as real
  {
    var m := samples[start].absolute;
    SumOfThree(Level(m), samples, start, end);
    SumOfConstant(Level(m), samples[..start], 0.0);
    SumOfConstant(Level(m), samples[start..end], 1.0);
    SumOfConstant(Level(m), samples[end..], 0.0);
    hide SumOf;
  }

  /** Counting gives the members of a group their midrank. */
  lemma CountedIsMidRank(samples: seq<Sample>, start: nat, end: nat)
    requires OneLevel(samples, start, end)
    ensures CountedRank(samples, samples[start].absolute) == MidRank(start, end)
  {
    CountBelow(samples, start, end);
    CountLevel(samples, start, end);
    hide OneLevel, SumOf;
  }

  /** What a group adds to the difference of the rank sums is what its members add to the signed sum. */
  function Balance(samples: seq<Sample>, start: nat, end: nat): int
    requires start <= end <= |samples|
  {
    2 * CountPositive(samples, start, end) - (end - start)
  }

  lemma BalanceStep(all: seq<Sample>, start: nat, end: nat, rank: real)
    requires start < end <= |all| && CountedRank(all, all[end - 1].absolute) == rank
    ensures SignedRankOf(all)(all[end - 1]) == if all[end - 1].signed > 0.0 then rank else -rank
    ensures Balance(all, start, end) == Balance(all, start, end - 1) + if all[end - 1].signed > 0.0 then 1 else -1
  {
    hide CountedRank;
  }

  lemma {:induction false} GroupSigned(all: seq<Sample>, start: nat, end: nat, rank: real)
    requires start <= end <= |all| && forall i :: start <= i < end ==> CountedRank(all, all[i].absolute) == rank
    ensures SumOf(SignedRankOf(all), all[start..end]) == Balance(all, start, end) as real * rank
    decreases end
  {
    hide CountedRank, SignedRankOf, Balance, SumOf;
    var part := all[start..end];
    if start < end {
      GroupSigned(all, start, end - 1, rank);
      SumLast(SignedRankOf(all), part);
      assert part[..|part| - 1] == all[start..end - 1] && part[|part| - 1] == all[end - 1];
      BalanceStep(all, start, end, rank);
      OneMore(Balance(all, start, end - 1), rank);
    } else {
      assert part == [];
      EmptyGroup(all, start, rank);
    }
  }

  lemma EmptyGroup(all: seq<Sample>, start: nat, rank: real)
    requires start <= |all|
    ensures SumOf(SignedRankOf(all), []) == 0.0 && Balance(all, start, start) as real * rank == 0.0
  {
  }

  lemma OneMore(p: int, rank: real)
    ensures (p + 1) as real * rank == p as real * rank + rank
    ensures (p - 1) as real * rank == p as real * rank - rank
  {
  }

  lemma GroupHasOneRank(samples: seq<Sample>, start: nat, end: nat)
    requires OneLevel(samples, start, end)
    ensures forall i :: start <= i < end ==> CountedRank(samples, samples[i].absolute) == MidRank(start, end)
  {
    CountedIsMidRank(samples, start, end);
    hide CountedRank, MidRank;
  }

  lemma GroupBalance(samples: seq<Sample>, start: nat, end: nat)
    requires OneLevel(samples, start, end)
    ensures SumOf(SignedRankOf(samples), samples[start..end]) == Gain(samples, start, end) - Loss(samples, start, end)
  {
    GroupHasOneRank(samples, start, end);
    hide CountedRank, MidRank, SumOf, SignedRankOf, OneLevel;
    GroupSigned(samples, start, end, MidRank(start, end));
    BalanceIsDifference(samples, start, end);
  }

  lemma BalanceIsDifference(samples: seq<Sample>, start: nat, end: nat)
    requires start <= end <= |samples|
    ensures Balance(samples, start, end) as real * MidRank(start, end) == Gain(samples, start, end) - Loss(samples, start, end)
  {
    hide MidRank, CountPositive;
    Difference(CountPositive(samples, start, end), end - start, MidRank(start, end));
  }

  lemma Difference(p: int, n: int, rank: real)
    ensures (2 * p - n) as real * rank == p as real * rank - (n - p) as real * rank
  {
  }

  lemma {:induction false} RankSumsAreSigned(samples: seq<Sample>, start: nat)
    requires Ordered(Smaller, samples) && Apart(samples) && Boundary(samples, start)
    ensures RankSums(samples, start).0 - RankSums(samples, start).1 == SumOf(SignedRankOf(samples), samples[start..])
    decreases |samples| - start
  {
    hide Ordered, Apart, Boundary, GroupEnd, OneLevel, Gain, Loss, SignedRankOf, Abs;
    BoundaryInRange(samples, start);
    if start < |samples| {
      var end := GroupEnd(samples, start, start + 1);
      FirstIsMember(samples, start);
      GroupMembers(samples, start, start + 1);
      GroupIsLevel(samples, start, end);
      FirstIsSmall(samples, start);
      GroupEndsAtBoundary(samples, start, start + 1);
      LevelBetween(samples, start, end);
      GroupBalance(samples, start, end);
      RankSumsAreSigned(samples, end);
      SumSplits(SignedRankOf(samples), samples[start..end], samples[end..]);
      assert samples[start..] == samples[start..end] + samples[end..];
    }
  }

  lemma FirstIsMember(samples: seq<Sample>, start: nat)
    requires start < |samples|
    ensures Abs(samples[start].absolute - samples[start].absolute) < EPSILON
  {
  }

  lemma FirstIsSmall(samples: seq<Sample>, start: nat)
    requires start < |samples|
    ensures samples[start].absolute - samples[start].absolute < EPSILON
  {
  }

  lemma BoundaryInRange(samples: seq<Sample>, k: nat)
    requires Boundary(samples, k)
    ensures k <= |samples|
  {
  }

  lemma EffectForm(positive: real, negative: real, total: real)
    requires positive + negative == total && total > 0.0
    ensures (positive - negative) / (positive + negative) * total == positive - negative
    ensures Abs(positive - total / 2.0) == Abs(positive - negative) / 2.0
    ensures negative == 0.0 ==> (positive - negative) / (positive + negative) == 1.0
    ensures positive == 0.0 ==> (positive - negative) / (positive + negative) == -1.0
  {
    var q := (positive - negative) / (positive + negative);
    assert q * total == positive - negative;
    if negative == 0.0 {
      assert (q - 1.0) * total == 0.0;
    }
    if positive == 0.0 {
      assert (q + 1.0) * total == 0.0;
    }
  }

  /**
   The test read off its values: with magnitudes that are equal or apart, the effect times
   n(n+1)/2 is the sum of sign times counted midrank over the values that are not zero, and the
   p-value is the tail at half the size of that sum.
   */
  lemma EffectIsSignedSum(values: seq<real>, tail: (real, nat) -> real)
    requires Apart(Samples(values)) && Samples(values) != []
    ensures var n := |Samples(values)|;
            && SignedRank(values, tail).1 * Triangle(n) == SignedSum(Samples(values))
            && SignedRank(values, tail).0 == tail(Abs(SignedSum(Samples(values))) / 2.0, n)
  {
    hide RankSums, SignedSum, Apart, Triangle, Abs, Samples;
    var samples := Sort(Smaller, Samples(values));
    SortPermutes(Smaller, Samples(values));
    SortOrders(Smaller, Samples(values));
    SignedSumIgnoresOrder(samples, Samples(values));
    SortedIsSigned(samples);
    RankMassIsConserved(samples, 0);
    SumsArePositive(samples);
    ZeroTriangle();
    EffectForm(RankSums(samples, 0).0, RankSums(samples, 0).1, Triangle(|samples|));
  }

  lemma ZeroTriangle()
    ensures Triangle(0) == 0.0
  {
  }

  lemma SortedIsSigned(samples: seq<Sample>)
    requires Ordered(Smaller, samples) && Apart(samples)
    ensures RankSums(samples, 0).0 - RankSums(samples, 0).1 == SignedSum(samples)
  {
    RankSumsAreSigned(samples, 0);
    assert samples[0..] == samples;
  }

  // ---------------------------------------------------------------- one-sided samples

  lemma {:induction false} OneSided(samples: seq<Sample>, start: nat)
    requires start <= |samples|
    ensures (forall s :: s in samples ==> s.signed > 0.0) ==> RankSums(samples, start).1 == 0.0
    ensures (forall s :: s in samples ==> s.signed <= 0.0) ==> RankSums(samples, start).0 == 0.0
    decreases |samples| - start
  {
    if start < |samples| {
      var end := GroupEnd(samples, start, start + 1);
      OneSided(samples, end);
      CountOneSided(samples, start, end);
    }
  }

  lemma {:induction false} CountOneSided(samples: seq<Sample>, first: nat, past: nat)
    requires first <= past <= |samples|
    ensures (forall s :: s in samples ==> s.signed > 0.0) ==> CountPositive(samples, first, past) == past - first
    ensures (forall s :: s in samples ==> s.signed <= 0.0) ==> CountPositive(samples, first, past) == 0
    decreases past
  {
    if first < past {
      CountOneSided(samples, first, past - 1);
      assert samples[past - 1] in samples;
    }
  }

  lemma {:induction false} SampleOf(values: seq<real>, s: Sample)
    requires s in Samples(values)
    ensures s.signed in values && Abs(s.signed) > EPSILON
  {
    if s !in Samples(values[..|values| - 1]) {
      assert s.signed == values[|values| - 1];
    } else {
      SampleOf(values[..|values| - 1], s);
    }
  }

  /** When all values that are not zero are positive the effect is one, when all are negative it is minus one. */
  lemma OneSidedEffect(values: seq<real>, tail: (real, nat) -> real)
    requires Samples(values) != []
    ensures (forall v :: v in values && Abs(v) > EPSILON ==> v > 0.0) ==> SignedRank(values, tail).1 == 1.0
    ensures (forall v :: v in values && Abs(v) > EPSILON ==> v < 0.0) ==> SignedRank(values, tail).1 == -1.0
  {
    hide RankSums, Triangle, Abs, Samples;
    var samples := Sort(Smaller, Samples(values));
    SortPermutes(Smaller, Samples(values));
    forall s | s in samples
      ensures s.signed in values && Abs(s.signed) > EPSILON
    {
      SampleOf(values, s);
    }
    OneSided(samples, 0);
    SumsArePositive(samples);
    EffectForm(RankSums(samples, 0).0, RankSums(samples, 0).1, RankSums(samples, 0).0 + RankSums(samples, 0).1);
  }
}
