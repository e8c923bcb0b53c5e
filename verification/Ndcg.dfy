/**
 Normalized discounted cumulative gain (benchmark/evaluator/metrics.go:92-117). The gain of a
 relevance and the discount of a place are any functions with the properties the proof needs:
 larger relevances gain at least as much, later places count no more.
 */
module Ndcg {
  import opened Sequences
  import opened Sorting

  type Gain = real -> real

  type Discount = nat -> real

  ghost predicate Growing(gain: Gain) {
    (forall v :: v > 0.0 ==> gain(v) > 0.0) && (forall v, w :: 0.0 < v <= w ==> gain(v) <= gain(w))
  }

  ghost predicate Falling(discount: Discount) {
    (forall i: nat :: discount(i) > 0.0) && (forall i: nat, j: nat :: i <= j ==> discount(j) <= discount(i))
  }

  lemma FallingAt(discount: Discount, i: nat, j: nat)
    requires Falling(discount) && i <= j
    ensures discount(i) > 0.0 && discount(j) <= discount(i)
  {
  }

  ghost predicate Proper(gain: Gain, discount: Discount) {
    Growing(gain) && Falling(discount)
  }

  function Relevance(rel: map<string, real>, id: string): real {
    if id in rel then rel[id] else 0.0
  }

  /** What an ID gains, wherever it stands. */
  function Worth(gain: Gain, rel: map<string, real>, id: string): real {
    if Relevance(rel, id) > 0.0 then gain(Relevance(rel, id)) else 0.0
  }

  function Worths(gain: Gain, rel: map<string, real>, ids: seq<string>): seq<real> {
    seq(|ids|, i requires 0 <= i < |ids| => Worth(gain, rel, ids[i]))
  }

  /** The discounted sum. */
  function Dcg(discount: Discount, gains: seq<real>): real {
    if gains == [] then 0.0 else Dcg(discount, gains[..|gains| - 1]) + gains[|gains| - 1] * discount(|gains| - 1)
  }

  predicate AtLeast(a: real, b: real) {
    a >= b
  }

  function Gains(gain: Gain, values: seq<real>): seq<real> {
    seq(|values|, i requires 0 <= i < |values| => gain(values[i]))
  }

  /** The positive relevances, in the map's order. */
  function Positives(rel: map<string, real>, keys: seq<string>): seq<real>
    requires forall k :: 0 <= k < |keys| ==> keys[k] in rel
  {
    if keys == [] then []
    else Positives(rel, keys[..|keys| - 1]) + if rel[keys[|keys| - 1]] > 0.0 then [rel[keys[|keys| - 1]]] else []
  }

  function Score(gain: Gain, discount: Discount, rel: map<string, real>, ids: seq<string>, keys: seq<string>): real
    requires forall k :: 0 <= k < |keys| ==> keys[k] in rel
  {
    var ideal := Dcg(discount, Gains(gain, Sort(AtLeast, Positives(rel, keys))));
    if ids == [] || rel == map[] || ideal == 0.0 then 0.0 else Dcg(discount, Worths(gain, rel, ids)) / ideal
  }

  /** The accumulator loops around the sort of the ideal gains. */
  method Discounted(gain: Gain, discount: Discount, rel: map<string, real>, ids: seq<string>) returns (dcg: real)
    ensures dcg == Dcg(discount, Worths(gain, rel, ids))
  {
    dcg := 0.0;
    var i := 0;
    while i < |ids|
      invariant 0 <= i <= |ids| && dcg == Dcg(discount, Worths(gain, rel, ids)[..i])
    {
      assert Worths(gain, rel, ids)[..i + 1][..i] == Worths(gain, rel, ids)[..i];
      if Relevance(rel, ids[i]) > 0.0 {
        dcg := dcg + gain(Relevance(rel, ids[i])) * discount(i);
      }
      i := i + 1;
    }
    assert Worths(gain, rel, ids)[..i] == Worths(gain, rel, ids);
  }

  method CollectPositives(rel: map<string, real>, keys: seq<string>) returns (ideal: seq<real>)
    requires forall k :: 0 <= k < |keys| ==> keys[k] in rel
    ensures ideal == Positives(rel, keys)
  {
    ideal := [];
    var i := 0;
    while i < |keys|
      invariant 0 <= i <= |keys| && ideal == Positives(rel, keys[..i])
    {
      assert keys[..i + 1][..i] == keys[..i];
      if rel[keys[i]] > 0.0 {
        ideal := ideal + [rel[keys[i]]];
      }
      i := i + 1;
    }
    assert keys[..i] == keys;
  }

  method DiscountedIdeal(gain: Gain, discount: Discount, ideal: seq<real>) returns (idcg: real)
    ensures idcg == Dcg(discount, Gains(gain, ideal))
  {
    idcg := 0.0;
    var i := 0;
    while i < |ideal|
      invariant 0 <= i <= |ideal| && idcg == Dcg(discount, Gains(gain, ideal)[..i])
    {
      assert Gains(gain, ideal)[..i + 1][..i] == Gains(gain, ideal)[..i];
      idcg := idcg + gain(ideal[i]) * discount(i);
      i := i + 1;
    }
    assert Gains(gain, ideal)[..i] == Gains(gain, ideal);
  }

  method NdcgOf(gain: Gain, discount: Discount, rel: map<string, real>, ids: seq<string>, keys: seq<string>) returns (score: real)
    requires forall k :: 0 <= k < |keys| ==> keys[k] in rel
    ensures score == Score(gain, discount, rel, ids, keys)
  {
    if ids == [] || rel == map[] {
      return 0.0;
    }
    var dcg := Discounted(gain, discount, rel, ids);
    var ideal := CollectPositives(rel, keys);
    ideal := Sort(AtLeast, ideal);
    var idcg := DiscountedIdeal(gain, discount, ideal);
    score := if idcg == 0.0 then 0.0 else dcg / idcg;
  }

  // ---------------------------------------------------------------- rearrangement

  function Sum(s: seq<real>): real {
    if s == [] then 0.0 else Sum(s[..|s| - 1]) + s[|s| - 1]
  }

  /** The value in place i, zero beyond the end. */
  function At(s: seq<real>, i: nat): real {
    if i < |s| then s[i] else 0.0
  }

  function Prefix(s: seq<real>, n: nat): real {
    if n == 0 then 0.0 else Prefix(s, n - 1) + At(s, n - 1)
  }

  function Weighted(discount: Discount, s: seq<real>, n: nat): real {
    if n == 0 then 0.0 else Weighted(discount, s, n - 1) + At(s, n - 1) * discount(n - 1)
  }

  lemma {:induction false} WeightedIsDcg(discount: Discount, s: seq<real>, n: nat)
    requires n >= |s|
    ensures Weighted(discount, s, n) == Dcg(discount, s)
    decreases n
  {
    if n > |s| {
      WeightedIsDcg(discount, s, n - 1);
    } else if n > 0 {
      WeightedPrefix(discount, s, n - 1);
      WeightedIsDcg(discount, s[..n - 1], n - 1);
    }
  }

  lemma {:induction false} WeightedPrefix(discount: Discount, s: seq<real>, n: nat)
    requires n <= |s|
    ensures Weighted(discount, s, n) == Weighted(discount, s[..n], n)
    decreases n
  {
    if n > 0 {
      WeightedPrefix(discount, s, n - 1);
      WeightedPrefix(discount, s[..n], n - 1);
      assert s[..n][..n - 1] == s[..n - 1];
    }
  }

  /** By how much b leads a so far, weighted by the newest discount. */
  function Slack(discount: Discount, a: seq<real>, b: seq<real>, n: nat): real {
    if n == 0 then 0.0 else (Prefix(b, n) - Prefix(a, n)) * discount(n - 1)
  }

  lemma SlackStep(discount: Discount, a: seq<real>, b: seq<real>, n: nat)
    requires Falling(discount) && n > 0 && Prefix(a, n - 1) <= Prefix(b, n - 1) && Prefix(a, n) <= Prefix(b, n)
    requires Weighted(discount, b, n - 1) - Weighted(discount, a, n - 1) >= Slack(discount, a, b, n - 1)
    ensures Weighted(discount, b, n) - Weighted(discount, a, n) >= Slack(discount, a, b, n) >= 0.0
  {
    hide Prefix, Weighted, Falling;
    Unfold(discount, a, n);
    Unfold(discount, b, n);
    FallingAt(discount, n - 1, n - 1);
    var lead, d := Prefix(b, n - 1) - Prefix(a, n - 1), discount(n - 1);
    var gap := Weighted(discount, b, n - 1) - Weighted(discount, a, n - 1);
    if n > 1 {
      FallingAt(discount, n - 2, n - 1);
      Shrink(lead, d, discount(n - 2));
    } else {
      Unfold(discount, a, 0);
      Unfold(discount, b, 0);
    }
    assert gap >= lead * d;
    Part(gap, lead, At(b, n - 1), At(a, n - 1), d);
  }

  /** Summation by parts: ahead in every prefix means ahead in every decreasing weighting. */
  lemma {:induction false} PrefixesDecide(discount: Discount, a: seq<real>, b: seq<real>, n: nat)
    requires Falling(discount) && forall k: nat :: k <= n ==> Prefix(a, k) <= Prefix(b, k)
    ensures Weighted(discount, b, n) - Weighted(discount, a, n) >= Slack(discount, a, b, n) >= 0.0
  {
    if n > 0 {
      hide Prefix, Weighted, Slack, Falling;
      PrefixesDecide(discount, a, b, n - 1);
      SlackStep(discount, a, b, n);
    }
  }

  lemma Unfold(discount: Discount, s: seq<real>, n: nat)
    ensures n == 0 ==> Prefix(s, n) == 0.0 && Weighted(discount, s, n) == 0.0
    ensures n > 0 ==> Prefix(s, n) == Prefix(s, n - 1) + At(s, n - 1)
    ensures n > 0 ==> Weighted(discount, s, n) == Weighted(discount, s, n - 1) + At(s, n - 1) * discount(n - 1)
  {
  }

  lemma Shrink(x: real, d: real, e: real)
    requires x >= 0.0 && d <= e
    ensures x * d <= x * e
  {
  }

  lemma Part(gap: real, lead: real, b: real, a: real, d: real)
    requires gap >= lead * d && d >= 0.0 && lead + (b - a) >= 0.0
    ensures gap + b * d - a * d >= (lead + (b - a)) * d >= 0.0
  {
    assert (lead + (b - a)) * d == lead * d + b * d - a * d;
  }

  // ---------------------------------------------------------------- no selection beats the sorted one

  ghost predicate Descending(s: seq<real>) {
    forall i, j :: 0 <= i <= j < |s| ==> s[i] >= s[j]
  }

  lemma SumWithout(s: seq<real>, i: nat)
    requires i < |s|
    ensures Sum(s[..i] + s[i + 1..]) + s[i] == Sum(s)
  {
    hide Sum;
    SumConcat(s[..i], s[i + 1..]);
    SumConcat(s[..i + 1], s[i + 1..]);
    assert s[..i + 1] + s[i + 1..] == s;
    SumLast(s[..i + 1]);
    assert s[..i + 1][..i] == s[..i];
  }

  lemma SumLast(s: seq<real>)
    requires s != []
    ensures Sum(s) == Sum(s[..|s| - 1]) + s[|s| - 1]
  {
  }

  lemma {:induction false} SumConcat(a: seq<real>, b: seq<real>)
    ensures Sum(a + b) == Sum(a) + Sum(b)
  {
    if b == [] {
      assert a + b == a;
    } else {
      SumConcat(a, b[..|b| - 1]);
      assert (a + b)[..|a + b| - 1] == a + b[..|b| - 1];
    }
  }

  lemma SumFirst(b: seq<real>, k: nat)
    requires 0 < k && b != []
    ensures Prefix(b, k) == b[0] + Prefix(b[1..], k - 1)
  {
    PrefixTail(b, k);
  }

  lemma {:induction false} PrefixTail(b: seq<real>, k: nat)
    requires 0 < k && b != []
    ensures Prefix(b, k) == b[0] + Prefix(b[1..], k - 1)
    decreases k
  {
    if k > 1 {
      PrefixTail(b, k - 1);
    }
  }

  lemma {:induction false} PrefixNonNegative(b: seq<real>, k: nat)
    requires forall i :: 0 <= i < |b| ==> b[i] >= 0.0
    ensures Prefix(b, k) >= 0.0
  {
    if k > 0 {
      PrefixNonNegative(b, k - 1);
    }
  }

  /** At most k of the values never add up to more than the k largest. */
  lemma {:induction false} TopSum(m: seq<real>, b: seq<real>, k: nat)
    requires multiset(m) <= multiset(b) && |m| <= k && Descending(b) && forall i :: 0 <= i < |b| ==> b[i] >= 0.0
    ensures Sum(m) <= Prefix(b, k)
    decreases |b|
  {
    hide Prefix, Sum, Descending;
    if m == [] {
      PrefixNonNegative(b, k);
      EmptySum();
    } else {
      TakenIsSmaller(m, b);
      var i: nat := if b[0] in m then IndexIn(m, b[0]) else |m| - 1;
      var rest := m[..i] + m[i + 1..];
      MultisetWithout(m, i);
      SumWithout(m, i);
      RestFits(m, b, i, rest);
      TailDescends(b);
      TopSum(rest, b[1..], k - 1);
      SumFirst(b, k);
    }
  }

  lemma EmptySum()
    ensures Sum([]) == 0.0
  {
  }

  lemma TailDescends(b: seq<real>)
    requires Descending(b) && b != []
    ensures Descending(b[1..])
  {
  }

  lemma TakenIsSmaller(m: seq<real>, b: seq<real>)
    requires m != [] && multiset(m) <= multiset(b) && Descending(b)
    ensures b != [] && forall i :: 0 <= i < |m| ==> m[i] <= b[0]
  {
    assert m[0] in multiset(b);
    forall i | 0 <= i < |m|
      ensures m[i] <= b[0]
    {
      assert m[i] in multiset(b);
    }
  }

  function IndexIn(m: seq<real>, x: real): (i: nat)
    requires x in m
    ensures i < |m| && m[i] == x
  {
    if m[0] == x then 0 else IndexIn(m[1..], x) + 1
  }

  lemma RestFits(m: seq<real>, b: seq<real>, i: nat, rest: seq<real>)
    requires i < |m| && b != [] && multiset(m) <= multiset(b) && (b[0] in m ==> m[i] == b[0])
    requires multiset(rest) == multiset(m) - multiset{m[i]}
    ensures multiset(rest) <= multiset(b[1..])
  {
    assert b == [b[0]] + b[1..];
    assert multiset(b[1..]) == multiset(b) - multiset{b[0]};
    assert b[0] in m <==> b[0] in multiset(m);
  }

  // ---------------------------------------------------------------- rankings without duplicates

  /** The relevant IDs of a ranking, and their gains. */
  function Relevant(rel: map<string, real>, ids: seq<string>): seq<string> {
    if ids == [] then []
    else Relevant(rel, ids[..|ids| - 1]) + if Relevance(rel, ids[|ids| - 1]) > 0.0 then [ids[|ids| - 1]] else []
  }

  lemma {:induction false} RelevantFacts(rel: map<string, real>, ids: seq<string>, keys: seq<string>)
    requires Elements(keys) == rel.Keys
    ensures |Relevant(rel, ids)| <= |ids|
    ensures forall x :: x in Relevant(rel, ids) ==> x in ids && x in keys && Relevance(rel, x) > 0.0
    decreases |ids|
  {
    if ids != [] {
      var n := |ids| - 1;
      RelevantFacts(rel, ids[..n], keys);
      if Relevance(rel, ids[n]) > 0.0 {
        assert ids[n] in Elements(keys);
      }
    }
  }

  lemma {:induction false} RelevantPrefix(rel: map<string, real>, ids: seq<string>, n: nat)
    requires n <= |ids|
    ensures Relevant(rel, ids[..n]) <= Relevant(rel, ids)
    decreases |ids|
  {
    if n < |ids| {
      RelevantPrefix(rel, ids[..|ids| - 1], n);
      assert ids[..|ids| - 1][..n] == ids[..n];
    } else {
      assert ids[..n] == ids;
    }
  }

  function RelevantGains(gain: Gain, rel: map<string, real>, ids: seq<string>): seq<real> {
    seq(|ids|, i requires 0 <= i < |ids| => gain(Relevance(rel, ids[i])))
  }

  /** The gains of a prefix are those of its relevant IDs. */
  lemma {:induction false} PrefixIsRelevant(gain: Gain, rel: map<string, real>, ids: seq<string>, n: nat)
    requires n <= |ids|
    ensures Prefix(Worths(gain, rel, ids), n) == Sum(RelevantGains(gain, rel, Relevant(rel, ids[..n])))
  {
    if n > 0 {
      PrefixIsRelevant(gain, rel, ids, n - 1);
      assert ids[..n][..n - 1] == ids[..n - 1];
      var before := Relevant(rel, ids[..n - 1]);
      if Relevance(rel, ids[n - 1]) > 0.0 {
        var gains := RelevantGains(gain, rel, before + [ids[n - 1]]);
        assert gains[..|before|] == RelevantGains(gain, rel, before);
      } else {
        assert before + [] == before;
      }
    }
  }

  lemma {:induction false} PrefixBeyond(s: seq<real>, n: nat)
    requires n >= |s|
    ensures Prefix(s, n) == Prefix(s, |s|)
    decreases n
  {
    if n > |s| {
      PrefixBeyond(s, n - 1);
    }
  }

  /** Different relevant IDs gain what different keys of the map gain. */
  lemma {:induction false} GainsAreIdealGains(gain: Gain, rel: map<string, real>, ids: seq<string>, keys: seq<string>)
    requires Distinct(ids) && Distinct(keys)
    requires forall x :: x in ids ==> x in keys && Relevance(rel, x) > 0.0
    requires forall k :: 0 <= k < |keys| ==> keys[k] in rel
    ensures multiset(RelevantGains(gain, rel, ids)) <= multiset(Gains(gain, Positives(rel, keys)))
    decreases |keys|
  {
    if keys == [] {
      NothingRelevant(ids);
    } else {
      var n := |keys| - 1;
      var last := keys[n];
      assert keys == keys[..n] + [last];
      if last in ids {
        var i :| 0 <= i < |ids| && ids[i] == last;
        var rest := ids[..i] + ids[i + 1..];
        WithoutOne(ids, i, keys[..n]);
        GainsAreIdealGains(gain, rel, rest, keys[..n]);
        SplitGains(gain, rel, ids, i);
        LastGain(gain, rel, keys);
      } else {
        GainsAreIdealGains(gain, rel, ids, keys[..n]);
        LastGain(gain, rel, keys);
      }
    }
  }

  lemma NothingRelevant(ids: seq<string>)
    requires Distinct(ids) && forall x :: x in ids ==> x in []
    ensures ids == []
  {
    assert Elements(ids) == {};
    DistinctIffSize(ids);
  }

  lemma WithoutOne(ids: seq<string>, i: nat, keys: seq<string>)
    requires Distinct(ids) && i < |ids| && forall x :: x in ids ==> x in keys || x == ids[i]
    ensures Distinct(ids[..i] + ids[i + 1..])
    ensures forall x :: x in ids[..i] + ids[i + 1..] ==> x in ids && x in keys
  {
  }

  lemma SplitGains(gain: Gain, rel: map<string, real>, ids: seq<string>, i: nat)
    requires i < |ids|
    ensures multiset(RelevantGains(gain, rel, ids))
         == multiset(RelevantGains(gain, rel, ids[..i] + ids[i + 1..])) + multiset{gain(Relevance(rel, ids[i]))}
  {
    hide Relevance;
    var all, rest := RelevantGains(gain, rel, ids), RelevantGains(gain, rel, ids[..i] + ids[i + 1..]);
    MultisetWithout(all, i);
    assert |rest| == |ids| - 1;
    assert forall k :: 0 <= k < |rest| ==> rest[k] == all[if k < i then k else k + 1];
    assert all[..i] + all[i + 1..] == rest;
    assert all[i] == gain(Relevance(rel, ids[i])) && all[i] in multiset(all);
  }

  lemma LastGain(gain: Gain, rel: map<string, real>, keys: seq<string>)
    requires keys != [] && forall k :: 0 <= k < |keys| ==> keys[k] in rel
    ensures var last := keys[|keys| - 1];
            multiset(Gains(gain, Positives(rel, keys)))
            == multiset(Gains(gain, Positives(rel, keys[..|keys| - 1])))
               + if rel[last] > 0.0 then multiset{gain(Relevance(rel, last))} else multiset{}
  {
    var before := Positives(rel, keys[..|keys| - 1]);
    var last := keys[|keys| - 1];
    if rel[last] > 0.0 {
      assert Gains(gain, before + [rel[last]]) == Gains(gain, before) + [gain(rel[last])];
    } else {
      assert before + [] == before;
    }
  }

  /** The ideal gains: sorted, positive, and the same multiset as the unsorted ones. */
  lemma IdealFacts(gain: Gain, discount: Discount, rel: map<string, real>, keys: seq<string>)
    requires Proper(gain, discount) && forall k :: 0 <= k < |keys| ==> keys[k] in rel
    ensures var ideal := Gains(gain, Sort(AtLeast, Positives(rel, keys)));
            && Descending(ideal) && (forall i :: 0 <= i < |ideal| ==> ideal[i] > 0.0)
            && multiset(ideal) == multiset(Gains(gain, Positives(rel, keys)))
  {
    hide Sort, Gains, Positives, Descending;
    var values := Positives(rel, keys);
    var sorted := Sort(AtLeast, values);
    assert TotalPreorder(AtLeast);
    SortOrders(AtLeast, values);
    SortPermutes(AtLeast, values);
    PositivesArePositive(rel, keys);
    forall i | 0 <= i < |sorted|
      ensures sorted[i] > 0.0
    {
      assert sorted[i] in values;
    }
    GainsDescend(gain, sorted);
    GainsPermute(gain, sorted, values);
  }

  lemma GainsDescend(gain: Gain, values: seq<real>)
    requires Growing(gain) && Ordered(AtLeast, values) && forall i :: 0 <= i < |values| ==> values[i] > 0.0
    ensures Descending(Gains(gain, values)) && forall i :: 0 <= i < |Gains(gain, values)| ==> Gains(gain, values)[i] > 0.0
  {
  }

  lemma {:induction false} PositivesArePositive(rel: map<string, real>, keys: seq<string>)
    requires forall k :: 0 <= k < |keys| ==> keys[k] in rel
    ensures forall i :: 0 <= i < |Positives(rel, keys)| ==> Positives(rel, keys)[i] > 0.0
  {
    if keys != [] {
      PositivesArePositive(rel, keys[..|keys| - 1]);
    }
  }

  lemma {:induction false} GainsPermute(gain: Gain, s: seq<real>, t: seq<real>)
    requires multiset(s) == multiset(t)
    ensures multiset(Gains(gain, s)) == multiset(Gains(gain, t))
    decreases |s|
  {
    hide Gains;
    if s == [] {
      assert |multiset(t)| == 0;
    } else {
      var i := MatchFirst(s, t);
      GainsPermute(gain, s[1..], t[..i] + t[i + 1..]);
      GainsWithout(gain, s, 0);
      assert s[..0] + s[0 + 1..] == s[1..];
      GainsWithout(gain, t, i);
    }
  }

  lemma MatchFirst(s: seq<real>, t: seq<real>) returns (i: nat)
    requires multiset(s) == multiset(t) && s != []
    ensures i < |t| && t[i] == s[0] && multiset(s[1..]) == multiset(t[..i] + t[i + 1..])
  {
    assert s[0] in multiset(t);
    i :| 0 <= i < |t| && t[i] == s[0];
    MultisetWithout(t, i);
    MultisetWithout(s, 0);
    assert s[..0] + s[0 + 1..] == s[1..];
  }

  lemma GainsWithout(gain: Gain, t: seq<real>, i: nat)
    requires i < |t|
    ensures multiset(Gains(gain, t)) == multiset(Gains(gain, t[..i] + t[i + 1..])) + multiset{gain(t[i])}
  {
    var g := Gains(gain, t);
    MultisetWithout(g, i);
    assert g[..i] + g[i + 1..] == Gains(gain, t[..i] + t[i + 1..]);
    assert g[i] in multiset(g);
  }

  /**
   A ranking that repeats no relevant ID never collects more than the ideal one, so its score
   is at most one, for any gain that grows and any discount that falls.
   */
  lemma DuplicateFreeIsAtMostIdeal(gain: Gain, discount: Discount, rel: map<string, real>, ids: seq<string>, keys: seq<string>)
    requires Proper(gain, discount) && Distinct(Relevant(rel, ids)) && Distinct(keys) && Elements(keys) == rel.Keys
    requires forall k :: 0 <= k < |keys| ==> keys[k] in rel
    ensures Dcg(discount, Worths(gain, rel, ids)) <= Dcg(discount, Gains(gain, Sort(AtLeast, Positives(rel, keys))))
  {
    hide Worths, Gains, Positives, Sort;
    var a, b := Worths(gain, rel, ids), Gains(gain, Sort(AtLeast, Positives(rel, keys)));
    IdealFacts(gain, discount, rel, keys);
    var n := if |a| >= |b| then |a| else |b|;
    forall k: nat | k <= n
      ensures Prefix(a, k) <= Prefix(b, k)
    {
      PrefixIsBounded(gain, rel, ids, keys, b, k);
    }
    PrefixesDecide(discount, a, b, n);
    WeightedIsDcg(discount, a, n);
    WeightedIsDcg(discount, b, n);
  }

  lemma PrefixIsBounded(gain: Gain, rel: map<string, real>, ids: seq<string>, keys: seq<string>, ideal: seq<real>, k: nat)
    requires Distinct(Relevant(rel, ids)) && Distinct(keys) && Elements(keys) == rel.Keys && forall i :: 0 <= i < |keys| ==> keys[i] in rel
    requires Descending(ideal) && (forall i :: 0 <= i < |ideal| ==> ideal[i] > 0.0)
    requires multiset(ideal) == multiset(Gains(gain, Positives(rel, keys)))
    ensures Prefix(Worths(gain, rel, ids), k) <= Prefix(ideal, k)
  {
    hide Gains, Positives, Prefix;
    var n := if k <= |ids| then k else |ids|;
    if k > |ids| {
      PrefixBeyond(Worths(gain, rel, ids), k);
    }
    var relevant := Relevant(rel, ids[..n]);
    PrefixIsRelevant(gain, rel, ids, n);
    RelevantFacts(rel, ids[..n], keys);
    RelevantPrefix(rel, ids, n);
    GainsAreIdealGains(gain, rel, relevant, keys);
    TopSum(RelevantGains(gain, rel, relevant), ideal, k);
  }

  lemma {:induction false} DcgIsNonNegative(discount: Discount, gains: seq<real>)
    requires Falling(discount) && forall i :: 0 <= i < |gains| ==> gains[i] >= 0.0
    ensures Dcg(discount, gains) >= 0.0
  {
    if gains != [] {
      DcgIsNonNegative(discount, gains[..|gains| - 1]);
      Times(gains[|gains| - 1], discount(|gains| - 1));
    }
  }

  lemma Times(x: real, d: real)
    requires x >= 0.0 && d > 0.0
    ensures x * d >= 0.0
  {
  }

  lemma Divide(x: real, y: real)
    requires 0.0 <= x <= y && y > 0.0
    ensures 0.0 <= x / y <= 1.0
  {
    var q := x / y;
    assert q * y == x;
  }

  lemma ScoreInUnit(gain: Gain, discount: Discount, rel: map<string, real>, ids: seq<string>, keys: seq<string>)
    requires Proper(gain, discount) && Distinct(Relevant(rel, ids)) && Distinct(keys) && Elements(keys) == rel.Keys
    requires forall k :: 0 <= k < |keys| ==> keys[k] in rel
    ensures 0.0 <= Score(gain, discount, rel, ids, keys) <= 1.0
  {
    DuplicateFreeIsAtMostIdeal(gain, discount, rel, ids, keys);
    IdealFacts(gain, discount, rel, keys);
    DcgIsNonNegative(discount, Worths(gain, rel, ids));
    var dcg, ideal := Dcg(discount, Worths(gain, rel, ids)), Dcg(discount, Gains(gain, Sort(AtLeast, Positives(rel, keys))));
    if ideal > 0.0 {
      Divide(dcg, ideal);
    }
  }

  // ---------------------------------------------------------------- exactly when

  /** Full weight for the first k places, next to none for the rest. */
  function TwoLevels(k: nat, low: real): Discount {
    (i: nat) => if i < k then 1.0 else low
  }

  lemma {:induction false} WeightedOnTwoLevels(s: seq<real>, k: nat, low: real, n: nat)
    ensures Weighted(TwoLevels(k, low), s, n)
         == if n <= k then Prefix(s, n) else Prefix(s, k) + low * (Prefix(s, n) - Prefix(s, k))
  {
    if n > 0 {
      WeightedOnTwoLevels(s, k, low, n - 1);
      assert TwoLevels(k, low)(n - 1) == if n - 1 < k then 1.0 else low;
      Regroup(low, Prefix(s, n - 1), Prefix(s, k), At(s, n - 1));
      if n == k + 1 {
        assert low * (Prefix(s, k) - Prefix(s, k)) == 0.0;
      }
    }
  }

  lemma Regroup(low: real, p: real, q: real, x: real)
    ensures low * (p - q) + x * low == low * (p + x - q)
  {
  }

  /** A lead of `gap` in the first k places is not made up by what comes later at a low enough weight. */
  lemma SmallWeight(gap: real, rest: real) returns (low: real)
    requires gap > 0.0
    ensures 0.0 < low <= 1.0 && gap + low * rest > 0.0
  {
    if rest >= 0.0 {
      low := 1.0;
    } else {
      low := gap / (gap - rest);
      Portion(gap, gap - rest, low);
      Distribute(low, gap, rest);
    }
  }

  lemma Portion(x: real, y: real, q: real)
    requires 0.0 < x < y && q == x / y
    ensures q * y == x && 0.0 < q < 1.0 && q * x > 0.0
  {
    assert q * y == x;
    Scaled(q, y);
  }

  lemma Scaled(q: real, y: real)
    ensures y > 0.0 && q <= 0.0 ==> q * y <= 0.0
    ensures y > 0.0 && q <= 1.0 ==> q * y <= y
    ensures y > 0.0 && q >= 1.0 ==> q * y >= y
  {
  }

  lemma TwoLevelsFall(k: nat, low: real)
    requires 0.0 < low <= 1.0
    ensures Falling(TwoLevels(k, low))
  {
  }

  /** The converse of summation by parts: behind in one prefix means behind under some falling discount. */
  lemma AheadInAPrefix(a: seq<real>, b: seq<real>, k: nat) returns (discount: Discount)
    requires Prefix(a, k) > Prefix(b, k)
    ensures Falling(discount) && Dcg(discount, a) > Dcg(discount, b)
  {
    hide Prefix, Weighted, Dcg;
    var n := |a| + |b| + k;
    var gap, rest := Prefix(a, k) - Prefix(b, k), (Prefix(a, n) - Prefix(a, k)) - (Prefix(b, n) - Prefix(b, k));
    var low := SmallWeight(gap, rest);
    discount := TwoLevels(k, low);
    TwoLevelsFall(k, low);
    WeightedOnTwoLevels(a, k, low, n);
    WeightedOnTwoLevels(b, k, low, n);
    Distribute(low, Prefix(a, n) - Prefix(a, k), Prefix(b, n) - Prefix(b, k));
    WeightedIsDcg(discount, a, n);
    WeightedIsDcg(discount, b, n);
  }

  lemma Distribute(low: real, x: real, y: real)
    ensures low * (x - y) == low * x - low * y
  {
  }

  lemma AheadInEveryPrefix(discount: Discount, a: seq<real>, b: seq<real>)
    requires Falling(discount) && forall k: nat :: Prefix(a, k) <= Prefix(b, k)
    ensures Dcg(discount, a) <= Dcg(discount, b)
  {
    hide Prefix, Weighted, Dcg;
    var n := |a| + |b|;
    PrefixesDecide(discount, a, b, n);
    WeightedIsDcg(discount, a, n);
    WeightedIsDcg(discount, b, n);
  }

  /** The gains in the order the ideal ranking takes them. */
  function Ideal(gain: Gain, rel: map<string, real>, keys: seq<string>): seq<real>
    requires forall k :: 0 <= k < |keys| ==> keys[k] in rel
  {
    Gains(gain, Sort(AtLeast, Positives(rel, keys)))
  }

  /**
   A ranking scores at most one under every falling discount if and only if no prefix of it
   has gained more than the ideal prefix of the same length.
   */
  lemma ScoreAtMostOneIff(gain: Gain, rel: map<string, real>, ids: seq<string>, keys: seq<string>)
    requires Growing(gain) && Elements(keys) == rel.Keys && forall k :: 0 <= k < |keys| ==> keys[k] in rel
    ensures (forall discount: Discount :: Falling(discount) ==> Score(gain, discount, rel, ids, keys) <= 1.0)
       <==> (forall k: nat :: Prefix(Worths(gain, rel, ids), k) <= Prefix(Ideal(gain, rel, keys), k))
  {
    hide Prefix, Dcg, Worths, Positives, Gains, Sort, Score, Falling, Growing;
    var a, b := Worths(gain, rel, ids), Ideal(gain, rel, keys);
    if forall k: nat :: Prefix(a, k) <= Prefix(b, k) {
      forall discount: Discount | Falling(discount)
        ensures Score(gain, discount, rel, ids, keys) <= 1.0
      {
        AheadInEveryPrefix(discount, a, b);
        BelowIdealScore(gain, discount, rel, ids, keys);
      }
    } else {
      var k: nat :| Prefix(a, k) > Prefix(b, k);
      var discount := AheadInAPrefix(a, b, k);
      AboveIdealScore(gain, discount, rel, ids, keys);
      assert Falling(discount) && Score(gain, discount, rel, ids, keys) > 1.0;
    }
  }

  lemma IdealIsPositive(gain: Gain, discount: Discount, rel: map<string, real>, keys: seq<string>)
    requires Proper(gain, discount) && forall k :: 0 <= k < |keys| ==> keys[k] in rel
    ensures Dcg(discount, Ideal(gain, rel, keys)) >= 0.0
    ensures Dcg(discount, Ideal(gain, rel, keys)) == 0.0 ==> Positives(rel, keys) == []
  {
    hide Sort, Gains, Positives, Descending, Dcg;
    IdealFacts(gain, discount, rel, keys);
    PositiveDcg(discount, Ideal(gain, rel, keys));
    SortPermutes(AtLeast, Positives(rel, keys));
    SameLength(gain, Sort(AtLeast, Positives(rel, keys)));
  }

  lemma SameLength(gain: Gain, values: seq<real>)
    ensures |Gains(gain, values)| == |values|
  {
  }

  lemma {:induction false} PositiveDcg(discount: Discount, gains: seq<real>)
    requires Falling(discount) && forall i :: 0 <= i < |gains| ==> gains[i] > 0.0
    ensures if gains == [] then Dcg(discount, gains) == 0.0 else Dcg(discount, gains) > 0.0
  {
    if gains != [] {
      PositiveDcg(discount, gains[..|gains| - 1]);
      assert gains[|gains| - 1] * discount(|gains| - 1) > 0.0;
    }
  }

  lemma BelowIdealScore(gain: Gain, discount: Discount, rel: map<string, real>, ids: seq<string>, keys: seq<string>)
    requires Proper(gain, discount) && forall k :: 0 <= k < |keys| ==> keys[k] in rel
    requires Dcg(discount, Worths(gain, rel, ids)) <= Dcg(discount, Ideal(gain, rel, keys))
    ensures Score(gain, discount, rel, ids, keys) <= 1.0
  {
    hide Dcg, Worths, Ideal;
    IdealIsPositive(gain, discount, rel, keys);
    WorthsAreNonNegative(gain, discount, rel, ids);
    if Dcg(discount, Ideal(gain, rel, keys)) > 0.0 {
      Divide(Dcg(discount, Worths(gain, rel, ids)), Dcg(discount, Ideal(gain, rel, keys)));
    }
    SameIdeal(gain, rel, keys);
  }

  lemma SameIdeal(gain: Gain, rel: map<string, real>, keys: seq<string>)
    requires forall k :: 0 <= k < |keys| ==> keys[k] in rel
    ensures Ideal(gain, rel, keys) == Gains(gain, Sort(AtLeast, Positives(rel, keys)))
  {
  }

  lemma WorthsAreNonNegative(gain: Gain, discount: Discount, rel: map<string, real>, ids: seq<string>)
    requires Proper(gain, discount)
    ensures Dcg(discount, Worths(gain, rel, ids)) >= 0.0
  {
    DcgIsNonNegative(discount, Worths(gain, rel, ids));
  }

  lemma AboveIdealScore(gain: Gain, discount: Discount, rel: map<string, real>, ids: seq<string>, keys: seq<string>)
    requires Proper(gain, discount) && Elements(keys) == rel.Keys && forall k :: 0 <= k < |keys| ==> keys[k] in rel
    requires Dcg(discount, Worths(gain, rel, ids)) > Dcg(discount, Ideal(gain, rel, keys))
    ensures Score(gain, discount, rel, ids, keys) > 1.0
  {
    hide Worths, Ideal;
    IdealIsPositive(gain, discount, rel, keys);
    SameIdeal(gain, rel, keys);
    var dcg, ideal := Dcg(discount, Worths(gain, rel, ids)), Dcg(discount, Ideal(gain, rel, keys));
    if ideal == 0.0 {
      NothingToGain(gain, discount, rel, ids, keys);
    } else {
      SomethingRanked(gain, discount, rel, ids, keys);
      Exceed(dcg, ideal);
    }
  }

  lemma Exceed(x: real, y: real)
    requires x > y > 0.0
    ensures x / y > 1.0
  {
    var q := x / y;
    assert q * y == x;
    Scaled(q, y);
  }

  lemma SomethingRanked(gain: Gain, discount: Discount, rel: map<string, real>, ids: seq<string>, keys: seq<string>)
    requires Elements(keys) == rel.Keys && forall k :: 0 <= k < |keys| ==> keys[k] in rel
    requires Dcg(discount, Worths(gain, rel, ids)) > Dcg(discount, Ideal(gain, rel, keys)) > 0.0
    ensures ids != [] && rel != map[]
  {
    NoElements(keys);
    NothingIdeal(gain, discount, rel, keys);
  }

  lemma NothingIdeal(gain: Gain, discount: Discount, rel: map<string, real>, keys: seq<string>)
    requires forall k :: 0 <= k < |keys| ==> keys[k] in rel
    ensures keys == [] ==> Dcg(discount, Ideal(gain, rel, keys)) == 0.0
  {
  }

  /** Without a positive relevance nothing is gained. */
  lemma {:induction false} NothingToGain(gain: Gain, discount: Discount, rel: map<string, real>, ids: seq<string>, keys: seq<string>)
    requires Elements(keys) == rel.Keys && (forall k :: 0 <= k < |keys| ==> keys[k] in rel) && Positives(rel, keys) == []
    ensures Dcg(discount, Worths(gain, rel, ids)) == 0.0
    decreases |ids|
  {
    if ids != [] {
      var n := |ids| - 1;
      NothingToGain(gain, discount, rel, ids[..n], keys);
      assert Worths(gain, rel, ids)[..n] == Worths(gain, rel, ids[..n]);
      NothingRelevantIn(rel, keys, ids[n]);
    }
  }

  lemma {:induction false} NothingRelevantIn(rel: map<string, real>, keys: seq<string>, id: string)
    requires (forall k :: 0 <= k < |keys| ==> keys[k] in rel) && Positives(rel, keys) == []
    ensures id in keys ==> rel[id] <= 0.0
    ensures Elements(keys) == rel.Keys ==> Relevance(rel, id) <= 0.0
  {
    if keys != [] {
      NothingRelevantIn(rel, keys[..|keys| - 1], id);
    }
    assert id in keys <==> id in Elements(keys);
  }

  /** A ranking that lists its one relevant ID twice scores above one. */
  lemma DuplicatesExceedOne(gain: Gain, discount: Discount)
    requires Proper(gain, discount)
    ensures Score(gain, discount, map["a" := 1.0], ["a", "a"], ["a"]) > 1.0
  {
    var rel: map<string, real> := map["a" := 1.0];
    var ids, keys := ["a", "a"], ["a"];
    assert Positives(rel, keys) == [1.0] by {
      assert keys[..0] == [];
    }
    assert Sort(AtLeast, [1.0]) == [1.0] by {
      assert [1.0][1..] == [] && Sort(AtLeast, []) == [];
    }
    var g, d, e := gain(1.0), discount(0), discount(1);
    assert Gains(gain, [1.0]) == [g];
    assert [g][..0] == [] && Dcg(discount, [g]) == g * d;
    assert Worths(gain, rel, ids) == [g, g];
    assert [g, g][..1] == [g] && Dcg(discount, [g, g]) == g * d + g * e;
    Exceeds(g, d, e);
  }

  lemma Exceeds(g: real, d: real, e: real)
    requires g > 0.0 && d > 0.0 && e > 0.0
    ensures g * d > 0.0 && (g * d + g * e) / (g * d) > 1.0
  {
    var x, y := g * d, g * e;
    assert x > 0.0 && y > 0.0;
    var q := (x + y) / x;
    assert q * x == x + y;
  }

  // ---------------------------------------------------------------- the ends of the scale

  /** A ranking that gains what the ideal one gains, place by place, scores exactly one; one without a relevant ID scores nothing. */
  lemma EndsOfTheScale(gain: Gain, discount: Discount, rel: map<string, real>, ids: seq<string>, keys: seq<string>)
    requires ids != [] && rel != map[] && forall k :: 0 <= k < |keys| ==> keys[k] in rel
    ensures Worths(gain, rel, ids) == Ideal(gain, rel, keys) && Dcg(discount, Ideal(gain, rel, keys)) != 0.0 ==>
              Score(gain, discount, rel, ids, keys) == 1.0
    ensures (forall id :: id in ids ==> Relevance(rel, id) <= 0.0) ==> Score(gain, discount, rel, ids, keys) == 0.0
  {
    if forall id :: id in ids ==> Relevance(rel, id) <= 0.0 {
      NothingGained(discount, Worths(gain, rel, ids));
    }
    hide Dcg, Worths, Positives, Sort, Gains;
    var ideal := Dcg(discount, Ideal(gain, rel, keys));
    if ideal != 0.0 {
      SelfQuotient(ideal);
    }
  }

  lemma SelfQuotient(x: real)
    requires x != 0.0
    ensures x / x == 1.0 && 0.0 / x == 0.0
  {
  }

  lemma {:induction false} NothingGained(discount: Discount, gains: seq<real>)
    requires forall k :: 0 <= k < |gains| ==> gains[k] == 0.0
    ensures Dcg(discount, gains) == 0.0
  {
    if gains != [] {
      NothingGained(discount, gains[..|gains| - 1]);
    }
  }
}
