/**
 The normalized edit distance between two causal paths
 (benchmark/causaldiscovery/benchmark.go:142-163).

 `Distance` is the textbook recurrence, `Script` the independent meaning: the cheapest way
 to turn one path into the other. The two-row loop is proved to compute the recurrence, the
 recurrence to be the minimum over all scripts, and the result to be a metric.
 */
module EditDistance {

  function Min(a: nat, b: nat): nat {
    if a <= b then a else b
  }

  function Max(a: nat, b: nat): nat {
    if a <= b then b else a
  }

  function Mismatch<T(==)>(x: T, y: T): nat {
    if x == y then 0 else 1
  }

  function Distance<T(==)>(a: seq<T>, b: seq<T>): nat
    decreases |a| + |b|
  {
    if a == [] then |b|
    else if b == [] then |a|
    else
      var m, n := |a| - 1, |b| - 1;
      Min(Distance(a, b[..n]) + 1, Min(Distance(a[..m], b) + 1, Distance(a[..m], b[..n]) + Mismatch(a[m], b[n])))
  }

  // ---------------------------------------------------------------- the two-row loop

  /** One cell from its three neighbours. */
  lemma Cell<T>(left: seq<T>, right: seq<T>, i: nat, j: nat)
    requires i < |left| && j < |right|
    ensures Distance(left[..i + 1], right[..j + 1])
         == Min(Distance(left[..i + 1], right[..j]) + 1,
                Min(Distance(left[..i], right[..j + 1]) + 1, Distance(left[..i], right[..j]) + Mismatch(left[i], right[j])))
  {
    assert left[..i + 1][..i] == left[..i];
    assert right[..j + 1][..j] == right[..j];
  }

  lemma FirstCell<T>(left: seq<T>, right: seq<T>)
    ensures Distance(left, right[..0]) == |left| && Distance(left[..0], right) == |right|
  {
  }

  /** One row from the row before it. */
  method NextRow<T(==)>(left: seq<T>, row: nat, right: seq<T>, previous: array<nat>) returns (current: array<nat>)
    requires row < |left| && previous.Length == |right| + 1
    requires forall j :: 0 <= j <= |right| ==> previous[j] == Distance(left[..row], right[..j])
    ensures fresh(current) && current.Length == |right| + 1
    ensures forall j :: 0 <= j <= |right| ==> current[j] == Distance(left[..row + 1], right[..j])
  {
    hide Distance;
    current := new nat[|right| + 1];
    FirstCell(left[..row + 1], right);
    current[0] := row + 1;
    var column := 0;
    while column < |right|
      invariant 0 <= column <= |right|
      invariant forall j :: 0 <= j <= column ==> current[j] == Distance(left[..row + 1], right[..j])
      invariant forall j :: 0 <= j <= |right| ==> previous[j] == Distance(left[..row], right[..j])
    {
      var cost := if left[row] == right[column] then 0 else 1;
      Cell(left, right, row, column);
      current[column + 1] := Min(current[column] + 1, Min(previous[column + 1] + 1, previous[column] + cost));
      column := column + 1;
    }
  }

  method NormalizedEditDistance<T(==)>(left: seq<T>, right: seq<T>) returns (r: real)
    ensures r == Normalized(left, right)
    ensures 0.0 <= r <= 1.0 && (r == 0.0 <==> left == right)
  {
    NormalizedIsMetric(left, right);
    if |left| == 0 && |right| == 0 {
      return 0.0;
    }
    var previous := new nat[|right| + 1];
    var index := 0;
    while index < previous.Length
      invariant 0 <= index <= previous.Length
      invariant forall j :: 0 <= j < index ==> previous[j] == j
    {
      previous[index] := index;
      index := index + 1;
    }
    var row := 0;
    while row < |left|
      invariant 0 <= row <= |left| && previous.Length == |right| + 1
      invariant forall j :: 0 <= j <= |right| ==> previous[j] == Distance(left[..row], right[..j])
    {
      previous := NextRow(left, row, right, previous);
      row := row + 1;
    }
    assert left[..row] == left && right[..|right|] == right;
    r := previous[|right|] as real / Max(|left|, |right|) as real;
  }

  // ---------------------------------------------------------------- the distance is the cost of the cheapest script

  datatype Edit<T> = Keep(x: T) | Substitute(x: T, y: T) | Insert(y: T) | Delete(x: T)

  type Script<T> = seq<Edit<T>>

  function Before<T>(s: Script<T>): seq<T> {
    if s == [] then []
    else Before(s[..|s| - 1]) + (if s[|s| - 1].Insert? then [] else [s[|s| - 1].x])
  }

  function After<T>(s: Script<T>): seq<T> {
    if s == [] then []
    else
      var last := s[|s| - 1];
      After(s[..|s| - 1]) + (match last case Keep(x) => [x] case Substitute(_, y) => [y] case Insert(y) => [y] case Delete(_) => [])
  }

  function Cost<T>(s: Script<T>): nat {
    if s == [] then 0 else Cost(s[..|s| - 1]) + if s[|s| - 1].Keep? then 0 else 1
  }

  lemma Append<T>(s: Script<T>, e: Edit<T>)
    ensures Before(s + [e]) == Before(s) + (if e.Insert? then [] else [e.x])
    ensures After(s + [e]) == After(s) + (match e case Keep(x) => [x] case Substitute(_, y) => [y] case Insert(y) => [y] case Delete(_) => [])
    ensures Cost(s + [e]) == Cost(s) + if e.Keep? then 0 else 1
  {
    assert (s + [e])[..|s|] == s;
  }

  lemma EmptyScript<T>()
    ensures Before<T>([]) == [] && After<T>([]) == [] && Cost<T>([]) == 0
  {
  }

  lemma EditIsLowerBound<T>(s: Script<T>, e: Edit<T>)
    requires Distance(Before(s), After(s)) <= Cost(s)
    ensures Distance(Before(s + [e]), After(s + [e])) <= Cost(s + [e])
  {
    Append(s, e);
    match e
    case Keep(x) => LastStep(Before(s), After(s), x, x);
    case Substitute(x, y) => LastStep(Before(s), After(s), x, y);
    case Insert(y) =>
      LastInsert(Before(s), After(s), y);
      assert Before(s) + [] == Before(s);
    case Delete(x) =>
      LastDelete(Before(s), After(s), x);
      assert After(s) + [] == After(s);
  }

  /** No script is cheaper than the distance. */
  lemma {:induction false} DistanceIsLowerBound<T>(s: Script<T>)
    ensures Distance(Before(s), After(s)) <= Cost(s)
  {
    if s != [] {
      var prefix, last := s[..|s| - 1], s[|s| - 1];
      DistanceIsLowerBound(prefix);
      EditIsLowerBound(prefix, last);
      assert prefix + [last] == s;
    }
  }

  lemma LastStep<T>(a: seq<T>, b: seq<T>, x: T, y: T)
    ensures Distance(a + [x], b + [y]) <= Distance(a, b) + Mismatch(x, y)
  {
    assert (a + [x])[..|a|] == a && (b + [y])[..|b|] == b;
  }

  lemma LastInsert<T>(a: seq<T>, b: seq<T>, y: T)
    ensures Distance(a, b + [y]) <= Distance(a, b) + 1
  {
    assert (b + [y])[..|b|] == b;
  }

  lemma LastDelete<T>(a: seq<T>, b: seq<T>, x: T)
    ensures Distance(a + [x], b) <= Distance(a, b) + 1
  {
    assert (a + [x])[..|a|] == a;
  }

  /** Some script costs exactly the distance. */
  lemma {:induction false} CheapestScript<T>(a: seq<T>, b: seq<T>) returns (s: Script<T>)
    ensures Before(s) == a && After(s) == b && Cost(s) == Distance(a, b)
    decreases |a| + |b|
  {
    hide Before, After, Cost;
    if a == [] && b == [] {
      EmptyScript<T>();
      s := [];
    } else if a == [] || (b != [] && Distance(a, b) == Distance(a, b[..|b| - 1]) + 1) {
      var y := b[|b| - 1];
      s := CheapestScript(a, b[..|b| - 1]);
      Append(s, Insert(y));
      s := s + [Insert(y)];
    } else if b == [] || Distance(a, b) == Distance(a[..|a| - 1], b) + 1 {
      var x := a[|a| - 1];
      s := CheapestScript(a[..|a| - 1], b);
      Append(s, Delete(x));
      s := s + [Delete(x)];
    } else {
      var x, y := a[|a| - 1], b[|b| - 1];
      s := CheapestScript(a[..|a| - 1], b[..|b| - 1]);
      var last := if x == y then Keep(x) else Substitute(x, y);
      Append(s, last);
      s := s + [last];
    }
  }

  // ---------------------------------------------------------------- a metric

  lemma {:induction false} DistanceSymmetric<T>(a: seq<T>, b: seq<T>)
    ensures Distance(a, b) == Distance(b, a)
    decreases |a| + |b|
  {
    if a != [] && b != [] {
      DistanceSymmetric(a, b[..|b| - 1]);
      DistanceSymmetric(a[..|a| - 1], b);
      DistanceSymmetric(a[..|a| - 1], b[..|b| - 1]);
    }
  }

  /** At least the difference of the lengths, at most the longer length, and zero for equal paths only. */
  lemma {:induction false} DistanceBounds<T>(a: seq<T>, b: seq<T>)
    ensures |a| <= |b| + Distance(a, b) && |b| <= |a| + Distance(a, b)
    ensures Distance(a, b) <= Max(|a|, |b|)
    ensures Distance(a, b) == 0 <==> a == b
    decreases |a| + |b|
  {
    if a != [] && b != [] {
      var m, n := |a| - 1, |b| - 1;
      DistanceBounds(a, b[..n]);
      DistanceBounds(a[..m], b);
      DistanceBounds(a[..m], b[..n]);
      assert a == a[..m] + [a[m]] && b == b[..n] + [b[n]];
    }
  }

  lemma {:induction false} TriangleInequality<T>(a: seq<T>, b: seq<T>, c: seq<T>)
    ensures Distance(a, c) <= Distance(a, b) + Distance(b, c)
    decreases |a| + |b| + |c|
  {
    if a == [] || b == [] || c == [] {
      DistanceBounds(a, b);
      DistanceBounds(b, c);
      DistanceBounds(a, c);
    } else {
      var a', b', c' := a[..|a| - 1], b[..|b| - 1], c[..|c| - 1];
      if Distance(a, b) == Distance(a', b) + 1 {
        TriangleInequality(a', b, c);
      } else if Distance(b, c) == Distance(b, c') + 1 {
        TriangleInequality(a, b, c');
      } else if Distance(a, b) == Distance(a, b') + 1 {
        if Distance(b, c) == Distance(b', c) + 1 {
          TriangleInequality(a, b', c);
        } else {
          TriangleInequality(a, b', c');
        }
      } else if Distance(b, c) == Distance(b', c) + 1 {
        TriangleInequality(a', b', c);
      } else {
        TriangleInequality(a', b', c');
      }
    }
  }

  // ---------------------------------------------------------------- normalized

  function Normalized<T(==)>(a: seq<T>, b: seq<T>): real {
    if a == [] && b == [] then 0.0 else Distance(a, b) as real / Max(|a|, |b|) as real
  }

  lemma Ratio(n: nat, d: nat)
    requires n <= d && d > 0
    ensures 0.0 <= n as real / d as real <= 1.0
    ensures n as real / d as real == 0.0 <==> n == 0
  {
    var q := n as real / d as real;
    assert q * d as real == n as real;
  }

  lemma NormalizedIsMetric<T>(a: seq<T>, b: seq<T>)
    ensures 0.0 <= Normalized(a, b) <= 1.0
    ensures Normalized(a, b) == 0.0 <==> a == b
    ensures Normalized(a, b) == Normalized(b, a)
  {
    DistanceBounds(a, b);
    DistanceSymmetric(a, b);
    if a != [] || b != [] {
      Ratio(Distance(a, b), Max(|a|, |b|));
    }
  }

  /** The whole range is used: paths of equal length that share nothing, or one empty path, are at distance 1. */
  lemma {:induction false} DisjointPathsAreFarthest<T>(a: seq<T>, b: seq<T>)
    requires forall i, j :: 0 <= i < |a| && 0 <= j < |b| ==> a[i] != b[j]
    ensures Distance(a, b) == Max(|a|, |b|)
    decreases |a| + |b|
  {
    if a != [] && b != [] {
      var m, n := |a| - 1, |b| - 1;
      DisjointPathsAreFarthest(a, b[..n]);
      DisjointPathsAreFarthest(a[..m], b);
      DisjointPathsAreFarthest(a[..m], b[..n]);
      assert a[m] != b[n];
    }
  }

  /** q is n in units of d. */
  predicate InUnitsOf(q: real, n: nat, d: nat) {
    q * d as real == n as real
  }

  lemma Whole(q: real, n: nat, d: nat)
    requires d > 0 && q == n as real / d as real
    ensures InUnitsOf(q, n, d)
    ensures n == d ==> q == 1.0
  {
  }

  lemma NormalizedIs<T>(a: seq<T>, b: seq<T>)
    requires a != [] || b != []
    ensures Max(|a|, |b|) > 0 && Normalized(a, b) == Distance(a, b) as real / Max(|a|, |b|) as real
  {
  }

  /** The normalized distance is the distance in units of the longer length. */
  lemma NormalizedScale<T>(a: seq<T>, b: seq<T>)
    requires a != [] || b != []
    ensures InUnitsOf(Normalized(a, b), Distance(a, b), Max(|a|, |b|))
    ensures Distance(a, b) == Max(|a|, |b|) ==> Normalized(a, b) == 1.0
  {
    hide InUnitsOf;
    NormalizedIs(a, b);
    Whole(Normalized(a, b), Distance(a, b), Max(|a|, |b|));
  }

  /** So paths that share no node are exactly one apart. */
  lemma DisjointPathsAreOneApart<T>(a: seq<T>, b: seq<T>)
    requires a != [] || b != []
    requires forall i, j :: 0 <= i < |a| && 0 <= j < |b| ==> a[i] != b[j]
    ensures Normalized(a, b) == 1.0
  {
    DisjointPathsAreFarthest(a, b);
    NormalizedScale(a, b);
  }
}
