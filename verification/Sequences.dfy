/** Sequences without repetition, the sets of their elements, and what does not depend on their order. */
module Sequences {

  predicate Distinct<T(==)>(s: seq<T>) {
    forall i, j :: 0 <= i < j < |s| ==> s[i] != s[j]
  }

  function Elements<T>(s: seq<T>): set<T> {
    set x | x in s
  }

  lemma NoElements<T>(s: seq<T>)
    ensures Elements(s) == {} <==> s == []
  {
    if s != [] {
      assert s[0] in Elements(s);
    }
  }

  lemma {:induction false} SubsetSize<T>(a: set<T>, b: set<T>)
    requires a <= b
    ensures |a| <= |b|
    ensures |a| == |b| ==> a == b
  {
    if a != {} {
      var x :| x in a;
      SubsetSize(a - {x}, b - {x});
      assert a == (a - {x}) + {x} && b == (b - {x}) + {x};
    }
  }

  /** A sequence has as many different elements as positions exactly when nothing repeats. */
  lemma {:induction false} DistinctIffSize<T>(s: seq<T>)
    ensures |Elements(s)| <= |s|
    ensures |Elements(s)| == |s| <==> Distinct(s)
  {
    if s == [] {
      assert Elements(s) == {};
    } else {
      var n := |s| - 1;
      DistinctIffSize(s[..n]);
      assert s == s[..n] + [s[n]];
      if s[n] in s[..n] {
        assert Elements(s) == Elements(s[..n]);
        var i :| 0 <= i < n && s[i] == s[n];
      } else {
        assert Elements(s) == Elements(s[..n]) + {s[n]};
        assert s[n] !in Elements(s[..n]);
      }
    }
  }

  lemma {:induction false} DistinctMultiset<T>(s: seq<T>, x: T)
    requires Distinct(s)
    ensures multiset(s)[x] == if x in s then 1 else 0
  {
    if s != [] {
      var n := |s| - 1;
      DistinctMultiset(s[..n], x);
      assert s == s[..n] + [s[n]];
    }
  }

  lemma SameElements<T>(s: seq<T>, t: seq<T>)
    requires Distinct(s) && Distinct(t) && Elements(s) == Elements(t)
    ensures multiset(s) == multiset(t)
  {
    forall x
      ensures multiset(s)[x] == multiset(t)[x]
    {
      DistinctMultiset(s, x);
      DistinctMultiset(t, x);
      assert x in s <==> x in Elements(s);
      assert x in t <==> x in Elements(t);
    }
  }

  // ---------------------------------------------------------------- what survives a reordering

  /** What the elements yield, taken together. */
  function Yield<A, B>(f: A -> seq<B>, s: seq<A>): multiset<B> {
    if s == [] then multiset{} else Yield(f, s[..|s| - 1]) + multiset(f(s[|s| - 1]))
  }

  lemma {:induction false} YieldSplits<A, B>(f: A -> seq<B>, s: seq<A>, t: seq<A>)
    ensures Yield(f, s + t) == Yield(f, s) + Yield(f, t)
  {
    if t == [] {
      assert s + t == s;
    } else {
      var n := |t| - 1;
      YieldSplits(f, s, t[..n]);
      assert (s + t)[..|s + t| - 1] == s + t[..n];
    }
  }

  lemma YieldWithout<A, B>(f: A -> seq<B>, s: seq<A>, i: nat)
    requires i < |s|
    ensures Yield(f, s) == Yield(f, s[..i] + s[i + 1..]) + multiset(f(s[i]))
  {
    hide Yield;
    YieldSplits(f, s[..i + 1], s[i + 1..]);
    assert s[..i + 1] + s[i + 1..] == s;
    YieldSplits(f, s[..i], s[i + 1..]);
    YieldLast(f, s[..i + 1]);
    assert s[..i + 1][..i] == s[..i];
  }

  lemma YieldLast<A, B>(f: A -> seq<B>, s: seq<A>)
    requires s != []
    ensures Yield(f, s) == Yield(f, s[..|s| - 1]) + multiset(f(s[|s| - 1]))
  {
  }

  lemma MultisetWithout<A>(s: seq<A>, i: nat)
    requires i < |s|
    ensures multiset(s[..i] + s[i + 1..]) == multiset(s) - multiset{s[i]}
  {
    assert s == s[..i] + [s[i]] + s[i + 1..];
  }

  lemma {:induction false} YieldIgnoresOrder<A, B>(f: A -> seq<B>, s: seq<A>, t: seq<A>)
    requires multiset(s) == multiset(t)
    ensures Yield(f, s) == Yield(f, t)
  {
    hide Yield;
    if s == [] {
      assert |multiset(t)| == 0;
    } else {
      var n := |s| - 1;
      assert s[n] in multiset(t);
      var i :| 0 <= i < |t| && t[i] == s[n];
      MultisetWithout(s, n);
      MultisetWithout(t, i);
      assert s[..n] + s[n + 1..] == s[..n];
      YieldIgnoresOrder(f, s[..n], t[..i] + t[i + 1..]);
      YieldWithout(f, t, i);
      YieldLast(f, s);
    }
  }

  // ---------------------------------------------------------------- sums

  function SumOf<A>(f: A -> real, s: seq<A>): real {
    if s == [] then 0.0 else SumOf(f, s[..|s| - 1]) + f(s[|s| - 1])
  }

  lemma {:induction false} SumSplits<A>(f: A -> real, s: seq<A>, t: seq<A>)
    ensures SumOf(f, s + t) == SumOf(f, s) + SumOf(f, t)
  {
    if t == [] {
      assert s + t == s;
    } else {
      var n := |t| - 1;
      SumSplits(f, s, t[..n]);
      assert (s + t)[..|s + t| - 1] == s + t[..n];
    }
  }

  lemma SumLast<A>(f: A -> real, s: seq<A>)
    requires s != []
    ensures SumOf(f, s) == SumOf(f, s[..|s| - 1]) + f(s[|s| - 1])
  {
  }

  lemma SumOfOne<A>(f: A -> real, x: A)
    ensures SumOf(f, [x]) == f(x)
  {
    assert [x][..0] == [];
  }

  lemma SumWithout<A>(f: A -> real, s: seq<A>, i: nat)
    requires i < |s|
    ensures SumOf(f, s) == SumOf(f, s[..i] + s[i + 1..]) + f(s[i])
  {
    hide SumOf;
    SumSplits(f, s[..i], [s[i]]);
    SumSplits(f, s[..i] + [s[i]], s[i + 1..]);
    SumSplits(f, s[..i], s[i + 1..]);
    SumOfOne(f, s[i]);
    assert s == s[..i] + [s[i]] + s[i + 1..];
  }

  /** A sum does not depend on the order of its terms. */
  lemma {:induction false} SumIgnoresOrder<A>(f: A -> real, s: seq<A>, t: seq<A>)
    requires multiset(s) == multiset(t)
    ensures SumOf(f, s) == SumOf(f, t)
  {
    if s == [] {
      assert |multiset(t)| == 0;
    } else {
      var n := |s| - 1;
      assert s[n] in multiset(t);
      var i :| 0 <= i < |t| && t[i] == s[n];
      MultisetWithout(s, n);
      MultisetWithout(t, i);
      assert s[..n] + s[n + 1..] == s[..n];
      SumIgnoresOrder(f, s[..n], t[..i] + t[i + 1..]);
      SumWithout(f, t, i);
    }
  }

  lemma {:induction false} SumsAgree<A>(f: A -> real, g: A -> real, s: seq<A>)
    requires forall x :: x in s ==> f(x) == g(x)
    ensures SumOf(f, s) == SumOf(g, s)
  {
    if s != [] {
      SumsAgree(f, g, s[..|s| - 1]);
    }
  }

  lemma {:induction false} SumOfConstant<A>(f: A -> real, s: seq<A>, c: real)
    requires forall x :: x in s ==> f(x) == c
    ensures SumOf(f, s) == |s| as real * c
  {
    if s != [] {
      var n := |s| - 1;
      SumOfConstant(f, s[..n], c);
      assert (n + 1) as real * c == n as real * c + c;
    }
  }

  /** Go's map iteration: every key once, in an arbitrary order. */
  method Iterate<K(==)>(keys: set<K>) returns (names: seq<K>)
    ensures Elements(names) == keys && Distinct(names)
  {
    names := [];
    var rest := keys;
    while rest != {}
      invariant rest <= keys && Elements(names) == keys - rest && Distinct(names)
      decreases |rest|
    {
      var x :| x in rest;
      assert x !in Elements(names);
      assert Elements(names + [x]) == Elements(names) + {x};
      names := names + [x];
      rest := rest - {x};
    }
  }
}
