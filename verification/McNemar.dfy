/**
 The exact McNemar test (benchmark/comparison/statistics.go:371-385): the loop over binomial
 terms, and what the number it returns is.
 */
module McNemar {

  /** Pascal's triangle. */
  function Choose(n: nat, k: nat): nat {
    if k == 0 then 1 else if n == 0 then 0 else Choose(n - 1, k - 1) + Choose(n - 1, k)
  }

  function Pow2(n: nat): (p: nat)
    ensures p > 0
  {
    if n == 0 then 1 else 2 * Pow2(n - 1)
  }

  /** How many outcomes of n fair coins have at most k heads. */
  function Tail(n: nat, k: nat): nat {
    if k == 0 then Choose(n, 0) else Tail(n, k - 1) + Choose(n, k)
  }

  function Min(a: nat, b: nat): nat {
    if a <= b then a else b
  }

  /** Twice the probability of at most min(b, c) heads, cut at one. */
  function PValue(b: nat, c: nat): real {
    if b + c == 0 then 1.0
    else
      var doubled := (2 * Tail(b + c, Min(b, c))) as real / Pow2(b + c) as real;
      if doubled > 1.0 then 1.0 else doubled
  }

  // ---------------------------------------------------------------- the loop

  lemma {:induction false} ChooseZero(n: nat, k: nat)
    requires k > n
    ensures Choose(n, k) == 0
  {
    if n > 0 {
      ChooseZero(n - 1, k - 1);
      ChooseZero(n - 1, k);
    }
  }

  /** The ratio of neighbouring terms. */
  lemma {:induction false} ChooseStep(n: nat, k: nat)
    requires 0 < k <= n
    ensures Choose(n, k) * k == Choose(n, k - 1) * (n - k + 1)
    decreases n
  {
    if k == n {
      ChooseZero(n - 1, n);
      if n > 1 {
        ChooseStep(n - 1, n - 1);
        calc {
          Choose(n, n) * n;
        ==
          Choose(n - 1, n - 1) * (n - 1) + Choose(n - 1, n - 1);
        ==
          Choose(n - 1, n - 2) + Choose(n - 1, n - 1);
        ==
          Choose(n, n - 1);
        }
      }
    } else if k == 1 {
      ChooseStep(n - 1, 1);
    } else {
      ChooseStep(n - 1, k - 1);
      ChooseStep(n - 1, k);
      var a, b, c := Choose(n - 1, k - 2), Choose(n - 1, k - 1), Choose(n - 1, k);
      Pascal(a, b, c, n, k);
    }
  }

  lemma Pascal(a: nat, b: nat, c: nat, n: nat, k: nat)
    requires 1 < k < n && b * (k - 1) == a * (n - k + 1) && c * k == b * (n - k)
    ensures (b + c) * k == (a + b) * (n - k + 1)
  {
    assert b * k == b * (k - 1) + b;
    assert b * (n - k + 1) == b * (n - k) + b;
  }

  function Half(n: nat): real {
    if n == 0 then 1.0 else 0.5 * Half(n - 1)
  }

  lemma {:induction false} HalfIsInverse(n: nat)
    ensures Half(n) * Pow2(n) as real == 1.0
  {
    if n > 0 {
      HalfIsInverse(n - 1);
      assert Pow2(n) as real == 2.0 * Pow2(n - 1) as real;
    }
  }

  /** The probability of exactly k heads, and of at most k. */
  function Term(n: nat, k: nat): real {
    Half(n) * Choose(n, k) as real
  }

  function Sum(n: nat, k: nat): real {
    Half(n) * Tail(n, k) as real
  }

  lemma Scale(h: real, x: real, y: real, d: real, z: real)
    requires d > 0.0 && x * y == z * d
    ensures (h * x) * (y / d) == h * z
  {
    var q := y / d;
    assert q * d == y;
    assert (x * q) * d == z * d;
    assert x * q == z;
  }

  lemma NextTerm(n: nat, k: nat)
    requires 0 < k <= n
    ensures Term(n, k - 1) * ((n - k + 1) as real / k as real) == Term(n, k)
  {
    hide Choose, Half;
    ChooseStep(n, k);
    assert (Choose(n, k) * k) as real == Choose(n, k) as real * k as real;
    assert (Choose(n, k - 1) * (n - k + 1)) as real == Choose(n, k - 1) as real * (n - k + 1) as real;
    Scale(Half(n), Choose(n, k - 1) as real, (n - k + 1) as real, k as real, Choose(n, k) as real);
  }

  lemma NextSum(n: nat, k: nat)
    requires 0 < k
    ensures Sum(n, k - 1) + Term(n, k) == Sum(n, k)
  {
    hide Choose, Half;
    assert Tail(n, k) as real == Tail(n, k - 1) as real + Choose(n, k) as real;
  }

  lemma FirstTerm(n: nat)
    ensures Term(n, 0) == Half(n) == Sum(n, 0)
  {
  }

  lemma Doubled(n: nat, k: nat)
    ensures 2.0 * Sum(n, k) == (2 * Tail(n, k)) as real / Pow2(n) as real
  {
    hide Tail, Half;
    HalfIsInverse(n);
    var t, h, p := Tail(n, k) as real, Half(n), Pow2(n) as real;
    assert (2.0 * (h * t)) * p == 2.0 * t * (h * p);
    assert (2 * Tail(n, k)) as real == 2.0 * t;
  }

  method McNemarExact(baselineOnly: nat, targetOnly: nat) returns (p: real)
    ensures p == PValue(baselineOnly, targetOnly)
  {
    hide Term, Sum, Half, Tail, Pow2, Choose;
    var n := baselineOnly + targetOnly;
    if n == 0 {
      return 1.0;
    }
    var k := if baselineOnly <= targetOnly then baselineOnly else targetOnly;
    var probability := Half(n);
    FirstTerm(n);
    var sum, term := probability, probability;
    var index := 1;
    while index <= k
      invariant 1 <= index <= k + 1 && term == Term(n, index - 1) && sum == Sum(n, index - 1)
    {
      NextTerm(n, index);
      NextSum(n, index);
      term := term * ((n - index + 1) as real / index as real);
      sum := sum + term;
      index := index + 1;
    }
    Doubled(n, k);
    p := if 2.0 * sum > 1.0 then 1.0 else 2.0 * sum;
  }

  // ---------------------------------------------------------------- what the number is

  /** All outcomes together. */
  lemma {:induction false} TailAll(n: nat)
    ensures Tail(n, n) == Pow2(n)
  {
    if n > 0 {
      TailAll(n - 1);
      TailPascal(n - 1, n - 1);
      ChooseZero(n - 1, n);
    }
  }

  lemma {:induction false} TailPascal(n: nat, k: nat)
    ensures Tail(n + 1, k + 1) == Tail(n, k + 1) + Tail(n, k)
  {
    if k > 0 {
      TailPascal(n, k - 1);
    }
  }

  lemma {:induction false} ChooseFull(n: nat)
    ensures Choose(n, n) == 1
  {
    if n > 0 {
      ChooseFull(n - 1);
      ChooseZero(n - 1, n);
    }
  }

  lemma {:induction false} ChooseSymmetric(n: nat, k: nat)
    requires k <= n
    ensures Choose(n, k) == Choose(n, n - k)
  {
    if k == 0 {
      ChooseFull(n);
    } else if k == n {
      ChooseFull(n);
    } else {
      ChooseSymmetric(n - 1, k - 1);
      ChooseSymmetric(n - 1, k);
    }
  }

  /** As many outcomes have at most k heads as have at least n - k. */
  lemma {:induction false} TwoTails(n: nat, k: nat)
    requires k < n
    ensures Tail(n, k) + Tail(n, n - k - 1) == Pow2(n)
  {
    TailAll(n);
    ChooseSymmetric(n, k);
    if k == 0 {
      ChooseFull(n);
    } else {
      TwoTails(n, k - 1);
    }
  }

  lemma {:induction false} TailGrows(n: nat, j: nat, k: nat)
    requires j <= k
    ensures Tail(n, j) <= Tail(n, k)
    decreases k
  {
    if j < k {
      TailGrows(n, j, k - 1);
    }
  }

  lemma {:induction false} ChoosePositive(n: nat, k: nat)
    requires k <= n
    ensures Choose(n, k) > 0
  {
    if k > 0 {
      ChoosePositive(n - 1, k - 1);
    }
  }

  /** The cut at one bites exactly when both kinds of disagreement are equally frequent. */
  lemma ClampOnlyWhenBalanced(b: nat, c: nat)
    requires b + c > 0
    ensures 2 * Tail(b + c, Min(b, c)) > Pow2(b + c) <==> b == c
  {
    var n, k := b + c, Min(b, c);
    TwoTails(n, k);
    if b == c {
      ChoosePositive(n, k);
    } else {
      TailGrows(n, k, n - k - 1);
    }
  }

  /** A symmetric probability in (0, 1]; unless the counts balance, exactly twice the one-sided tail. */
  lemma PValueIsTwoSided(b: nat, c: nat)
    ensures PValue(b, c) == PValue(c, b) && 0.0 < PValue(b, c) <= 1.0
    ensures b != c ==> PValue(b, c) * Pow2(b + c) as real == (2 * Tail(b + c, Min(b, c))) as real
    ensures b == c ==> PValue(b, c) == 1.0
  {
    hide Tail, Pow2;
    if b + c > 0 {
      ClampOnlyWhenBalanced(b, c);
      TailIsPositive(b + c, Min(b, c));
      var t, p := 2 * Tail(b + c, Min(b, c)), Pow2(b + c);
      Quotient(t, p);
    }
  }

  lemma {:induction false} TailIsPositive(n: nat, k: nat)
    ensures Tail(n, k) > 0
  {
    TailGrows(n, 0, k);
  }

  lemma Quotient(t: nat, p: nat)
    requires p > 0
    ensures (t as real / p as real) * p as real == t as real
    ensures t as real / p as real > 1.0 <==> t > p
    ensures t > 0 ==> t as real / p as real > 0.0
  {
    var q := t as real / p as real;
    assert q * p as real == t as real;
  }
}
