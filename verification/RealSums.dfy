/**
 Finite sums of reals over sequences, shared by the routing, regime, correlation
 and position models.
 */
module RealSums {
  import opened Sorting

  function SumBy<T>(s: seq<T>, f: T -> real): real {
    if s == [] then 0.0 else SumBy(s[..|s| - 1], f) + f(s[|s| - 1])
  }

  lemma {:induction false} SumBySnoc<T>(a: seq<T>, x: T, f: T -> real)
    ensures SumBy(a + [x], f) == SumBy(a, f) + f(x)
  {
    assert (a + [x])[..|a|] == a;
  }

  lemma {:induction false} SumByConcat<T>(a: seq<T>, b: seq<T>, f: T -> real)
    ensures SumBy(a + b, f) == SumBy(a, f) + SumBy(b, f)
    decreases |b|
  {
    if b == [] {
      assert a + b == a;
    } else {
      assert (a + b)[..|a + b| - 1] == a + b[..|b| - 1];
      SumByConcat(a, b[..|b| - 1], f);
    }
  }

  /** Taking one term out of the middle of a sum. */
  lemma {:induction false} SumByRemove<T>(s: seq<T>, k: nat, f: T -> real)
    requires k < |s|
    ensures SumBy(s, f) == SumBy(s[..k] + s[k + 1..], f) + f(s[k])
  {
    SumByConcat(s[..k], s[k + 1..], f);
    SumByConcat(s[..k + 1], s[k + 1..], f);
    assert s == s[..k + 1] + s[k + 1..];
    assert s[..k + 1][..k] == s[..k];
  }

  /** A sum does not depend on the order of its terms. */
  lemma {:induction false} SumByPermutation<T>(a: seq<T>, b: seq<T>, f: T -> real)
    requires multiset(a) == multiset(b)
    ensures SumBy(a, f) == SumBy(b, f)
    decreases |a|
  {
    if a == [] {
      assert |multiset(b)| == 0;
    } else {
      var n := |a| - 1;
      assert a[n] in multiset(b);
      var k :| 0 <= k < |b| && b[k] == a[n];
      MultisetRemove(a, n);
      MultisetRemove(b, k);
      assert a[..n] + a[n + 1..] == a[..n];
      SumByPermutation(a[..n], b[..k] + b[k + 1..], f);
      SumByRemove(b, k, f);
    }
  }

  /** The sum of `f(0), ..., f(n - 1)`. */
  function SumN(n: nat, f: nat -> real): real {
    if n == 0 then 0.0 else SumN(n - 1, f) + f(n - 1)
  }

  lemma {:induction false} SumNEqual(n: nat, f: nat -> real, g: nat -> real)
    requires forall i: nat :: i < n ==> f(i) == g(i)
    ensures SumN(n, f) == SumN(n, g)
  {
    if n > 0 {
      SumNEqual(n - 1, f, g);
    }
  }

  /** Sums are linear. */
  lemma {:induction false} SumNLinear(n: nat, a: real, f: nat -> real, b: real, g: nat -> real, h: nat -> real)
    requires forall i: nat :: i < n ==> h(i) == a * f(i) + b * g(i)
    ensures SumN(n, h) == a * SumN(n, f) + b * SumN(n, g)
  {
    if n > 0 {
      SumNLinear(n - 1, a, f, b, g, h);
      assert a * SumN(n, f) == a * SumN(n - 1, f) + a * f(n - 1);
      assert b * SumN(n, g) == b * SumN(n - 1, g) + b * g(n - 1);
    }
  }

  /** A sum with at most one nonzero term. */
  lemma {:induction false} SumNSingle(n: nat, k: nat, f: nat -> real)
    requires forall i: nat :: i < n && i != k ==> f(i) == 0.0
    ensures SumN(n, f) == if k < n then f(k) else 0.0
  {
    if n > 0 {
      SumNSingle(n - 1, k, f);
    }
  }

  lemma {:induction false} SumNNonNegative(n: nat, f: nat -> real)
    requires forall i: nat :: i < n ==> f(i) >= 0.0
    ensures SumN(n, f) >= 0.0
  {
    if n > 0 {
      SumNNonNegative(n - 1, f);
    }
  }

  lemma {:induction false} NonNegativeProduct(a: real, b: real)
    requires a >= 0.0 && b >= 0.0
    ensures a * b >= 0.0
  {
  }

  lemma {:induction false} PositiveProduct(a: real, b: real)
    requires a > 0.0 && b > 0.0
    ensures a * b > 0.0
  {
  }
}
