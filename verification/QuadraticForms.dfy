/**
 Quadratic forms of finite real matrices given by their entries, and what keeps them
 nonnegative.
 */
module QuadraticForms {
  import opened RealSums

  type Entries = (nat, nat) -> real

  function RowTerms(w: nat -> real, g: Entries, i: nat): nat -> real {
    (j: nat) => w(j) * g(i, j)
  }

  function QuadTerms(n: nat, w: nat -> real, g: Entries): nat -> real {
    (i: nat) => w(i) * SumN(n, RowTerms(w, g, i))
  }

  /** The sum of `w(i) * w(j) * g(i, j)` over all `i, j < n`. */
  function Quad(n: nat, w: nat -> real, g: Entries): real {
    SumN(n, QuadTerms(n, w, g))
  }

  function Diagonal(g: Entries): nat -> real {
    (i: nat) => g(i, i)
  }

  function Trace(n: nat, g: Entries): real {
    SumN(n, Diagonal(g))
  }

  function Weighted(w: nat -> real, r: nat -> real): nat -> real {
    (i: nat) => w(i) * r(i)
  }

  function Outer(r: nat -> real): Entries {
    (i: nat, j: nat) => r(i) * r(j)
  }

  function Identity(): Entries {
    (i: nat, j: nat) => if i == j then 1.0 else 0.0
  }

  lemma {:induction false} DistributeTerm(x: real, a: real, p: real, b: real, q: real)
    ensures x * (a * p + b * q) == a * (x * p) + b * (x * q)
  {
    assert x * (a * p + b * q) == x * (a * p) + x * (b * q);
    assert x * (a * p) == a * (x * p);
    assert x * (b * q) == b * (x * q);
  }

  /** A quadratic form is linear in its matrix. */
  lemma {:induction false} QuadLinear(n: nat, w: nat -> real, a: real, g: Entries, b: real, h: Entries, k: Entries)
    requires forall i: nat, j: nat :: i < n && j < n ==> k(i, j) == a * g(i, j) + b * h(i, j)
    ensures Quad(n, w, k) == a * Quad(n, w, g) + b * Quad(n, w, h)
  {
    hide SumN, QuadTerms;
    forall i: nat | i < n
      ensures QuadTerms(n, w, k)(i) == a * QuadTerms(n, w, g)(i) + b * QuadTerms(n, w, h)(i)
    {
      QuadTermLinear(n, w, a, g, b, h, k, i);
    }
    SumNLinear(n, a, QuadTerms(n, w, g), b, QuadTerms(n, w, h), QuadTerms(n, w, k));
  }

  lemma {:induction false} QuadTermLinear(n: nat, w: nat -> real, a: real, g: Entries, b: real, h: Entries, k: Entries, i: nat)
    requires i < n
    requires forall i: nat, j: nat :: i < n && j < n ==> k(i, j) == a * g(i, j) + b * h(i, j)
    ensures QuadTerms(n, w, k)(i) == a * QuadTerms(n, w, g)(i) + b * QuadTerms(n, w, h)(i)
  {
    hide SumN, RowTerms;
    RowLinear(n, w, a, g, b, h, k, i);
    DistributeTerm(w(i), a, SumN(n, RowTerms(w, g, i)), b, SumN(n, RowTerms(w, h, i)));
  }

  lemma {:induction false} RowLinear(n: nat, w: nat -> real, a: real, g: Entries, b: real, h: Entries, k: Entries, i: nat)
    requires i < n
    requires forall i: nat, j: nat :: i < n && j < n ==> k(i, j) == a * g(i, j) + b * h(i, j)
    ensures SumN(n, RowTerms(w, k, i)) == a * SumN(n, RowTerms(w, g, i)) + b * SumN(n, RowTerms(w, h, i))
  {
    forall j: nat | j < n
      ensures RowTerms(w, k, i)(j) == a * RowTerms(w, g, i)(j) + b * RowTerms(w, h, i)(j)
    {
      DistributeTerm(w(j), a, g(i, j), b, h(i, j));
    }
    SumNLinear(n, a, RowTerms(w, g, i), b, RowTerms(w, h, i), RowTerms(w, k, i));
  }

  /** The form of an outer product is a square. */
  lemma {:induction false} QuadOuter(n: nat, w: nat -> real, r: nat -> real)
    ensures Quad(n, w, Outer(r)) == SumN(n, Weighted(w, r)) * SumN(n, Weighted(w, r))
    ensures Quad(n, w, Outer(r)) >= 0.0
  {
    var d := SumN(n, Weighted(w, r));
    forall i: nat | i < n
      ensures QuadTerms(n, w, Outer(r))(i) == d * Weighted(w, r)(i) + 0.0 * Weighted(w, r)(i)
    {
      OuterRow(n, w, r, i);
      assert w(i) * (r(i) * d) == d * (w(i) * r(i));
    }
    SumNLinear(n, d, Weighted(w, r), 0.0, Weighted(w, r), QuadTerms(n, w, Outer(r)));
    Square(d);
  }

  lemma {:induction false} Square(x: real)
    ensures x * x >= 0.0
  {
    if x >= 0.0 {
      NonNegativeProduct(x, x);
    } else {
      NonNegativeProduct(-x, -x);
    }
  }

  lemma {:induction false} OuterRow(n: nat, w: nat -> real, r: nat -> real, i: nat)
    ensures SumN(n, RowTerms(w, Outer(r), i)) == r(i) * SumN(n, Weighted(w, r))
  {
    forall j: nat | j < n
      ensures RowTerms(w, Outer(r), i)(j) == r(i) * Weighted(w, r)(j) + 0.0 * Weighted(w, r)(j)
    {
      assert w(j) * (r(i) * r(j)) == r(i) * (w(j) * r(j));
    }
    SumNLinear(n, r(i), Weighted(w, r), 0.0, Weighted(w, r), RowTerms(w, Outer(r), i));
  }

  lemma {:induction false} QuadIdentity(n: nat, w: nat -> real)
    ensures Quad(n, w, Identity()) >= 0.0
  {
    forall i: nat | i < n
      ensures QuadTerms(n, w, Identity())(i) >= 0.0
    {
      SumNSingle(n, i, RowTerms(w, Identity(), i));
      Square(w(i));
    }
    SumNNonNegative(n, QuadTerms(n, w, Identity()));
  }

  lemma {:induction false} QuadEqual(n: nat, w: nat -> real, g: Entries, k: Entries)
    requires forall i: nat, j: nat :: i < n && j < n ==> k(i, j) == g(i, j)
    ensures Quad(n, w, k) == Quad(n, w, g)
  {
    QuadLinear(n, w, 1.0, g, 0.0, g, k);
  }

  /** The form of a two-by-two matrix, written out. */
  lemma {:induction false} QuadTwo(w: nat -> real, g: Entries)
    ensures Quad(2, w, g) == w(0) * (w(0) * g(0, 0) + w(1) * g(0, 1)) + w(1) * (w(0) * g(1, 0) + w(1) * g(1, 1))
  {
    assert forall i: nat :: SumN(2, RowTerms(w, g, i)) == SumN(1, RowTerms(w, g, i)) + w(1) * g(i, 1);
    assert forall i: nat :: SumN(1, RowTerms(w, g, i)) == SumN(0, RowTerms(w, g, i)) + w(0) * g(i, 0);
    assert SumN(2, QuadTerms(2, w, g)) == SumN(1, QuadTerms(2, w, g)) + QuadTerms(2, w, g)(1);
    assert SumN(1, QuadTerms(2, w, g)) == SumN(0, QuadTerms(2, w, g)) + QuadTerms(2, w, g)(0);
  }

  function Without(w: nat -> real, mask: nat -> bool): nat -> real {
    (i: nat) => if mask(i) then 0.0 else w(i)
  }

  /** Clearing masked rows and columns of the matrix comes to clearing masked weights. */
  lemma {:induction false} QuadMasked(n: nat, w: nat -> real, g: Entries, k: Entries, mask: nat -> bool)
    requires forall i: nat, j: nat :: i < n && j < n ==> k(i, j) == if mask(i) || mask(j) then 0.0 else g(i, j)
    ensures Quad(n, w, k) == Quad(n, Without(w, mask), g)
  {
    var w' := Without(w, mask);
    forall i: nat | i < n
      ensures QuadTerms(n, w, k)(i) == QuadTerms(n, w', g)(i)
    {
      RowMasked(n, w, g, k, mask, i);
    }
    SumNEqual(n, QuadTerms(n, w, k), QuadTerms(n, w', g));
  }

  lemma {:induction false} RowMasked(n: nat, w: nat -> real, g: Entries, k: Entries, mask: nat -> bool, i: nat)
    requires forall i: nat, j: nat :: i < n && j < n ==> k(i, j) == if mask(i) || mask(j) then 0.0 else g(i, j)
    requires i < n
    ensures mask(i) ==> SumN(n, RowTerms(w, k, i)) == 0.0
    ensures !mask(i) ==> SumN(n, RowTerms(w, k, i)) == SumN(n, RowTerms(Without(w, mask), g, i))
  {
    if mask(i) {
      SumNLinear(n, 0.0, RowTerms(w, k, i), 0.0, RowTerms(w, k, i), RowTerms(w, k, i));
    } else {
      SumNEqual(n, RowTerms(w, k, i), RowTerms(Without(w, mask), g, i));
    }
  }
}
