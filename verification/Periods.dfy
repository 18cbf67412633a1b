/**
 Arithmetic of bar periods: Go's truncating division, its order, and how a fine
 period sits inside a coarse one.
 */
module Periods {

  /** Go's integer division, which truncates toward zero. */
  function GoDiv(a: int, b: int): int
    requires b > 0
  {
    if a >= 0 then a / b else -(-a / b)
  }

  lemma {:induction false} MulOrder(x: int, y: int, b: int)
    requires x < y && b > 0
    ensures x * b + b <= y * b
    decreases y - x
  {
    assert (y - 1) * b == y * b - b;
    if x < y - 1 {
      MulOrder(x, y - 1, b);
    }
  }

  lemma {:induction false} DivBounds(a: int, b: int)
    requires a >= 0 && b > 0
    ensures a / b * b <= a < a / b * b + b
    ensures a / b >= 0
  {
  }

  /** At most one multiple of `b` is within reach below `a`. */
  lemma {:induction false} UniqueQuotient(a: int, b: int, q: int, d: int)
    requires b > 0
    requires q * b <= a < q * b + b
    requires d * b <= a < d * b + b
    ensures q == d
  {
    if q < d {
      MulOrder(q, d, b);
    } else if d < q {
      MulOrder(d, q, b);
    }
  }

  lemma {:induction false} OrderedQuotients(a: int, b: int, p: int, q: int, d: int)
    requires a <= b && p > 0
    requires q * p <= a && b < d * p + p
    ensures q <= d
  {
    if d < q {
      MulOrder(d, q, p);
    }
  }

  lemma {:induction false} GoDivMonotone(a: int, b: int, p: int)
    requires a <= b && p > 0
    ensures GoDiv(a, p) <= GoDiv(b, p)
  {
    if a >= 0 {
      DivBounds(a, p);
      DivBounds(b, p);
      OrderedQuotients(a, b, p, a / p, b / p);
    } else if b < 0 {
      DivBounds(-a, p);
      DivBounds(-b, p);
      OrderedQuotients(-b, -a, p, -b / p, -a / p);
    } else {
      DivBounds(-a, p);
      DivBounds(b, p);
    }
  }

  /** With `k` the fine and `q` the coarse quotient of `a`, `q` is also the coarse quotient of `k * p`. */
  lemma {:induction false} CoarseBounds(a: int, p: int, r: int, k: int, q: int)
    requires p > 0 && r > 0
    requires k * p <= a < k * p + p
    requires q * (p * r) <= a < q * (p * r) + p * r
    ensures q * (p * r) <= k * p < q * (p * r) + p * r
  {
    assert q * (p * r) == q * r * p;
    assert p * r == r * p;
    assert (q * r + r) * p == q * r * p + r * p;
    if k < q * r {
      MulOrder(k, q * r, p);
    } else if q * r + r <= k {
      if q * r + r < k {
        MulOrder(q * r + r, k, p);
      }
    } else if q * r < k {
      MulOrder(q * r, k, p);
      MulOrder(k, q * r + r, p);
    } else {
      MulOrder(k, q * r + r, p);
    }
  }

  lemma {:induction false} CoarseDiv(a: nat, p: int, r: int)
    requires p > 0 && r > 0
    ensures p * r > 0
    ensures a / p * p >= 0
    ensures a / p * p / (p * r) == a / (p * r)
  {
    var m, k := p * r, a / p;
    assert m > 0;
    DivBounds(a, m);
    DivBounds(a, p);
    assert k * p >= 0;
    CoarseBounds(a, p, r, k, a / m);
    DivBounds(k * p, m);
    UniqueQuotient(k * p, m, a / m, k * p / m);
  }

  /** A fine period lies inside the coarse period of any of its instants. */
  lemma {:induction false} Coarsen(ts: int, p: int, r: int)
    requires p > 0 && r > 0
    ensures p * r > 0
    ensures GoDiv(GoDiv(ts, p) * p, p * r) == GoDiv(ts, p * r)
  {
    if ts >= 0 {
      CoarseDiv(ts, p, r);
    } else {
      CoarseDiv(-ts, p, r);
      var k := -ts / p;
      assert -k * p == -(k * p);
      assert GoDiv(ts, p) * p == -(k * p);
      if k * p == 0 {
        assert 0 / (p * r) == 0;
      }
    }
  }
}
