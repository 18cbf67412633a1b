/**
 Semirings, and finite sums in them. The laws are kept behind a marker so that the
 verifier applies them only where a proof asks for them.
 */
module Semirings {

  datatype Semiring<!R> = Semiring(zero: R, one: R, plus: (R, R) -> R, times: (R, R) -> R)

  ghost predicate LawsAt<R>(s: Semiring<R>, a: R, b: R, c: R) {
    && s.plus(a, b) == s.plus(b, a)
    && s.plus(s.plus(a, b), c) == s.plus(a, s.plus(b, c))
    && s.plus(s.zero, a) == a
    && s.times(s.times(a, b), c) == s.times(a, s.times(b, c))
    && s.times(a, s.one) == a
    && s.times(s.plus(a, b), c) == s.plus(s.times(a, c), s.times(b, c))
    && s.times(a, s.plus(b, c)) == s.plus(s.times(a, b), s.times(a, c))
    && s.times(s.zero, a) == s.zero
    && s.times(a, s.zero) == s.zero
  }

  ghost predicate Mark<R>(a: R, b: R, c: R) {
    true
  }

  ghost predicate Laws<R(!new)>(s: Semiring<R>) {
    forall a, b, c {:trigger Mark(a, b, c)} :: Mark(a, b, c) ==> LawsAt(s, a, b, c)
  }

  lemma {:induction false} Law<R(!new)>(s: Semiring<R>, a: R, b: R, c: R)
    requires Laws(s)
    ensures LawsAt(s, a, b, c)
  {
    assert Mark(a, b, c);
  }

  function RealSemiring(): Semiring<real> {
    Semiring(0.0, 1.0, (a: real, b: real) => a + b, (a: real, b: real) => a * b)
  }

  lemma {:induction false} RealLaws()
    ensures Laws(RealSemiring())
  {
    forall a: real, b: real, c: real
      ensures LawsAt(RealSemiring(), a, b, c)
    {
      RealLawsAt(a, b, c);
    }
  }

  lemma {:induction false} RealLawsAt(a: real, b: real, c: real)
    ensures LawsAt(RealSemiring(), a, b, c)
  {
    assert a * b * c == a * (b * c);
    assert (a + b) * c == a * c + b * c;
    assert a * (b + c) == a * b + a * c;
  }

  // ----- logarithms

  /** A logarithm; `NegInf` is that of zero. */
  datatype LogValue = NegInf | Fin(x: real)

  /** `exp` is positive, and `ln` its inverse. */
  ghost predicate Inverse(exp: real -> real, ln: real -> real) {
    && (forall x :: exp(x) > 0.0 && ln(exp(x)) == x)
    && (forall y {:trigger ln(y)} :: y > 0.0 ==> exp(ln(y)) == y)
  }

  function Sum(x: real, y: real): real {
    x + y
  }

  /** `exp` turns sums into products. */
  ghost predicate Exponential(exp: real -> real) {
    forall x, y {:trigger Sum(x, y)} :: exp(Sum(x, y)) == exp(x) * exp(y)
  }

  ghost predicate IsExp(exp: real -> real, ln: real -> real) {
    Inverse(exp, ln) && Exponential(exp)
  }

  /** `logaddexp`. */
  function LogAdd(exp: real -> real, ln: real -> real, a: LogValue, b: LogValue): LogValue {
    if a.NegInf? then b else if b.NegInf? then a else Fin(ln(exp(a.x) + exp(b.x)))
  }

  function LogTimes(a: LogValue, b: LogValue): LogValue {
    if a.NegInf? || b.NegInf? then NegInf else Fin(a.x + b.x)
  }

  /** The weights as the code keeps them: logarithms, added by `logaddexp` and multiplied
      by addition. */
  function LogSemiring(exp: real -> real, ln: real -> real): Semiring<LogValue> {
    Semiring(NegInf, Fin(0.0), (a: LogValue, b: LogValue) => LogAdd(exp, ln, a, b),
             (a: LogValue, b: LogValue) => LogTimes(a, b))
  }

  function ExpOf(exp: real -> real, a: LogValue): real {
    if a.NegInf? then 0.0 else exp(a.x)
  }

  lemma {:induction false} ExpOfSum(exp: real -> real, ln: real -> real, a: LogValue, b: LogValue)
    requires IsExp(exp, ln)
    ensures ExpOf(exp, LogAdd(exp, ln, a, b)) == ExpOf(exp, a) + ExpOf(exp, b)
  {
    hide Exponential, Inverse;
    if a.Fin? && b.Fin? {
      PositiveExp(exp, ln, a.x);
      PositiveExp(exp, ln, b.x);
      ExpOfLn(exp, ln, exp(a.x) + exp(b.x));
    }
  }

  lemma {:induction false} PositiveExp(exp: real -> real, ln: real -> real, x: real)
    requires Inverse(exp, ln)
    ensures exp(x) > 0.0 && ln(exp(x)) == x
  {
  }

  lemma {:induction false} ExpOfLn(exp: real -> real, ln: real -> real, y: real)
    requires Inverse(exp, ln) && y > 0.0
    ensures exp(ln(y)) == y
  {
  }

  lemma {:induction false} ExpOfProduct(exp: real -> real, ln: real -> real, a: LogValue, b: LogValue)
    requires IsExp(exp, ln)
    ensures ExpOf(exp, LogTimes(a, b)) == ExpOf(exp, a) * ExpOf(exp, b)
  {
    hide Exponential, Inverse;
    if a.Fin? && b.Fin? {
      ExpOfPlus(exp, a.x, b.x);
    }
  }

  lemma {:induction false} ExpOfPlus(exp: real -> real, x: real, y: real)
    requires Exponential(exp)
    ensures exp(x + y) == exp(x) * exp(y)
  {
    assert Sum(x, y) == x + y;
  }

  lemma {:induction false} ExpOfInjective(exp: real -> real, ln: real -> real, a: LogValue, b: LogValue)
    requires IsExp(exp, ln) && ExpOf(exp, a) == ExpOf(exp, b)
    ensures a == b
  {
    hide Exponential, Inverse;
    if a.Fin? {
      PositiveExp(exp, ln, a.x);
    }
    if b.Fin? {
      PositiveExp(exp, ln, b.x);
    }
  }

  /** The logarithmic operations are those on reals, seen through `exp`; so their laws are
      the laws of reals. */
  lemma {:induction false} LogLaws(exp: real -> real, ln: real -> real)
    requires IsExp(exp, ln)
    ensures Laws(LogSemiring(exp, ln))
  {
    hide IsExp, LawsAt;
    forall a: LogValue, b: LogValue, c: LogValue
      ensures LawsAt(LogSemiring(exp, ln), a, b, c)
    {
      LogLawsAt(exp, ln, a, b, c);
    }
  }

  lemma {:induction false} LogLawsAt(exp: real -> real, ln: real -> real, a: LogValue, b: LogValue, c: LogValue)
    requires IsExp(exp, ln)
    ensures LawsAt(LogSemiring(exp, ln), a, b, c)
  {
    hide IsExp;
    LogAddLaws(exp, ln, a, b, c);
    LogDistributes(exp, ln, a, b, c);
  }

  lemma {:induction false} LogAddLaws(exp: real -> real, ln: real -> real, a: LogValue, b: LogValue, c: LogValue)
    requires IsExp(exp, ln)
    ensures LogAdd(exp, ln, a, b) == LogAdd(exp, ln, b, a)
    ensures LogAdd(exp, ln, LogAdd(exp, ln, a, b), c) == LogAdd(exp, ln, a, LogAdd(exp, ln, b, c))
  {
    hide IsExp, LogAdd, ExpOf;
    var ab, ba, bc := LogAdd(exp, ln, a, b), LogAdd(exp, ln, b, a), LogAdd(exp, ln, b, c);
    ExpOfSum(exp, ln, a, b);
    ExpOfSum(exp, ln, b, a);
    ExpOfSum(exp, ln, b, c);
    ExpOfSum(exp, ln, ab, c);
    ExpOfSum(exp, ln, a, bc);
    ExpOfInjective(exp, ln, ab, ba);
    ExpOfInjective(exp, ln, LogAdd(exp, ln, ab, c), LogAdd(exp, ln, a, bc));
  }

  lemma {:induction false} LogDistributes(exp: real -> real, ln: real -> real, a: LogValue, b: LogValue, c: LogValue)
    requires IsExp(exp, ln)
    ensures LogTimes(LogAdd(exp, ln, a, b), c) == LogAdd(exp, ln, LogTimes(a, c), LogTimes(b, c))
    ensures LogTimes(a, LogAdd(exp, ln, b, c)) == LogAdd(exp, ln, LogTimes(a, b), LogTimes(a, c))
  {
    DistributesRight(exp, ln, a, b, c);
    DistributesRight(exp, ln, b, c, a);
    TimesCommutes(a, LogAdd(exp, ln, b, c));
    TimesCommutes(a, b);
    TimesCommutes(a, c);
  }

  lemma {:induction false} TimesCommutes(a: LogValue, b: LogValue)
    ensures LogTimes(a, b) == LogTimes(b, a)
  {
  }

  lemma {:induction false} DistributesRight(exp: real -> real, ln: real -> real, a: LogValue, b: LogValue, c: LogValue)
    requires IsExp(exp, ln)
    ensures LogTimes(LogAdd(exp, ln, a, b), c) == LogAdd(exp, ln, LogTimes(a, c), LogTimes(b, c))
  {
    hide IsExp, LogAdd, LogTimes, ExpOf;
    var ab, ac, bc := LogAdd(exp, ln, a, b), LogTimes(a, c), LogTimes(b, c);
    ExpOfSum(exp, ln, a, b);
    ExpOfProduct(exp, ln, ab, c);
    ExpOfProduct(exp, ln, a, c);
    ExpOfProduct(exp, ln, b, c);
    ExpOfSum(exp, ln, ac, bc);
    SumTimes(ExpOf(exp, a), ExpOf(exp, b), ExpOf(exp, c));
    ExpOfInjective(exp, ln, LogTimes(ab, c), LogAdd(exp, ln, ac, bc));
  }

  lemma {:induction false} SumTimes(x: real, y: real, z: real)
    ensures (x + y) * z == x * z + y * z
  {
  }

  /** `f(0) + ... + f(n - 1)`, accumulated from the left. */
  function SumN<R>(s: Semiring<R>, n: nat, f: nat -> R): R {
    if n == 0 then s.zero else s.plus(SumN(s, n - 1, f), f(n - 1))
  }

  lemma {:induction false} SumNEqual<R>(s: Semiring<R>, n: nat, f: nat -> R, g: nat -> R)
    requires forall i: nat :: i < n ==> f(i) == g(i)
    ensures SumN(s, n, f) == SumN(s, n, g)
  {
    if n > 0 {
      SumNEqual(s, n - 1, f, g);
    }
  }

  lemma {:induction false} SumNTimesLeft<R(!new)>(s: Semiring<R>, n: nat, c: R, f: nat -> R, g: nat -> R)
    requires Laws(s)
    requires forall i: nat :: i < n ==> g(i) == s.times(c, f(i))
    ensures SumN(s, n, g) == s.times(c, SumN(s, n, f))
  {
    if n == 0 {
      Law(s, c, c, c);
    } else {
      SumNTimesLeft(s, n - 1, c, f, g);
      Law(s, c, SumN(s, n - 1, f), f(n - 1));
    }
  }

  lemma {:induction false} SumNTimesRight<R(!new)>(s: Semiring<R>, n: nat, c: R, f: nat -> R, g: nat -> R)
    requires Laws(s)
    requires forall i: nat :: i < n ==> g(i) == s.times(f(i), c)
    ensures SumN(s, n, g) == s.times(SumN(s, n, f), c)
  {
    if n == 0 {
      Law(s, c, c, c);
    } else {
      SumNTimesRight(s, n - 1, c, f, g);
      Law(s, SumN(s, n - 1, f), f(n - 1), c);
    }
  }

  lemma {:induction false} SumNAdd<R(!new)>(s: Semiring<R>, n: nat, f: nat -> R, g: nat -> R, h: nat -> R)
    requires Laws(s)
    requires forall i: nat :: i < n ==> h(i) == s.plus(f(i), g(i))
    ensures SumN(s, n, h) == s.plus(SumN(s, n, f), SumN(s, n, g))
  {
    if n == 0 {
      Law(s, s.zero, s.zero, s.zero);
    } else {
      SumNAdd(s, n - 1, f, g, h);
      var a, b, x, y := SumN(s, n - 1, f), SumN(s, n - 1, g), f(n - 1), g(n - 1);
      calc {
        s.plus(s.plus(a, b), s.plus(x, y));
        { Law(s, a, b, s.plus(x, y)); }
        s.plus(a, s.plus(b, s.plus(x, y)));
        { Law(s, b, x, y); Law(s, x, b, y); }
        s.plus(a, s.plus(x, s.plus(b, y)));
        { Law(s, a, x, s.plus(b, y)); }
        s.plus(s.plus(a, x), s.plus(b, y));
      }
    }
  }

  function RowSum<R>(s: Semiring<R>, m: nat, g: (nat, nat) -> R): nat -> R {
    (i: nat) => SumN(s, m, (j: nat) => g(i, j))
  }

  function ColumnSum<R>(s: Semiring<R>, n: nat, g: (nat, nat) -> R): nat -> R {
    (j: nat) => SumN(s, n, (i: nat) => g(i, j))
  }

  lemma {:induction false} SumNZero<R(!new)>(s: Semiring<R>, n: nat, f: nat -> R)
    requires Laws(s)
    requires forall i: nat :: i < n ==> f(i) == s.zero
    ensures SumN(s, n, f) == s.zero
  {
    if n > 0 {
      SumNZero(s, n - 1, f);
      Law(s, s.zero, s.zero, s.zero);
    }
  }

  /** A double sum may be taken in either order. */
  lemma {:induction false} SumNSwap<R(!new)>(s: Semiring<R>, n: nat, m: nat, g: (nat, nat) -> R)
    requires Laws(s)
    ensures SumN(s, n, RowSum(s, m, g)) == SumN(s, m, ColumnSum(s, n, g))
  {
    if n == 0 {
      SumNZero(s, m, ColumnSum(s, 0, g));
    } else {
      SumNSwap(s, n - 1, m, g);
      SumNAdd(s, m, ColumnSum(s, n - 1, g), (j: nat) => g(n - 1, j), ColumnSum(s, n, g));
    }
  }

  /** The sum of `f` over the elements of a sequence. */
  function SumSeq<T, R>(s: Semiring<R>, xs: seq<T>, f: T -> R): R {
    if xs == [] then s.zero else s.plus(SumSeq(s, xs[..|xs| - 1], f), f(xs[|xs| - 1]))
  }

  lemma {:induction false} SumSeqSingle<T, R(!new)>(s: Semiring<R>, x: T, f: T -> R)
    requires Laws(s)
    ensures SumSeq(s, [x], f) == f(x)
  {
    assert [x][..0] == [];
    Law(s, f(x), f(x), f(x));
  }

  lemma {:induction false} SumSeqConcat<T, R(!new)>(s: Semiring<R>, xs: seq<T>, ys: seq<T>, f: T -> R)
    requires Laws(s)
    ensures SumSeq(s, xs + ys, f) == s.plus(SumSeq(s, xs, f), SumSeq(s, ys, f))
    decreases |ys|
  {
    if ys == [] {
      assert xs + ys == xs;
      Law(s, SumSeq(s, xs, f), s.zero, s.zero);
    } else {
      var n := |ys| - 1;
      assert (xs + ys)[..|xs + ys| - 1] == xs + ys[..n];
      SumSeqConcat(s, xs, ys[..n], f);
      Law(s, SumSeq(s, xs, f), SumSeq(s, ys[..n], f), f(ys[n]));
    }
  }
}
