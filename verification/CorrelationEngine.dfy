/**
 The EWMA covariance engine (research/strategy-engine/correlation_engine.py).
 Logarithm and square root are parameters, and so is the decay before clamping: the
 results hold whatever returns the engine is fed.

 Over runs of full snapshots the covariance matrix stays symmetric and positive
 semidefinite. `CovarianceSchedules` and `CovarianceRuns` say exactly which partial ones
 keep it so.
 */
module CorrelationEngine {
  import opened RealSums
  import opened QuadraticForms

  type Symbol = string

  datatype Price = Unseen | Seen(value: real)

  type Matrix = (Symbol, Symbol) -> real

  // ----- the estimates as a matrix over all symbols

  /** Variance on the diagonal, covariance off it, 0 for anything not tracked. */
  function CovEntry(vars: map<Symbol, real>, covs: map<(Symbol, Symbol), real>, a: Symbol, b: Symbol): real {
    if a == b then (if a in vars then vars[a] else 0.0)
    else Lookup(covs, a, b)
  }

  function Lookup(covs: map<(Symbol, Symbol), real>, a: Symbol, b: Symbol): real {
    if (a, b) in covs then covs[(a, b)] else 0.0
  }

  function MatrixOf(vars: map<Symbol, real>, covs: map<(Symbol, Symbol), real>): Matrix {
    (a: Symbol, b: Symbol) => CovEntry(vars, covs, a, b)
  }

  ghost predicate Symmetric(m: Matrix) {
    forall a, b :: m(a, b) == m(b, a)
  }

  /** Only tracked symbols have nonzero entries. */
  ghost predicate SupportedOn(m: Matrix, known: set<Symbol>) {
    forall a, b :: a !in known || b !in known ==> m(a, b) == 0.0
  }

  /** The matrix read off for a list of symbols, repetitions and unknown ones included. */
  function At(m: Matrix, symbols: seq<Symbol>): Entries {
    (i: nat, j: nat) => if i < |symbols| && j < |symbols| then m(symbols[i], symbols[j]) else 0.0
  }

  /** Positive semidefinite: no portfolio over any list of symbols has negative variance. */
  ghost predicate PSD(m: Matrix) {
    forall symbols: seq<Symbol>, w: nat -> real :: Quad(|symbols|, w, At(m, symbols)) >= 0.0
  }

  // ----- one update, as a function of the matrix

  /** One EWMA step of a (co)variance with the returns `x` and `y`. */
  function Ewma(decay: real, was: real, x: real, y: real): real {
    decay * was + (1.0 - decay) * (x * y)
  }

  /** What an update with the returns `r` of the quoted symbols does to one entry. */
  function Decayed(m: Matrix, quoted: set<Symbol>, decay: real, r: Symbol -> real, a: Symbol, b: Symbol): real {
    if a in quoted && b in quoted then Ewma(decay, m(a, b), r(a), r(b)) else m(a, b)
  }

  function Step(m: Matrix, quoted: set<Symbol>, decay: real, r: Symbol -> real): Matrix {
    (a: Symbol, b: Symbol) => Decayed(m, quoted, decay, r, a, b)
  }

  function On(quoted: set<Symbol>, r: Symbol -> real, symbols: seq<Symbol>): nat -> real {
    (i: nat) => if i < |symbols| then ReturnOf(quoted, r, symbols[i]) else 0.0
  }

  /** Adding a nonnegative multiple of an outer product of returns keeps semidefiniteness. */
  lemma {:induction false} RankOneKeepsPsd(m: Matrix, m': Matrix, quoted: set<Symbol>, r: Symbol -> real, a: real, b: real)
    requires PSD(m) && a >= 0.0 && b >= 0.0
    requires forall x, y ::
      m'(x, y) == a * m(x, y) + b * (ReturnOf(quoted, r, x) * ReturnOf(quoted, r, y))
    ensures PSD(m')
  {
    forall symbols: seq<Symbol>, w: nat -> real
      ensures Quad(|symbols|, w, At(m', symbols)) >= 0.0
    {
      var n, rs := |symbols|, On(quoted, r, symbols);
      forall i: nat, j: nat | i < n && j < n
        ensures At(m', symbols)(i, j) == a * At(m, symbols)(i, j) + b * Outer(rs)(i, j)
      {
        assert m'(symbols[i], symbols[j]) == At(m', symbols)(i, j);
      }
      QuadLinear(n, w, a, At(m, symbols), b, Outer(rs), At(m', symbols));
      QuadOuter(n, w, rs);
      NonNegativeProduct(a, Quad(n, w, At(m, symbols)));
      NonNegativeProduct(b, Quad(n, w, Outer(rs)));
    }
  }

  function ReturnOf(quoted: set<Symbol>, r: Symbol -> real, a: Symbol): real {
    if a in quoted then r(a) else 0.0
  }

  lemma {:induction false} SafeEntry(m: Matrix, known: set<Symbol>, quoted: set<Symbol>, decay: real, r: Symbol -> real, a: Symbol, b: Symbol)
    requires a !in known || b !in known ==> m(a, b) == 0.0
    requires known <= quoted || known !! quoted
    ensures Decayed(m, quoted, decay, r, a, b)
         == (if known <= quoted then decay else 1.0) * m(a, b)
            + (1.0 - decay) * (ReturnOf(quoted, r, a) * ReturnOf(quoted, r, b))
  {
    if a !in quoted || b !in quoted {
      assert ReturnOf(quoted, r, a) * ReturnOf(quoted, r, b) == 0.0;
    }
  }

  /** A full snapshot keeps the matrix symmetric and semidefinite; so does one that
      quotes only symbols not tracked before. */
  lemma {:induction false} FullSnapshotKeepsPsd(m: Matrix, known: set<Symbol>, quoted: set<Symbol>, decay: real, r: Symbol -> real)
    requires PSD(m) && SupportedOn(m, known) && 0.0 <= decay <= 1.0
    requires known <= quoted || known !! quoted
    ensures PSD(Step(m, quoted, decay, r))
  {
    var a := if known <= quoted then decay else 1.0;
    forall x, y
      ensures Step(m, quoted, decay, r)(x, y)
           == a * m(x, y) + (1.0 - decay) * (ReturnOf(quoted, r, x) * ReturnOf(quoted, r, y))
    {
      SafeEntry(m, known, quoted, decay, r, x, y);
    }
    RankOneKeepsPsd(m, Step(m, quoted, decay, r), quoted, r, a, 1.0 - decay);
  }

  lemma {:induction false} StepKeepsShape(m: Matrix, known: set<Symbol>, quoted: set<Symbol>, decay: real, r: Symbol -> real)
    requires Symmetric(m) && SupportedOn(m, known)
    ensures Symmetric(Step(m, quoted, decay, r))
    ensures SupportedOn(Step(m, quoted, decay, r), known + quoted)
  {
    var m' := Step(m, quoted, decay, r);
    forall a, b
      ensures m'(a, b) == m'(b, a)
    {
      assert m(a, b) == m(b, a);
      assert r(a) * r(b) == r(b) * r(a);
    }
  }

  function Zero(): Matrix {
    (a: Symbol, b: Symbol) => 0.0
  }

  lemma {:induction false} ZeroIsPsd()
    ensures PSD(Zero())
  {
    forall symbols: seq<Symbol>, w: nat -> real
      ensures Quad(|symbols|, w, At(Zero(), symbols)) >= 0.0
    {
      var g := At(Zero(), symbols);
      QuadLinear(|symbols|, w, 0.0, g, 0.0, g, g);
    }
  }

  function Ones(s: Symbol, t: Symbol): Matrix {
    (a: Symbol, b: Symbol) => if (a == s || a == t) && (b == s || b == t) then 1.0 else 0.0
  }

  lemma {:induction false} OnesIsPsd(s: Symbol, t: Symbol)
    ensures PSD(Ones(s, t)) && Symmetric(Ones(s, t)) && SupportedOn(Ones(s, t), {s, t})
  {
    ZeroIsPsd();
    RankOneKeepsPsd(Zero(), Ones(s, t), {s, t}, (x: Symbol) => 1.0, 1.0, 1.0);
  }

  /** A snapshot that quotes `s` but not `t` breaks semidefiniteness when the two moved together. */
  lemma {:induction false} PartialSnapshotBreaksPsd(quoted: set<Symbol>, s: Symbol, t: Symbol, decay: real)
    requires s in quoted && t !in quoted && decay < 1.0
    ensures !PSD(Step(Ones(s, t), quoted, decay, (x: Symbol) => 0.0))
  {
    var m' := Step(Ones(s, t), quoted, decay, (x: Symbol) => 0.0);
    var symbols: seq<Symbol> := [s, t];
    var w := (i: nat) => if i == 0 then 1.0 else -1.0;
    var g := At(m', symbols);
    QuadTwo(w, g);
    assert m'(s, s) == decay && m'(s, t) == 1.0 && m'(t, s) == 1.0 && m'(t, t) == 1.0;
    assert g(0, 0) == decay && g(0, 1) == 1.0 && g(1, 0) == 1.0 && g(1, 1) == 1.0;
    assert Quad(|symbols|, w, g) == decay - 1.0;
  }

  ghost predicate SnapshotSafe(known: set<Symbol>, quoted: set<Symbol>, decay: real) {
    forall m: Matrix, r: Symbol -> real ::
      PSD(m) && Symmetric(m) && SupportedOn(m, known) ==> PSD(Step(m, quoted, decay, r))
  }

  /** Main result: a snapshot keeps every semidefinite matrix semidefinite exactly when
      it quotes all tracked symbols or none of them. */
  lemma {:induction false} SnapshotSafeIff(known: set<Symbol>, quoted: set<Symbol>, decay: real)
    requires 0.0 <= decay < 1.0
    ensures SnapshotSafe(known, quoted, decay) <==> known <= quoted || known !! quoted
  {
    if known <= quoted || known !! quoted {
      forall m: Matrix, r: Symbol -> real | PSD(m) && Symmetric(m) && SupportedOn(m, known)
        ensures PSD(Step(m, quoted, decay, r))
      {
        FullSnapshotKeepsPsd(m, known, quoted, decay, r);
      }
    } else {
      var s :| s in known && s in quoted;
      var t :| t in known && t !in quoted;
      OnesIsPsd(s, t);
      PartialSnapshotBreaksPsd(quoted, s, t, decay);
      assert SupportedOn(Ones(s, t), known);
    }
  }

  // ----- whole runs

  /** One call of `update`: the quoted symbols, the effective decay, the returns. */
  datatype Snapshot = Snapshot(quoted: set<Symbol>, decay: real, r: Symbol -> real)

  ghost function Known(run: seq<Snapshot>): set<Symbol> {
    if run == [] then {} else Known(run[..|run| - 1]) + run[|run| - 1].quoted
  }

  ghost function After(run: seq<Snapshot>): Matrix {
    if run == [] then Zero()
    else
      var last := run[|run| - 1];
      Step(After(run[..|run| - 1]), last.quoted, last.decay, last.r)
  }

  ghost predicate FullRun(run: seq<Snapshot>) {
    forall k :: 0 <= k < |run| ==> 0.0 <= run[k].decay <= 1.0 && Known(run[..k]) <= run[k].quoted
  }

  /** Main result: after any run of full snapshots, with symbols joining at any time, the
      matrix is symmetric and positive semidefinite. */
  lemma {:induction false} RunStaysPsd(run: seq<Snapshot>)
    requires FullRun(run)
    ensures PSD(After(run)) && Symmetric(After(run)) && SupportedOn(After(run), Known(run))
  {
    if run == [] {
      ZeroIsPsd();
    } else {
      var n := |run| - 1;
      assert forall k :: 0 <= k < n ==> run[..n][k] == run[k] && run[..n][..k] == run[..k];
      RunStaysPsd(run[..n]);
      var m, last := After(run[..n]), run[n];
      FullSnapshotKeepsPsd(m, Known(run[..n]), last.quoted, last.decay, last.r);
      StepKeepsShape(m, Known(run[..n]), last.quoted, last.decay, last.r);
    }
  }

  // ----- what the estimates are

  /** How much of an estimate for `a` and `b` is left after the snapshots from the k-th on. */
  function Left(run: seq<Snapshot>, k: nat, a: Symbol, b: Symbol): real
    requires k <= |run|
  {
    if k == |run| then 1.0
    else
      var n := |run| - 1;
      Left(run[..n], k, a, b) * if a in run[n].quoted && b in run[n].quoted then run[n].decay else 1.0
  }

  /** What the k-th snapshot adds to it in the end. */
  function Share(run: seq<Snapshot>, a: Symbol, b: Symbol): nat -> real {
    (k: nat) =>
      if k < |run| && a in run[k].quoted && b in run[k].quoted
      then Left(run, k + 1, a, b) * ((1.0 - run[k].decay) * (run[k].r(a) * run[k].r(b)))
      else 0.0
  }

  lemma {:induction false} ShareDecays(run: seq<Snapshot>, a: Symbol, b: Symbol, k: nat)
    requires k < |run| - 1
    ensures
      var n := |run| - 1;
      var decay := if a in run[n].quoted && b in run[n].quoted then run[n].decay else 1.0;
      Share(run, a, b)(k) == decay * Share(run[..n], a, b)(k) + 0.0 * Share(run[..n], a, b)(k)
  {
    var n := |run| - 1;
    var decay := if a in run[n].quoted && b in run[n].quoted then run[n].decay else 1.0;
    assert run[..n][k] == run[k];
    Regroup(Left(run[..n], k + 1, a, b), decay, (1.0 - run[k].decay) * (run[k].r(a) * run[k].r(b)));
  }

  lemma {:induction false} Regroup(x: real, y: real, z: real)
    ensures (x * y) * z == y * (x * z)
  {
  }

  function Scaled(decay: real, x: real): real {
    decay * x
  }

  /** What a snapshot adds at once. */
  function Fresh(decay: real, x: real, y: real): real {
    (1.0 - decay) * (x * y)
  }

  lemma {:induction false} SharesDecay(run: seq<Snapshot>, a: Symbol, b: Symbol, decay: real)
    requires run != []
    requires decay == if a in run[|run| - 1].quoted && b in run[|run| - 1].quoted then run[|run| - 1].decay else 1.0
    ensures
      var n := |run| - 1;
      SumN(n, Share(run, a, b)) == Scaled(decay, SumN(n, Share(run[..n], a, b)))
  {
    hide SumN, Share;
    var n := |run| - 1;
    var init := run[..n];
    forall k: nat | k < n
      ensures Share(run, a, b)(k) == decay * Share(init, a, b)(k) + 0.0 * Share(init, a, b)(k)
    {
      ShareDecays(run, a, b, k);
    }
    SumNLinear(n, decay, Share(init, a, b), 0.0, Share(init, a, b), Share(run, a, b));
  }

  /** The exponentially weighted estimate: each pair of returns with weight one less its
      snapshot's decay, times the decays of the later snapshots that quote both symbols. */
  lemma {:induction false} EstimateIsWeightedSum(run: seq<Snapshot>, a: Symbol, b: Symbol)
    ensures After(run)(a, b) == SumN(|run|, Share(run, a, b))
  {
    if run != [] {
      hide Share, SumN, Ewma, After, Scaled, Fresh;
      var n := |run| - 1;
      var last := run[n];
      AfterLast(run, a, b);
      EstimateIsWeightedSum(run[..n], a, b);
      LastShare(run, a, b);
      SumNLast(n, Share(run, a, b));
      if a in last.quoted && b in last.quoted {
        SharesDecay(run, a, b, last.decay);
        EwmaIs(last.decay, After(run[..n])(a, b), last.r(a), last.r(b));
      } else {
        SharesDecay(run, a, b, 1.0);
        ScaledByOne(After(run[..n])(a, b));
      }
    }
  }

  lemma {:induction false} AfterLast(run: seq<Snapshot>, a: Symbol, b: Symbol)
    requires run != []
    ensures
      var was, last := After(run[..|run| - 1])(a, b), run[|run| - 1];
      After(run)(a, b)
      == if a in last.quoted && b in last.quoted then Ewma(last.decay, was, last.r(a), last.r(b)) else was
  {
    hide Ewma;
  }

  lemma {:induction false} EwmaIs(decay: real, was: real, x: real, y: real)
    ensures Ewma(decay, was, x, y) == Scaled(decay, was) + Fresh(decay, x, y)
  {
  }

  lemma {:induction false} ScaledByOne(x: real)
    ensures Scaled(1.0, x) == x
  {
  }

  lemma {:induction false} LastShare(run: seq<Snapshot>, a: Symbol, b: Symbol)
    requires run != []
    ensures
      var last := run[|run| - 1];
      Share(run, a, b)(|run| - 1)
      == if a in last.quoted && b in last.quoted then Fresh(last.decay, last.r(a), last.r(b)) else 0.0
  {
    assert Left(run, |run|, a, b) == 1.0;
  }

  lemma {:induction false} SumNLast(n: nat, f: nat -> real)
    ensures SumN(n + 1, f) == SumN(n, f) + f(n)
  {
  }

  // ----- correlations

  /** A semidefinite matrix bounds every covariance by the two variances. */
  lemma {:induction false} CauchySchwarz(m: Matrix, a: Symbol, b: Symbol)
    requires PSD(m) && Symmetric(m)
    ensures m(a, a) >= 0.0
    ensures m(a, b) * m(a, b) <= m(a, a) * m(b, b)
  {
    var va, vb, c := m(a, a), m(b, b), m(a, b);
    PairForm(m, a, b, 1.0, 0.0);
    PairForm(m, a, b, 0.0, 1.0);
    PairForm(m, a, b, c, -va);
    if va > 0.0 {
      Discriminant(va, vb, c);
    } else if c != 0.0 {
      PairForm(m, a, b, -(vb + 1.0) / (2.0 * c), 1.0);
      ZeroVariance(vb, c);
    }
  }

  lemma {:induction false} PairForm(m: Matrix, a: Symbol, b: Symbol, x: real, y: real)
    requires PSD(m) && Symmetric(m)
    ensures x * x * m(a, a) + 2.0 * (x * y) * m(a, b) + y * y * m(b, b) >= 0.0
  {
    var symbols: seq<Symbol> := [a, b];
    var w := (i: nat) => if i == 0 then x else y;
    var g := At(m, symbols);
    assert Quad(|symbols|, w, g) >= 0.0;
    QuadTwo(w, g);
    assert m(b, a) == m(a, b);
    PairExpand(x, y, m(a, a), m(a, b), m(b, b));
  }

  lemma {:induction false} PairExpand(x: real, y: real, p: real, c: real, q: real)
    ensures x * (x * p + y * c) + y * (x * c + y * q) == x * x * p + 2.0 * (x * y) * c + y * y * q
  {
    assert x * (x * p + y * c) == x * x * p + x * y * c;
    assert y * (x * c + y * q) == x * y * c + y * y * q;
  }

  lemma {:induction false} Discriminant(va: real, vb: real, c: real)
    requires va > 0.0
    requires c * c * va + 2.0 * (c * -va) * c + -va * -va * vb >= 0.0
    ensures c * c <= va * vb
  {
    assert c * c * va + 2.0 * (c * -va) * c + -va * -va * vb == va * (va * vb - c * c);
  }

  lemma {:induction false} ZeroVariance(vb: real, c: real)
    requires c != 0.0
    ensures 2.0 * (-(vb + 1.0) / (2.0 * c) * 1.0) * c == -(vb + 1.0)
  {
  }

  function Clip(c: real): real {
    var low := if c < 1.0 then c else 1.0;
    if low > -1.0 then low else -1.0
  }

  ghost predicate IsSqrt(sqrt: real -> real) {
    forall x :: x >= 0.0 ==> sqrt(x) >= 0.0 && sqrt(x) * sqrt(x) == x
  }

  function StdDev(sqrt: real -> real, m: Matrix, a: Symbol): real {
    sqrt(if m(a, a) > 0.0 then m(a, a) else 0.0)
  }

  function Correlation(sqrt: real -> real, m: Matrix, a: Symbol, b: Symbol): real {
    if a == b then 1.0
    else
      Normalised(m(a, b), Denominator(sqrt, m, a, b))
  }

  function Denominator(sqrt: real -> real, m: Matrix, a: Symbol, b: Symbol): real {
    StdDev(sqrt, m, a) * StdDev(sqrt, m, b)
  }

  function Normalised(cov: real, denom: real): real {
    if denom == 0.0 then 0.0 else Clip(cov / denom)
  }

  lemma {:induction false} SquareOrder(x: real, y: real)
    requires 0.0 <= x < y
    ensures x * x < y * y
  {
    PositiveProduct(y - x, y + x);
    assert (y - x) * (y + x) == y * y - x * x;
  }

  lemma {:induction false} NormalisedWithinOne(c: real, p: real, q: real, pp: real, qq: real, d: real)
    requires p >= 0.0 && q >= 0.0 && pp == p * p && qq == q * q && d == p * q && d != 0.0
    requires c * c <= pp * qq
    ensures Normalised(c, d) == c / d && -1.0 <= c / d <= 1.0
  {
    NonNegativeProduct(p, q);
    assert (p * p) * (q * q) == d * d;
    WithinOne(c, d);
  }

  lemma {:induction false} WithinOne(c: real, d: real)
    requires d > 0.0 && c * c <= d * d
    ensures -1.0 <= c / d <= 1.0
  {
    var r := c / d;
    assert r * d == c;
    if r > 1.0 {
      PositiveProduct(r - 1.0, d);
      SquareOrder(d, c);
    } else if r < -1.0 {
      PositiveProduct(-1.0 - r, d);
      SquareOrder(d, -c);
    }
  }

  /** Main result: on a semidefinite matrix the clip to [-1, 1] never changes a correlation. */
  lemma {:induction false} ClipNeverEngages(sqrt: real -> real, m: Matrix, a: Symbol, b: Symbol)
    requires IsSqrt(sqrt) && PSD(m) && Symmetric(m)
    requires a != b && Denominator(sqrt, m, a, b) != 0.0
    ensures Correlation(sqrt, m, a, b) == m(a, b) / Denominator(sqrt, m, a, b)
    ensures -1.0 <= Correlation(sqrt, m, a, b) <= 1.0
  {
    hide StdDev, Denominator, IsSqrt, PSD, Symmetric, Normalised;
    CauchySchwarz(m, a, b);
    CauchySchwarz(m, b, a);
    StdDevSquared(sqrt, m, a);
    StdDevSquared(sqrt, m, b);
    DenominatorWithin(sqrt, m, a, b);
  }

  /** A correlation times both deviations is the covariance, and squared times both variances
      its square. */
  lemma {:induction false} CorrelationMeans(sqrt: real -> real, m: Matrix, a: Symbol, b: Symbol)
    requires IsSqrt(sqrt) && PSD(m) && Symmetric(m) && a != b && m(a, a) > 0.0 && m(b, b) > 0.0
    ensures
      var c, p, q := Correlation(sqrt, m, a, b), sqrt(m(a, a)), sqrt(m(b, b));
      c * (p * q) == m(a, b) && (c * c) * (m(a, a) * m(b, b)) == m(a, b) * m(a, b)
  {
    hide PSD, Symmetric, Correlation;
    var p, q := sqrt(m(a, a)), sqrt(m(b, b));
    SqrtPositive(sqrt, m(a, a));
    SqrtPositive(sqrt, m(b, b));
    PositiveProduct(p, q);
    assert StdDev(sqrt, m, a) == p && StdDev(sqrt, m, b) == q && Denominator(sqrt, m, a, b) == p * q;
    hide IsSqrt, StdDev, Denominator;
    ClipNeverEngages(sqrt, m, a, b);
    QuotientTimes(m(a, b), p, q, p * q, Correlation(sqrt, m, a, b), m(a, a), m(b, b));
  }

  lemma {:induction false} SqrtPositive(sqrt: real -> real, x: real)
    requires IsSqrt(sqrt) && x > 0.0
    ensures sqrt(x) > 0.0 && sqrt(x) * sqrt(x) == x
  {
  }

  lemma {:induction false} QuotientTimes(cov: real, p: real, q: real, d: real, c: real, pp: real, qq: real)
    requires p > 0.0 && q > 0.0 && d == p * q && d > 0.0 && c == cov / d && pp == p * p && qq == q * q
    ensures c * d == cov && (c * c) * (pp * qq) == cov * cov
  {
    assert c * d == cov;
    assert pp * qq == d * d;
    assert (c * c) * (d * d) == (c * d) * (c * d);
  }

  lemma {:induction false} DenominatorWithin(sqrt: real -> real, m: Matrix, a: Symbol, b: Symbol)
    requires Denominator(sqrt, m, a, b) != 0.0
    requires StdDev(sqrt, m, a) >= 0.0 && StdDev(sqrt, m, b) >= 0.0
    requires StdDev(sqrt, m, a) * StdDev(sqrt, m, a) == m(a, a)
    requires StdDev(sqrt, m, b) * StdDev(sqrt, m, b) == m(b, b)
    requires m(a, b) * m(a, b) <= m(a, a) * m(b, b)
    ensures Normalised(m(a, b), Denominator(sqrt, m, a, b)) == m(a, b) / Denominator(sqrt, m, a, b)
    ensures -1.0 <= m(a, b) / Denominator(sqrt, m, a, b) <= 1.0
  {
    hide StdDev, Normalised;
    NormalisedWithinOne(m(a, b), StdDev(sqrt, m, a), StdDev(sqrt, m, b), m(a, a), m(b, b), Denominator(sqrt, m, a, b));
  }

  lemma {:induction false} StdDevSquared(sqrt: real -> real, m: Matrix, a: Symbol)
    requires IsSqrt(sqrt) && m(a, a) >= 0.0
    ensures StdDev(sqrt, m, a) >= 0.0
    ensures StdDev(sqrt, m, a) * StdDev(sqrt, m, a) == m(a, a)
  {
  }

  // ----- the engine

  function Distance(x: real, y: real): real {
    if x < y then y - x else x - y
  }

  /** The clamped decay, the nearest there is to `power`; `power` is the base decay raised to the regime's volatility. */
  function EffectiveLambda(power: real): (decay: real)
    ensures 0.5 <= decay <= 0.99
    ensures forall other: real :: 0.5 <= other <= 0.99 ==> Distance(power, decay) <= Distance(power, other)
  {
    var low := if power < 0.99 then power else 0.99;
    if low > 0.5 then low else 0.5
  }

  /** A snapshot of prices: a dictionary, as its items in order. */
  ghost predicate IsDict(trade: seq<(Symbol, real)>) {
    forall i, j :: 0 <= i < j < |trade| ==> trade[i].0 != trade[j].0
  }

  function Quoted(trade: seq<(Symbol, real)>): set<Symbol> {
    set k | 0 <= k < |trade| :: trade[k].0
  }

  /** The log return of a price against the last one, 0 when either is unusable. */
  function LogReturn(ln: real -> real, last: Price, price: real): real {
    if last.Seen? && last.value > 0.0 && price > 0.0 then ln(price / last.value) else 0.0
  }

  function Returns(ln: real -> real, last: map<Symbol, Price>, trade: seq<(Symbol, real)>): map<Symbol, real> {
    if trade == [] then map[]
    else
      var n := |trade| - 1;
      var (sym, price) := trade[n];
      Returns(ln, last, trade[..n])[sym := LogReturn(ln, if sym in last then last[sym] else Unseen, price)]
  }

  function ReturnFunction(innovations: map<Symbol, real>): Symbol -> real {
    (a: Symbol) => if a in innovations then innovations[a] else 0.0
  }

  lemma {:induction false} ReturnsKeys(ln: real -> real, last: map<Symbol, Price>, trade: seq<(Symbol, real)>)
    ensures Returns(ln, last, trade).Keys == Quoted(trade)
  {
    if trade != [] {
      var n := |trade| - 1;
      ReturnsKeys(ln, last, trade[..n]);
      assert Quoted(trade) == Quoted(trade[..n]) + {trade[n].0};
    }
  }

  // ----- runs of calls

  datatype Call = Call(trade: seq<(Symbol, real)>, power: real)

  function PriceOf(last: map<Symbol, Price>, a: Symbol): Price {
    if a in last then last[a] else Unseen
  }

  function PriceIn(trade: seq<(Symbol, real)>, a: Symbol): Price {
    if trade == [] then Unseen
    else
      var n := |trade| - 1;
      if trade[n].0 == a then Seen(trade[n].1) else PriceIn(trade[..n], a)
  }

  /** The price a symbol was last quoted at. */
  function PriceAfter(calls: seq<Call>, a: Symbol): Price {
    if calls == [] then Unseen
    else
      var n := |calls| - 1;
      var p := PriceIn(calls[n].trade, a);
      if p.Seen? then p else PriceAfter(calls[..n], a)
  }

  function ReturnAt(ln: real -> real, before: seq<Call>, call: Call, a: Symbol): real {
    var p := PriceIn(call.trade, a);
    if p.Seen? then LogReturn(ln, PriceAfter(before, a), p.value) else 0.0
  }

  /** What a call amounts to, after some others. */
  function SnapshotOf(ln: real -> real, before: seq<Call>, call: Call): Snapshot {
    Snapshot(Quoted(call.trade), EffectiveLambda(call.power), (a: Symbol) => ReturnAt(ln, before, call, a))
  }

  function RunOf(ln: real -> real, calls: seq<Call>): (run: seq<Snapshot>)
    ensures |run| == |calls|
  {
    if calls == [] then []
    else
      var n := |calls| - 1;
      RunOf(ln, calls[..n]) + [SnapshotOf(ln, calls[..n], calls[n])]
  }

  lemma {:induction false} PriceInIffQuoted(trade: seq<(Symbol, real)>, a: Symbol)
    ensures PriceIn(trade, a).Seen? <==> a in Quoted(trade)
  {
    if trade != [] {
      var n := |trade| - 1;
      PriceInIffQuoted(trade[..n], a);
      assert Quoted(trade) == Quoted(trade[..n]) + {trade[n].0};
    }
  }

  lemma {:induction false} PriceInDict(trade: seq<(Symbol, real)>, k: nat)
    requires IsDict(trade) && k < |trade|
    ensures PriceIn(trade, trade[k].0) == Seen(trade[k].1)
  {
    var n := |trade| - 1;
    if k < n {
      PriceInDict(trade[..n], k);
    }
  }

  lemma {:induction false} ReturnsAt(ln: real -> real, last: map<Symbol, Price>, trade: seq<(Symbol, real)>, a: Symbol)
    ensures ReturnFunction(Returns(ln, last, trade))(a)
         == if PriceIn(trade, a).Seen? then LogReturn(ln, PriceOf(last, a), PriceIn(trade, a).value) else 0.0
  {
    hide LogReturn;
    if trade != [] {
      ReturnsAt(ln, last, trade[..|trade| - 1], a);
    }
  }

  /** Quoted symbols have their new prices, the others their old ones if any. */
  ghost predicate Requoted(was: map<Symbol, Price>, now: map<Symbol, Price>, trade: seq<(Symbol, real)>) {
    && now.Keys == was.Keys + Quoted(trade)
    && (forall k :: 0 <= k < |trade| ==> trade[k].0 in now && now[trade[k].0] == Seen(trade[k].1))
    && (forall a :: a in was && a !in Quoted(trade) ==> now[a] == was[a])
  }

  lemma {:induction false} RepricedAfter(calls: seq<Call>, call: Call, was: map<Symbol, Price>, now: map<Symbol, Price>)
    requires IsDict(call.trade) && Requoted(was, now, call.trade)
    requires forall a :: PriceOf(was, a) == PriceAfter(calls, a)
    ensures forall a :: PriceOf(now, a) == PriceAfter(calls + [call], a)
  {
    assert (calls + [call])[..|calls|] == calls;
    forall a
      ensures PriceOf(now, a) == PriceAfter(calls + [call], a)
    {
      PriceInIffQuoted(call.trade, a);
      if a in Quoted(call.trade) {
        var k :| 0 <= k < |call.trade| && call.trade[k].0 == a;
        PriceInDict(call.trade, k);
      } else {
        assert a in now <==> a in was;
        assert PriceOf(was, a) == PriceAfter(calls, a);
      }
    }
  }

  lemma {:induction false} UpdateIsStep(
      ln: real -> real, calls: seq<Call>, call: Call, last: map<Symbol, Price>, m: Matrix, m': Matrix)
    requires forall a :: PriceOf(last, a) == PriceAfter(calls, a)
    requires forall a, b :: m(a, b) == After(RunOf(ln, calls))(a, b)
    requires forall a, b :: m'(a, b) == Decayed(m, Quoted(call.trade), EffectiveLambda(call.power),
                                                ReturnFunction(Returns(ln, last, call.trade)), a, b)
    ensures forall a, b :: m'(a, b) == After(RunOf(ln, calls + [call]))(a, b)
  {
    hide Ewma, LogReturn, Returns, ReturnFunction, EffectiveLambda, Quoted;
    var run, next := RunOf(ln, calls), SnapshotOf(ln, calls, call);
    assert (calls + [call])[..|calls|] == calls && (run + [next])[..|run|] == run;
    forall a, b
      ensures m'(a, b) == After(RunOf(ln, calls + [call]))(a, b)
    {
      ReturnsAt(ln, last, call.trade, a);
      ReturnsAt(ln, last, call.trade, b);
      assert PriceOf(last, a) == PriceAfter(calls, a) && PriceOf(last, b) == PriceAfter(calls, b);
      assert After(run + [next])(a, b) == Decayed(After(run), next.quoted, next.decay, next.r, a, b);
      assert m(a, b) == After(run)(a, b);
    }
  }

  /** The tracked symbols in the order they were first quoted. */
  function Listed(instruments: seq<Symbol>, trade: seq<(Symbol, real)>): seq<Symbol> {
    if trade == [] then instruments
    else
      var n := |trade| - 1;
      var before := Listed(instruments, trade[..n]);
      if trade[n].0 in before then before else before + [trade[n].0]
  }

  method RawCovariance(m: Matrix, symbols: seq<Symbol>) returns (raw: array2<real>)
    ensures fresh(raw) && raw.Length0 == raw.Length1 == |symbols|
    ensures forall i: nat, j: nat :: i < |symbols| && j < |symbols| ==> raw[i, j] == At(m, symbols)(i, j)
  {
    ghost var g := At(m, symbols);
    var n := |symbols|;
    raw := new real[n, n]((i, j) => 0.0);
    for i := 0 to n
      invariant forall k: nat, j: nat :: k < i && j < n ==> raw[k, j] == g(k, j)
    {
      for j := 0 to n
        invariant forall k: nat, l: nat :: k < i && l < n ==> raw[k, l] == g(k, l)
        invariant forall l: nat :: l < j ==> raw[i, l] == g(i, l)
      {
        raw[i, j] := m(symbols[i], symbols[j]);
      }
    }
  }

  class Engine {
    const ln: real -> real
    var instruments: seq<Symbol>
    var lastPrices: map<Symbol, Price>
    var vars: map<Symbol, real>
    var covs: map<(Symbol, Symbol), real>
    /** The calls of `Update` so far. */
    ghost var calls: seq<Call>

    constructor (ln: real -> real)
      ensures Valid() && calls == [] && this.ln == ln && instruments == [] && lastPrices == map[]
      ensures forall a, b :: Covariance()(a, b) == 0.0
    {
      this.ln := ln;
      instruments, lastPrices, vars, covs := [], map[], map[], map[];
      calls := [];
    }

    /** The tables hold tracked symbols only. */
    ghost predicate Tables()
      reads this
    {
      && (forall a :: a in lastPrices <==> a in instruments)
      && (forall a :: a in vars ==> a in lastPrices)
      && (forall a, b :: (a, b) in covs ==> a in lastPrices && b in lastPrices)
    }

    function Covariance(): Matrix
      reads this
    {
      MatrixOf(vars, covs)
    }

    /** Prices and estimates are those of the calls so far. */
    ghost predicate Valid()
      reads this
    {
      && Tables()
      && (forall a :: PriceOf(lastPrices, a) == PriceAfter(calls, a))
      && (forall a, b :: CovEntry(vars, covs, a, b) == After(RunOf(ln, calls))(a, b))
    }

    /** Starts tracking a symbol. The matrix over all symbols does not change. */
    method EnsureInstrument(sym: Symbol)
      requires Tables()
      modifies this
      ensures Tables()
      ensures instruments == if sym in old(lastPrices) then old(instruments) else old(instruments) + [sym]
      ensures lastPrices == if sym in old(lastPrices) then old(lastPrices) else old(lastPrices)[sym := Unseen]
      ensures forall a, b :: CovEntry(vars, covs, a, b) == CovEntry(old(vars), old(covs), a, b)
    {
      if sym !in lastPrices {
        instruments := instruments + [sym];
        lastPrices := lastPrices[sym := Unseen];
        vars := vars[sym := 0.0];
        for k := 0 to |instruments|
          modifies this`covs
          invariant forall a, b :: (a, b) in covs ==> a in lastPrices && b in lastPrices
          invariant forall a, b :: Lookup(covs, a, b) == Lookup(old(covs), a, b)
        {
          var other := instruments[k];
          assert Lookup(old(covs), sym, other) == 0.0 && Lookup(old(covs), other, sym) == 0.0;
          covs := covs[(sym, other) := 0.0][(other, sym) := 0.0];
        }
      }
    }

    /** One symbol's share of an update: its variance and its covariances with every
        quoted symbol. */
    method UpdateRow(sym: Symbol, trade: seq<(Symbol, real)>, decay: real, innovations: map<Symbol, real>)
      requires Tables() && IsDict(trade)
      requires sym in Quoted(trade)
      requires innovations.Keys == Quoted(trade) <= lastPrices.Keys
      modifies this`vars, this`covs
      ensures Tables()
      ensures forall a, b :: CovEntry(vars, covs, a, b)
                == if a == sym then Decayed(old(Covariance()), Quoted(trade), decay, ReturnFunction(innovations), a, b)
                   else CovEntry(old(vars), old(covs), a, b)
    {
      var r := innovations[sym];
      vars := vars[sym := Ewma(decay, if sym in vars then vars[sym] else 0.0, r, r)];
      for k := 0 to |trade|
        modifies this`covs
        invariant forall a, b :: (a, b) in covs ==> a in lastPrices && b in lastPrices
        invariant forall a, b :: Lookup(covs, a, b)
                    == if a == sym && b != sym && b in Quoted(trade[..k])
                       then Ewma(decay, Lookup(old(covs), a, b), r, innovations[b])
                       else Lookup(old(covs), a, b)
      {
        var other := trade[k].0;
        QuotedSnoc(trade, k);
        assert other !in Quoted(trade[..k]);
        if sym != other {
          covs := covs[(sym, other) := Ewma(decay, Lookup(covs, sym, other), r, innovations[other])];
        }
      }
      assert trade[..|trade|] == trade;
    }

    /** Main operation: one snapshot of prices. The whole new matrix is the EWMA step of
        the old one, a full snapshot keeps it a covariance matrix, and after any calls it is
        what their returns, one step after the other, lead to. */
    method Update(trade: seq<(Symbol, real)>, power: real)
      requires Valid() && IsDict(trade)
      modifies this
      ensures Valid() && calls == old(calls) + [Call(trade, power)]
      ensures instruments == Listed(old(instruments), trade)
      ensures Requoted(old(lastPrices), lastPrices, trade)
      ensures forall a, b :: CovEntry(vars, covs, a, b)
                == Decayed(old(Covariance()), Quoted(trade), EffectiveLambda(power),
                           ReturnFunction(Returns(ln, old(lastPrices), trade)), a, b)
      ensures old(CovarianceMatrix()) && old(lastPrices).Keys <= Quoted(trade) ==> CovarianceMatrix()
    {
      hide After, RunOf, PriceAfter, PriceOf, Listed, Returns, ReturnFunction, EffectiveLambda, Requoted,
           PSD, Symmetric, SupportedOn, Decayed, Quoted, CovEntry;
      ghost var call, m0 := Call(trade, power), Covariance();
      UpdateTables(trade, power);
      calls := old(calls) + [call];
      RepricedAfter(old(calls), call, old(lastPrices), lastPrices);
      UpdateIsStep(ln, old(calls), call, old(lastPrices), m0, Covariance());
    }

    /** The prices and estimates of an update. */
    method UpdateTables(trade: seq<(Symbol, real)>, power: real)
      requires Tables() && IsDict(trade)
      modifies this
      ensures Tables() && instruments == Listed(old(instruments), trade)
      ensures Requoted(old(lastPrices), lastPrices, trade)
      ensures forall a, b :: CovEntry(vars, covs, a, b)
                == Decayed(old(Covariance()), Quoted(trade), EffectiveLambda(power),
                           ReturnFunction(Returns(ln, old(lastPrices), trade)), a, b)
      ensures old(CovarianceMatrix()) && old(lastPrices).Keys <= Quoted(trade) ==> CovarianceMatrix()
    {
      TrackAll(trade);
      var decay := EffectiveLambda(power);
      var innovations := Innovations(trade);
      ReturnsSame(ln, lastPrices, old(lastPrices), trade);
      ReturnsKeys(ln, old(lastPrices), trade);
      ghost var m0, m1, r := old(Covariance()), Covariance(), ReturnFunction(innovations);
      ApplyRows(trade, decay, innovations);
      forall a, b
        ensures Covariance()(a, b) == Decayed(m0, Quoted(trade), decay, r, a, b)
      {
        assert m1(a, b) == m0(a, b);
      }
      if old(CovarianceMatrix()) && old(lastPrices).Keys <= Quoted(trade) {
        UpdateKeepsCovariance(m0, old(lastPrices).Keys, Quoted(trade), decay, r, Covariance());
      }
    }

    method ApplyRows(trade: seq<(Symbol, real)>, decay: real, innovations: map<Symbol, real>)
      requires Tables() && IsDict(trade)
      requires innovations.Keys == Quoted(trade) <= lastPrices.Keys
      modifies this`lastPrices, this`vars, this`covs
      ensures Tables() && Repriced(old(lastPrices), lastPrices, trade)
      ensures forall a, b :: CovEntry(vars, covs, a, b)
                == Decayed(old(Covariance()), Quoted(trade), decay, ReturnFunction(innovations), a, b)
    {
      ghost var m0, r := Covariance(), ReturnFunction(innovations);
      for k := 0 to |trade|
        invariant Tables()
        invariant Repriced(old(lastPrices), lastPrices, trade[..k])
        invariant RowsStepped(m0, Covariance(), Quoted(trade[..k]), Quoted(trade), decay, r)
      {
        QuotedSnoc(trade, k);
        RepricedSnoc(old(lastPrices), lastPrices, trade, k);
        lastPrices := lastPrices[trade[k].0 := Seen(trade[k].1)];
        ghost var m := Covariance();
        UpdateRow(trade[k].0, trade, decay, innovations);
        RowStepped(m0, m, Covariance(), Quoted(trade[..k]), trade[k].0, Quoted(trade), decay, r);
      }
      assert trade[..|trade|] == trade;
      forall a, b
        ensures CovEntry(vars, covs, a, b) == Decayed(m0, Quoted(trade), decay, r, a, b)
      {
        assert RowStep(m0, Covariance(), Quoted(trade), Quoted(trade), decay, r, a, b);
      }
    }

    method TrackAll(trade: seq<(Symbol, real)>)
      requires Tables()
      modifies this
      ensures Tables() && instruments == Listed(old(instruments), trade)
      ensures lastPrices.Keys == old(lastPrices).Keys + Quoted(trade)
      ensures forall a :: a in lastPrices ==> lastPrices[a] == if a in old(lastPrices) then old(lastPrices)[a] else Unseen
      ensures forall a, b :: CovEntry(vars, covs, a, b) == CovEntry(old(vars), old(covs), a, b)
    {
      assert Quoted(trade[..0]) == {};
      hide Quoted, Lookup, CovEntry;
      for k := 0 to |trade|
        invariant Tables() && instruments == Listed(old(instruments), trade[..k])
        invariant forall a :: a in lastPrices <==> a in old(lastPrices) || a in Quoted(trade[..k])
        invariant forall a :: a in lastPrices ==> lastPrices[a] == if a in old(lastPrices) then old(lastPrices)[a] else Unseen
        invariant forall a, b :: CovEntry(vars, covs, a, b) == CovEntry(old(vars), old(covs), a, b)
      {
        QuotedSnoc(trade, k);
        assert trade[..k + 1][..k] == trade[..k];
        EnsureInstrument(trade[k].0);
      }
      assert trade[..|trade|] == trade;
    }

    method Innovations(trade: seq<(Symbol, real)>) returns (innovations: map<Symbol, real>)
      requires Quoted(trade) <= lastPrices.Keys
      ensures innovations == Returns(ln, lastPrices, trade)
    {
      innovations := map[];
      for k := 0 to |trade|
        invariant innovations == Returns(ln, lastPrices, trade[..k])
      {
        QuotedSnoc(trade, k);
        assert trade[..k + 1][..k] == trade[..k];
        var (sym, price) := trade[k];
        var prev := lastPrices[sym];
        if prev.Seen? && prev.value > 0.0 && price > 0.0 {
          innovations := innovations[sym := ln(price / prev.value)];
        } else {
          innovations := innovations[sym := 0.0];
        }
      }
      assert trade[..|trade|] == trade;
    }

    ghost predicate CovarianceMatrix()
      reads this
    {
      PSD(Covariance()) && Symmetric(Covariance()) && SupportedOn(Covariance(), lastPrices.Keys)
    }

    method GetCovarianceMatrix(wanted: seq<Symbol>, regularize: bool) returns (mat: array2<real>)
      ensures var symbols := if wanted == [] then instruments else wanted;
              && mat.Length0 == mat.Length1 == |symbols|
              && forall i: nat, j: nat :: i < |symbols| && j < |symbols| ==>
                   mat[i, j] == Reported(|symbols|, At(Covariance(), symbols), regularize)(i, j)
    {
      var symbols := if wanted == [] then instruments else wanted;
      var n := |symbols|;
      ghost var g := At(Covariance(), symbols);
      var raw := RawCovariance(Covariance(), symbols);
      mat := new real[n, n]((i, j) requires 0 <= i < n && 0 <= j < n reads raw => (raw[i, j] + raw[j, i]) / 2.0);
      if regularize && n > 1 {
        var trace := 0.0;
        for i := 0 to n
          invariant forall k: nat, l: nat :: k < n && l < n ==> mat[k, l] == Half(g)(k, l)
          invariant trace == Trace(i, Half(g))
        {
          trace := trace + mat[i, i];
        }
        var targetVar := trace / n as real;
        mat := new real[n, n]((i, j) requires 0 <= i < n && 0 <= j < n reads mat =>
          0.9 * mat[i, j] + 0.1 * (if i == j then targetVar else 0.0));
      }
    }
  }

  /** The quoted symbols have their new prices, the others their old ones. */
  ghost predicate Repriced(was: map<Symbol, Price>, now: map<Symbol, Price>, trade: seq<(Symbol, real)>) {
    && now.Keys == was.Keys
    && (forall k :: 0 <= k < |trade| ==> trade[k].0 in now && now[trade[k].0] == Seen(trade[k].1))
    && (forall a :: a in was && a !in Quoted(trade) ==> now[a] == was[a])
  }

  lemma {:induction false} RepricedSnoc(was: map<Symbol, Price>, now: map<Symbol, Price>, trade: seq<(Symbol, real)>, k: nat)
    requires k < |trade| && IsDict(trade) && trade[k].0 in now
    requires Repriced(was, now, trade[..k])
    ensures Repriced(was, now[trade[k].0 := Seen(trade[k].1)], trade[..k + 1])
  {
    QuotedSnoc(trade, k);
    assert forall j :: 0 <= j < k ==> trade[..k + 1][j] == trade[..k][j] == trade[j];
  }

  /** Entry (a, b) after the rows of `done` have been stepped. */
  ghost predicate RowStep(m0: Matrix, m: Matrix, done: set<Symbol>, quoted: set<Symbol>,
                          decay: real, r: Symbol -> real, a: Symbol, b: Symbol)
  {
    m(a, b) == if a in done then Decayed(m0, quoted, decay, r, a, b) else m0(a, b)
  }

  ghost predicate RowsStepped(m0: Matrix, m: Matrix, done: set<Symbol>, quoted: set<Symbol>,
                              decay: real, r: Symbol -> real)
  {
    forall a, b :: RowStep(m0, m, done, quoted, decay, r, a, b)
  }

  lemma {:induction false} RowStepped(m0: Matrix, m: Matrix, m': Matrix, done: set<Symbol>, sym: Symbol, quoted: set<Symbol>,
                   decay: real, r: Symbol -> real)
    requires sym !in done
    requires RowsStepped(m0, m, done, quoted, decay, r)
    requires forall a, b :: m'(a, b) == if a == sym then Decayed(m, quoted, decay, r, a, b) else m(a, b)
    ensures RowsStepped(m0, m', done + {sym}, quoted, decay, r)
  {
    forall a, b
      ensures RowStep(m0, m', done + {sym}, quoted, decay, r, a, b)
    {
      assert RowStep(m0, m, done, quoted, decay, r, a, b);
      if a == sym {
        assert m(a, b) == m0(a, b);
      }
    }
  }

  /** The average of a matrix and its transpose. */
  function Half(g: Entries): Entries {
    (i: nat, j: nat) => (g(i, j) + g(j, i)) / 2.0
  }

  /** Shrinkage of a tenth towards the average variance. */
  function Shrunk(n: nat, g: Entries): Entries
    requires n > 0
  {
    (i: nat, j: nat) => 0.9 * g(i, j) + 0.1 * (if i == j then Trace(n, g) / n as real else 0.0)
  }

  function Reported(n: nat, g: Entries, regularize: bool): Entries {
    if regularize && n > 1 then Shrunk(n, Half(g)) else Half(g)
  }

  lemma {:induction false} UpdateKeepsCovariance(m: Matrix, known: set<Symbol>, quoted: set<Symbol>, decay: real, r: Symbol -> real,
                              m': Matrix)
    requires PSD(m) && Symmetric(m) && SupportedOn(m, known)
    requires 0.0 <= decay <= 1.0 && known <= quoted
    requires forall a, b :: m'(a, b) == Decayed(m, quoted, decay, r, a, b)
    ensures PSD(m') && Symmetric(m') && SupportedOn(m', quoted)
  {
    FullSnapshotKeepsPsd(m, known, quoted, decay, r);
    StepKeepsShape(m, known, quoted, decay, r);
    var step := Step(m, quoted, decay, r);
    assert forall a, b :: m'(a, b) == step(a, b);
    forall symbols: seq<Symbol>, w: nat -> real
      ensures Quad(|symbols|, w, At(m', symbols)) >= 0.0
    {
      QuadEqual(|symbols|, w, At(step, symbols), At(m', symbols));
      assert Quad(|symbols|, w, At(step, symbols)) >= 0.0;
    }
    assert known + quoted == quoted;
    assert forall a, b :: a !in quoted || b !in quoted ==> step(a, b) == 0.0;
    assert forall a, b :: step(a, b) == step(b, a);
  }

  lemma {:induction false} ReturnsSame(ln: real -> real, last: map<Symbol, Price>, last': map<Symbol, Price>,
                                       trade: seq<(Symbol, real)>)
    requires Quoted(trade) <= last.Keys
    requires forall a :: a in last ==> last[a] == if a in last' then last'[a] else Unseen
    ensures Returns(ln, last, trade) == Returns(ln, last', trade)
  {
    if trade != [] {
      var n := |trade| - 1;
      QuotedSnoc(trade, n);
      assert trade[..n + 1] == trade;
      ReturnsSame(ln, last, last', trade[..n]);
    }
  }

  /** Main result: the reported matrix of a covariance matrix is symmetric and positive
      semidefinite, and shrinkage does not change its trace. */
  lemma {:induction false} ReportedIsCovariance(m: Matrix, symbols: seq<Symbol>, regularize: bool, w: nat -> real)
    requires PSD(m) && Symmetric(m)
    ensures var n := |symbols|; var g := Reported(n, At(m, symbols), regularize);
            && Quad(n, w, g) >= 0.0
            && Trace(n, g) == Trace(n, At(m, symbols))
            && forall i: nat, j: nat :: i < n && j < n ==> g(i, j) == g(j, i)
  {
    var n, raw := |symbols|, At(m, symbols);
    var half := Half(raw);
    assert forall i: nat, j: nat :: i < n && j < n ==> raw(i, j) == raw(j, i);
    assert forall i: nat, j: nat :: i < n && j < n ==> half(i, j) == raw(i, j);
    QuadEqual(n, w, raw, half);
    SumNEqual(n, Diagonal(half), Diagonal(raw));
    assert Quad(n, w, raw) >= 0.0;
    if regularize && n > 1 {
      forall i: nat | i < n
        ensures Diagonal(half)(i) >= 0.0
      {
        CauchySchwarz(m, symbols[i], symbols[i]);
        assert half(i, i) == raw(i, i);
      }
      SumNNonNegative(n, Diagonal(half));
      ShrinkageKeepsPsd(n, w, half);
      ShrinkageKeepsTrace(n, half);
    }
  }

  lemma {:induction false} ShrunkEntry(n: nat, g: Entries, target: real, i: nat, j: nat)
    requires n > 0 && target == Trace(n, g) / n as real
    ensures Shrunk(n, g)(i, j) == 0.9 * g(i, j) + 0.1 * target * Identity()(i, j)
  {
  }

  /** What is reported: the mean of both entries of a pair; with shrinkage of several symbols
      0.9 of that off the diagonal, and on it 0.9 of the distance from the mean variance. */
  lemma {:induction false} ReportedMeans(n: nat, g: Entries, regularize: bool, i: nat, j: nat)
    requires n > 0
    ensures
      var mean, shrinks := Trace(n, Half(g)) / n as real, regularize && n > 1;
      && (!shrinks ==> Reported(n, g, regularize)(i, j) == (g(i, j) + g(j, i)) / 2.0)
      && (shrinks && i != j ==> Reported(n, g, regularize)(i, j) == 0.9 * ((g(i, j) + g(j, i)) / 2.0))
      && (shrinks ==> Reported(n, g, regularize)(i, i) - mean == 0.9 * (g(i, i) - mean))
  {
    hide Trace;
  }

  lemma {:induction false} ShrinkageKeepsPsd(n: nat, w: nat -> real, g: Entries)
    requires n > 0 && Quad(n, w, g) >= 0.0 && Trace(n, g) >= 0.0
    ensures Quad(n, w, Shrunk(n, g)) >= 0.0
  {
    var target := Trace(n, g) / n as real;
    forall i: nat, j: nat
      ensures Shrunk(n, g)(i, j) == 0.9 * g(i, j) + 0.1 * target * Identity()(i, j)
    {
      ShrunkEntry(n, g, target, i, j);
    }
    QuadLinear(n, w, 0.9, g, 0.1 * target, Identity(), Shrunk(n, g));
    QuadIdentity(n, w);
    NonNegativeProduct(0.1 * target, Quad(n, w, Identity()));
  }

  lemma {:induction false} ShrinkageKeepsTrace(n: nat, g: Entries)
    requires n > 0
    ensures Trace(n, Shrunk(n, g)) == Trace(n, g)
  {
    var target := Trace(n, g) / n as real;
    forall i: nat
      ensures Diagonal(Shrunk(n, g))(i) == 0.9 * Diagonal(g)(i) + 0.1 * target * Diagonal(Identity())(i)
    {
      ShrunkEntry(n, g, target, i, i);
    }
    SumNLinear(n, 0.9, Diagonal(g), 0.1 * target, Diagonal(Identity()), Diagonal(Shrunk(n, g)));
    ConstantTrace(n);
    assert target * n as real == Trace(n, g);
  }

  lemma {:induction false} ConstantTrace(n: nat)
    ensures SumN(n, Diagonal(Identity())) == n as real
  {
    if n > 0 {
      ConstantTrace(n - 1);
    }
  }

  lemma {:induction false} QuotedSnoc(trade: seq<(Symbol, real)>, k: nat)
    requires k < |trade|
    ensures Quoted(trade[..k + 1]) == Quoted(trade[..k]) + {trade[k].0}
    ensures trade[k].0 in Quoted(trade)
    ensures IsDict(trade) ==> trade[k].0 !in Quoted(trade[..k])
  {
    var p, q := trade[..k], trade[..k + 1];
    assert forall i :: 0 <= i < k ==> p[i] == q[i];
    assert q[k] == trade[k];
  }
}
