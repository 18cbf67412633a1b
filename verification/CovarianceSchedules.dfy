/**
 Which schedules of snapshots keep the EWMA covariance matrix positive semidefinite,
 whatever the prices do: exactly those that never quote one of two coupled symbols
 without the other.
 */
module CovarianceSchedules {
  import opened RealSums
  import opened QuadraticForms
  import opened CorrelationEngine

  // ----- one step

  /** No entry couples a quoted symbol with one that is not quoted. */
  ghost predicate Uncoupled(m: Matrix, quoted: set<Symbol>) {
    forall a, b :: (a in quoted) != (b in quoted) ==> m(a, b) == 0.0
  }

  function Outside(m: Matrix, quoted: set<Symbol>): Matrix {
    (a: Symbol, b: Symbol) => if a in quoted || b in quoted then 0.0 else m(a, b)
  }

  function Mixed(decay: real, m: Matrix, n: Matrix): Matrix {
    (a: Symbol, b: Symbol) => decay * m(a, b) + (1.0 - decay) * n(a, b)
  }

  lemma {:induction false} OutsideKeepsPsd(m: Matrix, quoted: set<Symbol>)
    requires PSD(m)
    ensures PSD(Outside(m, quoted))
  {
    forall symbols: seq<Symbol>, w: nat -> real
      ensures Quad(|symbols|, w, At(Outside(m, quoted), symbols)) >= 0.0
    {
      var mask := (i: nat) => i < |symbols| && symbols[i] in quoted;
      QuadMasked(|symbols|, w, At(m, symbols), At(Outside(m, quoted), symbols), mask);
    }
  }

  lemma {:induction false} MixedKeepsPsd(decay: real, m: Matrix, n: Matrix)
    requires PSD(m) && PSD(n) && 0.0 <= decay <= 1.0
    ensures PSD(Mixed(decay, m, n))
  {
    forall symbols: seq<Symbol>, w: nat -> real
      ensures Quad(|symbols|, w, At(Mixed(decay, m, n), symbols)) >= 0.0
    {
      var k := |symbols|;
      QuadLinear(k, w, decay, At(m, symbols), 1.0 - decay, At(n, symbols), At(Mixed(decay, m, n), symbols));
      NonNegativeProduct(decay, Quad(k, w, At(m, symbols)));
      NonNegativeProduct(1.0 - decay, Quad(k, w, At(n, symbols)));
    }
  }

  lemma {:induction false} BlockEntry(m: Matrix, quoted: set<Symbol>, decay: real, r: Symbol -> real, a: Symbol, b: Symbol)
    requires Uncoupled(m, quoted)
    ensures Step(m, quoted, decay, r)(a, b)
         == 1.0 * Mixed(decay, m, Outside(m, quoted))(a, b)
            + (1.0 - decay) * (ReturnOf(quoted, r, a) * ReturnOf(quoted, r, b))
  {
  }

  /** A snapshot keeps a matrix semidefinite if it couples no quoted symbol with another. */
  lemma {:induction false} UncoupledStepKeepsPsd(m: Matrix, quoted: set<Symbol>, decay: real, r: Symbol -> real)
    requires PSD(m) && 0.0 <= decay <= 1.0 && Uncoupled(m, quoted)
    ensures PSD(Step(m, quoted, decay, r))
  {
    hide PSD, Step, Mixed, Outside;
    OutsideKeepsPsd(m, quoted);
    MixedKeepsPsd(decay, m, Outside(m, quoted));
    forall a, b
      ensures Step(m, quoted, decay, r)(a, b)
           == 1.0 * Mixed(decay, m, Outside(m, quoted))(a, b)
              + (1.0 - decay) * (ReturnOf(quoted, r, a) * ReturnOf(quoted, r, b))
    {
      BlockEntry(m, quoted, decay, r, a, b);
    }
    RankOneKeepsPsd(Mixed(decay, m, Outside(m, quoted)), Step(m, quoted, decay, r), quoted, r, 1.0, 1.0 - decay);
  }

  // ----- schedules

  /** What is quoted, with which decay. */
  datatype Tick = Tick(quoted: set<Symbol>, decay: real)

  /** Quoted in one of the first `k` ticks. */
  function QuotedBefore(sched: seq<Tick>, k: nat): set<Symbol>
    requires k <= |sched|
  {
    if k == 0 then {} else QuotedBefore(sched, k - 1) + sched[k - 1].quoted
  }

  ghost predicate Follows(run: seq<Snapshot>, sched: seq<Tick>) {
    && |run| == |sched|
    && forall k :: 0 <= k < |run| ==> run[k].quoted == sched[k].quoted && run[k].decay == sched[k].decay
  }

  /** A symbol's first quote gives no return; any later one may give any. */
  ghost predicate Admissible(run: seq<Snapshot>, sched: seq<Tick>) {
    |run| == |sched| && forall k: nat, a :: k < |run| && a !in QuotedBefore(sched, k) ==> run[k].r(a) == 0.0
  }

  /** Both quoted at `i`, each of them before as well: their returns may move together. */
  ghost predicate TogetherAt(sched: seq<Tick>, i: int, a: Symbol, b: Symbol) {
    && 0 <= i < |sched|
    && a in sched[i].quoted && b in sched[i].quoted
    && a in QuotedBefore(sched, i) && b in QuotedBefore(sched, i)
  }

  /** At `j` one of two symbols that may have moved together is quoted without the other. */
  ghost predicate SplitAt(sched: seq<Tick>, i: int, j: int, a: Symbol, b: Symbol) {
    i < j < |sched| && TogetherAt(sched, i, a, b) && a in sched[j].quoted && b !in sched[j].quoted
  }

  ghost predicate Splits(sched: seq<Tick>) {
    exists i, j, a, b :: SplitAt(sched, i, j, a, b)
  }

  ghost predicate Decays(sched: seq<Tick>) {
    forall k :: 0 <= k < |sched| ==> 0.0 < sched[k].decay < 1.0
  }

  // ----- a schedule that does not split is safe

  /** Nonzero entries are between symbols that were together. */
  ghost predicate CoupledOnly(m: Matrix, sched: seq<Tick>, n: nat) {
    forall a, b :: m(a, b) != 0.0 ==> exists i :: i < n && TogetherAt(sched, i, a, b)
  }

  lemma {:induction false} StepCoupled(m: Matrix, sched: seq<Tick>, n: nat, r: Symbol -> real)
    requires n < |sched| && CoupledOnly(m, sched, n)
    requires forall a :: a !in QuotedBefore(sched, n) ==> r(a) == 0.0
    ensures CoupledOnly(Step(m, sched[n].quoted, sched[n].decay, r), sched, n + 1)
  {
    hide QuotedBefore;
    var quoted, decay := sched[n].quoted, sched[n].decay;
    forall a, b | Step(m, quoted, decay, r)(a, b) != 0.0
      ensures exists i :: i < n + 1 && TogetherAt(sched, i, a, b)
    {
      if m(a, b) != 0.0 {
        var i :| i < n && TogetherAt(sched, i, a, b);
        assert i < n + 1;
      } else {
        ZeroReturns(decay, r(a), r(b));
        assert TogetherAt(sched, n, a, b);
      }
    }
  }

  lemma {:induction false} ZeroReturns(decay: real, x: real, y: real)
    ensures x == 0.0 || y == 0.0 ==> Ewma(decay, 0.0, x, y) == 0.0
  {
  }

  lemma {:induction false} UnsplitIsUncoupled(m: Matrix, sched: seq<Tick>, n: nat)
    requires n < |sched| && CoupledOnly(m, sched, n) && !Splits(sched)
    ensures Uncoupled(m, sched[n].quoted)
  {
    hide QuotedBefore;
    forall a, b | (a in sched[n].quoted) != (b in sched[n].quoted)
      ensures m(a, b) == 0.0
    {
      forall i | i < n && TogetherAt(sched, i, a, b)
        ensures (a in sched[n].quoted) == (b in sched[n].quoted)
      {
        StayTogether(sched, i, n, a, b);
      }
    }
  }

  lemma {:induction false} StayTogether(sched: seq<Tick>, i: int, n: int, a: Symbol, b: Symbol)
    requires !Splits(sched) && i < n < |sched| && TogetherAt(sched, i, a, b)
    ensures (a in sched[n].quoted) == (b in sched[n].quoted)
  {
    hide QuotedBefore;
    assert !SplitAt(sched, i, n, a, b) && !SplitAt(sched, i, n, b, a);
  }

  lemma {:induction false} UnsplitStaysPsd(run: seq<Snapshot>, sched: seq<Tick>, n: nat)
    requires Follows(run, sched) && Admissible(run, sched) && Decays(sched) && !Splits(sched) && n <= |run|
    ensures PSD(After(run[..n])) && CoupledOnly(After(run[..n]), sched, n)
  {
    hide Step, PSD, CoupledOnly, Splits, Uncoupled, Zero;
    if n == 0 {
      ZeroIsPsd();
      ZeroCoupled(sched);
      assert run[..0] == [];
    } else {
      var m, last := After(run[..n - 1]), run[n - 1];
      UnsplitStaysPsd(run, sched, n - 1);
      UnsplitIsUncoupled(m, sched, n - 1);
      UncoupledStepKeepsPsd(m, last.quoted, last.decay, last.r);
      StepCoupled(m, sched, n - 1, last.r);
      assert run[..n][..n - 1] == run[..n - 1];
    }
  }

  lemma {:induction false} ZeroCoupled(sched: seq<Tick>)
    ensures CoupledOnly(Zero(), sched, 0)
  {
  }

  // ----- a schedule that splits is not

  function Pulse(s: Symbol, t: Symbol): Symbol -> real {
    (x: Symbol) => if x == s || x == t then 1.0 else 0.0
  }

  function Flat(): Symbol -> real {
    (x: Symbol) => 0.0
  }

  /** Nothing moves, except that `s` and `t` move together at tick `i`. */
  function OnePulse(sched: seq<Tick>, i: int, s: Symbol, t: Symbol): seq<Snapshot> {
    seq(|sched|, (k: nat) requires k < |sched| =>
      Snapshot(sched[k].quoted, sched[k].decay, if k == i then Pulse(s, t) else Flat()))
  }

  lemma {:induction false} OnePulseFollows(sched: seq<Tick>, i: int, s: Symbol, t: Symbol)
    requires TogetherAt(sched, i, s, t)
    ensures Follows(OnePulse(sched, i, s, t), sched) && Admissible(OnePulse(sched, i, s, t), sched)
  {
  }

  ghost predicate AllEntries(m: Matrix, s: Symbol, t: Symbol, x: real) {
    m(s, s) == x && m(s, t) == x && m(t, s) == x && m(t, t) == x
  }

  /** Neither or both of the two are quoted. */
  predicate Same(tick: Tick, s: Symbol, t: Symbol) {
    (s in tick.quoted) == (t in tick.quoted)
  }

  lemma {:induction false} RunStep(run: seq<Snapshot>, n: nat)
    requires n < |run|
    ensures After(run[..n + 1]) == Step(After(run[..n]), run[n].quoted, run[n].decay, run[n].r)
  {
    assert run[..n + 1][..n] == run[..n];
  }

  lemma {:induction false} StillZero(sched: seq<Tick>, i: int, s: Symbol, t: Symbol, n: nat)
    requires n <= i < |sched|
    ensures AllEntries(After(OnePulse(sched, i, s, t)[..n]), s, t, 0.0)
  {
    var run := OnePulse(sched, i, s, t);
    if n == 0 {
      assert run[..0] == [];
    } else {
      StillZero(sched, i, s, t, n - 1);
      RunStep(run, n - 1);
    }
  }

  /** From the pulse on, while the two are quoted together or not at all, all four entries
      stay equal and positive. */
  lemma {:induction false} StayEqual(sched: seq<Tick>, i: int, s: Symbol, t: Symbol, n: nat) returns (x: real)
    requires TogetherAt(sched, i, s, t) && Decays(sched) && i < n <= |sched|
    requires forall k :: i < k < n ==> Same(sched[k], s, t)
    ensures x > 0.0 && AllEntries(After(OnePulse(sched, i, s, t)[..n]), s, t, x)
    decreases n
  {
    hide QuotedBefore, Ewma;
    var run, tick := OnePulse(sched, i, s, t), sched[n - 1];
    RunStep(run, n - 1);
    if n - 1 == i {
      StillZero(sched, i, s, t, i);
      Decaying(tick.decay, 1.0);
      x := 1.0 - tick.decay;
    } else {
      var before := StayEqual(sched, i, s, t, n - 1);
      Decaying(tick.decay, before);
      x := if s in tick.quoted then Ewma(tick.decay, before, 0.0, 0.0) else before;
    }
  }

  /** One variance smaller than the covariance takes the difference's variance below 0. */
  lemma {:induction false} OneSmaller(m: Matrix, s: Symbol, t: Symbol, x: real, y: real)
    requires y < x && m(s, s) == y && m(s, t) == x && m(t, s) == x && m(t, t) == x
    ensures !PSD(m)
  {
    var symbols: seq<Symbol> := [s, t];
    var w := (i: nat) => if i == 0 then 1.0 else -1.0;
    var g := At(m, symbols);
    QuadTwo(w, g);
    assert g(0, 0) == y && g(0, 1) == x && g(1, 0) == x && g(1, 1) == x;
    assert Quad(|symbols|, w, g) < 0.0;
  }

  lemma {:induction false} Decaying(decay: real, x: real)
    requires 0.0 < decay < 1.0 && x > 0.0
    ensures 0.0 < Ewma(decay, x, 0.0, 0.0) < x
    ensures Ewma(decay, 0.0, 1.0, 1.0) == 1.0 - decay && Ewma(decay, 0.0, 0.0, 0.0) == 0.0
  {
    hide Ewma, Part;
    QuietEwma(decay, x);
    QuietEwma(decay, 0.0);
    PositivePart(decay, x);
    PositivePart(1.0 - decay, x);
    PartsAdd(decay, 1.0 - decay, x);
  }

  function Part(p: real, x: real): real {
    p * x
  }

  lemma {:induction false} QuietEwma(decay: real, x: real)
    ensures Ewma(decay, x, 0.0, 0.0) == Part(decay, x)
    ensures Ewma(decay, 0.0, 1.0, 1.0) == 1.0 - decay && Part(decay, 0.0) == 0.0
  {
  }

  lemma {:induction false} PositivePart(p: real, x: real)
    requires p > 0.0 && x > 0.0
    ensures Part(p, x) > 0.0
  {
    PositiveProduct(p, x);
  }

  lemma {:induction false} PartsAdd(p: real, q: real, x: real)
    requires p + q == 1.0
    ensures Part(p, x) + Part(q, x) == x
  {
    assert p * x + q * x == (p + q) * x;
  }

  /** The first tick after `i` that splits the pair. */
  lemma {:induction false} FirstSplit(sched: seq<Tick>, i: nat, j: nat, s: Symbol, t: Symbol) returns (n: nat)
    requires i < j < |sched| && !Same(sched[j], s, t)
    ensures i < n <= j && !Same(sched[n], s, t) && forall k :: i < k < n ==> Same(sched[k], s, t)
  {
    n := i + 1;
    while Same(sched[n], s, t)
      invariant i < n <= j && forall k :: i < k < n ==> Same(sched[k], s, t)
      decreases j - n
    {
      n := n + 1;
    }
  }

  lemma {:induction false} BreaksAt(sched: seq<Tick>, i: nat, n: nat, s: Symbol, t: Symbol)
    requires Decays(sched) && TogetherAt(sched, i, s, t) && i < n < |sched|
    requires s in sched[n].quoted && t !in sched[n].quoted
    requires forall k :: i < k < n ==> Same(sched[k], s, t)
    ensures !PSD(After(OnePulse(sched, i, s, t)[..n + 1]))
  {
    hide PSD, QuotedBefore, Ewma;
    var run := OnePulse(sched, i, s, t);
    var x := StayEqual(sched, i, s, t, n);
    RunStep(run, n);
    Decaying(sched[n].decay, x);
    OneSmaller(After(run[..n + 1]), s, t, x, Ewma(sched[n].decay, x, 0.0, 0.0));
  }

  lemma {:induction false} SplitBreaks(sched: seq<Tick>, i: nat, j: nat, s: Symbol, t: Symbol)
      returns (run: seq<Snapshot>, n: nat)
    requires Decays(sched) && SplitAt(sched, i, j, s, t)
    ensures Follows(run, sched) && Admissible(run, sched) && n <= |run| && !PSD(After(run[..n]))
  {
    hide PSD, QuotedBefore, OnePulse, Follows, Admissible;
    var k := FirstSplit(sched, i, j, s, t);
    n := k + 1;
    if s in sched[k].quoted {
      run := OnePulse(sched, i, s, t);
      OnePulseFollows(sched, i, s, t);
      BreaksAt(sched, i, k, s, t);
    } else {
      run := OnePulse(sched, i, t, s);
      OnePulseFollows(sched, i, t, s);
      BreaksAt(sched, i, k, t, s);
    }
    FollowsLength(run, sched);
  }

  lemma {:induction false} FollowsLength(run: seq<Snapshot>, sched: seq<Tick>)
    requires Follows(run, sched)
    ensures |run| == |sched|
  {
  }

  // ----- exactly when

  ghost predicate ScheduleSafe(sched: seq<Tick>) {
    forall run: seq<Snapshot>, n: nat :: Follows(run, sched) && Admissible(run, sched) && n <= |run| ==>
      PSD(After(run[..n]))
  }

  /** Main result: a schedule keeps the matrix semidefinite at every moment, whatever the
      returns, exactly when it never quotes one of two symbols that were quoted together
      (each not for the first time) without the other. */
  lemma {:induction false} ScheduleSafeIff(sched: seq<Tick>)
    requires Decays(sched)
    ensures ScheduleSafe(sched) <==> !Splits(sched)
  {
    hide PSD, QuotedBefore, Follows, Admissible, SplitAt;
    if Splits(sched) {
      var i, j, s, t :| SplitAt(sched, i, j, s, t);
      SplitIndices(sched, i, j, s, t);
      var run, n := SplitBreaks(sched, i, j, s, t);
    } else {
      forall run: seq<Snapshot>, n: nat | Follows(run, sched) && Admissible(run, sched) && n <= |run|
        ensures PSD(After(run[..n]))
      {
        UnsplitStaysPsd(run, sched, n);
      }
    }
  }

  lemma {:induction false} SplitIndices(sched: seq<Tick>, i: int, j: int, s: Symbol, t: Symbol)
    requires SplitAt(sched, i, j, s, t)
    ensures 0 <= i < j
  {
  }

  /** Two symbols quoted twice, moving together the second time, then only one of them. */
  lemma {:induction false} ThirdSnapshotBreaks()
    ensures
      var both, moved, one := Snapshot({"A", "B"}, 0.94, Flat()), Snapshot({"A", "B"}, 0.94, Pulse("A", "B")),
                              Snapshot({"A"}, 0.94, Flat());
      PSD(After([both, moved])) && !PSD(After([both, moved, one]))
  {
    var both, moved, one := Snapshot({"A", "B"}, 0.94, Flat()), Snapshot({"A", "B"}, 0.94, Pulse("A", "B")),
                            Snapshot({"A"}, 0.94, Flat());
    var sched := [Tick({"A", "B"}, 0.94), Tick({"A", "B"}, 0.94), Tick({"A"}, 0.94)];
    var run := OnePulse(sched, 1, "A", "B");
    assert QuotedBefore(sched, 1) == QuotedBefore(sched, 0) + {"A", "B"};
    BreaksAt(sched, 1, 2, "A", "B");
    assert run[..3] == [both, moved, one];
    FirstTwo(both, moved);
  }

  lemma {:induction false} FirstTwo(both: Snapshot, moved: Snapshot)
    requires both.quoted == moved.quoted && 0.0 <= both.decay <= 1.0 && 0.0 <= moved.decay <= 1.0
    ensures PSD(After([both, moved]))
  {
    hide PSD, Step, Zero;
    assert [both, moved][..1] == [both] && [both][..0] == [];
    assert After([both]) == Step(After([]), both.quoted, both.decay, both.r) && After([]) == Zero();
    ZeroIsPsd();
    ZeroUncoupled(both.quoted);
    UncoupledStepKeepsPsd(Zero(), both.quoted, both.decay, both.r);
    StepUncoupled(both);
    UncoupledStepKeepsPsd(After([both]), moved.quoted, moved.decay, moved.r);
  }

  lemma {:induction false} ZeroUncoupled(quoted: set<Symbol>)
    ensures Uncoupled(Zero(), quoted)
  {
  }

  lemma {:induction false} StepUncoupled(first: Snapshot)
    ensures Uncoupled(Step(Zero(), first.quoted, first.decay, first.r), first.quoted)
  {
  }

  // ----- returns and prices

  /** Any return is that of some price, and a first price gives none. */
  lemma {:induction false} EveryReturnHasAPrice(ln: real -> real, exp: real -> real, prev: real, x: real)
    requires prev > 0.0 && exp(x) > 0.0 && ln(exp(x)) == x
    ensures LogReturn(ln, Price.Seen(prev), prev * exp(x)) == x && LogReturn(ln, Price.Unseen, prev) == 0.0
  {
    PositiveProduct(prev, exp(x));
    assert prev * exp(x) / prev == exp(x);
  }
}
