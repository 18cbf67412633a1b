/**
 Forward/backward tables and regime prediction of the self-contained Gaussian HMM
 (research/ai-engine/regime_hmm.py). The source computes with logarithms, where
 `logaddexp` adds probabilities and `+` multiplies them. Everything here is stated
 over any semiring: `LogSemiring` is the code's, `RealSemiring` that of probabilities.
 Start, transition and emission weights are given.

 The tables, filled in place by nested loops, are proved equal to sums over all
 state paths.
 */
module RegimeHmm {
  import opened Semirings
  import opened StatePaths
  import RealSums
  import Sorting

  /** The weights of one evaluation: `emit` has a row per observation. */
  datatype Hmm<!R> = Hmm(start: seq<R>, trans: seq<seq<R>>, emit: seq<seq<R>>) {
    function K(): nat {
      |start|
    }

    function T(): nat {
      |emit|
    }

    ghost predicate Valid() {
      && K() > 0 && T() > 0
      && |trans| == K()
      && (forall i :: 0 <= i < K() ==> |trans[i]| == K())
      && (forall t :: 0 <= t < T() ==> |emit[t]| == K())
    }
  }

  // ----- the recurrences

  function Into<R>(s: Semiring<R>, m: Hmm<R>, prev: seq<R>, j: nat): nat -> R
    requires m.Valid() && |prev| == m.K() && j < m.K()
  {
    (i: nat) => if i < m.K() then s.times(prev[i], m.trans[i][j]) else s.zero
  }

  function OutOf<R>(s: Semiring<R>, m: Hmm<R>, t: nat, next: seq<R>, i: nat): nat -> R
    requires m.Valid() && t < m.T() && |next| == m.K() && i < m.K()
  {
    (j: nat) => if j < m.K() then s.times(s.times(m.trans[i][j], m.emit[t][j]), next[j]) else s.zero
  }

  function Forward<R>(s: Semiring<R>, m: Hmm<R>, t: nat): (row: seq<R>)
    requires m.Valid() && t < m.T()
    ensures |row| == m.K()
  {
    if t == 0 then
      seq(m.K(), j requires 0 <= j < m.K() => s.times(m.start[j], m.emit[0][j]))
    else
      var prev := Forward(s, m, t - 1);
      seq(m.K(), j requires 0 <= j < m.K() => s.times(SumN(s, m.K(), Into(s, m, prev, j)), m.emit[t][j]))
  }

  function Backward<R>(s: Semiring<R>, m: Hmm<R>, t: nat): (row: seq<R>)
    requires m.Valid() && t < m.T()
    ensures |row| == m.K()
    decreases m.T() - t
  {
    if t == m.T() - 1 then
      seq(m.K(), j requires 0 <= j < m.K() => s.one)
    else
      var next := Backward(s, m, t + 1);
      seq(m.K(), i requires 0 <= i < m.K() => SumN(s, m.K(), OutOf(s, m, t + 1, next, i)))
  }

  function Entry<R>(s: Semiring<R>, row: seq<R>): nat -> R {
    (j: nat) => if j < |row| then row[j] else s.zero
  }

  function Likelihood<R>(s: Semiring<R>, m: Hmm<R>): R
    requires m.Valid()
  {
    SumN(s, m.K(), Entry(s, Forward(s, m, m.T() - 1)))
  }

  // ----- the tables as loops fill them

  /** `sum(prev[i] * trans[i][j])` over the previous states. */
  method ReduceInto<R>(s: Semiring<R>, m: Hmm<R>, prev: seq<R>, j: nat) returns (acc: R)
    requires m.Valid() && |prev| == m.K() && j < m.K()
    ensures acc == SumN(s, m.K(), Into(s, m, prev, j))
  {
    acc := s.zero;
    for i := 0 to m.K()
      invariant acc == SumN(s, i, Into(s, m, prev, j))
    {
      acc := s.plus(acc, s.times(prev[i], m.trans[i][j]));
    }
  }

  method ReduceOutOf<R>(s: Semiring<R>, m: Hmm<R>, t: nat, next: seq<R>, i: nat) returns (acc: R)
    requires m.Valid() && t < m.T() && |next| == m.K() && i < m.K()
    ensures acc == SumN(s, m.K(), OutOf(s, m, t, next, i))
  {
    acc := s.zero;
    for j := 0 to m.K()
      invariant acc == SumN(s, j, OutOf(s, m, t, next, i))
    {
      acc := s.plus(acc, s.times(s.times(m.trans[i][j], m.emit[t][j]), next[j]));
    }
  }

  /** Row `t` of a table, as a value. */
  ghost predicate RowIs<R>(a: array2<R>, t: nat, row: seq<R>)
    reads a
  {
    && t < a.Length0
    && |row| == a.Length1
    && forall j :: 0 <= j < a.Length1 ==> a[t, j] == row[j]
  }

  method RowOf<R>(a: array2<R>, t: nat) returns (row: seq<R>)
    requires t < a.Length0
    ensures RowIs(a, t, row)
  {
    row := [];
    for j := 0 to a.Length1
      invariant |row| == j
      invariant forall k :: 0 <= k < j ==> row[k] == a[t, k]
    {
      row := row + [a[t, j]];
    }
  }

  /** No entry outside row `t` has changed. */
  twostate predicate OnlyRowChanged<R>(a: array2<R>, t: nat)
    reads a
  {
    forall u, j :: 0 <= u < a.Length0 && 0 <= j < a.Length1 && u != t ==> a[u, j] == old(a[u, j])
  }

  method FillForwardRow<R>(s: Semiring<R>, m: Hmm<R>, alpha: array2<R>, t: nat)
    requires m.Valid() && t < m.T() && alpha.Length0 == m.T() && alpha.Length1 == m.K()
    requires t > 0 ==> RowIs(alpha, t - 1, Forward(s, m, t - 1))
    modifies alpha
    ensures RowIs(alpha, t, Forward(s, m, t))
    ensures OnlyRowChanged(alpha, t)
  {
    var prev := [];
    if t > 0 {
      prev := RowOf(alpha, t - 1);
      assert prev == Forward(s, m, t - 1);
    }
    ghost var row := Forward(s, m, t);
    for j := 0 to m.K()
      invariant OnlyRowChanged(alpha, t)
      invariant forall k :: 0 <= k < j ==> alpha[t, k] == row[k]
    {
      if t == 0 {
        alpha[t, j] := s.times(m.start[j], m.emit[0][j]);
      } else {
        var acc := ReduceInto(s, m, prev, j);
        alpha[t, j] := s.times(acc, m.emit[t][j]);
      }
    }
  }

  method FillForward<R>(s: Semiring<R>, m: Hmm<R>) returns (alpha: array2<R>)
    requires m.Valid()
    ensures fresh(alpha) && alpha.Length0 == m.T() && alpha.Length1 == m.K()
    ensures forall t: nat :: t < m.T() ==> RowIs(alpha, t, Forward(s, m, t))
  {
    alpha := new R[m.T(), m.K()]((t, j) => s.zero);
    for t := 0 to m.T()
      invariant forall u: nat :: u < t ==> RowIs(alpha, u, Forward(s, m, u))
    {
      FillForwardRow(s, m, alpha, t);
    }
  }

  method FillBackwardRow<R>(s: Semiring<R>, m: Hmm<R>, beta: array2<R>, t: nat)
    requires m.Valid() && t < m.T() && beta.Length0 == m.T() && beta.Length1 == m.K()
    requires t + 1 < m.T() ==> RowIs(beta, t + 1, Backward(s, m, t + 1))
    modifies beta
    ensures RowIs(beta, t, Backward(s, m, t))
    ensures OnlyRowChanged(beta, t)
  {
    var next := [];
    if t + 1 < m.T() {
      next := RowOf(beta, t + 1);
      assert next == Backward(s, m, t + 1);
    }
    ghost var row := Backward(s, m, t);
    for i := 0 to m.K()
      invariant OnlyRowChanged(beta, t)
      invariant forall k :: 0 <= k < i ==> beta[t, k] == row[k]
    {
      if t + 1 == m.T() {
        beta[t, i] := s.one;
      } else {
        var acc := ReduceOutOf(s, m, t + 1, next, i);
        beta[t, i] := acc;
      }
    }
  }

  method FillBackward<R>(s: Semiring<R>, m: Hmm<R>) returns (beta: array2<R>)
    requires m.Valid()
    ensures fresh(beta) && beta.Length0 == m.T() && beta.Length1 == m.K()
    ensures forall t: nat :: t < m.T() ==> RowIs(beta, t, Backward(s, m, t))
  {
    beta := new R[m.T(), m.K()]((t, j) => s.zero);
    for t := m.T() downto 0
      invariant forall u: nat :: t <= u < m.T() ==> RowIs(beta, u, Backward(s, m, u))
    {
      FillBackwardRow(s, m, beta, t);
    }
  }

  method ForwardBackward<R>(s: Semiring<R>, m: Hmm<R>) returns (alpha: array2<R>, beta: array2<R>, likelihood: R)
    requires m.Valid()
    ensures alpha.Length0 == beta.Length0 == m.T() && alpha.Length1 == beta.Length1 == m.K()
    ensures forall t: nat :: t < m.T() ==> RowIs(alpha, t, Forward(s, m, t)) && RowIs(beta, t, Backward(s, m, t))
    ensures likelihood == Likelihood(s, m)
  {
    alpha := FillForward(s, m);
    var last := RowOf(alpha, m.T() - 1);
    assert last == Forward(s, m, m.T() - 1);
    likelihood := s.zero;
    for j := 0 to m.K()
      invariant likelihood == SumN(s, j, Entry(s, last))
    {
      likelihood := s.plus(likelihood, last[j]);
    }
    beta := FillBackward(s, m);
  }

  // ----- path masses

  /** Start, transition and emission weights multiplied along a path. */
  ghost function PathMass<R>(s: Semiring<R>, m: Hmm<R>, p: Path): R
    requires m.Valid() && 0 < |p| <= m.T() && IsPath(m.K(), p, |p|)
  {
    var n := |p| - 1;
    if n == 0 then s.times(m.start[p[0]], m.emit[0][p[0]])
    else s.times(PathMass(s, m, p[..n]), s.times(m.trans[p[n - 1]][p[n]], m.emit[n][p[n]]))
  }

  ghost function Mass<R>(s: Semiring<R>, m: Hmm<R>): Path -> R
    requires m.Valid()
  {
    (p: Path) => if 0 < |p| <= m.T() && IsPath(m.K(), p, |p|) then PathMass(s, m, p) else s.zero
  }

  /** The total mass of all paths that end in state `j` at time `t`. */
  ghost function MassInto<R>(s: Semiring<R>, m: Hmm<R>, t: nat, j: nat): R
    requires m.Valid()
  {
    SumSeq(s, PathsTo(m.K(), t, j), Mass(s, m))
  }

  /** The total mass of all full-length paths that are in state `j` at time `t`. */
  ghost function MassThrough<R>(s: Semiring<R>, m: Hmm<R>, t: nat, j: nat): R
    requires m.Valid() && j < m.K() && t < m.T()
  {
    SumSeq(s, PathsThrough(m.K(), m.T(), t, j), Mass(s, m))
  }

  /** The weight of one more step of a path. */
  function Step<R>(s: Semiring<R>, m: Hmm<R>, t: nat, i: nat, j: nat): R
    requires m.Valid() && t < m.T() && i < m.K() && j < m.K()
  {
    s.times(m.trans[i][j], m.emit[t][j])
  }

  lemma {:induction false} StepMass<R>(s: Semiring<R>, m: Hmm<R>, p: Path, t: nat, i: nat, j: nat)
    requires m.Valid() && t + 1 < m.T() && i < m.K() && j < m.K()
    requires EndsIn(m.K(), p, t, i)
    ensures Mass(s, m)(p + [j]) == s.times(Mass(s, m)(p), Step(s, m, t + 1, i, j))
  {
    assert (p + [j])[..t + 1] == p;
  }

  lemma {:induction false} ExtendMass<R(!new)>(s: Semiring<R>, m: Hmm<R>, ps: seq<Path>, t: nat, i: nat, j: nat)
    requires Laws(s) && m.Valid() && t + 1 < m.T() && i < m.K() && j < m.K()
    requires forall k :: 0 <= k < |ps| ==> EndsIn(m.K(), ps[k], t, i)
    ensures SumSeq(s, Extend(ps, j), Mass(s, m)) == s.times(SumSeq(s, ps, Mass(s, m)), Step(s, m, t + 1, i, j))
  {
    hide Laws, Mass, Step, EndsIn, Extend;
    var step := Step(s, m, t + 1, i, j);
    if ps == [] {
      ExtendNone(j);
      Law(s, step, step, step);
    } else {
      var n := |ps| - 1;
      ExtendLast(ps, j);
      var init, f := SumSeq(s, ps[..n], Mass(s, m)), Mass(s, m);
      calc {
        SumSeq(s, Extend(ps, j), f);
        s.plus(SumSeq(s, Extend(ps[..n], j), f), f(ps[n] + [j]));
        { ExtendMass(s, m, ps[..n], t, i, j); StepMass(s, m, ps[n], t, i, j); }
        s.plus(s.times(init, step), s.times(f(ps[n]), step));
        { Law(s, init, f(ps[n]), step); }
        s.times(s.plus(init, f(ps[n])), step);
      }
    }
  }

  lemma {:induction false} FactorRight<R(!new)>(s: Semiring<R>, a: R, b: R, c: R, e: R)
    requires Laws(s)
    ensures s.plus(s.times(a, e), s.times(b, s.times(c, e))) == s.times(s.plus(a, s.times(b, c)), e)
  {
    Law(s, b, c, e);
    Law(s, a, s.times(b, c), e);
  }

  lemma {:induction false} FactorLeft<R(!new)>(s: Semiring<R>, a: R, b: R, c: R, d: R)
    requires Laws(s)
    ensures s.plus(s.times(a, b), s.times(s.times(a, c), d)) == s.times(a, s.plus(b, s.times(c, d)))
  {
    Law(s, a, c, d);
    Law(s, a, b, s.times(c, d));
  }

  lemma {:induction false} EnteringMass<R(!new)>(s: Semiring<R>, m: Hmm<R>, t: nat, j: nat, i: nat)
    requires Laws(s) && m.Valid() && t + 1 < m.T() && j < m.K() && i < m.K()
    ensures SumSeq(s, Extend(PathsTo(m.K(), t, i), j), Mass(s, m))
         == s.times(MassInto(s, m, t, i), Step(s, m, t + 1, i, j))
  {
    PathsToMembers(m.K(), t, i);
    ExtendMass(s, m, PathsTo(m.K(), t, i), t, i, j);
  }

  /** Paths entering state `j` at `t + 1` from state `i` add the mass at `i` times the step. */
  lemma {:induction false} LastViaMass<R(!new)>(s: Semiring<R>, m: Hmm<R>, t: nat, j: nat, i: nat)
    requires Laws(s) && m.Valid() && t + 1 < m.T() && j < m.K() && i < m.K()
    ensures SumSeq(s, PathsVia(m.K(), t + 1, j, i + 1), Mass(s, m))
         == s.plus(SumSeq(s, PathsVia(m.K(), t + 1, j, i), Mass(s, m)),
                   s.times(MassInto(s, m, t, i), Step(s, m, t + 1, i, j)))
  {
    var lower, last := PathsVia(m.K(), t + 1, j, i), Extend(PathsTo(m.K(), t, i), j);
    assert PathsVia(m.K(), t + 1, j, i + 1) == lower + last;
    EnteringMass(s, m, t, j, i);
    SumSeqConcat(s, lower, last, Mass(s, m));
  }

  /** The paths entering `j` at `t + 1` from states below `n` weigh the first `n` terms
      of the forward sum. */
  ghost predicate EnteringWeighs<R>(s: Semiring<R>, m: Hmm<R>, t: nat, j: nat, n: nat, prev: seq<R>)
    requires m.Valid() && t + 1 < m.T() && j < m.K() && n <= m.K() == |prev|
  {
    SumSeq(s, PathsVia(m.K(), t + 1, j, n), Mass(s, m))
    == s.times(SumN(s, n, Into(s, m, prev, j)), m.emit[t + 1][j])
  }

  ghost predicate HoldsMass<R>(s: Semiring<R>, m: Hmm<R>, t: nat, i: nat, row: seq<R>)
    requires m.Valid()
  {
    i < |row| && row[i] == MassInto(s, m, t, i)
  }

  lemma {:induction false} ViaStep<R(!new)>(s: Semiring<R>, m: Hmm<R>, t: nat, j: nat, i: nat, prev: seq<R>)
    requires Laws(s) && m.Valid() && t + 1 < m.T() && j < m.K() && i < m.K() == |prev|
    requires HoldsMass(s, m, t, i, prev)
    requires EnteringWeighs(s, m, t, j, i, prev)
    ensures EnteringWeighs(s, m, t, j, i + 1, prev)
  {
    LastViaMass(s, m, t, j, i);
    FactorRight(s, SumN(s, i, Into(s, m, prev, j)), prev[i], m.trans[i][j], m.emit[t + 1][j]);
  }

  lemma {:induction false} NoneEntering<R(!new)>(s: Semiring<R>, m: Hmm<R>, t: nat, j: nat, prev: seq<R>)
    requires Laws(s) && m.Valid() && t + 1 < m.T() && j < m.K() == |prev|
    ensures EnteringWeighs(s, m, t, j, 0, prev)
  {
    hide Laws;
    var e := m.emit[t + 1][j];
    Law(s, e, e, e);
  }

  lemma {:induction false} ViaMass<R(!new)>(s: Semiring<R>, m: Hmm<R>, t: nat, j: nat, n: nat, prev: seq<R>)
    requires Laws(s) && m.Valid() && t + 1 < m.T() && j < m.K() && n <= m.K() == |prev|
    requires forall i: nat {:trigger HoldsMass(s, m, t, i, prev)} :: i < m.K() ==> HoldsMass(s, m, t, i, prev)
    ensures EnteringWeighs(s, m, t, j, n, prev)
  {
    hide EnteringWeighs, HoldsMass, Laws;
    if n == 0 {
      NoneEntering(s, m, t, j, prev);
    } else {
      ViaMass(s, m, t, j, n - 1, prev);
      ViaStep(s, m, t, j, n - 1, prev);
    }
  }

  lemma {:induction false} ForwardStep<R(!new)>(s: Semiring<R>, m: Hmm<R>, t: nat, j: nat, prev: seq<R>)
    requires Laws(s) && m.Valid() && t + 1 < m.T() && j < m.K()
    requires prev == Forward(s, m, t)
    requires forall i: nat {:trigger HoldsMass(s, m, t, i, prev)} :: i < m.K() ==> HoldsMass(s, m, t, i, prev)
    ensures Forward(s, m, t + 1)[j] == MassInto(s, m, t + 1, j)
  {
    ViaMass(s, m, t, j, m.K(), prev);
  }

  /** Main result: a forward entry is the total mass of all state paths that end there. */
  lemma {:induction false} ForwardIsPathSum<R(!new)>(s: Semiring<R>, m: Hmm<R>, t: nat, j: nat)
    requires Laws(s) && m.Valid() && t < m.T() && j < m.K()
    ensures Forward(s, m, t)[j] == MassInto(s, m, t, j)
    decreases t
  {
    if t == 0 {
      SumSeqSingle(s, [j], Mass(s, m));
    } else {
      var u := t - 1;
      var prev := Forward(s, m, u);
      forall i: nat | i < m.K()
        ensures HoldsMass(s, m, u, i, prev)
      {
        ForwardIsPathSum(s, m, u, i);
      }
      ForwardStep(s, m, u, j, prev);
    }
  }

  /** Completing `p` through the next state `j` weighs the mass up to `j` times `next`. */
  ghost predicate CompletionWeighs<R>(s: Semiring<R>, m: Hmm<R>, p: Path, j: nat, next: R)
    requires m.Valid() && |p| < m.T()
  {
    SumSeq(s, Completions(m.K(), p + [j], m.T()), Mass(s, m)) == s.times(Mass(s, m)(p + [j]), next)
  }

  lemma {:induction false} LastCompletionMass<R(!new)>(s: Semiring<R>, m: Hmm<R>, p: Path, j: nat, next: R)
    requires Laws(s) && m.Valid() && 0 < |p| < m.T() && IsPath(m.K(), p, |p|) && j < m.K()
    requires CompletionWeighs(s, m, p, j, next)
    ensures SumSeq(s, CompletionsVia(m.K(), p, m.T(), j + 1), Mass(s, m))
         == s.plus(SumSeq(s, CompletionsVia(m.K(), p, m.T(), j), Mass(s, m)),
                   s.times(s.times(Mass(s, m)(p), Step(s, m, |p|, p[|p| - 1], j)), next))
  {
    StepMass(s, m, p, |p| - 1, p[|p| - 1], j);
    SumSeqConcat(s, CompletionsVia(m.K(), p, m.T(), j), Completions(m.K(), p + [j], m.T()), Mass(s, m));
  }

  /** The completions of `p` through next states below `n` weigh the mass of `p` times
      the first `n` terms of the backward sum. */
  ghost predicate ViaWeighs<R>(s: Semiring<R>, m: Hmm<R>, p: Path, n: nat, next: seq<R>)
    requires m.Valid() && 0 < |p| < m.T() && IsPath(m.K(), p, |p|) && n <= m.K() == |next|
  {
    SumSeq(s, CompletionsVia(m.K(), p, m.T(), n), Mass(s, m))
    == s.times(Mass(s, m)(p), SumN(s, n, OutOf(s, m, |p|, next, p[|p| - 1])))
  }

  lemma {:induction false} CompletionsViaStep<R(!new)>(s: Semiring<R>, m: Hmm<R>, p: Path, j: nat, next: seq<R>)
    requires Laws(s) && m.Valid() && 0 < |p| < m.T() && IsPath(m.K(), p, |p|) && j < m.K() == |next|
    requires CompletionWeighs(s, m, p, j, next[j])
    requires ViaWeighs(s, m, p, j, next)
    ensures ViaWeighs(s, m, p, j + 1, next)
  {
    var i := p[|p| - 1];
    LastCompletionMass(s, m, p, j, next[j]);
    FactorLeft(s, Mass(s, m)(p), SumN(s, j, OutOf(s, m, |p|, next, i)), Step(s, m, |p|, i, j), next[j]);
  }

  lemma {:induction false} NoCompletions<R(!new)>(s: Semiring<R>, m: Hmm<R>, p: Path, next: seq<R>)
    requires Laws(s) && m.Valid() && 0 < |p| < m.T() && IsPath(m.K(), p, |p|) && m.K() == |next|
    ensures ViaWeighs(s, m, p, 0, next)
  {
    hide Laws, Mass;
    var mass := Mass(s, m)(p);
    Law(s, mass, mass, mass);
  }

  lemma {:induction false} CompletionsViaMass<R(!new)>(s: Semiring<R>, m: Hmm<R>, p: Path, n: nat, next: seq<R>)
    requires Laws(s) && m.Valid() && 0 < |p| < m.T() && IsPath(m.K(), p, |p|) && n <= m.K() == |next|
    requires forall j: nat {:trigger CompletionWeighs(s, m, p, j, next[j])} :: j < m.K() ==> CompletionWeighs(s, m, p, j, next[j])
    ensures ViaWeighs(s, m, p, n, next)
  {
    hide ViaWeighs, CompletionWeighs, Laws;
    if n == 0 {
      NoCompletions(s, m, p, next);
    } else {
      CompletionsViaMass(s, m, p, n - 1, next);
      CompletionsViaStep(s, m, p, n - 1, next);
    }
  }

  /** The completions of a path weigh its own mass times the backward entry at its end. */
  lemma {:induction false} CompletionsMass<R(!new)>(s: Semiring<R>, m: Hmm<R>, p: Path)
    requires Laws(s) && m.Valid() && 0 < |p| <= m.T() && IsPath(m.K(), p, |p|)
    ensures SumSeq(s, Completions(m.K(), p, m.T()), Mass(s, m))
         == s.times(Mass(s, m)(p), Backward(s, m, |p| - 1)[p[|p| - 1]])
    decreases m.T() - |p|
  {
    if |p| == m.T() {
      SumSeqSingle(s, p, Mass(s, m));
      Law(s, Mass(s, m)(p), s.one, s.one);
    } else {
      var next := Backward(s, m, |p|);
      forall j: nat | j < m.K()
        ensures CompletionWeighs(s, m, p, j, next[j])
      {
        CompletionsMass(s, m, p + [j]);
      }
      CompletionsViaMass(s, m, p, m.K(), next);
    }
  }

  lemma {:induction false} AllCompletionsMass<R(!new)>(s: Semiring<R>, m: Hmm<R>, ps: seq<Path>, t: nat, j: nat)
    requires Laws(s) && m.Valid() && t < m.T() && j < m.K()
    requires forall k :: 0 <= k < |ps| ==> EndsIn(m.K(), ps[k], t, j)
    ensures SumSeq(s, AllCompletions(m.K(), ps, t, j, m.T()), Mass(s, m))
         == s.times(SumSeq(s, ps, Mass(s, m)), Backward(s, m, t)[j])
  {
    var b := Backward(s, m, t)[j];
    if ps == [] {
      Law(s, b, b, b);
    } else {
      var n := |ps| - 1;
      AllCompletionsMass(s, m, ps[..n], t, j);
      assert EndsIn(m.K(), ps[n], t, j);
      CompletionsMass(s, m, ps[n]);
      SumSeqConcat(s, AllCompletions(m.K(), ps[..n], t, j, m.T()), Completions(m.K(), ps[n], m.T()), Mass(s, m));
      Law(s, SumSeq(s, ps[..n], Mass(s, m)), Mass(s, m)(ps[n]), b);
    }
  }

  /** Main result: forward times backward is the total mass of all full-length paths
      passing through that state at that time. */
  lemma {:induction false} ForwardBackwardIsPathSum<R(!new)>(s: Semiring<R>, m: Hmm<R>, t: nat, j: nat)
    requires Laws(s) && m.Valid() && t < m.T() && j < m.K()
    ensures s.times(Forward(s, m, t)[j], Backward(s, m, t)[j]) == MassThrough(s, m, t, j)
  {
    PathsToMembers(m.K(), t, j);
    ForwardIsPathSum(s, m, t, j);
    AllCompletionsMass(s, m, PathsTo(m.K(), t, j), t, j);
  }

  // ----- every time step accounts for the whole likelihood

  function Joint<R>(s: Semiring<R>, f: seq<R>, b: seq<R>): nat -> R
    requires |f| == |b|
  {
    (j: nat) => if j < |f| then s.times(f[j], b[j]) else s.zero
  }

  /** What flows from state `i` at `t - 1` to state `j` at `t`. */
  function Flow<R>(s: Semiring<R>, m: Hmm<R>, t: nat, f: seq<R>, next: seq<R>): (nat, nat) -> R
    requires m.Valid() && t < m.T() && |f| == |next| == m.K()
  {
    (i: nat, j: nat) =>
      if i < m.K() && j < m.K() then s.times(f[i], s.times(s.times(m.trans[i][j], m.emit[t][j]), next[j])) else s.zero
  }

  lemma {:induction false} RowFlow<R(!new)>(s: Semiring<R>, m: Hmm<R>, t: nat, f: seq<R>, next: seq<R>, i: nat)
    requires Laws(s) && m.Valid() && t < m.T() && |f| == |next| == m.K() && i < m.K()
    ensures s.times(f[i], SumN(s, m.K(), OutOf(s, m, t, next, i))) == RowSum(s, m.K(), Flow(s, m, t, f, next))(i)
  {
    var row := (j: nat) => Flow(s, m, t, f, next)(i, j);
    forall j: nat | j < m.K()
      ensures row(j) == s.times(f[i], OutOf(s, m, t, next, i)(j))
    {
      assert Flow(s, m, t, f, next)(i, j) == s.times(f[i], s.times(s.times(m.trans[i][j], m.emit[t][j]), next[j]));
      assert OutOf(s, m, t, next, i)(j) == s.times(s.times(m.trans[i][j], m.emit[t][j]), next[j]);
    }
    SumNTimesLeft(s, m.K(), f[i], OutOf(s, m, t, next, i), row);
  }

  lemma {:induction false} ColumnFlow<R(!new)>(s: Semiring<R>, m: Hmm<R>, t: nat, f: seq<R>, next: seq<R>, j: nat)
    requires Laws(s) && m.Valid() && t < m.T() && |f| == |next| == m.K() && j < m.K()
    ensures s.times(s.times(SumN(s, m.K(), Into(s, m, f, j)), m.emit[t][j]), next[j])
         == ColumnSum(s, m.K(), Flow(s, m, t, f, next))(j)
  {
    var c := s.times(m.emit[t][j], next[j]);
    forall i: nat | i < m.K()
      ensures Flow(s, m, t, f, next)(i, j) == s.times(Into(s, m, f, j)(i), c)
    {
      Law(s, m.trans[i][j], m.emit[t][j], next[j]);
      Law(s, f[i], m.trans[i][j], c);
    }
    SumNTimesRight(s, m.K(), c, Into(s, m, f, j), (i: nat) => Flow(s, m, t, f, next)(i, j));
    Law(s, SumN(s, m.K(), Into(s, m, f, j)), m.emit[t][j], next[j]);
  }

  lemma {:induction false} JointStep<R(!new)>(s: Semiring<R>, m: Hmm<R>, t: nat)
    requires Laws(s) && m.Valid() && t + 1 < m.T()
    ensures SumN(s, m.K(), Joint(s, Forward(s, m, t), Backward(s, m, t)))
         == SumN(s, m.K(), Joint(s, Forward(s, m, t + 1), Backward(s, m, t + 1)))
  {
    var f, next := Forward(s, m, t), Backward(s, m, t + 1);
    var g := Flow(s, m, t + 1, f, next);
    forall i: nat | i < m.K()
      ensures Joint(s, f, Backward(s, m, t))(i) == RowSum(s, m.K(), g)(i)
    {
      RowFlow(s, m, t + 1, f, next, i);
    }
    forall j: nat | j < m.K()
      ensures Joint(s, Forward(s, m, t + 1), next)(j) == ColumnSum(s, m.K(), g)(j)
    {
      ColumnFlow(s, m, t + 1, f, next, j);
    }
    SumNEqual(s, m.K(), Joint(s, f, Backward(s, m, t)), RowSum(s, m.K(), g));
    SumNEqual(s, m.K(), Joint(s, Forward(s, m, t + 1), next), ColumnSum(s, m.K(), g));
    SumNSwap(s, m.K(), m.K(), g);
  }

  /** Main result: at every time step the products of forward and backward entries add
      up to the same total likelihood. */
  lemma {:induction false} LikelihoodAtEveryTime<R(!new)>(s: Semiring<R>, m: Hmm<R>, t: nat)
    requires Laws(s) && m.Valid() && t < m.T()
    ensures SumN(s, m.K(), Joint(s, Forward(s, m, t), Backward(s, m, t))) == Likelihood(s, m)
    decreases m.T() - t
  {
    if t == m.T() - 1 {
      var f, ones := Forward(s, m, t), Backward(s, m, t);
      forall j: nat | j < m.K()
        ensures Joint(s, f, ones)(j) == Entry(s, f)(j)
      {
        Law(s, f[j], s.one, s.one);
      }
      SumNEqual(s, m.K(), Joint(s, f, ones), Entry(s, f));
    } else {
      JointStep(s, m, t);
      LikelihoodAtEveryTime(s, m, t + 1);
    }
  }

  // ----- posteriors, in probability space

  ghost predicate Positive(m: Hmm<real>)
    requires m.Valid()
  {
    && (forall j :: 0 <= j < m.K() ==> m.start[j] > 0.0)
    && (forall i, j :: 0 <= i < m.K() && 0 <= j < m.K() ==> m.trans[i][j] > 0.0)
    && (forall t, j :: 0 <= t < m.T() && 0 <= j < m.K() ==> m.emit[t][j] > 0.0)
  }

  lemma {:induction false} PositiveSum(n: nat, f: nat -> real)
    requires n > 0
    requires forall i: nat :: i < n ==> f(i) > 0.0
    ensures SumN(RealSemiring(), n, f) > 0.0
  {
    if n > 1 {
      PositiveSum(n - 1, f);
    } else {
      assert SumN(RealSemiring(), 0, f) == 0.0;
    }
  }

  lemma {:induction false} ForwardPositive(m: Hmm<real>, t: nat)
    requires m.Valid() && Positive(m) && t < m.T()
    ensures forall j :: 0 <= j < m.K() ==> Forward(RealSemiring(), m, t)[j] > 0.0
  {
    var s := RealSemiring();
    if t > 0 {
      ForwardPositive(m, t - 1);
    }
    forall j | 0 <= j < m.K()
      ensures Forward(s, m, t)[j] > 0.0
    {
      if t == 0 {
        RealSums.PositiveProduct(m.start[j], m.emit[0][j]);
      } else {
        var prev := Forward(s, m, t - 1);
        forall i: nat | i < m.K()
          ensures Into(s, m, prev, j)(i) > 0.0
        {
          RealSums.PositiveProduct(prev[i], m.trans[i][j]);
        }
        PositiveSum(m.K(), Into(s, m, prev, j));
        RealSums.PositiveProduct(SumN(s, m.K(), Into(s, m, prev, j)), m.emit[t][j]);
      }
    }
  }

  /** The probability of state `j` at time `t` given all observations. */
  ghost function Posterior(m: Hmm<real>, t: nat): nat -> real
    requires m.Valid() && t < m.T() && Likelihood(RealSemiring(), m) > 0.0
  {
    var s := RealSemiring();
    (j: nat) => Joint(s, Forward(s, m, t), Backward(s, m, t))(j) / Likelihood(s, m)
  }

  /** Main result: a posterior is the share of the paths through its state in the total
      mass, and the posteriors of every time step add up to one. */
  lemma {:induction false} PosteriorsSumToOne(m: Hmm<real>, t: nat)
    requires m.Valid() && Positive(m) && t < m.T()
    ensures Likelihood(RealSemiring(), m) > 0.0
    ensures forall j: nat :: j < m.K() ==>
              Posterior(m, t)(j) == MassThrough(RealSemiring(), m, t, j) / Likelihood(RealSemiring(), m)
    ensures SumN(RealSemiring(), m.K(), Posterior(m, t)) == 1.0
  {
    var s := RealSemiring();
    RealLaws();
    ForwardPositive(m, m.T() - 1);
    PositiveSum(m.K(), Entry(s, Forward(s, m, m.T() - 1)));
    var total := Likelihood(s, m);
    forall j: nat | j < m.K()
      ensures Posterior(m, t)(j) == MassThrough(s, m, t, j) / total
    {
      PosteriorIsShare(m, t, j);
    }
    var joint := Joint(s, Forward(s, m, t), Backward(s, m, t));
    LikelihoodAtEveryTime(s, m, t);
    ScaleSum(m.K(), joint, Posterior(m, t), total);
  }

  lemma {:induction false} JointIsMass<R(!new)>(s: Semiring<R>, m: Hmm<R>, t: nat, j: nat)
    requires Laws(s) && m.Valid() && t < m.T() && j < m.K()
    ensures Joint(s, Forward(s, m, t), Backward(s, m, t))(j) == MassThrough(s, m, t, j)
  {
    ForwardBackwardIsPathSum(s, m, t, j);
  }

  lemma {:induction false} PosteriorIsShare(m: Hmm<real>, t: nat, j: nat)
    requires m.Valid() && t < m.T() && j < m.K() && Likelihood(RealSemiring(), m) > 0.0
    ensures Posterior(m, t)(j) == MassThrough(RealSemiring(), m, t, j) / Likelihood(RealSemiring(), m)
  {
    RealLaws();
    JointIsMass(RealSemiring(), m, t, j);
  }

  lemma {:induction false} QuotientAsProduct(a: real, b: real)
    requires b > 0.0
    ensures a / b == RealSemiring().times(a, 1.0 / b)
  {
  }

  lemma {:induction false} ScaleSum(n: nat, f: nat -> real, g: nat -> real, total: real)
    requires total > 0.0 && SumN(RealSemiring(), n, f) == total
    requires forall i: nat :: i < n ==> g(i) == f(i) / total
    ensures SumN(RealSemiring(), n, g) == 1.0
  {
    RealLaws();
    forall i: nat | i < n
      ensures g(i) == RealSemiring().times(f(i), 1.0 / total)
    {
      QuotientAsProduct(f(i), total);
    }
    SumNTimesRight(RealSemiring(), n, 1.0 / total, f, g);
  }

  // ----- prediction

  /** The first state no other state exceeds, as `argmax` picks it. */
  ghost predicate FirstMaximum<R>(row: seq<R>, less: (R, R) -> bool, best: nat) {
    && best < |row|
    && (forall j :: 0 <= j < |row| ==> !less(row[best], row[j]))
    && (forall j :: 0 <= j < best ==> less(row[j], row[best]))
  }

  method ArgMax<R(!new)>(row: seq<R>, less: (R, R) -> bool) returns (best: nat)
    requires Sorting.StrictWeakOrder(less)
    requires row != []
    ensures FirstMaximum(row, less, best)
  {
    best := 0;
    for j := 1 to |row|
      invariant FirstMaximum(row[..j], less, best)
    {
      assert forall k :: 0 <= k < j ==> row[..j][k] == row[k] && !less(row[best], row[k]);
      if less(row[best], row[j]) {
        best := j;
      }
    }
    assert row[..|row|] == row;
  }

  /** `best` is the first of the states into which the paths carry the most mass at `t`. */
  ghost predicate HeaviestState<R>(s: Semiring<R>, m: Hmm<R>, less: (R, R) -> bool, t: nat, best: nat)
    requires m.Valid()
  {
    && best < m.K()
    && (forall j: nat :: j < m.K() ==> !less(MassInto(s, m, t, best), MassInto(s, m, t, j)))
    && (forall j: nat :: j < best ==> less(MassInto(s, m, t, j), MassInto(s, m, t, best)))
  }

  lemma {:induction false} MaximumIsHeaviest<R(!new)>(s: Semiring<R>, m: Hmm<R>, less: (R, R) -> bool, t: nat, best: nat)
    requires m.Valid() && Laws(s) && t < m.T()
    requires FirstMaximum(Forward(s, m, t), less, best)
    ensures HeaviestState(s, m, less, t, best)
  {
    forall j: nat | j < m.K()
      ensures Forward(s, m, t)[j] == MassInto(s, m, t, j)
    {
      ForwardIsPathSum(s, m, t, j);
    }
  }

  method PredictAt<R(!new)>(s: Semiring<R>, m: Hmm<R>, less: (R, R) -> bool, alpha: array2<R>, t: nat) returns (best: nat)
    requires m.Valid() && Laws(s) && Sorting.StrictWeakOrder(less) && t < m.T() && alpha.Length1 == m.K()
    requires RowIs(alpha, t, Forward(s, m, t))
    ensures HeaviestState(s, m, less, t, best)
  {
    var row := RowOf(alpha, t);
    hide Laws, Sorting.StrictWeakOrder, FirstMaximum, Forward, HeaviestState;
    assert row == Forward(s, m, t);
    best := ArgMax(row, less);
    MaximumIsHeaviest(s, m, less, t, best);
  }

  method Predict<R(!new)>(s: Semiring<R>, m: Hmm<R>, less: (R, R) -> bool) returns (states: seq<nat>)
    requires m.Valid() && Laws(s) && Sorting.StrictWeakOrder(less)
    ensures |states| == m.T()
    ensures forall t: nat :: t < m.T() ==> HeaviestState(s, m, less, t, states[t])
  {
    hide Laws, Sorting.StrictWeakOrder, Forward, HeaviestState, RowIs;
    var alpha := FillForward(s, m);
    states := [];
    for t := 0 to m.T()
      invariant |states| == t
      invariant forall u: nat :: u < m.T() ==> RowIs(alpha, u, Forward(s, m, u))
      invariant forall u: nat :: u < t ==> HeaviestState(s, m, less, u, states[u])
    {
      var best := PredictAt(s, m, less, alpha, t);
      states := states + [best];
    }
  }
}
