/**
 The tables as the code keeps them, in logarithms, are the tables of probabilities: seen
 through `exp`, `logaddexp` adds and `+` multiplies. So every entry is a sum of products of
 probabilities over state paths, and the state predicted is the most probable one.
 */
module RegimeLog {
  import opened Semirings
  import opened StatePaths
  import opened RegimeHmm
  import RealSums
  import Sorting

  // ----- the code's sum and product are those of probabilities

  /** What `logaddexp`, `+`, minus infinity and 0 stand for. */
  lemma {:induction false} LogMeans(exp: real -> real, ln: real -> real, a: LogValue, b: LogValue)
    requires IsExp(exp, ln)
    ensures ExpOf(exp, LogSemiring(exp, ln).plus(a, b)) == ExpOf(exp, a) + ExpOf(exp, b)
    ensures ExpOf(exp, LogSemiring(exp, ln).times(a, b)) == ExpOf(exp, a) * ExpOf(exp, b)
    ensures ExpOf(exp, LogSemiring(exp, ln).zero) == 0.0 && ExpOf(exp, LogSemiring(exp, ln).one) == 1.0
  {
    hide IsExp, LogAdd, LogTimes;
    ExpOfSum(exp, ln, a, b);
    ExpOfProduct(exp, ln, a, b);
    ExpOfZero(exp, ln);
  }

  lemma {:induction false} ExpOfZero(exp: real -> real, ln: real -> real)
    requires IsExp(exp, ln)
    ensures exp(0.0) == 1.0
  {
    hide Inverse, Exponential;
    PositiveExp(exp, ln, 0.0);
    ExpOfPlus(exp, 0.0, 0.0);
    OneIsIdempotent(exp(0.0), exp(0.0 + 0.0));
  }

  lemma {:induction false} OneIsIdempotent(x: real, square: real)
    requires x > 0.0 && square == x * x && x == square
    ensures x == 1.0
  {
    assert x * (x - 1.0) == 0.0;
  }

  // ----- probabilities of paths

  /** Start, transition and emission probabilities multiplied along a path. */
  ghost function Probability(exp: real -> real, m: Hmm<LogValue>, p: Path): real
    requires m.Valid() && 0 < |p| <= m.T() && IsPath(m.K(), p, |p|)
  {
    var n := |p| - 1;
    if n == 0 then ExpOf(exp, m.start[p[0]]) * ExpOf(exp, m.emit[0][p[0]])
    else Probability(exp, m, p[..n]) * (ExpOf(exp, m.trans[p[n - 1]][p[n]]) * ExpOf(exp, m.emit[n][p[n]]))
  }

  ghost function Prob(exp: real -> real, m: Hmm<LogValue>): Path -> real
    requires m.Valid()
  {
    (p: Path) => if 0 < |p| <= m.T() && IsPath(m.K(), p, |p|) then Probability(exp, m, p) else 0.0
  }

  lemma {:induction false} PathMassIsProbability(exp: real -> real, ln: real -> real, m: Hmm<LogValue>, p: Path)
    requires IsExp(exp, ln) && m.Valid() && 0 < |p| <= m.T() && IsPath(m.K(), p, |p|)
    ensures ExpOf(exp, PathMass(LogSemiring(exp, ln), m, p)) == Probability(exp, m, p)
  {
    hide IsExp, LogSemiring, ExpOf;
    var s, n := LogSemiring(exp, ln), |p| - 1;
    if n == 0 {
      LogMeans(exp, ln, m.start[p[0]], m.emit[0][p[0]]);
    } else {
      var a, e := m.trans[p[n - 1]][p[n]], m.emit[n][p[n]];
      PathMassIsProbability(exp, ln, m, p[..n]);
      LogMeans(exp, ln, a, e);
      LogMeans(exp, ln, PathMass(s, m, p[..n]), s.times(a, e));
    }
  }

  lemma {:induction false} MassIsProbability(exp: real -> real, ln: real -> real, m: Hmm<LogValue>, p: Path)
    requires IsExp(exp, ln) && m.Valid()
    ensures ExpOf(exp, Mass(LogSemiring(exp, ln), m)(p)) == Prob(exp, m)(p)
  {
    hide IsExp;
    if 0 < |p| <= m.T() && IsPath(m.K(), p, |p|) {
      PathMassIsProbability(exp, ln, m, p);
    } else {
      LogMeans(exp, ln, NegInf, NegInf);
    }
  }

  lemma {:induction false} MassesAreProbabilities(exp: real -> real, ln: real -> real, m: Hmm<LogValue>, ps: seq<Path>)
    requires IsExp(exp, ln) && m.Valid()
    ensures ExpOf(exp, SumSeq(LogSemiring(exp, ln), ps, Mass(LogSemiring(exp, ln), m)))
         == RealSums.SumBy(ps, Prob(exp, m))
  {
    hide IsExp, LogSemiring, ExpOf, Mass, Prob;
    var s := LogSemiring(exp, ln);
    if ps == [] {
      LogMeans(exp, ln, NegInf, NegInf);
    } else {
      var n := |ps| - 1;
      MassesAreProbabilities(exp, ln, m, ps[..n]);
      MassIsProbability(exp, ln, m, ps[n]);
      LogMeans(exp, ln, SumSeq(s, ps[..n], Mass(s, m)), Mass(s, m)(ps[n]));
    }
  }

  // ----- what the tables hold

  /** Being in state `j` at time `t`, together with the observations so far. */
  ghost function Arriving(exp: real -> real, m: Hmm<LogValue>, t: nat, j: nat): real
    requires m.Valid()
  {
    RealSums.SumBy(PathsTo(m.K(), t, j), Prob(exp, m))
  }

  /** Being in state `j` at time `t`, together with all observations. */
  ghost function Passing(exp: real -> real, m: Hmm<LogValue>, t: nat, j: nat): real
    requires m.Valid() && t < m.T() && j < m.K()
  {
    RealSums.SumBy(PathsThrough(m.K(), m.T(), t, j), Prob(exp, m))
  }

  /** Main result: a forward entry of the code is the logarithm of the sum, over all state
      paths ending there, of the product of their probabilities. */
  lemma {:induction false} ForwardIsProbability(exp: real -> real, ln: real -> real, m: Hmm<LogValue>, t: nat, j: nat)
    requires IsExp(exp, ln) && m.Valid() && t < m.T() && j < m.K()
    ensures ExpOf(exp, Forward(LogSemiring(exp, ln), m, t)[j]) == Arriving(exp, m, t, j)
  {
    hide IsExp, LogSemiring, Laws, Forward;
    LogLaws(exp, ln);
    ForwardIsPathSum(LogSemiring(exp, ln), m, t, j);
    MassesAreProbabilities(exp, ln, m, PathsTo(m.K(), t, j));
  }

  /** With the backward entry it is that of all full-length paths through the state. */
  lemma {:induction false} TablesAreProbability(exp: real -> real, ln: real -> real, m: Hmm<LogValue>, t: nat, j: nat)
    requires IsExp(exp, ln) && m.Valid() && t < m.T() && j < m.K()
    ensures
      var s := LogSemiring(exp, ln);
      ExpOf(exp, Forward(s, m, t)[j]) * ExpOf(exp, Backward(s, m, t)[j]) == Passing(exp, m, t, j)
  {
    hide IsExp, LogSemiring, Laws, Forward, Backward, ExpOf;
    var s := LogSemiring(exp, ln);
    LogLaws(exp, ln);
    ForwardBackwardIsPathSum(s, m, t, j);
    MassesAreProbabilities(exp, ln, m, PathsThrough(m.K(), m.T(), t, j));
    LogMeans(exp, ln, Forward(s, m, t)[j], Backward(s, m, t)[j]);
  }

  lemma {:induction false} SumIsSum(exp: real -> real, ln: real -> real, n: nat, f: nat -> LogValue, g: nat -> real)
    requires IsExp(exp, ln) && forall i: nat :: i < n ==> ExpOf(exp, f(i)) == g(i)
    ensures ExpOf(exp, SumN(LogSemiring(exp, ln), n, f)) == RealSums.SumN(n, g)
  {
    hide IsExp, LogSemiring, ExpOf;
    if n == 0 {
      LogMeans(exp, ln, NegInf, NegInf);
    } else {
      SumIsSum(exp, ln, n - 1, f, g);
      LogMeans(exp, ln, SumN(LogSemiring(exp, ln), n - 1, f), f(n - 1));
    }
  }

  ghost function ArrivingAt(exp: real -> real, m: Hmm<LogValue>, t: nat): nat -> real
    requires m.Valid()
  {
    (j: nat) => Arriving(exp, m, t, j)
  }

  /** The log-likelihood returned is that of all paths, whatever state they end in. */
  lemma {:induction false} LikelihoodIsProbability(exp: real -> real, ln: real -> real, m: Hmm<LogValue>)
    requires IsExp(exp, ln) && m.Valid()
    ensures ExpOf(exp, Likelihood(LogSemiring(exp, ln), m)) == RealSums.SumN(m.K(), ArrivingAt(exp, m, m.T() - 1))
  {
    hide IsExp, LogSemiring, Forward, Arriving, ExpOf;
    var s := LogSemiring(exp, ln);
    var last := Forward(s, m, m.T() - 1);
    forall j: nat | j < m.K()
      ensures ExpOf(exp, Entry(s, last)(j)) == ArrivingAt(exp, m, m.T() - 1)(j)
    {
      ForwardIsProbability(exp, ln, m, m.T() - 1, j);
    }
    SumIsSum(exp, ln, m.K(), Entry(s, last), ArrivingAt(exp, m, m.T() - 1));
  }

  // ----- entry by entry

  function RealRow(exp: real -> real, row: seq<LogValue>): (r: seq<real>)
    ensures |r| == |row|
    ensures forall i :: 0 <= i < |row| ==> r[i] == ExpOf(exp, row[i])
  {
    seq(|row|, i requires 0 <= i < |row| => ExpOf(exp, row[i]))
  }

  function RealRows(exp: real -> real, rows: seq<seq<LogValue>>): (r: seq<seq<real>>)
    ensures |r| == |rows|
    ensures forall i :: 0 <= i < |rows| ==> r[i] == RealRow(exp, rows[i])
  {
    seq(|rows|, i requires 0 <= i < |rows| => RealRow(exp, rows[i]))
  }

  /** The same model with probabilities for weights. */
  ghost function RealOf(exp: real -> real, m: Hmm<LogValue>): (r: Hmm<real>)
    requires m.Valid()
    ensures r.Valid() && r.K() == m.K() && r.T() == m.T()
  {
    Hmm(RealRow(exp, m.start), RealRows(exp, m.trans), RealRows(exp, m.emit))
  }

  /** Real sums, in the terms of the tables. */
  lemma {:induction false} RealSumIs(n: nat, g: nat -> real)
    ensures SumN(RealSemiring(), n, g) == RealSums.SumN(n, g)
  {
    if n > 0 {
      RealSumIs(n - 1, g);
    }
  }

  lemma {:induction false} IntoIsReal(
      exp: real -> real, ln: real -> real, m: Hmm<LogValue>, prev: seq<LogValue>, j: nat)
    requires IsExp(exp, ln) && m.Valid() && |prev| == m.K() && j < m.K()
    ensures ExpOf(exp, SumN(LogSemiring(exp, ln), m.K(), Into(LogSemiring(exp, ln), m, prev, j)))
         == SumN(RealSemiring(), m.K(), Into(RealSemiring(), RealOf(exp, m), RealRow(exp, prev), j))
  {
    hide IsExp, LogSemiring, ExpOf;
    var s, probs, row := LogSemiring(exp, ln), RealOf(exp, m), RealRow(exp, prev);
    var f, g := Into(s, m, prev, j), Into(RealSemiring(), probs, row, j);
    forall i: nat | i < m.K()
      ensures ExpOf(exp, f(i)) == g(i)
    {
      LogMeans(exp, ln, prev[i], m.trans[i][j]);
    }
    SumIsSum(exp, ln, m.K(), f, g);
    RealSumIs(m.K(), g);
  }

  lemma {:induction false} OutOfIsReal(
      exp: real -> real, ln: real -> real, m: Hmm<LogValue>, t: nat, next: seq<LogValue>, i: nat)
    requires IsExp(exp, ln) && m.Valid() && t < m.T() && |next| == m.K() && i < m.K()
    ensures ExpOf(exp, SumN(LogSemiring(exp, ln), m.K(), OutOf(LogSemiring(exp, ln), m, t, next, i)))
         == SumN(RealSemiring(), m.K(), OutOf(RealSemiring(), RealOf(exp, m), t, RealRow(exp, next), i))
  {
    hide IsExp, LogSemiring, ExpOf;
    var s, probs, row := LogSemiring(exp, ln), RealOf(exp, m), RealRow(exp, next);
    var f, g := OutOf(s, m, t, next, i), OutOf(RealSemiring(), probs, t, row, i);
    forall j: nat | j < m.K()
      ensures ExpOf(exp, f(j)) == g(j)
    {
      LogMeans(exp, ln, m.trans[i][j], m.emit[t][j]);
      LogMeans(exp, ln, s.times(m.trans[i][j], m.emit[t][j]), next[j]);
    }
    SumIsSum(exp, ln, m.K(), f, g);
    RealSumIs(m.K(), g);
  }

  /** Every entry of the code's forward table stands for that of the probabilities. */
  lemma {:induction false} ForwardIsReal(exp: real -> real, ln: real -> real, m: Hmm<LogValue>, t: nat)
    requires IsExp(exp, ln) && m.Valid() && t < m.T()
    ensures RealRow(exp, Forward(LogSemiring(exp, ln), m, t)) == Forward(RealSemiring(), RealOf(exp, m), t)
  {
    hide IsExp, LogSemiring, ExpOf, SumN, Into;
    var s, probs := LogSemiring(exp, ln), RealOf(exp, m);
    if t > 0 {
      ForwardIsReal(exp, ln, m, t - 1);
    }
    forall j: nat | j < m.K()
      ensures ExpOf(exp, Forward(s, m, t)[j]) == Forward(RealSemiring(), probs, t)[j]
    {
      if t == 0 {
        LogMeans(exp, ln, m.start[j], m.emit[0][j]);
      } else {
        var prev := Forward(s, m, t - 1);
        IntoIsReal(exp, ln, m, prev, j);
        LogMeans(exp, ln, SumN(s, m.K(), Into(s, m, prev, j)), m.emit[t][j]);
      }
    }
  }

  /** And of its backward table. */
  lemma {:induction false} BackwardIsReal(exp: real -> real, ln: real -> real, m: Hmm<LogValue>, t: nat)
    requires IsExp(exp, ln) && m.Valid() && t < m.T()
    ensures RealRow(exp, Backward(LogSemiring(exp, ln), m, t)) == Backward(RealSemiring(), RealOf(exp, m), t)
    decreases m.T() - t
  {
    hide IsExp, LogSemiring, ExpOf, SumN, OutOf;
    var s, probs := LogSemiring(exp, ln), RealOf(exp, m);
    if t + 1 < m.T() {
      BackwardIsReal(exp, ln, m, t + 1);
    }
    forall i: nat | i < m.K()
      ensures ExpOf(exp, Backward(s, m, t)[i]) == Backward(RealSemiring(), probs, t)[i]
    {
      if t + 1 == m.T() {
        LogMeans(exp, ln, NegInf, NegInf);
      } else {
        OutOfIsReal(exp, ln, m, t + 1, Backward(s, m, t + 1), i);
      }
    }
  }

  lemma {:induction false} LikelihoodIsReal(exp: real -> real, ln: real -> real, m: Hmm<LogValue>)
    requires IsExp(exp, ln) && m.Valid()
    ensures ExpOf(exp, Likelihood(LogSemiring(exp, ln), m)) == Likelihood(RealSemiring(), RealOf(exp, m))
  {
    hide IsExp, LogSemiring, ExpOf, Forward;
    var s, probs := LogSemiring(exp, ln), RealOf(exp, m);
    var last, row := Forward(s, m, m.T() - 1), Forward(RealSemiring(), probs, m.T() - 1);
    ForwardIsReal(exp, ln, m, m.T() - 1);
    assert forall j: nat :: j < m.K() ==> row[j] == RealRow(exp, last)[j];
    SumIsSum(exp, ln, m.K(), Entry(s, last), Entry(RealSemiring(), row));
    RealSumIs(m.K(), Entry(RealSemiring(), row));
  }

  // ----- posteriors

  /** `exp(alpha + beta - loglik)`, as `fit` computes it. */
  function Gamma(exp: real -> real, f: LogValue, b: LogValue, total: LogValue): real
    requires total.Fin?
  {
    if f.NegInf? || b.NegInf? then 0.0 else exp(f.x + b.x - total.x)
  }

  /** It is the share of the paths through a state in all paths. */
  lemma {:induction false} GammaIsShare(exp: real -> real, ln: real -> real, m: Hmm<LogValue>, t: nat, j: nat)
    requires IsExp(exp, ln) && m.Valid() && t < m.T() && j < m.K() && Likelihood(LogSemiring(exp, ln), m).Fin?
    ensures
      var s := LogSemiring(exp, ln);
      Gamma(exp, Forward(s, m, t)[j], Backward(s, m, t)[j], Likelihood(s, m)) * ExpOf(exp, Likelihood(s, m))
      == Passing(exp, m, t, j)
  {
    hide IsExp, LogSemiring, Forward, Backward, Likelihood, Passing;
    var s := LogSemiring(exp, ln);
    TablesAreProbability(exp, ln, m, t, j);
    GammaTimes(exp, ln, Forward(s, m, t)[j], Backward(s, m, t)[j], Likelihood(s, m));
  }

  lemma {:induction false} GammaTimes(exp: real -> real, ln: real -> real, f: LogValue, b: LogValue, total: LogValue)
    requires IsExp(exp, ln) && total.Fin?
    ensures Gamma(exp, f, b, total) * ExpOf(exp, total) == ExpOf(exp, f) * ExpOf(exp, b)
  {
    hide Inverse, Exponential;
    if f.Fin? && b.Fin? {
      var x, y := f.x + b.x, total.x;
      ExpOfPlus(exp, x - y, y);
      ExpOfPlus(exp, f.x, b.x);
      assert (x - y) + y == x;
    }
  }

  // ----- prediction

  ghost predicate Increasing(exp: real -> real) {
    forall x, y :: x < y ==> exp(x) < exp(y)
  }

  function LogLess(): (LogValue, LogValue) -> bool {
    (a: LogValue, b: LogValue) => b.Fin? && (a.NegInf? || a.x < b.x)
  }

  lemma {:induction false} LessIsLessProbable(exp: real -> real, ln: real -> real, a: LogValue, b: LogValue)
    requires Inverse(exp, ln) && Increasing(exp)
    ensures LogLess()(a, b) <==> ExpOf(exp, a) < ExpOf(exp, b)
  {
    if a.Fin? {
      PositiveExp(exp, ln, a.x);
    }
    if b.Fin? {
      PositiveExp(exp, ln, b.x);
    }
    if a.Fin? && b.Fin? {
      hide Inverse;
      assert a.x < b.x ==> exp(a.x) < exp(b.x);
      assert b.x < a.x ==> exp(b.x) < exp(a.x);
    }
  }

  lemma {:induction false} LogOrder()
    ensures Sorting.StrictWeakOrder(LogLess())
  {
  }

  /** No state is more probable at time `t`, given the observations so far, and none before
      it as probable. */
  ghost predicate MostProbable(exp: real -> real, m: Hmm<LogValue>, t: nat, best: nat)
    requires m.Valid()
  {
    && best < m.K()
    && (forall j: nat :: j < m.K() ==> Arriving(exp, m, t, j) <= Arriving(exp, m, t, best))
    && (forall j: nat :: j < best ==> Arriving(exp, m, t, j) < Arriving(exp, m, t, best))
  }

  lemma {:induction false} HeaviestIsMostProbable(exp: real -> real, ln: real -> real, m: Hmm<LogValue>, t: nat, best: nat)
    requires IsExp(exp, ln) && Increasing(exp) && m.Valid() && t < m.T()
    requires HeaviestState(LogSemiring(exp, ln), m, LogLess(), t, best)
    ensures MostProbable(exp, m, t, best)
  {
    hide Inverse, Exponential, Increasing, LogSemiring, LogLess, ExpOf, MassInto, Arriving;
    var s := LogSemiring(exp, ln);
    forall j: nat | j < m.K()
      ensures LogLess()(MassInto(s, m, t, best), MassInto(s, m, t, j)) <==> Arriving(exp, m, t, best) < Arriving(exp, m, t, j)
      ensures LogLess()(MassInto(s, m, t, j), MassInto(s, m, t, best)) <==> Arriving(exp, m, t, j) < Arriving(exp, m, t, best)
    {
      MassIntoIsArriving(exp, ln, m, t, j);
      MassIntoIsArriving(exp, ln, m, t, best);
      LessIsLessProbable(exp, ln, MassInto(s, m, t, best), MassInto(s, m, t, j));
      LessIsLessProbable(exp, ln, MassInto(s, m, t, j), MassInto(s, m, t, best));
    }
  }

  lemma {:induction false} MassIntoIsArriving(exp: real -> real, ln: real -> real, m: Hmm<LogValue>, t: nat, j: nat)
    requires IsExp(exp, ln) && m.Valid()
    ensures ExpOf(exp, MassInto(LogSemiring(exp, ln), m, t, j)) == Arriving(exp, m, t, j)
  {
    hide IsExp, LogSemiring;
    MassesAreProbabilities(exp, ln, m, PathsTo(m.K(), t, j));
  }

  /** `predict`, on logarithms: the most probable state at each time. */
  method PredictRegimes(exp: real -> real, ln: real -> real, m: Hmm<LogValue>) returns (states: seq<nat>)
    requires IsExp(exp, ln) && Increasing(exp) && m.Valid()
    ensures |states| == m.T()
    ensures forall t: nat :: t < m.T() ==> MostProbable(exp, m, t, states[t])
  {
    hide IsExp, Increasing, LogSemiring, LogLess, HeaviestState, MostProbable, Laws, Sorting.StrictWeakOrder;
    LogLaws(exp, ln);
    LogOrder();
    states := Predict(LogSemiring(exp, ln), m, LogLess());
    forall t: nat | t < m.T()
      ensures MostProbable(exp, m, t, states[t])
    {
      HeaviestIsMostProbable(exp, ln, m, t, states[t]);
    }
  }
}
