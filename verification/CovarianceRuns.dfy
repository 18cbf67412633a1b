/**
 From calls of the covariance engine to the runs of `CovarianceSchedules`: the returns of
 any calls are ones a schedule admits, and any returns it admits are those of some prices.
 So exactly the same schedules of quotes keep the engine's matrix semidefinite whatever the
 prices.
 */
module CovarianceRuns {
  import opened RealSums
  import opened CorrelationEngine
  import opened CovarianceSchedules

  /** The calls quote the symbols, and use the decay, a schedule says. */
  ghost predicate PlaysOut(calls: seq<Call>, sched: seq<Tick>) {
    && |calls| == |sched|
    && forall k :: 0 <= k < |calls| ==> CallIs(calls[k], sched[k])
  }

  ghost predicate CallIs(call: Call, tick: Tick) {
    IsDict(call.trade) && Quoted(call.trade) == tick.quoted && EffectiveLambda(call.power) == tick.decay
  }

  /** Decays are those the engine's clamp lets through. */
  ghost predicate Clamped(sched: seq<Tick>) {
    forall k :: 0 <= k < |sched| ==> 0.5 <= sched[k].decay <= 0.99
  }

  ghost predicate IsLog(ln: real -> real, exp: real -> real) {
    forall x :: exp(x) > 0.0 && ln(exp(x)) == x
  }

  // ----- calls give an admissible run

  lemma {:induction false} RunOfAt(ln: real -> real, calls: seq<Call>, k: nat)
    requires k < |calls|
    ensures RunOf(ln, calls)[k] == SnapshotOf(ln, calls[..k], calls[k])
    decreases |calls|
  {
    hide SnapshotOf;
    var n := |calls| - 1;
    if k < n {
      RunOfAt(ln, calls[..n], k);
      assert calls[..n][..k] == calls[..k];
    }
  }

  lemma {:induction false} RunOfPrefix(ln: real -> real, calls: seq<Call>, n: nat)
    requires n <= |calls|
    ensures RunOf(ln, calls[..n]) == RunOf(ln, calls)[..n]
    decreases |calls|
  {
    hide SnapshotOf;
    if n == |calls| {
      assert calls[..n] == calls;
    } else {
      var m := |calls| - 1;
      RunOfPrefix(ln, calls[..m], n);
      assert calls[..m][..n] == calls[..n];
    }
  }

  lemma {:induction false} UnseenBefore(calls: seq<Call>, sched: seq<Tick>, k: nat, a: Symbol)
    requires PlaysOut(calls, sched) && k <= |calls| && a !in QuotedBefore(sched, k)
    ensures PriceAfter(calls[..k], a) == Unseen
  {
    hide Quoted, EffectiveLambda;
    if k > 0 {
      assert CallIs(calls[k - 1], sched[k - 1]);
      UnseenBefore(calls, sched, k - 1, a);
      PriceInIffQuoted(calls[k - 1].trade, a);
      assert calls[..k][..k - 1] == calls[..k - 1];
    }
  }

  /** The returns of any calls are ones their schedule admits. */
  lemma {:induction false} CallsAreAdmissible(ln: real -> real, calls: seq<Call>, sched: seq<Tick>)
    requires PlaysOut(calls, sched)
    ensures Follows(RunOf(ln, calls), sched) && Admissible(RunOf(ln, calls), sched)
  {
    hide RunOf, QuotedBefore, PriceAfter, PriceIn, Quoted, EffectiveLambda;
    var run := RunOf(ln, calls);
    forall k | 0 <= k < |run|
      ensures run[k].quoted == sched[k].quoted && run[k].decay == sched[k].decay
    {
      RunOfAt(ln, calls, k);
      assert CallIs(calls[k], sched[k]);
    }
    forall k: nat, a | k < |run| && a !in QuotedBefore(sched, k)
      ensures run[k].r(a) == 0.0
    {
      RunOfAt(ln, calls, k);
      UnseenBefore(calls, sched, k, a);
    }
  }

  // ----- every admissible run is that of some calls

  lemma {:induction false} QuoteOneMore(rest: seq<(Symbol, real)>, s: Symbol, price: real)
    requires IsDict(rest) && s !in Quoted(rest)
    ensures
      var trade := rest + [(s, price)];
      && IsDict(trade) && Quoted(trade) == Quoted(rest) + {s} && PriceIn(trade, s) == Price.Seen(price)
      && forall a :: a != s ==> PriceIn(trade, a) == PriceIn(rest, a)
  {
    var trade := rest + [(s, price)];
    assert trade[..|rest|] == rest && trade[..|rest| + 1] == trade;
    forall i, j | 0 <= i < j < |trade|
      ensures trade[i].0 != trade[j].0
    {
      assert trade[i] == rest[i] && rest[i].0 in Quoted(rest);
    }
    QuotedSnoc(trade, |rest|);
  }

  /** A dictionary with given prices for given symbols. */
  lemma {:induction false} Quote(symbols: set<Symbol>, price: Symbol -> real) returns (trade: seq<(Symbol, real)>)
    ensures IsDict(trade) && Quoted(trade) == symbols
    ensures forall a :: a in symbols ==> PriceIn(trade, a) == Price.Seen(price(a))
    decreases |symbols|
  {
    if symbols == {} {
      trade := [];
    } else {
      hide IsDict, Quoted, PriceIn;
      var s :| s in symbols;
      var rest := Quote(symbols - {s}, price);
      QuoteOneMore(rest, s, price(s));
      trade := rest + [(s, price(s))];
    }
  }

  /** The price that gives a symbol the return `x`; any will do for a first one. */
  function PriceFor(exp: real -> real, last: Price, x: real): real {
    if last.Seen? then last.value * exp(x) else 1.0
  }

  ghost predicate Positive(p: Price) {
    p.Seen? && p.value > 0.0
  }

  /** The returns of two runs agree where it matters. */
  ghost predicate SameRun(run: seq<Snapshot>, other: seq<Snapshot>) {
    |run| == |other| && forall k :: 0 <= k < |run| ==> SameSnapshot(run[k], other[k])
  }

  ghost predicate SameSnapshot(s: Snapshot, t: Snapshot) {
    s.quoted == t.quoted && s.decay == t.decay && forall a :: a in s.quoted ==> s.r(a) == t.r(a)
  }

  /** One more call, with the prices that give the returns wanted. */
  lemma {:induction false} NextCall(
      ln: real -> real, exp: real -> real, calls: seq<Call>, seen: set<Symbol>, tick: Tick, r: Symbol -> real)
      returns (call: Call)
    requires IsLog(ln, exp) && 0.5 <= tick.decay <= 0.99
    requires forall a :: a in seen ==> Positive(PriceAfter(calls, a))
    requires forall a :: a !in seen ==> PriceAfter(calls, a) == Unseen && r(a) == 0.0
    ensures Quoted(call.trade) == tick.quoted && CallIs(call, tick)
    ensures SameSnapshot(SnapshotOf(ln, calls, call), Snapshot(tick.quoted, tick.decay, r))
    ensures forall a :: a in tick.quoted ==> Positive(PriceIn(call.trade, a))
  {
    hide PriceAfter, PriceIn, Quoted, IsDict, LogReturn, PriceFor, IsLog;
    var price := (a: Symbol) => PriceFor(exp, PriceAfter(calls, a), r(a));
    var trade := Quote(tick.quoted, price);
    call := Call(trade, tick.decay);
    forall a | a in tick.quoted
      ensures ReturnAt(ln, calls, call, a) == r(a) && Positive(PriceIn(trade, a))
    {
      PriceGivesReturn(ln, exp, PriceAfter(calls, a), r(a));
    }
  }

  lemma {:induction false} PriceGivesReturn(ln: real -> real, exp: real -> real, last: Price, x: real)
    requires IsLog(ln, exp) && (Positive(last) || (last == Unseen && x == 0.0))
    ensures PriceFor(exp, last, x) > 0.0 && LogReturn(ln, last, PriceFor(exp, last, x)) == x
  {
    hide IsLog, LogReturn;
    LogOfExp(ln, exp, x);
    if last.Seen? {
      GrownPrice(ln, exp, last.value, x, PriceFor(exp, last, x));
    } else {
      EveryReturnHasAPrice(ln, exp, 1.0, x);
    }
  }

  lemma {:induction false} GrownPrice(ln: real -> real, exp: real -> real, prev: real, x: real, price: real)
    requires prev > 0.0 && exp(x) > 0.0 && ln(exp(x)) == x && price == prev * exp(x)
    ensures price > 0.0 && LogReturn(ln, Price.Seen(prev), price) == x
  {
    PositiveProduct(prev, exp(x));
    EveryReturnHasAPrice(ln, exp, prev, x);
  }

  lemma {:induction false} LogOfExp(ln: real -> real, exp: real -> real, x: real)
    requires IsLog(ln, exp)
    ensures exp(x) > 0.0 && ln(exp(x)) == x
  {
  }

  lemma {:induction false} SeenPositive(calls: seq<Call>, call: Call, seen: set<Symbol>, tick: Tick)
    requires forall a :: a in seen ==> Positive(PriceAfter(calls, a))
    requires forall a :: a in tick.quoted ==> Positive(PriceIn(call.trade, a))
    requires Quoted(call.trade) == tick.quoted
    ensures forall a :: a in seen + tick.quoted ==> Positive(PriceAfter(calls + [call], a))
  {
    hide PriceIn, Quoted;
    assert (calls + [call])[..|calls|] == calls;
    forall a | a in seen + tick.quoted
      ensures Positive(PriceAfter(calls + [call], a))
    {
      PriceInIffQuoted(call.trade, a);
    }
  }

  /** Any returns a schedule admits are those of some prices. */
  lemma {:induction false} AdmissibleHasPrices(
      ln: real -> real, exp: real -> real, run: seq<Snapshot>, sched: seq<Tick>, n: nat) returns (calls: seq<Call>)
    requires IsLog(ln, exp) && Clamped(sched) && Follows(run, sched) && Admissible(run, sched) && n <= |sched|
    ensures PlaysOut(calls, sched[..n]) && SameRun(RunOf(ln, calls), run[..n])
    ensures forall a :: a in QuotedBefore(sched, n) ==> Positive(PriceAfter(calls, a))
    decreases n
  {
    hide CallIs, SameSnapshot, SnapshotOf, PriceAfter, IsLog, Positive;
    if n == 0 {
      calls := [];
    } else {
      var before := AdmissibleHasPrices(ln, exp, run, sched, n - 1);
      forall a | a !in QuotedBefore(sched, n - 1)
        ensures PriceAfter(before, a) == Unseen
      {
        QuotedOfPrefix(sched, n - 1);
        assert before[..n - 1] == before;
        UnseenBefore(before, sched[..n - 1], n - 1, a);
      }
      var tick, last := sched[n - 1], run[n - 1];
      var call := NextCall(ln, exp, before, QuotedBefore(sched, n - 1), tick, last.r);
      calls := before + [call];
      assert calls[..n - 1] == before;
      SeenPositive(before, call, QuotedBefore(sched, n - 1), tick);
      assert RunOf(ln, calls) == RunOf(ln, before) + [SnapshotOf(ln, before, call)];
    }
  }

  lemma {:induction false} QuotedOfPrefix(sched: seq<Tick>, n: nat)
    requires n <= |sched|
    ensures QuotedBefore(sched[..n], n) == QuotedBefore(sched, n)
  {
    QuotedOfPrefixAt(sched, n, n);
  }

  lemma {:induction false} QuotedOfPrefixAt(sched: seq<Tick>, n: nat, k: nat)
    requires k <= n <= |sched|
    ensures QuotedBefore(sched[..n], k) == QuotedBefore(sched, k)
  {
    if k > 0 {
      QuotedOfPrefixAt(sched, n, k - 1);
    }
  }

  // ----- the engine's schedules

  lemma {:induction false} AfterSame(run: seq<Snapshot>, other: seq<Snapshot>)
    requires SameRun(run, other)
    ensures forall a, b :: After(run)(a, b) == After(other)(a, b)
  {
    hide Ewma;
    if run != [] {
      var n := |run| - 1;
      AfterSame(run[..n], other[..n]);
      assert SameSnapshot(run[n], other[n]);
    }
  }

  lemma {:induction false} PsdSame(m: Matrix, m': Matrix)
    requires PSD(m) && forall a, b :: m(a, b) == m'(a, b)
    ensures PSD(m')
  {
    hide PSD;
    RankOneKeepsPsd(m, m', {}, (a: Symbol) => 0.0, 1.0, 0.0);
  }

  /** Whatever the prices, every matrix along the schedule is semidefinite. */
  ghost predicate EngineSafe(ln: real -> real, sched: seq<Tick>) {
    forall calls: seq<Call>, n: nat :: PlaysOut(calls, sched) && n <= |calls| ==> PSD(After(RunOf(ln, calls[..n])))
  }

  /** Main result: the engine keeps its matrix semidefinite at every moment, whatever the
      prices it is given, exactly for schedules of quotes that do not split. */
  lemma {:induction false} EngineSafeIff(ln: real -> real, exp: real -> real, sched: seq<Tick>)
    requires IsLog(ln, exp) && Clamped(sched)
    ensures EngineSafe(ln, sched) <==> !Splits(sched)
  {
    hide PSD, RunOf, After, Follows, Admissible, Splits, PlaysOut, SameRun, IsLog;
    ScheduleSafeIff(sched);
    if Splits(sched) {
      var run: seq<Snapshot>, n: nat :| Follows(run, sched) && Admissible(run, sched) && n <= |run| && !PSD(After(run[..n]));
      PricesBreak(ln, exp, sched, run, n);
    } else {
      forall calls: seq<Call>, n: nat | PlaysOut(calls, sched) && n <= |calls|
        ensures PSD(After(RunOf(ln, calls[..n])))
      {
        CallsAreAdmissible(ln, calls, sched);
        RunOfPrefix(ln, calls, n);
      }
    }
  }

  lemma {:induction false} PricesBreak(ln: real -> real, exp: real -> real, sched: seq<Tick>, run: seq<Snapshot>, n: nat)
    requires IsLog(ln, exp) && Clamped(sched) && Follows(run, sched) && Admissible(run, sched)
    requires n <= |run| && !PSD(After(run[..n]))
    ensures !EngineSafe(ln, sched)
  {
    hide PSD, RunOf, After, Admissible, PlaysOut, IsLog;
    var calls := AdmissibleHasPrices(ln, exp, run, sched, |sched|);
    assert sched[..|sched|] == sched && run[..|sched|] == run;
    RunOfPrefix(ln, calls, n);
    var realised := RunOf(ln, calls[..n]);
    assert SameRun(realised, run[..n]);
    AfterSame(realised, run[..n]);
    if PSD(After(realised)) {
      PsdSame(After(realised), After(run[..n]));
    }
    assert PlaysOut(calls, sched) && n <= |calls|;
  }
}
