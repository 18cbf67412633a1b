/**
 Agreement of the candle aggregator with itself across resolutions: for ticks in time
 order, every traded bar of a coarse resolution is the roll-up of the traded bars of
 any finer resolution inside it.
 */
module CandleRollUp {
  import opened Basics
  import opened Periods
  import opened CandleAggregator

  // ----- roll-ups

  function MaxHigh(bars: seq<Bar>): real
    requires bars != []
  {
    var n := |bars| - 1;
    if n == 0 then bars[0].high else Max(MaxHigh(bars[..n]), bars[n].high)
  }

  function MinLow(bars: seq<Bar>): real
    requires bars != []
  {
    var n := |bars| - 1;
    if n == 0 then bars[0].low else Min(MinLow(bars[..n]), bars[n].low)
  }

  function SumVolume(bars: seq<Bar>): real {
    if bars == [] then 0.0 else SumVolume(bars[..|bars| - 1]) + bars[|bars| - 1].volume
  }

  /** First open, highest high, lowest low, last close, summed volume. */
  function RollUp(bars: seq<Bar>, time: int): Bar
    requires bars != []
  {
    Bar(time, bars[0].open, MaxHigh(bars), MinLow(bars), bars[|bars| - 1].close, SumVolume(bars))
  }

  function WithVolume(bars: seq<Bar>): seq<Bar> {
    if bars == [] then []
    else
      var n := |bars| - 1;
      WithVolume(bars[..n]) + (if bars[n].volume > 0.0 then [bars[n]] else [])
  }

  /** When the coarse bar that a moment falls in begins. */
  function CoarseStart(coarse: Grid, time: int): int {
    coarse.time(coarse.index(time))
  }

  /** The bars that fall in the coarse bar beginning at `start`. */
  function Inside(bars: seq<Bar>, coarse: Grid, start: int): seq<Bar> {
    if bars == [] then []
    else
      var n := |bars| - 1;
      Inside(bars[..n], coarse, start) + (if CoarseStart(coarse, bars[n].time) == start then [bars[n]] else [])
  }

  /** Fine periods do not straddle coarse ones. */
  ghost predicate Refines(fine: Grid, coarse: Grid) {
    forall ts {:trigger fine.index(ts)} :: coarse.index(fine.time(fine.index(ts))) == coarse.index(ts)
  }

  lemma {:induction false} MultiplesRefine(p: Positive, r: Positive)
    ensures p * r > 0
    ensures Refines(GridOf(p), GridOf(p * r))
  {
    Coarsen(0, p, r);
    forall ts: int
      ensures GridOf(p * r).index(GridOf(p).time(GridOf(p).index(ts))) == GridOf(p * r).index(ts)
    {
      Coarsen(ts, p, r);
    }
  }

  // ----- the traded bars of a run

  /** The bars that actually traded, in order: what the aggregator holds, without the gaps. */
  function TradedBars(ticks: seq<Tick>, g: Grid): seq<Bar> {
    if ticks == [] then [] else AddTraded(TradedBars(ticks[..|ticks| - 1], g), g, ticks[|ticks| - 1])
  }

  function AddTraded(bars: seq<Bar>, g: Grid, tick: Tick): seq<Bar> {
    var n := |bars| - 1;
    if n >= 0 && bars[n].time == StartOf(tick, g) then bars[..n] + [Traded(bars[n], tick)]
    else bars + [OpenBar(StartOf(tick, g), tick)]
  }

  ghost predicate PositiveVolumes(ticks: seq<Tick>) {
    forall i :: 0 <= i < |ticks| ==> ticks[i].volume > 0.0
  }

  lemma {:induction false} WithVolumeConcat(a: seq<Bar>, b: seq<Bar>)
    ensures WithVolume(a + b) == WithVolume(a) + WithVolume(b)
    decreases |b|
  {
    if b == [] {
      assert a + b == a;
    } else {
      var n := |b| - 1;
      assert (a + b)[..|a + b| - 1] == a + b[..n];
      WithVolumeConcat(a, b[..n]);
    }
  }

  lemma {:induction false} GapsHaveNoVolume(price: real, period: Positive, t: int, end: int)
    ensures WithVolume(GapBars(price, period, t, end)) == []
    decreases end - t
  {
    if t < end {
      GapsHaveNoVolume(price, period, t + period, end);
      WithVolumeConcat([FlatBar(t, price)], GapBars(price, period, t + period, end));
      assert [FlatBar(t, price)][..0] == [];
    }
  }

  /** The traded closed bars, then the one in progress. */
  ghost predicate HoldsTraded(s: Series, traded: seq<Bar>) {
    && traded != []
    && s.current == InProgress(traded[|traded| - 1])
    && s.current.bar.volume > 0.0
    && WithVolume(s.closed) == traded[..|traded| - 1]
  }

  lemma {:induction false} ClosedGrows(closed: seq<Bar>, price: real, period: Positive, t: int, end: int, bar: Bar)
    requires bar.volume > 0.0
    ensures WithVolume(closed + GapBars(price, period, t, end) + [bar]) == WithVolume(closed) + [bar]
  {
    var gaps := GapBars(price, period, t, end);
    GapsHaveNoVolume(price, period, t, end);
    WithVolumeConcat(closed, gaps);
    WithVolumeConcat(closed + gaps, [bar]);
    assert [bar][..0] == [];
    assert WithVolume([bar]) == [bar];
  }

  lemma {:induction false} FirstTickHeld(ticks: seq<Tick>, g: Grid, maxBars: nat)
    requires |ticks| == 1 && ticks[0].volume > 0.0
    ensures HoldsTraded(Run(ticks, g, maxBars), TradedBars(ticks, g))
  {
    assert ticks[..0] == [];
  }

  lemma {:induction false} RunHoldsTraded(ticks: seq<Tick>, g: Grid, maxBars: nat)
    requires Stepped(g) && ticks != [] && InOrder(ticks, g) && PositiveVolumes(ticks)
    requires ClosedPeriods(ticks, g) <= maxBars
    ensures HoldsTraded(Run(ticks, g, maxBars), TradedBars(ticks, g))
  {
    hide HoldsTraded, AddToSeries, TradedBars, Stepped, InOrder, PositiveVolumes, ClosedPeriods,
         FirstPeriod, LastPeriod, PeriodOf, MatchesNaive;
    var n := |ticks| - 1;
    var init, tick := ticks[..n], ticks[n];
    VolumesBeforeLast(ticks);
    if n == 0 {
      FirstTickHeld(ticks, g, maxBars);
    } else {
      BeforeLast(ticks, g);
      RunHoldsTraded(init, g, maxBars);
      RunMatchesNaive(init, g, maxBars);
      RunStep(Run(init, g, maxBars), init, tick, g, maxBars);
      assert ticks == init + [tick];
    }
  }

  lemma {:induction false} VolumesBeforeLast(ticks: seq<Tick>)
    requires ticks != [] && PositiveVolumes(ticks)
    ensures PositiveVolumes(ticks[..|ticks| - 1]) && ticks[|ticks| - 1].volume > 0.0
  {
  }

  lemma {:induction false} RunStep(s: Series, ticks: seq<Tick>, tick: Tick, g: Grid, maxBars: nat)
    requires Stepped(g) && ticks != [] && MatchesNaive(s, ticks, g) && HoldsTraded(s, TradedBars(ticks, g))
    requires tick.volume > 0.0
    requires FirstPeriod(ticks, g) <= LastPeriod(ticks, g) <= PeriodOf(tick, g)
    requires forall i :: 0 <= i < |ticks| ==> PeriodOf(ticks[i], g) <= LastPeriod(ticks, g)
    requires PeriodOf(tick, g) - FirstPeriod(ticks, g) <= maxBars
    ensures HoldsTraded(AddToSeries(s, g, maxBars, tick), TradedBars(ticks + [tick], g))
  {
    hide NaiveBar, NaiveBars, GapBars, AddToSeries, WithVolume, AddTraded;
    assert (ticks + [tick])[..|ticks|] == ticks;
    NaiveBarTime(ticks, g, LastPeriod(ticks, g));
    if LastPeriod(ticks, g) < PeriodOf(tick, g) {
      NewPeriodStep(s, ticks, tick, g, maxBars);
      TimesIncrease(g, LastPeriod(ticks, g), PeriodOf(tick, g));
      NewBarTraded(s, TradedBars(ticks, g), ticks[|ticks| - 1].price, tick, g, maxBars);
    } else {
      SameBarTraded(s, TradedBars(ticks, g), tick, g, maxBars);
    }
  }

  lemma {:induction false} SameBarTraded(s: Series, traded: seq<Bar>, tick: Tick, g: Grid, maxBars: nat)
    requires HoldsTraded(s, traded) && tick.volume > 0.0 && s.current.bar.time == StartOf(tick, g)
    ensures HoldsTraded(AddToSeries(s, g, maxBars, tick), AddTraded(traded, g, tick))
  {
  }

  lemma {:induction false} NewBarTraded(s: Series, traded: seq<Bar>, price: real, tick: Tick, g: Grid, maxBars: nat)
    requires HoldsTraded(s, traded) && tick.volume > 0.0 && s.current.bar.time != StartOf(tick, g)
    requires AddToSeries(s, g, maxBars, tick).closed
          == s.closed + GapBars(price, g.period, s.current.bar.time + g.period, StartOf(tick, g)) + [s.current.bar]
    ensures HoldsTraded(AddToSeries(s, g, maxBars, tick), AddTraded(traded, g, tick))
  {
    hide WithVolume, GapBars, StartOf, KeepLast;
    var bar := s.current.bar;
    ClosedGrows(s.closed, price, g.period, bar.time + g.period, StartOf(tick, g), bar);
    assert traded == traded[..|traded| - 1] + [bar];
  }

  /** The traded bars held after a run, nothing truncated. */
  lemma {:induction false} HeldBarsAreTraded(ticks: seq<Tick>, g: Grid, maxBars: nat)
    requires Stepped(g) && ticks != [] && InOrder(ticks, g) && PositiveVolumes(ticks)
    requires ClosedPeriods(ticks, g) <= maxBars
    ensures WithVolume(Run(ticks, g, maxBars).All()) == TradedBars(ticks, g)
  {
    RunHoldsTraded(ticks, g, maxBars);
    var s, traded := Run(ticks, g, maxBars), TradedBars(ticks, g);
    WithVolumeConcat(s.closed, [s.current.bar]);
    assert [s.current.bar][..0] == [];
    assert WithVolume([s.current.bar]) == [s.current.bar];
    assert traded == traded[..|traded| - 1] + [traded[|traded| - 1]];
  }

  // ----- coarse bars are roll-ups of fine ones

  ghost predicate IsRollUp(bar: Bar, fine: seq<Bar>, coarse: Grid) {
    var inside := Inside(fine, coarse, bar.time);
    inside != [] && bar == RollUp(inside, bar.time)
  }

  ghost predicate AllRollUps(bars: seq<Bar>, fine: seq<Bar>, coarse: Grid) {
    forall i :: 0 <= i < |bars| ==> IsRollUp(bars[i], fine, coarse)
  }

  /** Coarse bars follow one another, and every fine bar falls in one of them. */
  ghost predicate Covers(bars: seq<Bar>, fine: seq<Bar>, coarse: Grid) {
    && (forall i, j :: 0 <= i < j < |bars| ==> bars[i].time < bars[j].time)
    && (forall i :: 0 <= i < |fine| ==> HasBarAt(bars, CoarseStart(coarse, fine[i].time)))
  }

  ghost predicate HasBarAt(bars: seq<Bar>, time: int) {
    exists j :: 0 <= j < |bars| && bars[j].time == time
  }

  /** The last bars are those of the latest tick; no other coarse bar begins as late, and
      no fine bar falls in a later coarse one. */
  ghost predicate EndsAt(fineBars: seq<Bar>, bars: seq<Bar>, fine: Grid, coarse: Grid, tick: Tick) {
    && fineBars != [] && fineBars[|fineBars| - 1].time == StartOf(tick, fine)
    && bars != [] && bars[|bars| - 1].time == StartOf(tick, coarse)
    && (forall i :: 0 <= i < |bars| - 1 ==> bars[i].time < StartOf(tick, coarse))
    && (forall i :: 0 <= i < |fineBars| ==> CoarseStart(coarse, fineBars[i].time) <= StartOf(tick, coarse))
  }

  lemma {:induction false} InsideSnoc(bars: seq<Bar>, bar: Bar, coarse: Grid, start: int)
    ensures CoarseStart(coarse, bar.time) == start ==>
              Inside(bars + [bar], coarse, start) == Inside(bars, coarse, start) + [bar]
    ensures CoarseStart(coarse, bar.time) != start ==>
              Inside(bars + [bar], coarse, start) == Inside(bars, coarse, start)
  {
    assert (bars + [bar])[..|bars|] == bars;
  }

  lemma {:induction false} InsideLater(bars: seq<Bar>, coarse: Grid, start: int)
    requires forall i :: 0 <= i < |bars| ==> CoarseStart(coarse, bars[i].time) < start
    ensures Inside(bars, coarse, start) == []
  {
    if bars != [] {
      InsideLater(bars[..|bars| - 1], coarse, start);
    }
  }

  lemma {:induction false} RollUpOne(time: int, fineTime: int, tick: Tick)
    ensures RollUp([OpenBar(fineTime, tick)], time) == OpenBar(time, tick)
  {
    var only := [OpenBar(fineTime, tick)];
    assert only[..|only| - 1] == [];
    assert SumVolume(only) == tick.volume;
  }

  /** Rolling up after one more fine bar opens is trading on the roll-up. */
  lemma {:induction false} RollUpOpen(bars: seq<Bar>, time: int, fineTime: int, tick: Tick)
    requires bars != []
    ensures RollUp(bars + [OpenBar(fineTime, tick)], time) == Traded(RollUp(bars, time), tick)
  {
    assert (bars + [OpenBar(fineTime, tick)])[..|bars|] == bars;
  }

  /** Rolling up after the last fine bar trades is trading on the roll-up. */
  lemma {:induction false} RollUpTraded(bars: seq<Bar>, bar: Bar, time: int, tick: Tick)
    ensures RollUp(bars + [Traded(bar, tick)], time) == Traded(RollUp(bars + [bar], time), tick)
  {
    assert (bars + [Traded(bar, tick)])[..|bars|] == bars;
    assert (bars + [bar])[..|bars|] == bars;
  }

  lemma {:induction false} SameFineBar(init: seq<Bar>, last: Bar, bar: Bar, coarse: Grid, tick: Tick)
    requires IsRollUp(bar, init + [last], coarse)
    ensures CoarseStart(coarse, last.time) == bar.time ==>
              IsRollUp(Traded(bar, tick), init + [Traded(last, tick)], coarse)
    ensures CoarseStart(coarse, last.time) != bar.time ==> IsRollUp(bar, init + [Traded(last, tick)], coarse)
  {
    InsideSnoc(init, last, coarse, bar.time);
    InsideSnoc(init, Traded(last, tick), coarse, bar.time);
    RollUpTraded(Inside(init, coarse, bar.time), last, bar.time, tick);
  }

  lemma {:induction false} NewFineBar(fineBars: seq<Bar>, fineTime: int, bar: Bar, coarse: Grid, tick: Tick)
    requires IsRollUp(bar, fineBars, coarse)
    ensures CoarseStart(coarse, fineTime) == bar.time ==>
              IsRollUp(Traded(bar, tick), fineBars + [OpenBar(fineTime, tick)], coarse)
    ensures CoarseStart(coarse, fineTime) != bar.time ==>
              IsRollUp(bar, fineBars + [OpenBar(fineTime, tick)], coarse)
  {
    InsideSnoc(fineBars, OpenBar(fineTime, tick), coarse, bar.time);
    RollUpOpen(Inside(fineBars, coarse, bar.time), bar.time, fineTime, tick);
  }

  lemma {:induction false} NewCoarseBar(fineBars: seq<Bar>, fineTime: int, start: int, coarse: Grid, tick: Tick)
    requires forall i :: 0 <= i < |fineBars| ==> CoarseStart(coarse, fineBars[i].time) < start
    requires CoarseStart(coarse, fineTime) == start
    ensures IsRollUp(OpenBar(start, tick), fineBars + [OpenBar(fineTime, tick)], coarse)
  {
    hide Inside, RollUp, CoarseStart;
    InsideLater(fineBars, coarse, start);
    InsideSnoc(fineBars, OpenBar(fineTime, tick), coarse, start);
    RollUpOne(start, fineTime, tick);
    assert [] + [OpenBar(fineTime, tick)] == [OpenBar(fineTime, tick)];
  }

  lemma {:induction false} StartsInOrder(a: Tick, b: Tick, g: Grid)
    requires Stepped(g) && PeriodOf(a, g) <= PeriodOf(b, g)
    ensures StartOf(a, g) <= StartOf(b, g)
  {
    if PeriodOf(a, g) < PeriodOf(b, g) {
      TimesIncrease(g, PeriodOf(a, g), PeriodOf(b, g));
    }
  }

  lemma {:induction false} RollUpStep(
      fineBars: seq<Bar>, bars: seq<Bar>, fine: Grid, coarse: Grid, prev: Tick, tick: Tick)
    requires EndsAt(fineBars, bars, fine, coarse, prev) && AllRollUps(bars, fineBars, coarse)
    requires StartOf(prev, coarse) <= StartOf(tick, coarse)
    requires CoarseStart(coarse, StartOf(tick, fine)) == StartOf(tick, coarse)
    ensures AllRollUps(AddTraded(bars, coarse, tick), AddTraded(fineBars, fine, tick), coarse)
  {
    hide Inside, RollUp;
    var m, n := |bars| - 1, |fineBars| - 1;
    var start, fineTime := StartOf(tick, coarse), StartOf(tick, fine);
    var newBars, newFine := AddTraded(bars, coarse, tick), AddTraded(fineBars, fine, tick);
    assert fineBars == fineBars[..n] + [fineBars[n]];
    forall i | 0 <= i < |newBars|
      ensures IsRollUp(newBars[i], newFine, coarse)
    {
      if i == |bars| {
        NewCoarseBar(fineBars, fineTime, start, coarse, tick);
      } else {
        assert IsRollUp(bars[i], fineBars, coarse);
        SameFineBar(fineBars[..n], fineBars[n], bars[i], coarse, tick);
        NewFineBar(fineBars, fineTime, bars[i], coarse, tick);
      }
    }
  }

  lemma {:induction false} EndsAtStep(
      fineBars: seq<Bar>, bars: seq<Bar>, fine: Grid, coarse: Grid, prev: Tick, tick: Tick)
    requires EndsAt(fineBars, bars, fine, coarse, prev)
    requires StartOf(prev, coarse) <= StartOf(tick, coarse)
    requires CoarseStart(coarse, StartOf(tick, fine)) == StartOf(tick, coarse)
    ensures EndsAt(AddTraded(fineBars, fine, tick), AddTraded(bars, coarse, tick), fine, coarse, tick)
  {
    hide AddTraded, CoarseStart, StartOf;
    AddedKeepsTimes(bars, coarse, tick);
    AddedKeepsTimes(fineBars, fine, tick);
    var newBars, newFine := AddTraded(bars, coarse, tick), AddTraded(fineBars, fine, tick);
    assert forall i :: 0 <= i < |newFine| && i >= |fineBars| ==> newFine[i].time == StartOf(tick, fine);
  }

  lemma {:induction false} AddedKeepsTimes(bars: seq<Bar>, g: Grid, tick: Tick)
    ensures
      var more := AddTraded(bars, g, tick);
      && |bars| <= |more| <= |bars| + 1 && more != [] && more[|more| - 1].time == StartOf(tick, g)
      && (forall i :: 0 <= i < |bars| ==> more[i].time == bars[i].time)
      && (|more| == |bars| <==> bars != [] && bars[|bars| - 1].time == StartOf(tick, g))
  {
  }

  lemma {:induction false} CoversStep(
      fineBars: seq<Bar>, bars: seq<Bar>, fine: Grid, coarse: Grid, prev: Tick, tick: Tick)
    requires EndsAt(fineBars, bars, fine, coarse, prev) && Covers(bars, fineBars, coarse)
    requires StartOf(prev, coarse) <= StartOf(tick, coarse)
    requires CoarseStart(coarse, StartOf(tick, fine)) == StartOf(tick, coarse)
    ensures Covers(AddTraded(bars, coarse, tick), AddTraded(fineBars, fine, tick), coarse)
  {
    hide AddTraded, CoarseStart, StartOf;
    var newBars, newFine := AddTraded(bars, coarse, tick), AddTraded(fineBars, fine, tick);
    AddedKeepsTimes(bars, coarse, tick);
    AddedKeepsTimes(fineBars, fine, tick);
    assert HasBarAt(newBars, StartOf(tick, coarse));
    forall i | 0 <= i < |newFine|
      ensures HasBarAt(newBars, CoarseStart(coarse, newFine[i].time))
    {
      if i < |fineBars| {
        var j :| 0 <= j < |bars| && bars[j].time == CoarseStart(coarse, fineBars[i].time);
        assert newBars[j].time == bars[j].time;
      }
    }
  }

  /** Ticks in order of fine periods are in order of coarse ones. */
  lemma {:induction false} CoarseInOrder(ticks: seq<Tick>, p: Positive, r: Positive)
    requires p * r > 0 && InOrder(ticks, GridOf(p))
    ensures InOrder(ticks, GridOf(p * r))
  {
    forall i, j | 0 <= i < j < |ticks|
      ensures PeriodOf(ticks[i], GridOf(p * r)) <= PeriodOf(ticks[j], GridOf(p * r))
    {
      CoarseQuotients(ticks[i].ts, ticks[j].ts, p, r);
    }
  }

  lemma {:induction false} CoarseQuotients(a: int, b: int, p: Positive, r: Positive)
    requires p * r > 0 && GoDiv(a, p) <= GoDiv(b, p)
    ensures GoDiv(a, p * r) <= GoDiv(b, p * r)
  {
    hide GoDiv;
    Coarsen(a, p, r);
    Coarsen(b, p, r);
    if GoDiv(a, p) < GoDiv(b, p) {
      MulOrder(GoDiv(a, p), GoDiv(b, p), p);
    }
    GoDivMonotone(GoDiv(a, p) * p, GoDiv(b, p) * p, p * r);
  }

  lemma {:induction false} TradedBarsRollUp(ticks: seq<Tick>, fine: Grid, coarse: Grid)
    requires ticks != [] && InOrder(ticks, coarse)
    requires Stepped(coarse) && Refines(fine, coarse)
    ensures EndsAt(TradedBars(ticks, fine), TradedBars(ticks, coarse), fine, coarse, ticks[|ticks| - 1])
    ensures AllRollUps(TradedBars(ticks, coarse), TradedBars(ticks, fine), coarse)
    ensures Covers(TradedBars(ticks, coarse), TradedBars(ticks, fine), coarse)
  {
    hide InOrder, Stepped, Refines, EndsAt, AllRollUps, Covers, AddTraded, CoarseStart, StartOf, PeriodOf;
    var n := |ticks| - 1;
    var init, tick := ticks[..n], ticks[n];
    RefinesAt(tick, fine, coarse);
    if n == 0 {
      FirstBars(ticks, fine, coarse);
    } else {
      BeforeLast(ticks, coarse);
      var prev := init[n - 1];
      LastPeriodIs(init, coarse);
      TradedBarsRollUp(init, fine, coarse);
      StartsInOrder(prev, tick, coarse);
      RollUpStep(TradedBars(init, fine), TradedBars(init, coarse), fine, coarse, prev, tick);
      EndsAtStep(TradedBars(init, fine), TradedBars(init, coarse), fine, coarse, prev, tick);
      CoversStep(TradedBars(init, fine), TradedBars(init, coarse), fine, coarse, prev, tick);
    }
  }

  lemma {:induction false} LastPeriodIs(ticks: seq<Tick>, g: Grid)
    requires ticks != []
    ensures LastPeriod(ticks, g) == PeriodOf(ticks[|ticks| - 1], g)
  {
  }

  lemma {:induction false} RefinesAt(tick: Tick, fine: Grid, coarse: Grid)
    requires Refines(fine, coarse)
    ensures CoarseStart(coarse, StartOf(tick, fine)) == StartOf(tick, coarse)
  {
  }

  lemma {:induction false} FirstBars(ticks: seq<Tick>, fine: Grid, coarse: Grid)
    requires |ticks| == 1 && CoarseStart(coarse, StartOf(ticks[0], fine)) == StartOf(ticks[0], coarse)
    ensures EndsAt(TradedBars(ticks, fine), TradedBars(ticks, coarse), fine, coarse, ticks[0])
    ensures AllRollUps(TradedBars(ticks, coarse), TradedBars(ticks, fine), coarse)
    ensures Covers(TradedBars(ticks, coarse), TradedBars(ticks, fine), coarse)
  {
    hide Inside, RollUp, CoarseStart, StartOf;
    var tick := ticks[0];
    assert ticks[..0] == [];
    var bar, fineBar := OpenBar(StartOf(tick, coarse), tick), OpenBar(StartOf(tick, fine), tick);
    assert [] + [bar] == [bar] && [] + [fineBar] == [fineBar];
    assert TradedBars(ticks, fine) == [fineBar] && TradedBars(ticks, coarse) == [bar];
    NewCoarseBar([], StartOf(tick, fine), StartOf(tick, coarse), coarse, tick);
    assert HasBarAt([bar], StartOf(tick, coarse)) by { assert [bar][0].time == StartOf(tick, coarse); }
  }

  /** For ticks in order with positive volumes, every traded bar held for a period of
      `p * r` seconds is the roll-up of the traded bars held for a period of `p` seconds
      inside it, and each of those is inside exactly one. */
  lemma {:induction false} ResolutionsAgree(ticks: seq<Tick>, p: Positive, r: Positive, maxBars: nat)
    requires p * r > 0
    requires InOrder(ticks, GridOf(p)) && PositiveVolumes(ticks)
    requires ticks != [] ==>
               ClosedPeriods(ticks, GridOf(p)) <= maxBars && ClosedPeriods(ticks, GridOf(p * r)) <= maxBars
    ensures AllRollUps(WithVolume(Run(ticks, GridOf(p * r), maxBars).All()),
                       WithVolume(Run(ticks, GridOf(p), maxBars).All()), GridOf(p * r))
    ensures Covers(WithVolume(Run(ticks, GridOf(p * r), maxBars).All()),
                   WithVolume(Run(ticks, GridOf(p), maxBars).All()), GridOf(p * r))
  {
    hide GridOf;
    if ticks != [] {
      hide AllRollUps, Covers, InOrder;
      CoarseInOrder(ticks, p, r);
      MultiplesRefine(p, r);
      GridIsRegular(p);
      GridIsRegular(p * r);
      HeldBarsAreTraded(ticks, GridOf(p), maxBars);
      HeldBarsAreTraded(ticks, GridOf(p * r), maxBars);
      TradedBarsRollUp(ticks, GridOf(p), GridOf(p * r));
    }
  }
}
