/**
 The multi-resolution candle aggregator (services/gateway/candle_aggregator.go):
 `AddTick` keeps, per symbol and resolution, a list of closed bars and one bar in
 progress; `GetCandles` sorts, removes duplicate times and limits.

 For ticks in time order the incremental index is proved to agree with grouping the
 whole tick list by period, and with itself across resolutions.
 */
module CandleAggregator {
  import opened Basics
  import opened Periods
  import opened Sorting

  datatype Tick = Tick(price: real, volume: real, ts: int)

  datatype Bar = Bar(time: int, open: real, high: real, low: real, close: real, volume: real)

  datatype Current = NoBar | InProgress(bar: Bar)

  /** What the aggregator holds for one symbol and resolution. */
  datatype Series = Series(closed: seq<Bar>, current: Current) {
    function All(): seq<Bar> {
      match current
      case NoBar => closed
      case InProgress(bar) => closed + [bar]
    }
  }

  const EMPTY := Series([], NoBar)

  function ResolutionSeconds(res: string): (seconds: int)
    ensures seconds > 0
  {
    match res
    case "1m" => 60
    case "5m" => 300
    case "15m" => 900
    case "1H" => 3600
    case "4H" => 14400
    case "1D" => 86400
    case _ => 60
  }

  /** The number a name begins with. */
  function Number(name: string): nat {
    if name == [] || !('0' <= name[|name| - 1] <= '9') then 0
    else 10 * Number(name[..|name| - 1]) + (name[|name| - 1] - '0') as nat
  }

  /** The minutes in a minute, an hour and a day. */
  function UnitMinutes(unit: char): nat {
    if unit == 'm' then 1 else if unit == 'H' then 60 else if unit == 'D' then 60 * 24 else 0
  }

  /** Every resolution has the period its name says, and is a multiple of the one before. */
  lemma {:induction false} ResolutionsAreNamed(i: nat)
    requires i < |RESOLUTIONS|
    ensures
      var name := RESOLUTIONS[i];
      ResolutionSeconds(name) == 60 * Number(name[..|name| - 1]) * UnitMinutes(name[|name| - 1])
    ensures i > 0 ==> ResolutionSeconds(RESOLUTIONS[i]) % ResolutionSeconds(RESOLUTIONS[i - 1]) == 0
  {
    assert "1"[..0] == "" && "5"[..0] == "" && "4"[..0] == "" && "15"[..1] == "1";
    assert Number("") == 0;
    assert Number("1") == 1 && Number("5") == 5 && Number("4") == 4 && Number("15") == 15;
    assert "1m"[..1] == "1" && "5m"[..1] == "5" && "15m"[..2] == "15";
    assert "1H"[..1] == "1" && "4H"[..1] == "4" && "1D"[..1] == "1";
  }

  const RESOLUTIONS := ["1m", "5m", "15m", "1H", "4H", "1D"]

  type Positive = n: int | n > 0 witness 1

  /** A resolution: its period in seconds, the period each instant falls in, and when
      each period begins. */
  datatype Grid = Grid(period: Positive, index: int -> int, time: int -> int)

  function GridOf(period: Positive): Grid {
    Grid(period, (ts: int) => GoDiv(ts, period), (k: int) => k * period)
  }

  function Next(k: int): int {
    k + 1
  }

  /** Later instants fall in no earlier period. */
  ghost predicate Monotone(g: Grid) {
    forall a, b :: a <= b ==> g.index(a) <= g.index(b)
  }

  /** Periods follow one another. */
  ghost predicate Stepped(g: Grid) {
    forall k {:trigger Next(k)} :: g.time(Next(k)) == g.time(k) + g.period
  }

  /** A bar begins at or before the ticks in it from 1970 on, and at or after them before, as
      Go's division truncates: those less than a period either side of it share one. */
  lemma {:induction false} BarOfTick(tick: Tick, period: Positive)
    ensures
      var start := StartOf(tick, GridOf(period));
      && (tick.ts >= 0 ==> start <= tick.ts < start + period)
      && (tick.ts <= 0 ==> tick.ts <= start < tick.ts + period)
      && (start == 0 <==> tick.ts < period && tick.ts + period > 0)
  {
    if tick.ts >= 0 {
      DivBounds(tick.ts, period);
      StartZero(tick.ts / period, period, tick.ts);
    } else {
      DivBounds(-tick.ts, period);
      StartZero(-tick.ts / period, period, -tick.ts);
      NegateProduct(-tick.ts / period, period);
    }
  }

  lemma {:induction false} StartZero(k: int, period: int, ts: int)
    requires period > 0 && k >= 0 && k * period <= ts < k * period + period
    ensures k * period == 0 <==> ts < period
  {
    if k > 0 {
      MulOrder(0, k, period);
    }
  }

  lemma {:induction false} NegateProduct(k: int, period: int)
    ensures (-k) * period == -(k * period)
  {
  }

  lemma {:induction false} GridIsRegular(period: Positive)
    ensures Monotone(GridOf(period)) && Stepped(GridOf(period))
  {
    forall a: int, b: int | a <= b
      ensures GridOf(period).index(a) <= GridOf(period).index(b)
    {
      GoDivMonotone(a, b, period);
    }
    forall k
      ensures GridOf(period).time(Next(k)) == GridOf(period).time(k) + period
    {
      assert (k + 1) * period == k * period + period;
    }
  }

  lemma {:induction false} TimesIncrease(g: Grid, a: int, b: int)
    requires Stepped(g) && a < b
    ensures g.time(a) + g.period <= g.time(b)
    decreases b - a
  {
    assert Next(b - 1) == b;
    if a < b - 1 {
      TimesIncrease(g, a, b - 1);
    }
  }

  // ----- one tick, one series

  function OpenBar(time: int, tick: Tick): Bar {
    Bar(time, tick.price, tick.price, tick.price, tick.price, tick.volume)
  }

  function FlatBar(time: int, price: real): Bar {
    Bar(time, price, price, price, price, 0.0)
  }

  function Traded(bar: Bar, tick: Tick): Bar {
    bar.(close := tick.price, high := Max(bar.high, tick.price), low := Min(bar.low, tick.price),
         volume := bar.volume + tick.volume)
  }

  function KeepLast<T>(s: seq<T>, n: nat): seq<T> {
    if |s| > n then s[|s| - n..] else s
  }

  /** Flat bars at `t`, `t + period`, ... before `end`. */
  function GapBars(price: real, period: Positive, t: int, end: int): seq<Bar>
    decreases end - t
  {
    if t < end then [FlatBar(t, price)] + GapBars(price, period, t + period, end) else []
  }

  function AddToSeries(s: Series, g: Grid, maxBars: nat, tick: Tick): Series {
    var start := StartOf(tick, g);
    match s.current
    case NoBar => Series(s.closed, InProgress(OpenBar(start, tick)))
    case InProgress(bar) =>
      if bar.time == start then Series(s.closed, InProgress(Traded(bar, tick)))
      else
        Series(KeepLast(s.closed + GapBars(bar.close, g.period, bar.time + g.period, start) + [bar], maxBars),
               InProgress(OpenBar(start, tick)))
  }

  /** The series after a whole list of ticks. */
  function Run(ticks: seq<Tick>, g: Grid, maxBars: nat): Series {
    if ticks == [] then EMPTY
    else AddToSeries(Run(ticks[..|ticks| - 1], g, maxBars), g, maxBars, ticks[|ticks| - 1])
  }

  // ----- the reference: grouping the whole tick list

  function PeriodOf(tick: Tick, g: Grid): int {
    g.index(tick.ts)
  }

  /** When the bar of a tick begins. */
  function StartOf(tick: Tick, g: Grid): int {
    g.time(PeriodOf(tick, g))
  }

  function TicksIn(ticks: seq<Tick>, g: Grid, k: int): seq<Tick> {
    if ticks == [] then []
    else
      var n := |ticks| - 1;
      TicksIn(ticks[..n], g, k) + (if PeriodOf(ticks[n], g) == k then [ticks[n]] else [])
  }

  function HighOf(ticks: seq<Tick>): real
    requires ticks != []
  {
    var n := |ticks| - 1;
    if n == 0 then ticks[0].price else Max(HighOf(ticks[..n]), ticks[n].price)
  }

  function LowOf(ticks: seq<Tick>): real
    requires ticks != []
  {
    var n := |ticks| - 1;
    if n == 0 then ticks[0].price else Min(LowOf(ticks[..n]), ticks[n].price)
  }

  function VolumeOf(ticks: seq<Tick>): real {
    if ticks == [] then 0.0 else VolumeOf(ticks[..|ticks| - 1]) + ticks[|ticks| - 1].volume
  }

  /** The price of the last tick before period `k`, 0 if there is none. */
  function PriceBefore(ticks: seq<Tick>, g: Grid, k: int): real {
    if ticks == [] then 0.0
    else
      var n := |ticks| - 1;
      if PeriodOf(ticks[n], g) < k then ticks[n].price else PriceBefore(ticks[..n], g, k)
  }

  /** The bar of period `k`: open, high, low, close and volume of its ticks, or flat at
      the previous close when it has none. */
  function NaiveBar(ticks: seq<Tick>, g: Grid, k: int): Bar {
    var group := TicksIn(ticks, g, k);
    if group == [] then FlatBar(g.time(k), PriceBefore(ticks, g, k))
    else Bar(g.time(k), group[0].price, HighOf(group), LowOf(group), group[|group| - 1].price, VolumeOf(group))
  }

  /** The bars of periods `lo` to `hi`, in order, none missing. */
  function NaiveBars(ticks: seq<Tick>, g: Grid, lo: int, hi: int): (bars: seq<Bar>)
    ensures |bars| == if hi < lo then 0 else hi - lo + 1
    decreases hi - lo
  {
    if hi < lo then [] else NaiveBars(ticks, g, lo, hi - 1) + [NaiveBar(ticks, g, hi)]
  }

  function FirstPeriod(ticks: seq<Tick>, g: Grid): int
    requires ticks != []
  {
    PeriodOf(ticks[0], g)
  }

  function LastPeriod(ticks: seq<Tick>, g: Grid): int
    requires ticks != []
  {
    PeriodOf(ticks[|ticks| - 1], g)
  }

  function NaiveCandles(ticks: seq<Tick>, g: Grid): seq<Bar>
    requires ticks != []
  {
    NaiveBars(ticks, g, FirstPeriod(ticks, g), LastPeriod(ticks, g))
  }

  /** No tick falls in an earlier period than one before it. Within a period any order will do. */
  ghost predicate InOrder(ticks: seq<Tick>, g: Grid) {
    forall i, j :: 0 <= i < j < |ticks| ==> PeriodOf(ticks[i], g) <= PeriodOf(ticks[j], g)
  }

  lemma {:induction false} TimeOrderSuffices(ticks: seq<Tick>, g: Grid)
    requires Monotone(g) && forall i, j :: 0 <= i < j < |ticks| ==> ticks[i].ts <= ticks[j].ts
    ensures InOrder(ticks, g)
  {
  }

  // ----- how the reference grows by one tick

  /** Bars before the new tick's period do not change. */
  lemma {:induction false} EarlierBarUnchanged(ticks: seq<Tick>, tick: Tick, g: Grid, k: int)
    requires k < PeriodOf(tick, g)
    ensures NaiveBar(ticks + [tick], g, k) == NaiveBar(ticks, g, k)
  {
    assert (ticks + [tick])[..|ticks|] == ticks;
    assert TicksIn(ticks + [tick], g, k) == TicksIn(ticks, g, k);
    assert PriceBefore(ticks + [tick], g, k) == PriceBefore(ticks, g, k);
  }

  lemma {:induction false} EarlierBarsUnchanged(ticks: seq<Tick>, tick: Tick, g: Grid, lo: int, hi: int)
    requires hi < PeriodOf(tick, g)
    ensures NaiveBars(ticks + [tick], g, lo, hi) == NaiveBars(ticks, g, lo, hi)
    decreases hi - lo
  {
    if lo <= hi {
      EarlierBarsUnchanged(ticks, tick, g, lo, hi - 1);
      EarlierBarUnchanged(ticks, tick, g, hi);
    }
  }

  lemma {:induction false} NoTicksBeyond(ticks: seq<Tick>, g: Grid, k: int)
    requires forall i :: 0 <= i < |ticks| ==> PeriodOf(ticks[i], g) < k
    ensures TicksIn(ticks, g, k) == []
  {
    if ticks != [] {
      NoTicksBeyond(ticks[..|ticks| - 1], g, k);
    }
  }

  /** A tick in a later period opens a bar of its own. */
  lemma {:induction false} LaterTickOpens(ticks: seq<Tick>, tick: Tick, g: Grid)
    requires forall i :: 0 <= i < |ticks| ==> PeriodOf(ticks[i], g) < PeriodOf(tick, g)
    ensures NaiveBar(ticks + [tick], g, PeriodOf(tick, g))
         == OpenBar(StartOf(tick, g), tick)
  {
    assert (ticks + [tick])[..|ticks|] == ticks;
    NoTicksBeyond(ticks, g, PeriodOf(tick, g));
    assert TicksIn(ticks + [tick], g, PeriodOf(tick, g)) == [tick];
    assert [tick][..0] == [];
    assert HighOf([tick]) == LowOf([tick]) == tick.price && VolumeOf([tick]) == tick.volume;
  }

  /** A tick in the last period trades in its bar. */
  lemma {:induction false} SamePeriodTrades(ticks: seq<Tick>, tick: Tick, g: Grid)
    requires ticks != [] && LastPeriod(ticks, g) == PeriodOf(tick, g)
    ensures NaiveBar(ticks + [tick], g, PeriodOf(tick, g))
         == Traded(NaiveBar(ticks, g, PeriodOf(tick, g)), tick)
  {
    var k := PeriodOf(tick, g);
    var group := TicksIn(ticks, g, k);
    assert (ticks + [tick])[..|ticks|] == ticks;
    assert TicksIn(ticks + [tick], g, k) == group + [tick];
    assert group != [];
    assert (group + [tick])[..|group|] == group;
  }

  /** The last traded bar closes at the last price. */
  lemma {:induction false} LastClose(ticks: seq<Tick>, g: Grid)
    requires ticks != []
    ensures NaiveBar(ticks, g, LastPeriod(ticks, g)).close == ticks[|ticks| - 1].price
    ensures TicksIn(ticks, g, LastPeriod(ticks, g)) != []
  {
  }

  /** A period between the last tick and a later one is flat at the last close. */
  lemma {:induction false} FlatBetween(ticks: seq<Tick>, tick: Tick, g: Grid, k: int)
    requires ticks != [] && k < PeriodOf(tick, g)
    requires forall i :: 0 <= i < |ticks| ==> PeriodOf(ticks[i], g) < k
    ensures NaiveBar(ticks + [tick], g, k) == FlatBar(g.time(k), ticks[|ticks| - 1].price)
  {
    EarlierBarUnchanged(ticks, tick, g, k);
    NoTicksBeyond(ticks, g, k);
  }

  lemma {:induction false} GapIsFlat(ticks: seq<Tick>, tick: Tick, g: Grid, lo: int, hi: int)
    requires Stepped(g) && ticks != [] && lo <= hi <= PeriodOf(tick, g)
    requires forall i :: 0 <= i < |ticks| ==> PeriodOf(ticks[i], g) < lo
    ensures NaiveBars(ticks + [tick], g, lo, hi - 1)
         == GapBars(ticks[|ticks| - 1].price, g.period, g.time(lo), g.time(hi))
    decreases hi - lo
  {
    if lo < hi {
      var k := hi - 1;
      GapIsFlat(ticks, tick, g, lo, k);
      FlatBetween(ticks, tick, g, k);
      GapBarsSnoc(ticks[|ticks| - 1].price, g, lo, k);
    }
  }

  lemma {:induction false} GapBarsSnoc(price: real, g: Grid, lo: int, hi: int)
    requires Stepped(g) && lo <= hi
    ensures GapBars(price, g.period, g.time(lo), g.time(Next(hi)))
         == GapBars(price, g.period, g.time(lo), g.time(hi)) + [FlatBar(g.time(hi), price)]
    decreases hi - lo
  {
    assert g.time(Next(lo)) == g.time(lo) + g.period;
    assert g.time(Next(hi)) == g.time(hi) + g.period;
    if lo < hi {
      TimesIncrease(g, lo, hi);
      GapBarsSnoc(price, g, Next(lo), hi);
    } else {
      assert GapBars(price, g.period, g.time(lo) + g.period, g.time(Next(hi))) == [];
    }
  }

  // ----- the series in time order, nothing truncated

  function LastNaive(ticks: seq<Tick>, g: Grid): Bar
    requires ticks != []
  {
    NaiveBar(ticks, g, LastPeriod(ticks, g))
  }

  function ClosedNaive(ticks: seq<Tick>, g: Grid): seq<Bar>
    requires ticks != []
  {
    NaiveBars(ticks, g, FirstPeriod(ticks, g), LastPeriod(ticks, g) - 1)
  }

  /** What an in-order run holds: the closed bars are a rearrangement of the reference's
      bars before the last period, and the bar in progress is the last period's. */
  ghost predicate MatchesNaive(s: Series, ticks: seq<Tick>, g: Grid)
    requires ticks != []
  {
    && s.current == InProgress(LastNaive(ticks, g))
    && multiset(s.closed) == multiset(ClosedNaive(ticks, g))
  }

  /** How many bars the run closes. */
  function ClosedPeriods(ticks: seq<Tick>, g: Grid): int
    requires ticks != []
  {
    LastPeriod(ticks, g) - FirstPeriod(ticks, g)
  }

  lemma {:induction false} NaiveBarsConcat(ticks: seq<Tick>, g: Grid, lo: int, mid: int, hi: int)
    requires lo <= mid + 1 && mid <= hi
    ensures NaiveBars(ticks, g, lo, hi) == NaiveBars(ticks, g, lo, mid) + NaiveBars(ticks, g, mid + 1, hi)
    decreases hi - mid
  {
    if mid < hi {
      NaiveBarsConcat(ticks, g, lo, mid, hi - 1);
    }
  }

  lemma {:induction false} SameLength(a: seq<Bar>, b: seq<Bar>)
    requires multiset(a) == multiset(b)
    ensures |a| == |b|
  {
    assert |multiset(a)| == |a| && |multiset(b)| == |b|;
  }

  lemma {:induction false} SamePeriodLast(ticks: seq<Tick>, tick: Tick, g: Grid)
    requires ticks != [] && PeriodOf(tick, g) == LastPeriod(ticks, g)
    ensures LastNaive(ticks + [tick], g) == Traded(LastNaive(ticks, g), tick)
  {
    hide NaiveBar, NaiveBars;
    PeriodsOfSnoc(ticks, tick, g);
    SamePeriodTrades(ticks, tick, g);
  }

  lemma {:induction false} SamePeriodClosed(ticks: seq<Tick>, tick: Tick, g: Grid)
    requires ticks != [] && PeriodOf(tick, g) == LastPeriod(ticks, g)
    ensures ClosedNaive(ticks + [tick], g) == ClosedNaive(ticks, g)
  {
    hide NaiveBar, NaiveBars;
    PeriodsOfSnoc(ticks, tick, g);
    EarlierBarsUnchanged(ticks, tick, g, FirstPeriod(ticks, g), LastPeriod(ticks, g) - 1);
  }

  lemma {:induction false} SamePeriodStep(s: Series, ticks: seq<Tick>, tick: Tick, g: Grid, maxBars: nat)
    requires ticks != [] && MatchesNaive(s, ticks, g)
    requires PeriodOf(tick, g) == LastPeriod(ticks, g)
    ensures MatchesNaive(AddToSeries(s, g, maxBars, tick), ticks + [tick], g)
  {
    hide NaiveBars, TicksIn;
    SamePeriodLast(ticks, tick, g);
    SamePeriodClosed(ticks, tick, g);
    assert LastNaive(ticks, g).time == StartOf(tick, g);
  }

  /** The flat bars between the last tick and one in period `k`. */
  function GapAfter(ticks: seq<Tick>, g: Grid, k: int): seq<Bar>
    requires ticks != []
  {
    GapBars(ticks[|ticks| - 1].price, g.period, g.time(LastPeriod(ticks, g)) + g.period, g.time(k))
  }

  lemma {:induction false} NewPeriodLast(ticks: seq<Tick>, tick: Tick, g: Grid)
    requires ticks != [] && LastPeriod(ticks, g) < PeriodOf(tick, g)
    requires forall i :: 0 <= i < |ticks| ==> PeriodOf(ticks[i], g) <= LastPeriod(ticks, g)
    ensures LastNaive(ticks + [tick], g) == OpenBar(StartOf(tick, g), tick)
  {
    hide NaiveBar, NaiveBars;
    LaterTickOpens(ticks, tick, g);
  }

  lemma {:induction false} GapAfterIsNaive(ticks: seq<Tick>, tick: Tick, g: Grid, hi: int)
    requires Stepped(g) && ticks != [] && hi == LastPeriod(ticks, g) < PeriodOf(tick, g)
    requires forall i :: 0 <= i < |ticks| ==> PeriodOf(ticks[i], g) <= hi
    ensures NaiveGap(ticks, tick, g) == GapAfter(ticks, g, PeriodOf(tick, g))
  {
    hide NaiveBar, NaiveBars, GapBars;
    PeriodsOfSnoc(ticks, tick, g);
    GapIsFlat(ticks, tick, g, Next(hi), PeriodOf(tick, g));
  }

  lemma {:induction false} BarsUpTo(ticks: seq<Tick>, tick: Tick, g: Grid, lo: int, hi: int)
    requires lo <= hi < PeriodOf(tick, g)
    ensures NaiveBars(ticks + [tick], g, lo, hi) == NaiveBars(ticks, g, lo, hi - 1) + [NaiveBar(ticks, g, hi)]
  {
    hide NaiveBar, TicksIn;
    EarlierBarsUnchanged(ticks, tick, g, lo, hi);
  }

  /** The reference's flat bars between the last tick and a later one. */
  function NaiveGap(ticks: seq<Tick>, tick: Tick, g: Grid): seq<Bar>
    requires ticks != []
  {
    NaiveBars(ticks + [tick], g, LastPeriod(ticks, g) + 1, PeriodOf(tick, g) - 1)
  }

  lemma {:induction false} PeriodsOfSnoc(ticks: seq<Tick>, tick: Tick, g: Grid)
    requires ticks != []
    ensures FirstPeriod(ticks + [tick], g) == FirstPeriod(ticks, g)
    ensures LastPeriod(ticks + [tick], g) == PeriodOf(tick, g)
  {
  }

  lemma {:induction false} BarsSplit(ticks: seq<Tick>, tick: Tick, g: Grid, lo: int, hi: int, k: int)
    requires lo <= hi < k == PeriodOf(tick, g)
    ensures NaiveBars(ticks + [tick], g, lo, k - 1)
         == NaiveBars(ticks, g, lo, hi - 1) + [NaiveBar(ticks, g, hi)] + NaiveBars(ticks + [tick], g, hi + 1, k - 1)
  {
    hide NaiveBar, TicksIn;
    NaiveBarsConcat(ticks + [tick], g, lo, hi, k - 1);
    BarsUpTo(ticks, tick, g, lo, hi);
  }

  /** The reference before a tick in a later period: the old bars, then flat ones. */
  lemma {:induction false} NewPeriodClosed(ticks: seq<Tick>, tick: Tick, g: Grid)
    requires ticks != [] && FirstPeriod(ticks, g) <= LastPeriod(ticks, g) < PeriodOf(tick, g)
    ensures ClosedNaive(ticks + [tick], g) == ClosedNaive(ticks, g) + [LastNaive(ticks, g)] + NaiveGap(ticks, tick, g)
  {
    hide NaiveBar, NaiveBars;
    PeriodsOfSnoc(ticks, tick, g);
    BarsSplit(ticks, tick, g, FirstPeriod(ticks, g), LastPeriod(ticks, g), PeriodOf(tick, g));
  }

  lemma {:induction false} NewPeriodSeries(s: Series, ticks: seq<Tick>, tick: Tick, g: Grid, maxBars: nat)
    requires Stepped(g) && ticks != [] && LastPeriod(ticks, g) < PeriodOf(tick, g)
    requires s.current == InProgress(LastNaive(ticks, g))
    ensures AddToSeries(s, g, maxBars, tick)
         == Series(KeepLast(s.closed + GapAfter(ticks, g, PeriodOf(tick, g)) + [LastNaive(ticks, g)], maxBars),
                   InProgress(OpenBar(StartOf(tick, g), tick)))
  {
    hide NaiveBars, TicksIn, GapBars;
    LastClose(ticks, g);
    TimesIncrease(g, LastPeriod(ticks, g), PeriodOf(tick, g));
  }

  lemma {:induction false} Rearranged(a: seq<Bar>, a': seq<Bar>, gaps: seq<Bar>, bar: Bar)
    requires multiset(a) == multiset(a')
    ensures multiset(a + gaps + [bar]) == multiset(a' + [bar] + gaps)
    ensures |a + gaps + [bar]| == |a' + [bar] + gaps|
  {
    SameLength(a, a');
  }

  lemma {:induction false} NewPeriodStep(s: Series, ticks: seq<Tick>, tick: Tick, g: Grid, maxBars: nat)
    requires Stepped(g) && ticks != [] && MatchesNaive(s, ticks, g)
    requires FirstPeriod(ticks, g) <= LastPeriod(ticks, g) < PeriodOf(tick, g)
    requires forall i :: 0 <= i < |ticks| ==> PeriodOf(ticks[i], g) <= LastPeriod(ticks, g)
    requires PeriodOf(tick, g) - FirstPeriod(ticks, g) <= maxBars
    ensures MatchesNaive(AddToSeries(s, g, maxBars, tick), ticks + [tick], g)
    ensures AddToSeries(s, g, maxBars, tick).closed
         == s.closed + GapAfter(ticks, g, PeriodOf(tick, g)) + [s.current.bar]
  {
    hide NaiveBar, NaiveBars, GapBars;
    NewPeriodSeries(s, ticks, tick, g, maxBars);
    NewPeriodLast(ticks, tick, g);
    NewPeriodClosed(ticks, tick, g);
    GapAfterIsNaive(ticks, tick, g, LastPeriod(ticks, g));
    Rearranged(s.closed, ClosedNaive(ticks, g), GapAfter(ticks, g, PeriodOf(tick, g)), LastNaive(ticks, g));
    assert |ClosedNaive(ticks + [tick], g)| == PeriodOf(tick, g) - FirstPeriod(ticks, g);
  }

  lemma {:induction false} RunMatchesNaive(ticks: seq<Tick>, g: Grid, maxBars: nat)
    requires Stepped(g) && ticks != [] && InOrder(ticks, g)
    requires ClosedPeriods(ticks, g) <= maxBars
    ensures MatchesNaive(Run(ticks, g, maxBars), ticks, g)
  {
    hide MatchesNaive, InOrder, ClosedPeriods, FirstPeriod, LastPeriod, PeriodOf, AddToSeries, Stepped;
    var n := |ticks| - 1;
    var init, tick := ticks[..n], ticks[n];
    if n == 0 {
      FirstTickMatches(ticks, g, maxBars);
    } else {
      BeforeLast(ticks, g);
      RunMatchesNaive(init, g, maxBars);
      if PeriodOf(tick, g) == LastPeriod(init, g) {
        SamePeriodStep(Run(init, g, maxBars), init, tick, g, maxBars);
      } else {
        NewPeriodStep(Run(init, g, maxBars), init, tick, g, maxBars);
      }
      assert ticks == init + [tick];
    }
  }

  lemma {:induction false} FirstTickMatches(ticks: seq<Tick>, g: Grid, maxBars: nat)
    requires |ticks| == 1
    ensures MatchesNaive(Run(ticks, g, maxBars), ticks, g)
  {
    assert ticks[..0] == [] && ticks == [] + [ticks[0]];
    LaterTickOpens([], ticks[0], g);
  }

  /** The ticks before the last, of several in order. */
  lemma {:induction false} BeforeLast(ticks: seq<Tick>, g: Grid)
    requires |ticks| > 1 && InOrder(ticks, g)
    ensures
      var n := |ticks| - 1;
      var init, tick := ticks[..n], ticks[n];
      && InOrder(init, g) && ClosedPeriods(init, g) <= ClosedPeriods(ticks, g)
      && FirstPeriod(init, g) <= LastPeriod(init, g) <= PeriodOf(tick, g)
      && (forall i :: 0 <= i < |init| ==> PeriodOf(init[i], g) <= LastPeriod(init, g))
      && PeriodOf(tick, g) - FirstPeriod(init, g) == ClosedPeriods(ticks, g)
  {
    hide PeriodOf;
    assert ticks[..|ticks| - 1][0] == ticks[0];
  }

  // ----- reading candles

  ghost predicate TimeSorted(bars: seq<Bar>) {
    forall i, j :: 0 <= i < j < |bars| ==> bars[i].time <= bars[j].time
  }

  ghost predicate StrictlyIncreasing(bars: seq<Bar>) {
    forall i, j :: 0 <= i < j < |bars| ==> bars[i].time < bars[j].time
  }

  function LastTime(bars: seq<Bar>): int {
    if bars == [] then 0 else bars[|bars| - 1].time
  }

  /** Drops every bar whose time repeats the last kept one; that time starts out as 0. */
  function Dedup(bars: seq<Bar>): seq<Bar> {
    if bars == [] then []
    else
      var n := |bars| - 1;
      var kept := Dedup(bars[..n]);
      if bars[n].time != LastTime(kept) then kept + [bars[n]] else kept
  }

  function Limit(bars: seq<Bar>, count: int): seq<Bar> {
    if count > 0 then KeepLast(bars, count) else bars
  }

  /** `sorted` is one of the orders sorting the held bars by time may give. */
  ghost predicate SortOf(s: Series, sorted: seq<Bar>) {
    multiset(sorted) == multiset(s.All()) && TimeSorted(sorted)
  }

  lemma {:induction false} DedupNext(bars: seq<Bar>, i: nat)
    requires i < |bars|
    ensures bars[i].time != LastTime(Dedup(bars[..i])) ==> Dedup(bars[..i + 1]) == Dedup(bars[..i]) + [bars[i]]
    ensures bars[i].time == LastTime(Dedup(bars[..i])) ==> Dedup(bars[..i + 1]) == Dedup(bars[..i])
  {
    assert bars[..i + 1][..i] == bars[..i];
  }

  method Compact(bars: array<Bar>) returns (n: nat)
    modifies bars
    ensures n <= bars.Length
    ensures bars[..n] == Dedup(old(bars[..]))
  {
    n := 0;
    var lastT := 0;
    ghost var was := bars[..];
    for i := 0 to bars.Length
      invariant n <= i
      invariant forall k :: i <= k < bars.Length ==> bars[k] == was[k]
      invariant bars[..n] == Dedup(was[..i])
      invariant lastT == LastTime(bars[..n])
    {
      DedupNext(was, i);
      if bars[i].time != lastT {
        bars[n] := bars[i];
        lastT := bars[n].time;
        n := n + 1;
      }
    }
    assert was[..bars.Length] == was;
  }

  /** The bars of a series in some time order, deduplicated and limited. */
  ghost predicate ReadsAs(s: Series, count: int, candles: seq<Bar>) {
    exists sorted :: SortOf(s, sorted) && candles == Limit(Dedup(sorted), count)
  }

  method ReadCandles(s: Series, count: int) returns (candles: seq<Bar>)
    ensures ReadsAs(s, count, candles)
  {
    var ordered := SortSlice(s.All(), (a: Bar, b: Bar) => a.time < b.time);
    assert SortOf(s, ordered);
    var result := new Bar[|ordered|](i requires 0 <= i < |ordered| => ordered[i]);
    assert result[..] == ordered;
    var n := Compact(result);
    candles := result[..n];
    if count > 0 && |candles| > count {
      candles := candles[|candles| - count..];
    }
  }

  // ----- in time order, reading equals the reference

  lemma {:induction false} NaiveBarsAt(ticks: seq<Tick>, g: Grid, lo: int, hi: int, i: nat)
    requires i <= hi - lo
    ensures NaiveBars(ticks, g, lo, hi)[i] == NaiveBar(ticks, g, lo + i)
    decreases hi - lo
  {
    if i < hi - lo {
      NaiveBarsAt(ticks, g, lo, hi - 1, i);
    }
  }

  lemma {:induction false} NaiveBarsIncrease(ticks: seq<Tick>, g: Grid, lo: int, hi: int)
    requires Stepped(g)
    ensures StrictlyIncreasing(NaiveBars(ticks, g, lo, hi))
  {
    hide NaiveBar;
    var bars := NaiveBars(ticks, g, lo, hi);
    forall i, j | 0 <= i < j < |bars|
      ensures bars[i].time < bars[j].time
    {
      NaiveBarsAt(ticks, g, lo, hi, i);
      NaiveBarsAt(ticks, g, lo, hi, j);
      NaiveBarTime(ticks, g, lo + i);
      NaiveBarTime(ticks, g, lo + j);
      TimesIncrease(g, lo + i, lo + j);
    }
  }

  lemma {:induction false} LatestAgree(a: seq<Bar>, b: seq<Bar>)
    requires multiset(a) == multiset(b) && |a| == |b| > 0
    requires TimeSorted(a) && StrictlyIncreasing(b)
    ensures a[|a| - 1] == b[|b| - 1]
  {
    var n := |a| - 1;
    assert a[n] in multiset(b) && b[n] in multiset(a);
    var i :| 0 <= i < |b| && b[i] == a[n];
    var j :| 0 <= j < |a| && a[j] == b[n];
    assert a[j].time <= a[n].time;
  }

  lemma {:induction false} InitAgree(a: seq<Bar>, b: seq<Bar>)
    requires multiset(a) == multiset(b) && |a| == |b| > 0
    requires a[|a| - 1] == b[|b| - 1]
    ensures multiset(a[..|a| - 1]) == multiset(b[..|a| - 1])
  {
    var n := |a| - 1;
    MultisetRemove(a, n);
    MultisetRemove(b, n);
    assert a[..n] + a[n + 1..] == a[..n] && b[..n] + b[n + 1..] == b[..n];
  }

  /** There is only one way to sort bars whose times are distinct. */
  lemma {:induction false} SortIsUnique(a: seq<Bar>, b: seq<Bar>)
    requires multiset(a) == multiset(b)
    requires TimeSorted(a) && StrictlyIncreasing(b)
    ensures a == b
    decreases |a|
  {
    SameLength(a, b);
    if a != [] {
      var n := |a| - 1;
      LatestAgree(a, b);
      InitAgree(a, b);
      SortIsUnique(a[..n], b[..n]);
      assert a == a[..n] + [a[n]] && b == b[..n] + [b[n]];
    }
  }

  lemma {:induction false} IncreasingInit(bars: seq<Bar>)
    requires StrictlyIncreasing(bars) && bars != []
    ensures StrictlyIncreasing(bars[..|bars| - 1])
    ensures |bars| > 1 ==> bars[|bars| - 2].time < bars[|bars| - 1].time
  {
  }

  lemma {:induction false} IncreasingSnoc(bars: seq<Bar>, bar: Bar)
    requires StrictlyIncreasing(bars) && (bars != [] ==> bars[|bars| - 1].time < bar.time)
    ensures StrictlyIncreasing(bars + [bar])
  {
  }

  lemma {:induction false} DedupKeepsIncreasing(bars: seq<Bar>)
    requires StrictlyIncreasing(bars)
    ensures bars == [] || bars[0].time != 0 ==> Dedup(bars) == bars
    ensures bars != [] && bars[0].time == 0 ==> Dedup(bars) == bars[1..]
  {
    hide StrictlyIncreasing;
    if bars != [] {
      var n := |bars| - 1;
      IncreasingInit(bars);
      DedupKeepsIncreasing(bars[..n]);
      assert bars == bars[..n] + [bars[n]];
      if n > 0 {
        assert bars[1..] == bars[..n][1..] + [bars[n]];
        assert bars[0].time == 0 && n == 1 ==> bars[..n][1..] == [];
      }
    }
  }

  lemma {:induction false} DedupShrinks(bars: seq<Bar>)
    ensures |Dedup(bars)| <= |bars|
    ensures forall i :: 0 <= i < |Dedup(bars)| ==> Dedup(bars)[i] in bars
  {
    if bars != [] {
      DedupShrinks(bars[..|bars| - 1]);
    }
  }

  lemma {:induction false} RunIsBounded(ticks: seq<Tick>, g: Grid, maxBars: nat)
    ensures |Run(ticks, g, maxBars).closed| <= maxBars
  {
    if ticks != [] {
      RunIsBounded(ticks[..|ticks| - 1], g, maxBars);
    }
  }

  lemma {:induction false} NaiveCandlesShape(ticks: seq<Tick>, g: Grid)
    requires ticks != [] && FirstPeriod(ticks, g) <= LastPeriod(ticks, g)
    ensures NaiveCandles(ticks, g) == ClosedNaive(ticks, g) + [LastNaive(ticks, g)]
    ensures |NaiveCandles(ticks, g)| == ClosedPeriods(ticks, g) + 1
    ensures NaiveCandles(ticks, g)[0].time == g.time(FirstPeriod(ticks, g))
  {
    hide NaiveBar;
    NaiveBarsAt(ticks, g, FirstPeriod(ticks, g), LastPeriod(ticks, g), 0);
    NaiveBarTime(ticks, g, FirstPeriod(ticks, g));
  }

  lemma {:induction false} NaiveBarTime(ticks: seq<Tick>, g: Grid, k: int)
    ensures NaiveBar(ticks, g, k).time == g.time(k)
  {
  }

  lemma {:induction false} UntruncatedCandles(ticks: seq<Tick>, g: Grid, maxBars: nat, sorted: seq<Bar>)
    requires Stepped(g) && ticks != [] && InOrder(ticks, g)
    requires ClosedPeriods(ticks, g) <= maxBars
    requires SortOf(Run(ticks, g, maxBars), sorted)
    ensures sorted == NaiveCandles(ticks, g)
  {
    var s := Run(ticks, g, maxBars);
    RunMatchesNaive(ticks, g, maxBars);
    NaiveCandlesShape(ticks, g);
    NaiveBarsIncrease(ticks, g, FirstPeriod(ticks, g), LastPeriod(ticks, g));
    assert multiset(s.All()) == multiset(s.closed) + multiset{LastNaive(ticks, g)};
    SortIsUnique(sorted, NaiveCandles(ticks, g));
  }

  lemma {:induction false} SortedAreNaiveIff(ticks: seq<Tick>, g: Grid, maxBars: nat, sorted: seq<Bar>)
    requires Stepped(g) && ticks != [] && InOrder(ticks, g)
    requires SortOf(Run(ticks, g, maxBars), sorted)
    ensures Limit(Dedup(sorted), 0) == NaiveCandles(ticks, g)
            <==> g.time(FirstPeriod(ticks, g)) != 0 && ClosedPeriods(ticks, g) <= maxBars
  {
    NaiveCandlesShape(ticks, g);
    if ClosedPeriods(ticks, g) <= maxBars {
      UntruncatedCandles(ticks, g, maxBars, sorted);
      NaiveBarsIncrease(ticks, g, FirstPeriod(ticks, g), LastPeriod(ticks, g));
      DedupKeepsIncreasing(sorted);
      if g.time(FirstPeriod(ticks, g)) == 0 {
        assert |sorted[1..]| < |sorted|;
      }
    } else {
      RunIsBounded(ticks, g, maxBars);
      SameLength(sorted, Run(ticks, g, maxBars).All());
      DedupShrinks(sorted);
    }
  }

  /** Main result: for ticks in order of their periods, reading without a limit gives exactly the
      naive grouping of all ticks, if and only if the first bar does not start at time 0
      and the run closes no more bars than are kept. */
  lemma {:induction false} CandlesAreNaiveIff(ticks: seq<Tick>, g: Grid, maxBars: nat, candles: seq<Bar>)
    requires Stepped(g) && ticks != [] && InOrder(ticks, g)
    requires ReadsAs(Run(ticks, g, maxBars), 0, candles)
    ensures candles == NaiveCandles(ticks, g)
            <==> g.time(FirstPeriod(ticks, g)) != 0 && ClosedPeriods(ticks, g) <= maxBars
  {
    hide Run, Dedup, Limit, NaiveCandles;
    var sorted :| SortOf(Run(ticks, g, maxBars), sorted) && candles == Limit(Dedup(sorted), 0);
    SortedAreNaiveIff(ticks, g, maxBars, sorted);
  }

  /** A reading with a limit is the latest part of one without. */
  lemma {:induction false} LimitKeepsLatest(s: Series, count: int, candles: seq<Bar>) returns (all: seq<Bar>)
    requires ReadsAs(s, count, candles)
    ensures ReadsAs(s, 0, all)
    ensures |candles| == if 0 < count < |all| then count else |all|
    ensures candles == all[|all| - |candles|..]
  {
    hide SortOf, Dedup;
    var sorted :| SortOf(s, sorted) && candles == Limit(Dedup(sorted), count);
    all := Dedup(sorted);
    assert all == Limit(Dedup(sorted), 0);
  }

  /** So for ticks in order, nothing dropped, it is the latest `count` naive candles. */
  lemma {:induction false} LimitedAreLatestNaive(ticks: seq<Tick>, g: Grid, maxBars: nat, count: int, candles: seq<Bar>)
    requires Stepped(g) && ticks != [] && InOrder(ticks, g)
    requires g.time(FirstPeriod(ticks, g)) != 0 && ClosedPeriods(ticks, g) <= maxBars
    requires ReadsAs(Run(ticks, g, maxBars), count, candles)
    ensures
      var all := NaiveCandles(ticks, g);
      |candles| == (if 0 < count < |all| then count else |all|) && candles == all[|all| - |candles|..]
  {
    hide Run, NaiveCandles, ReadsAs;
    var all := LimitKeepsLatest(Run(ticks, g, maxBars), count, candles);
    CandlesAreNaiveIff(ticks, g, maxBars, all);
  }

  /** A tick in the first minute of 1970 is dropped on reading. */
  lemma {:induction false} FirstMinuteIsDropped(tick: Tick, maxBars: nat, candles: seq<Bar>)
    requires 0 <= tick.ts < 60 && ReadsAs(Run([tick], GridOf(60), maxBars), 0, candles)
    ensures candles != NaiveCandles([tick], GridOf(60))
  {
    hide Run, NaiveCandles, ReadsAs;
    var g := GridOf(60);
    GridIsRegular(60);
    assert FirstPeriod([tick], g) == 0 && g.time(0) == 0;
    CandlesAreNaiveIff([tick], g, maxBars, candles);
  }

  /** Two ticks far enough apart leave more flat bars between them than are kept. */
  lemma {:induction false} LongGapIsTruncated(price: real, volume: real, maxBars: nat, candles: seq<Bar>)
    requires
      ReadsAs(Run([Tick(price, volume, 60), Tick(price, volume, 60 * (maxBars + 2))], GridOf(60), maxBars), 0, candles)
    ensures candles != NaiveCandles([Tick(price, volume, 60), Tick(price, volume, 60 * (maxBars + 2))], GridOf(60))
  {
    hide Run, NaiveCandles, ReadsAs;
    var g, ticks := GridOf(60), [Tick(price, volume, 60), Tick(price, volume, 60 * (maxBars + 2))];
    GridIsRegular(60);
    assert FirstPeriod(ticks, g) == 1 && LastPeriod(ticks, g) == maxBars + 2;
    CandlesAreNaiveIff(ticks, g, maxBars, candles);
  }

  lemma {:induction false} LateNaive(a: Tick, b: Tick, late: Tick)
    requires a.ts == 60 && b.ts == 120 && late.ts == 61
    ensures
      var bar := NaiveBar([a, b, late], GridOf(60), 1);
      bar.time == 60 && bar.volume == a.volume + late.volume
  {
    var g := GridOf(60);
    var t1, t2, t3 := [a], [a, b], [a, b, late];
    assert t1[..0] == [] && t2[..1] == t1 && t3[..2] == t2;
    assert TicksIn(t1, g, 1) == [] + [a] == [a];
    assert TicksIn(t2, g, 1) == [a] + [] == [a];
    assert TicksIn(t3, g, 1) == [a] + [late] == [a, late];
    assert [a, late][..1] == [a] && [a][..0] == [];
    assert VolumeOf([a]) == a.volume;
  }

  lemma {:induction false} LateRun(a: Tick, b: Tick, late: Tick, maxBars: nat)
    requires a.ts == 60 && b.ts == 120 && late.ts == 61
    ensures forall bar :: bar in Run([a, b, late], GridOf(60), maxBars).All() ==>
              bar.time == 120 || bar.volume == a.volume || bar.volume == late.volume
  {
    var g := GridOf(60);
    var t1, t2, t3 := [a], [a, b], [a, b, late];
    assert t1[..0] == [] && t2[..1] == t1 && t3[..2] == t2;
    var bar1, bar2 := OpenBar(60, a), OpenBar(120, b);
    assert Run(t1, g, maxBars) == Series([], InProgress(bar1));
    var s2 := Run(t2, g, maxBars);
    assert s2.current == InProgress(bar2);
    assert s2.closed == KeepLast([] + [] + [bar1], maxBars);
    assert forall bar :: bar in s2.closed ==> bar == bar1;
    var s3 := Run(t3, g, maxBars);
    assert s3.closed == KeepLast(s2.closed + [] + [bar2], maxBars);
    assert forall bar :: bar in s3.closed ==> bar == bar1 || bar == bar2;
  }

  /** A tick that comes late opens its old bar again: the two stay apart, one of them is
      dropped on reading, and no candle is the bar of all ticks of that minute. */
  lemma {:induction false} LateTickIsLost(a: Tick, b: Tick, late: Tick, maxBars: nat, candles: seq<Bar>)
    requires a.ts == 60 && b.ts == 120 && late.ts == 61 && a.volume > 0.0 && late.volume > 0.0
    requires ReadsAs(Run([a, b, late], GridOf(60), maxBars), 0, candles)
    ensures !InOrder([a, b, late], GridOf(60)) && NaiveBar([a, b, late], GridOf(60), 1) !in candles
  {
    hide Dedup;
    var g, ticks := GridOf(60), [a, b, late];
    var s := Run(ticks, g, maxBars);
    LateNaive(a, b, late);
    LateRun(a, b, late, maxBars);
    var sorted :| SortOf(s, sorted) && candles == Limit(Dedup(sorted), 0);
    forall bar | bar in candles
      ensures bar != NaiveBar(ticks, g, 1)
    {
      DedupShrinks(sorted);
      assert bar in multiset(Dedup(sorted)) && bar in multiset(sorted);
      assert bar in s.All();
    }
  }

  // ----- any order, any truncation

  /** A bar on the grid whose prices lie between its low and its high. */
  ghost predicate WellFormed(bar: Bar, g: Grid) {
    && (exists k :: bar.time == g.time(k))
    && bar.low <= bar.open <= bar.high
    && bar.low <= bar.close <= bar.high
  }

  ghost predicate AllWellFormed(bars: seq<Bar>, g: Grid) {
    forall i :: 0 <= i < |bars| ==> WellFormed(bars[i], g)
  }

  lemma {:induction false} GapBarsWellFormed(price: real, g: Grid, k: int, end: int)
    requires Stepped(g)
    ensures AllWellFormed(GapBars(price, g.period, g.time(k), end), g)
    decreases end - g.time(k)
  {
    if g.time(k) < end {
      assert g.time(Next(k)) == g.time(k) + g.period;
      GapBarsWellFormed(price, g, Next(k), end);
    }
  }

  lemma {:induction false} AddKeepsWellFormed(s: Series, g: Grid, maxBars: nat, tick: Tick)
    requires Stepped(g) && AllWellFormed(s.closed, g)
    requires s.current.InProgress? ==> WellFormed(s.current.bar, g)
    ensures AllWellFormed(AddToSeries(s, g, maxBars, tick).closed, g)
    ensures WellFormed(AddToSeries(s, g, maxBars, tick).current.bar, g)
  {
    hide GapBars;
    if s.current.InProgress? {
      var bar := s.current.bar;
      var k :| bar.time == g.time(k);
      assert g.time(Next(k)) == g.time(k) + g.period;
      GapBarsWellFormed(bar.close, g, Next(k), StartOf(tick, g));
    }
  }

  lemma {:induction false} RunIsWellFormed(ticks: seq<Tick>, g: Grid, maxBars: nat)
    requires Stepped(g)
    ensures AllWellFormed(Run(ticks, g, maxBars).closed, g)
    ensures ticks != [] ==> Run(ticks, g, maxBars).current.InProgress? && WellFormed(Run(ticks, g, maxBars).current.bar, g)
  {
    if ticks != [] {
      var n := |ticks| - 1;
      RunIsWellFormed(ticks[..n], g, maxBars);
      AddKeepsWellFormed(Run(ticks[..n], g, maxBars), g, maxBars, ticks[n]);
    }
  }

  lemma {:induction false} SortedInit(bars: seq<Bar>)
    requires TimeSorted(bars) && bars != []
    ensures TimeSorted(bars[..|bars| - 1])
    ensures |bars| > 1 ==> bars[|bars| - 2].time <= bars[|bars| - 1].time
  {
  }

  lemma {:induction false} DedupIncreases(bars: seq<Bar>)
    requires TimeSorted(bars)
    ensures StrictlyIncreasing(Dedup(bars))
    ensures Dedup(bars) != [] ==> LastTime(Dedup(bars)) <= bars[|bars| - 1].time
  {
    hide TimeSorted, StrictlyIncreasing;
    if bars == [] {
      NoneIncrease();
    } else {
      var n := |bars| - 1;
      SortedInit(bars);
      DedupIncreases(bars[..n]);
      if bars[n].time != LastTime(Dedup(bars[..n])) {
        IncreasingSnoc(Dedup(bars[..n]), bars[n]);
      }
    }
  }

  lemma {:induction false} NoneIncrease()
    ensures StrictlyIncreasing([])
  {
  }

  lemma {:induction false} DedupWellFormed(bars: seq<Bar>, all: seq<Bar>, g: Grid)
    requires multiset(bars) == multiset(all) && AllWellFormed(all, g)
    ensures AllWellFormed(Dedup(bars), g)
  {
    hide Dedup, WellFormed;
    DedupShrinks(bars);
    forall i | 0 <= i < |Dedup(bars)|
      ensures WellFormed(Dedup(bars)[i], g)
    {
      assert Dedup(bars)[i] in multiset(bars);
      assert Dedup(bars)[i] in multiset(all);
      var j :| 0 <= j < |all| && all[j] == Dedup(bars)[i];
    }
  }

  lemma {:induction false} LimitKeeps(bars: seq<Bar>, count: int, g: Grid)
    requires StrictlyIncreasing(bars) && AllWellFormed(bars, g)
    ensures StrictlyIncreasing(Limit(bars, count)) && AllWellFormed(Limit(bars, count), g)
  {
    hide WellFormed;
  }

  lemma {:induction false} SortedAreWellFormed(ticks: seq<Tick>, g: Grid, maxBars: nat, sorted: seq<Bar>, count: int)
    requires Stepped(g)
    requires SortOf(Run(ticks, g, maxBars), sorted)
    ensures StrictlyIncreasing(Limit(Dedup(sorted), count))
    ensures AllWellFormed(Limit(Dedup(sorted), count), g)
  {
    hide Dedup, Limit, WellFormed, StrictlyIncreasing, TimeSorted;
    RunIsWellFormed(ticks, g, maxBars);
    DedupIncreases(sorted);
    DedupWellFormed(sorted, Run(ticks, g, maxBars).All(), g);
    LimitKeeps(Dedup(sorted), count, g);
  }

  /** Main result: whatever the order of the ticks and however much was truncated, the
      candles read have strictly increasing times on the grid and consistent prices. */
  lemma {:induction false} CandlesAreWellFormed(ticks: seq<Tick>, g: Grid, maxBars: nat, candles: seq<Bar>, count: int)
    requires Stepped(g)
    requires ReadsAs(Run(ticks, g, maxBars), count, candles)
    ensures StrictlyIncreasing(candles) && AllWellFormed(candles, g)
  {
    hide Run, Dedup, Limit;
    var sorted :| SortOf(Run(ticks, g, maxBars), sorted) && candles == Limit(Dedup(sorted), count);
    SortedAreWellFormed(ticks, g, maxBars, sorted, count);
  }

  // ----- the aggregator

  datatype Key = Key(symbol: string, resolution: string)

  datatype Call = Call(symbol: string, tick: Tick)

  /** The ticks of one symbol among some calls. */
  function TicksOf(calls: seq<Call>, symbol: string): seq<Tick> {
    if calls == [] then []
    else
      var n := |calls| - 1;
      TicksOf(calls[..n], symbol) + if calls[n].symbol == symbol then [calls[n].tick] else []
  }

  /** What the aggregator should hold for a key after some calls. */
  function Expected(calls: seq<Call>, k: Key, maxBars: nat): Series {
    if k.resolution in RESOLUTIONS
    then Run(TicksOf(calls, k.symbol), GridOf(ResolutionSeconds(k.resolution)), maxBars) else EMPTY
  }

  lemma {:induction false} ExpectedSnoc(calls: seq<Call>, c: Call, k: Key, maxBars: nat)
    ensures Expected(calls + [c], k, maxBars)
         == if k.symbol == c.symbol && k.resolution in RESOLUTIONS
            then AddToSeries(Expected(calls, k, maxBars), GridOf(ResolutionSeconds(k.resolution)), maxBars, c.tick)
            else Expected(calls, k, maxBars)
  {
    hide AddToSeries, GridOf, ResolutionSeconds;
    assert (calls + [c])[..|calls|] == calls;
    var ticks := TicksOf(calls, k.symbol);
    assert (ticks + [c.tick])[..|ticks|] == ticks;
    assert ticks + [] == ticks;
  }

  class CandleAccumulator {
    var bars: map<Key, seq<Bar>>
    var current: map<Key, Bar>
    const maxBars: nat
    ghost var calls: seq<Call>

    /** Every series is that of its symbol's ticks. */
    ghost predicate Valid()
      reads this
    {
      forall k :: SeriesOf(k) == Expected(calls, k, maxBars)
    }

    constructor (maxBars: nat)
      ensures this.maxBars == maxBars && calls == []
      ensures Valid()
    {
      this.maxBars := maxBars;
      bars, current := map[], map[];
      calls := [];
    }

    function Held(k: Key): seq<Bar>
      reads this
    {
      if k in bars then bars[k] else []
    }

    function SeriesOf(k: Key): Series
      reads this
    {
      Series(Held(k), if k in current then InProgress(current[k]) else NoBar)
    }

    method AppendBar(k: Key, bar: Bar)
      modifies this`bars
      ensures Held(k) == KeepLast(old(Held(k)) + [bar], maxBars)
      ensures forall k' :: k' != k ==> Held(k') == old(Held(k'))
    {
      var list := Held(k) + [bar];
      if |list| > maxBars {
        list := list[|list| - maxBars..];
      }
      bars := bars[k := list];
    }

    /** Closes out a bar: flat bars up to `start`, then the bar itself. */
    method CloseOut(k: Key, cur: Bar, period: Positive, start: int)
      modifies this`bars
      ensures Held(k) == KeepLast(old(Held(k)) + GapBars(cur.close, period, cur.time + period, start) + [cur], maxBars)
      ensures forall k' :: k' != k ==> Held(k') == old(Held(k'))
    {
      CloseWithIsKeepLast(Held(k), cur, period, cur.time + period, start, maxBars);
      var t := cur.time + period;
      while t < start
        invariant CloseWith(Held(k), cur, period, t, start, maxBars)
               == CloseWith(old(Held(k)), cur, period, cur.time + period, start, maxBars)
        invariant forall k' :: k' != k ==> Held(k') == old(Held(k'))
      {
        AppendBar(k, FlatBar(t, cur.close));
        t := t + period;
      }
      AppendBar(k, cur);
    }

    /** One resolution's share of a tick. */
    method AddToKey(k: Key, period: Positive, tick: Tick)
      modifies this`bars, this`current
      ensures SeriesOf(k) == AddToSeries(old(SeriesOf(k)), GridOf(period), maxBars, tick)
      ensures forall k' :: k' != k ==> SeriesOf(k') == old(SeriesOf(k'))
    {
      var start := GoDiv(tick.ts, period) * period;
      assert start == StartOf(tick, GridOf(period));
      if k !in current || current[k].time != start {
        if k in current {
          CloseOut(k, current[k], period, start);
        }
        current := current[k := OpenBar(start, tick)];
      } else {
        current := current[k := Traded(current[k], tick)];
      }
    }

    /** A tick reaches the six resolutions of its symbol and nothing else. */
    method AddToResolutions(symbol: string, tick: Tick)
      modifies this`bars, this`current
      ensures forall k :: SeriesOf(k)
                == if k.symbol == symbol && k.resolution in RESOLUTIONS
                   then AddToSeries(old(SeriesOf(k)), GridOf(ResolutionSeconds(k.resolution)), maxBars, tick)
                   else old(SeriesOf(k))
    {
      for i := 0 to |RESOLUTIONS|
        invariant forall k :: SeriesOf(k)
                    == if k.symbol == symbol && k.resolution in RESOLUTIONS[..i]
                       then AddToSeries(old(SeriesOf(k)), GridOf(ResolutionSeconds(k.resolution)), maxBars, tick)
                       else old(SeriesOf(k))
      {
        var res := RESOLUTIONS[i];
        assert RESOLUTIONS[..i + 1] == RESOLUTIONS[..i] + [res];
        ResolutionsDistinct(i);
        AddToKey(Key(symbol, res), ResolutionSeconds(res), tick);
      }
      assert RESOLUTIONS[..|RESOLUTIONS|] == RESOLUTIONS;
    }

    /** Main operation: whatever the calls so far, every series is again that of its
        symbol's ticks. */
    method AddTick(symbol: string, tick: Tick)
      requires Valid()
      modifies this
      ensures Valid() && calls == old(calls) + [Call(symbol, tick)]
    {
      hide Expected, AddToSeries, GridOf, ResolutionSeconds;
      AddToResolutions(symbol, tick);
      calls := calls + [Call(symbol, tick)];
      forall k
        ensures SeriesOf(k) == Expected(calls, k, maxBars)
      {
        assert old(SeriesOf(k)) == Expected(old(calls), k, maxBars);
        ExpectedSnoc(old(calls), Call(symbol, tick), k, maxBars);
      }
    }

    method GetCandles(symbol: string, resolution: string, count: int) returns (candles: seq<Bar>)
      requires Valid()
      ensures ReadsAs(Expected(calls, Key(symbol, resolution), maxBars), count, candles)
    {
      candles := ReadCandles(SeriesOf(Key(symbol, resolution)), count);
    }
  }

  lemma {:induction false} ResolutionsDistinct(i: nat)
    requires i < |RESOLUTIONS|
    ensures RESOLUTIONS[i] !in RESOLUTIONS[..i]
  {
    assert |"1m"| == |"5m"| == |"1H"| == |"4H"| == |"1D"| == 2 && |"15m"| == 3;
    assert "1m"[0] != "5m"[0] && "1m"[1] != "1H"[1] && "1m"[1] != "1D"[1] && "1H"[1] != "1D"[1];
    assert "4H"[0] !in {"1m"[0], "5m"[0], "1H"[0], "1D"[0]} && "5m"[0] !in {"1H"[0], "1D"[0]};
  }

  /** What closing out leaves: truncation happens after every single append. */
  function CloseWith(held: seq<Bar>, cur: Bar, period: Positive, t: int, end: int, maxBars: nat): seq<Bar>
    decreases end - t
  {
    if t < end then
      CloseWith(KeepLast(held + [FlatBar(t, cur.close)], maxBars), cur, period, t + period, end, maxBars)
    else KeepLast(held + [cur], maxBars)
  }

  lemma {:induction false} KeepLastOfLast<T>(a: seq<T>, small: nat, large: nat)
    requires small <= large
    ensures KeepLast(KeepLast(a, large), small) == KeepLast(a, small)
  {
  }

  lemma {:induction false} LimitsKeepLast(ticks: seq<Tick>, g: Grid, small: nat, large: nat)
    requires small <= large
    ensures Run(ticks, g, small).current == Run(ticks, g, large).current
    ensures Run(ticks, g, small).closed == KeepLast(Run(ticks, g, large).closed, small)
  {
    if ticks != [] {
      var n := |ticks| - 1;
      LimitsKeepLast(ticks[..n], g, small, large);
      StepKeepsLast(Run(ticks[..n], g, small), Run(ticks[..n], g, large), g, small, large, ticks[n]);
    }
  }

  lemma {:induction false} StepKeepsLast(s: Series, l: Series, g: Grid, small: nat, large: nat, tick: Tick)
    requires small <= large && s.current == l.current && s.closed == KeepLast(l.closed, small)
    ensures AddToSeries(s, g, small, tick).current == AddToSeries(l, g, large, tick).current
    ensures AddToSeries(s, g, small, tick).closed == KeepLast(AddToSeries(l, g, large, tick).closed, small)
  {
    hide GapBars, StartOf, Traded, OpenBar, KeepLast;
    if l.current.InProgress? && l.current.bar.time != StartOf(tick, g) {
      var bar := l.current.bar;
      var gaps := GapBars(bar.close, g.period, bar.time + g.period, StartOf(tick, g));
      assert s.closed + gaps + [bar] == s.closed + (gaps + [bar]) && l.closed + gaps + [bar] == l.closed + (gaps + [bar]);
      KeepLastTwice(l.closed, gaps + [bar], small);
      KeepLastOfLast(l.closed + (gaps + [bar]), small, large);
    }
  }

  /** For ticks in any order: with a smaller limit the closed bars held are the last ones, as
      they were added, of those held with a larger limit; the open bar is the same. */
  lemma {:induction false} LimitsNest(ticks: seq<Tick>, g: Grid, small: nat, large: nat)
    requires small <= large
    ensures
      var s, l := Run(ticks, g, small), Run(ticks, g, large);
      && s.current == l.current
      && |s.closed| == (if |l.closed| < small then |l.closed| else small)
      && s.closed == l.closed[|l.closed| - |s.closed|..]
  {
    hide Run;
    LimitsKeepLast(ticks, g, small, large);
  }

  lemma {:induction false} KeepLastTwice<T>(a: seq<T>, b: seq<T>, n: nat)
    ensures KeepLast(KeepLast(a, n) + b, n) == KeepLast(a + b, n)
  {
  }

  /** Truncating once at the end comes to the same. */
  lemma {:induction false} CloseWithIsKeepLast(held: seq<Bar>, cur: Bar, period: Positive, t: int, end: int, maxBars: nat)
    ensures CloseWith(held, cur, period, t, end, maxBars)
         == KeepLast(held + GapBars(cur.close, period, t, end) + [cur], maxBars)
    decreases end - t
  {
    hide KeepLast, FlatBar;
    if t < end {
      var flat, rest := FlatBar(t, cur.close), GapBars(cur.close, period, t + period, end);
      CloseWithIsKeepLast(KeepLast(held + [flat], maxBars), cur, period, t + period, end, maxBars);
      KeepLastTwice(held + [flat], rest + [cur], maxBars);
      assert held + [flat] + (rest + [cur]) == held + ([flat] + rest) + [cur];
      assert KeepLast(held + [flat], maxBars) + rest + [cur] == KeepLast(held + [flat], maxBars) + (rest + [cur]);
    } else {
      assert held + [] + [cur] == held + [cur];
    }
  }
}
