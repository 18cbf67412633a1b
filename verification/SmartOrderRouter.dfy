/**
 The smart order router's multi-venue split (services/gateway/sor.go): quotes are
 scored by fee- and latency-adjusted net price, sorted, and filled greedily.
 The split is proved optimal among all feasible allocations by weak duality: a
 single threshold price bounds every allocation from below, and the greedy fill
 attains that bound.
 */
module SmartOrderRouter {
  import opened Basics
  import opened RealSums
  import opened Sorting

  datatype VenueQuote = VenueQuote(exchange: string, bid: real, ask: real, bidSize: real, askSize: real)

  datatype FeeModel = FeeModel(takerFeeBps: real, latencyMs: real)

  datatype ScoredQuote = ScoredQuote(quote: VenueQuote, netPrice: real, availQty: real)

  datatype VenueSplit = VenueSplit(venue: string, allocQty: real, price: real, feeBps: real)

  datatype RoutingResult = RoutingResult(
    routedExchange: string,
    fillPrice: real,
    exchangesSearched: nat,
    priceImprovementBps: real,
    averageMarketPrice: real,
    nbboBid: real,
    nbboAsk: real,
    splits: seq<VenueSplit>)

  /** `SingleVenue`: no quote is tradable on the order's side, so the router falls
      back to the single-venue path, which is not part of this model. */
  datatype Routing = NoMarket | SingleVenue | Split(result: RoutingResult)

  type FeeTable = map<string, FeeModel>

  const DEFAULT_PROFILE := FeeModel(5.0, 10.0)

  // ----- scoring

  predicate IsBuySide(side: string) {
    ToUpper(side) == "BUY"
  }

  function Profile(venues: FeeTable, exchange: string): FeeModel {
    if exchange in venues then venues[exchange] else DEFAULT_PROFILE
  }

  /** The fee reported on a split: an unknown venue reads the map's zero value, not
      the default profile it was scored with. */
  function ReportedFeeBps(venues: FeeTable, exchange: string): real {
    if exchange in venues then venues[exchange].takerFeeBps else 0.0
  }

  function RawPrice(q: VenueQuote, isBuy: bool): real {
    if isBuy then q.ask else q.bid
  }

  function QuotedSize(q: VenueQuote, isBuy: bool): real {
    if isBuy then q.askSize else q.bidSize
  }

  function NetPrice(venues: FeeTable, q: VenueQuote, isBuy: bool, mid: real): real {
    var profile := Profile(venues, q.exchange);
    var latencyCost := profile.latencyMs / 1000.0 * 0.0001 * mid;
    if isBuy then
      q.ask * (1.0 + profile.takerFeeBps / 10000.0) + latencyCost
    else
      q.bid * (1.0 - profile.takerFeeBps / 10000.0) - latencyCost
  }

  predicate Tradable(q: VenueQuote, isBuy: bool) {
    RawPrice(q, isBuy) > 0.0 && QuotedSize(q, isBuy) > 0.0
  }

  /** How much may be taken from a quote. */
  function Capacity(q: VenueQuote, isBuy: bool): real {
    if Tradable(q, isBuy) then QuotedSize(q, isBuy) else 0.0
  }

  /** The scoring function of one routing. The results below hold for any `net`. */
  function NetPriceAt(venues: FeeTable, isBuy: bool, mid: real): VenueQuote -> real {
    (q: VenueQuote) => NetPrice(venues, q, isBuy, mid)
  }

  function Score(q: VenueQuote, isBuy: bool, net: VenueQuote -> real): ScoredQuote {
    ScoredQuote(q, net(q), QuotedSize(q, isBuy))
  }

  /** The tradable quotes, scored, in quote order. */
  function Scored(quotes: seq<VenueQuote>, isBuy: bool, net: VenueQuote -> real): seq<ScoredQuote> {
    if quotes == [] then []
    else
      var n := |quotes| - 1;
      Scored(quotes[..n], isBuy, net)
      + (if Tradable(quotes[n], isBuy) then [Score(quotes[n], isBuy, net)] else [])
  }

  // ----- what an allocation costs

  /** Buying pays the net price and selling earns it; routing minimises this cost. */
  function SignedPrice(isBuy: bool, net: real): real {
    if isBuy then net else -net
  }

  function QuoteCost(isBuy: bool, net: VenueQuote -> real): VenueQuote -> real {
    (q: VenueQuote) => SignedPrice(isBuy, net(q))
  }

  function QuoteCapacity(isBuy: bool): VenueQuote -> real {
    (q: VenueQuote) => Capacity(q, isBuy)
  }

  function ScoredCost(isBuy: bool): ScoredQuote -> real {
    (s: ScoredQuote) => SignedPrice(isBuy, s.netPrice)
  }

  function ScoredCapacity(): ScoredQuote -> real {
    (s: ScoredQuote) => s.availQty
  }

  function Total(x: seq<real>): real {
    if x == [] then 0.0 else Total(x[..|x| - 1]) + x[|x| - 1]
  }

  /** The sum of `x[i] * value(s[i])`. */
  function Weighted<T>(s: seq<T>, x: seq<real>, value: T -> real): real
    requires |s| == |x|
  {
    if s == [] then 0.0
    else
      var n := |s| - 1;
      Weighted(s[..n], x[..n], value) + x[n] * value(s[n])
  }

  ghost predicate Within<T>(s: seq<T>, x: seq<real>, cap: T -> real) {
    && |s| == |x|
    && forall i :: 0 <= i < |s| ==> 0.0 <= x[i] <= cap(s[i])
  }

  /** An allocation over the venues' own quotes, in quote order. */
  ghost predicate Feasible(quotes: seq<VenueQuote>, isBuy: bool, alloc: seq<real>) {
    Within(quotes, alloc, QuoteCapacity(isBuy))
  }

  ghost function Depth(quotes: seq<VenueQuote>, isBuy: bool): real {
    SumBy(quotes, QuoteCapacity(isBuy))
  }

  /** The net total of a split whose k-th part was taken from the k-th ranked quote. */
  function SplitNetTotal(order: seq<ScoredQuote>, splits: seq<VenueSplit>): real
    requires |splits| <= |order|
  {
    if splits == [] then 0.0
    else
      var n := |splits| - 1;
      SplitNetTotal(order, splits[..n]) + splits[n].allocQty * order[n].netPrice
  }

  function Filled(splits: seq<VenueSplit>): real {
    if splits == [] then 0.0
    else Filled(splits[..|splits| - 1]) + splits[|splits| - 1].allocQty
  }

  function AtPrice(price: real, qty: real): real {
    price * qty
  }

  function Notional(splits: seq<VenueSplit>): real {
    if splits == [] then 0.0
    else
      var last := splits[|splits| - 1];
      Notional(splits[..|splits| - 1]) + AtPrice(last.price, last.allocQty)
  }

  // ----- duality

  function Positive(x: real): real {
    if x > 0.0 then x else 0.0
  }

  /** What the threshold price `p` concedes on one offer. */
  function Concession<T>(cost: T -> real, cap: T -> real, p: real): T -> real {
    (t: T) => cap(t) * Positive(p - cost(t))
  }

  /** The dual value of the threshold price `p` for allocating the quantity `q`. */
  function DualValue<T>(s: seq<T>, cost: T -> real, cap: T -> real, p: real, q: real): real {
    p * q - SumBy(s, Concession(cost, cap, p))
  }

  lemma {:induction false} OfferBound(x: real, cap: real, cost: real, p: real)
    requires 0.0 <= x <= cap
    ensures x * cost >= p * x - cap * Positive(p - cost)
  {
    if p > cost {
      assert x * (p - cost) <= cap * (p - cost);
    } else {
      assert x * (cost - p) >= 0.0;
    }
  }

  /** Every allocation within the capacities costs at least the dual value of `p`. */
  lemma {:induction false} WeakDuality<T>(s: seq<T>, x: seq<real>, cost: T -> real, cap: T -> real, p: real)
    requires Within(s, x, cap)
    ensures Weighted(s, x, cost) >= DualValue(s, cost, cap, p, Total(x))
  {
    if s != [] {
      var n := |s| - 1;
      WeakDuality(s[..n], x[..n], cost, cap, p);
      OfferBound(x[n], cap(s[n]), cost(s[n]), p);
      assert p * Total(x) == p * Total(x[..n]) + p * x[n];
    }
  }

  /** An allocation that takes all of every offer below `p` and nothing above it attains the dual value. */
  lemma {:induction false} DualAttained<T>(s: seq<T>, x: seq<real>, cost: T -> real, cap: T -> real, p: real)
    requires |s| == |x|
    requires forall i :: 0 <= i < |s| && cost(s[i]) < p ==> x[i] == cap(s[i])
    requires forall i :: 0 <= i < |s| && cost(s[i]) > p ==> x[i] == 0.0
    ensures Weighted(s, x, cost) == DualValue(s, cost, cap, p, Total(x))
  {
    if s != [] {
      var n := |s| - 1;
      DualAttained(s[..n], x[..n], cost, cap, p);
      OfferAttained(x[n], cap(s[n]), cost(s[n]), p);
      assert p * Total(x) == p * Total(x[..n]) + p * x[n];
    }
  }

  lemma {:induction false} OfferAttained(x: real, cap: real, cost: real, p: real)
    requires cost < p ==> x == cap
    requires cost > p ==> x == 0.0
    ensures x * cost == p * x - cap * Positive(p - cost)
  {
  }

  /** Filtering and scoring change neither the depth nor the concession at any price. */
  lemma {:induction false} ScoringPreservesSums(quotes: seq<VenueQuote>, isBuy: bool, net: VenueQuote -> real, p: real)
    ensures SumBy(Scored(quotes, isBuy, net), ScoredCapacity()) == Depth(quotes, isBuy)
    ensures SumBy(Scored(quotes, isBuy, net), Concession(ScoredCost(isBuy), ScoredCapacity(), p))
         == SumBy(quotes, Concession(QuoteCost(isBuy, net), QuoteCapacity(isBuy), p))
  {
    var raw, scored := Concession(QuoteCost(isBuy, net), QuoteCapacity(isBuy), p),
                       Concession(ScoredCost(isBuy), ScoredCapacity(), p);
    if quotes != [] {
      var n := |quotes| - 1;
      var init, s := Scored(quotes[..n], isBuy, net), Score(quotes[n], isBuy, net);
      ScoringPreservesSums(quotes[..n], isBuy, net, p);
      hide Concession, Score, Tradable, QuoteCapacity, ScoredCapacity;
      ScoredTerms(quotes[n], isBuy, net, p);
      if Tradable(quotes[n], isBuy) {
        SumBySnoc(init, s, ScoredCapacity());
        SumBySnoc(init, s, scored);
      } else {
        assert Scored(quotes, isBuy, net) == init;
      }
    }
  }

  lemma {:induction false} ScoredTerms(q: VenueQuote, isBuy: bool, net: VenueQuote -> real, p: real)
    ensures QuoteCapacity(isBuy)(q)
         == if Tradable(q, isBuy) then ScoredCapacity()(Score(q, isBuy, net)) else 0.0
    ensures Concession(QuoteCost(isBuy, net), QuoteCapacity(isBuy), p)(q)
         == if Tradable(q, isBuy) then Concession(ScoredCost(isBuy), ScoredCapacity(), p)(Score(q, isBuy, net)) else 0.0
  {
    hide Positive;
  }

  lemma {:induction false} SignedTotal(quotes: seq<VenueQuote>, isBuy: bool, net: VenueQuote -> real, alloc: seq<real>)
    requires |alloc| == |quotes|
    ensures Weighted(quotes, alloc, QuoteCost(isBuy, net)) == SignedPrice(isBuy, Weighted(quotes, alloc, net))
  {
    if quotes != [] {
      SignedTotal(quotes[..|quotes| - 1], isBuy, net, alloc[..|quotes| - 1]);
    }
  }

  /** A split spread over the whole ranking, zero beyond its last part. */
  function Spread(n: nat, splits: seq<VenueSplit>): (x: seq<real>)
    requires |splits| <= n
    ensures |x| == n
    ensures forall i :: 0 <= i < n ==> x[i] == if i < |splits| then splits[i].allocQty else 0.0
  {
    seq(n, i requires 0 <= i < n => if i < |splits| then splits[i].allocQty else 0.0)
  }

  lemma {:induction false} SpreadTotals(order: seq<ScoredQuote>, splits: seq<VenueSplit>, isBuy: bool)
    requires |splits| <= |order|
    ensures Total(Spread(|order|, splits)) == Filled(splits)
    ensures Weighted(order, Spread(|order|, splits), ScoredCost(isBuy))
         == SignedPrice(isBuy, SplitNetTotal(order, splits))
    decreases |order|
  {
    hide Spread, SignedPrice, ScoredCost, Total, Filled, Weighted, SplitNetTotal;
    var n := |order| - 1;
    if n < 0 {
      SpreadNone(order, splits, isBuy);
    } else {
      var init := if |splits| == |order| then splits[..n] else splits;
      SpreadTotals(order[..n], init, isBuy);
      SpreadLast(order, splits, init, isBuy);
    }
  }

  lemma {:induction false} SpreadNone(order: seq<ScoredQuote>, splits: seq<VenueSplit>, isBuy: bool)
    requires |splits| == |order| == 0
    ensures Total(Spread(|order|, splits)) == Filled(splits)
    ensures Weighted(order, Spread(|order|, splits), ScoredCost(isBuy))
         == SignedPrice(isBuy, SplitNetTotal(order, splits))
  {
  }

  lemma {:induction false} SpreadLast(order: seq<ScoredQuote>, splits: seq<VenueSplit>, init: seq<VenueSplit>, isBuy: bool)
    requires |splits| <= |order| && order != []
    requires init == if |splits| == |order| then splits[..|order| - 1] else splits
    requires Total(Spread(|order| - 1, init)) == Filled(init)
    requires Weighted(order[..|order| - 1], Spread(|order| - 1, init), ScoredCost(isBuy))
          == SignedPrice(isBuy, SplitNetTotal(order[..|order| - 1], init))
    ensures Total(Spread(|order|, splits)) == Filled(splits)
    ensures Weighted(order, Spread(|order|, splits), ScoredCost(isBuy))
         == SignedPrice(isBuy, SplitNetTotal(order, splits))
  {
    hide SignedPrice, ScoredCost, Spread, Weighted, SplitNetTotal, Filled, Total, AtPrice;
    var n := |order| - 1;
    var x, net := Spread(|order|, splits), order[n].netPrice;
    assert x[..n] == Spread(n, init);
    TotalLast(x, splits, init);
    WeightedLast(order, x, isBuy);
    NetTotalLast(order, splits, init, x[n]);
    SignedSum(isBuy, SplitNetTotal(order[..n], init), x[n], net);
  }

  lemma {:induction false} TotalLast(x: seq<real>, splits: seq<VenueSplit>, init: seq<VenueSplit>)
    requires |splits| <= |x| && x != []
    requires init == if |splits| == |x| then splits[..|x| - 1] else splits
    requires x[|x| - 1] == if |splits| == |x| then splits[|x| - 1].allocQty else 0.0
    ensures Total(x) - Total(x[..|x| - 1]) == Filled(splits) - Filled(init)
  {
  }

  lemma {:induction false} WeightedLast(order: seq<ScoredQuote>, x: seq<real>, isBuy: bool)
    requires |x| == |order| > 0
    ensures
      var n := |order| - 1;
      Weighted(order, x, ScoredCost(isBuy))
      == Weighted(order[..n], x[..n], ScoredCost(isBuy)) + AtPrice(SignedPrice(isBuy, order[n].netPrice), x[n])
  {
    hide SignedPrice;
  }

  lemma {:induction false} NetTotalLast(order: seq<ScoredQuote>, splits: seq<VenueSplit>, init: seq<VenueSplit>, last: real)
    requires |splits| <= |order| && order != []
    requires init == if |splits| == |order| then splits[..|order| - 1] else splits
    requires last == if |splits| == |order| then splits[|order| - 1].allocQty else 0.0
    ensures
      var n := |order| - 1;
      SplitNetTotal(order, splits) == SplitNetTotal(order[..n], init) + AtPrice(order[n].netPrice, last)
  {
    SplitNetTotalPrefix(order, |order| - 1, init);
  }

  lemma {:induction false} SignedSum(isBuy: bool, total: real, qty: real, net: real)
    ensures SignedPrice(isBuy, total + AtPrice(net, qty))
         == SignedPrice(isBuy, total) + AtPrice(SignedPrice(isBuy, net), qty)
  {
  }

  lemma {:induction false} SplitNetTotalPrefix(order: seq<ScoredQuote>, n: nat, splits: seq<VenueSplit>)
    requires |splits| <= n <= |order|
    ensures SplitNetTotal(order[..n], splits) == SplitNetTotal(order, splits)
  {
    if splits != [] {
      SplitNetTotalPrefix(order, n, splits[..|splits| - 1]);
    }
  }

  ghost predicate TakenFrom(venues: FeeTable, s: ScoredQuote, isBuy: bool, part: VenueSplit) {
    && 0.0 < part.allocQty <= s.availQty
    && part.venue == s.quote.exchange
    && part.price == RawPrice(s.quote, isBuy)
    && part.feeBps == (if s.quote.exchange in venues then venues[s.quote.exchange].takerFeeBps else 0.0)
  }

  /** The shape of a greedy fill of `target` along a ranking: each part comes from the
      next ranked quote at that quote's price, all but the last part are whole, and
      the last is whole too when the depth runs out first. */
  ghost predicate GreedyFill(venues: FeeTable, order: seq<ScoredQuote>, isBuy: bool, target: real, splits: seq<VenueSplit>) {
    && 0 < |splits| <= |order|
    && (forall k :: 0 <= k < |splits| ==> TakenFrom(venues, order[k], isBuy, splits[k]))
    && (forall k :: 0 <= k < |splits| - 1 ==> splits[k].allocQty == order[k].availQty)
    && Filled(splits) <= target
    && (Filled(splits) < target ==>
          |splits| == |order| && splits[|splits| - 1].allocQty == order[|order| - 1].availQty)
  }

  ghost predicate Ranked(order: seq<ScoredQuote>, isBuy: bool) {
    forall i, j :: 0 <= i < j < |order| ==>
      SignedPrice(isBuy, order[i].netPrice) <= SignedPrice(isBuy, order[j].netPrice)
  }

  lemma {:induction false} PartialSum(order: seq<ScoredQuote>, splits: seq<VenueSplit>)
    requires |splits| <= |order|
    requires forall k :: 0 <= k < |splits| ==> splits[k].allocQty <= order[k].availQty
    requires forall k :: 0 <= k < |order| ==> order[k].availQty > 0.0
    ensures Filled(splits) <= SumBy(order, ScoredCapacity())
    ensures |splits| == |order| && (forall k :: 0 <= k < |splits| ==> splits[k].allocQty == order[k].availQty) ==>
              Filled(splits) == SumBy(order, ScoredCapacity())
    decreases |order|
  {
    if order == [] {
    } else if |splits| < |order| {
      PartialSum(order[..|order| - 1], splits);
    } else {
      PartialSum(order[..|order| - 1], splits[..|order| - 1]);
    }
  }

  /** A greedy fill takes exactly the smaller of the order's quantity and the market's depth. */
  lemma {:induction false} GreedyFillsMin(venues: FeeTable, quotes: seq<VenueQuote>, isBuy: bool, net: VenueQuote -> real,
                       order: seq<ScoredQuote>, target: real, splits: seq<VenueSplit>)
    requires multiset(order) == multiset(Scored(quotes, isBuy, net))
    requires GreedyFill(venues, order, isBuy, target, splits)
    ensures Filled(splits) == Min(target, Depth(quotes, isBuy))
  {
    OrderFromScored(quotes, isBuy, net, order);
    PartialSum(order, splits);
    SumByPermutation(order, Scored(quotes, isBuy, net), ScoredCapacity());
    ScoringPreservesSums(quotes, isBuy, net, 0.0);
  }

  /** A scored quote is a tradable quote of the market, scored. */
  ghost predicate ScoredFrom(quotes: seq<VenueQuote>, isBuy: bool, net: VenueQuote -> real, s: ScoredQuote) {
    && s.availQty > 0.0
    && Tradable(s.quote, isBuy)
    && s.quote in quotes
    && s == Score(s.quote, isBuy, net)
  }

  lemma {:induction false} ScoredMembers(quotes: seq<VenueQuote>, isBuy: bool, net: VenueQuote -> real, s: ScoredQuote)
    requires s in Scored(quotes, isBuy, net)
    ensures ScoredFrom(quotes, isBuy, net, s)
  {
    var n := |quotes| - 1;
    if s in Scored(quotes[..n], isBuy, net) {
      ScoredMembers(quotes[..n], isBuy, net, s);
    } else {
      assert s == Score(quotes[n], isBuy, net);
    }
  }

  lemma {:induction false} OrderFromScored(quotes: seq<VenueQuote>, isBuy: bool, net: VenueQuote -> real, order: seq<ScoredQuote>)
    requires multiset(order) == multiset(Scored(quotes, isBuy, net))
    ensures forall k :: 0 <= k < |order| ==> ScoredFrom(quotes, isBuy, net, order[k])
  {
    forall k | 0 <= k < |order|
      ensures ScoredFrom(quotes, isBuy, net, order[k])
    {
      assert order[k] in multiset(order);
      assert order[k] in multiset(Scored(quotes, isBuy, net));
      ScoredMembers(quotes, isBuy, net, order[k]);
    }
  }

  /** The greedy fill takes all of every quote below the last ranked one it used and
      nothing of any quote above it. */
  lemma {:induction false} ThresholdShape(venues: FeeTable, order: seq<ScoredQuote>, isBuy: bool, target: real, splits: seq<VenueSplit>, p: real)
    requires Ranked(order, isBuy)
    requires GreedyFill(venues, order, isBuy, target, splits)
    requires p == ScoredCost(isBuy)(order[|splits| - 1])
    ensures forall i :: 0 <= i < |order| && ScoredCost(isBuy)(order[i]) < p ==>
              Spread(|order|, splits)[i] == ScoredCapacity()(order[i])
    ensures forall i :: 0 <= i < |order| && ScoredCost(isBuy)(order[i]) > p ==> Spread(|order|, splits)[i] == 0.0
  {
  }

  lemma {:induction false} SplitAttainsDual(venues: FeeTable, order: seq<ScoredQuote>, isBuy: bool,
                         target: real, splits: seq<VenueSplit>, p: real)
    requires Ranked(order, isBuy)
    requires GreedyFill(venues, order, isBuy, target, splits)
    requires p == ScoredCost(isBuy)(order[|splits| - 1])
    ensures SignedPrice(isBuy, SplitNetTotal(order, splits))
         == DualValue(order, ScoredCost(isBuy), ScoredCapacity(), p, Filled(splits))
  {
    ThresholdShape(venues, order, isBuy, target, splits, p);
    DualAttained(order, Spread(|order|, splits), ScoredCost(isBuy), ScoredCapacity(), p);
    SpreadTotals(order, splits, isBuy);
  }

  /** Ranking the scored quotes does not change the market's dual value. */
  lemma {:induction false} RankingKeepsDual(quotes: seq<VenueQuote>, isBuy: bool, net: VenueQuote -> real,
                         order: seq<ScoredQuote>, p: real, q: real)
    requires multiset(order) == multiset(Scored(quotes, isBuy, net))
    ensures DualValue(order, ScoredCost(isBuy), ScoredCapacity(), p, q)
         == DualValue(quotes, QuoteCost(isBuy, net), QuoteCapacity(isBuy), p, q)
  {
    SumByPermutation(order, Scored(quotes, isBuy, net), Concession(ScoredCost(isBuy), ScoredCapacity(), p));
    ScoringPreservesSums(quotes, isBuy, net, p);
  }

  lemma {:induction false} AllocationAboveDual(quotes: seq<VenueQuote>, isBuy: bool, net: VenueQuote -> real, alloc: seq<real>, p: real)
    requires Feasible(quotes, isBuy, alloc)
    ensures SignedPrice(isBuy, Weighted(quotes, alloc, net))
         >= DualValue(quotes, QuoteCost(isBuy, net), QuoteCapacity(isBuy), p, Total(alloc))
  {
    WeakDuality(quotes, alloc, QuoteCost(isBuy, net), QuoteCapacity(isBuy), p);
    SignedTotal(quotes, isBuy, net, alloc);
  }

  /** Main result: no feasible allocation of the same quantity over the venues' quotes
      has a smaller net cost (buying) or larger net proceeds (selling) than the split. */
  lemma {:induction false} SplitIsOptimal(venues: FeeTable, quotes: seq<VenueQuote>, isBuy: bool, net: VenueQuote -> real,
                       order: seq<ScoredQuote>, target: real, splits: seq<VenueSplit>, alloc: seq<real>)
    requires multiset(order) == multiset(Scored(quotes, isBuy, net))
    requires Ranked(order, isBuy)
    requires GreedyFill(venues, order, isBuy, target, splits)
    requires Feasible(quotes, isBuy, alloc)
    requires Total(alloc) == Filled(splits)
    ensures isBuy ==> SplitNetTotal(order, splits) <= Weighted(quotes, alloc, net)
    ensures !isBuy ==> SplitNetTotal(order, splits) >= Weighted(quotes, alloc, net)
  {
    var p := ScoredCost(isBuy)(order[|splits| - 1]);
    SplitAttainsDual(venues, order, isBuy, target, splits, p);
    RankingKeepsDual(quotes, isBuy, net, order, p, Filled(splits));
    AllocationAboveDual(quotes, isBuy, net, alloc, p);
  }

  // ----- the executable router

  /** The highest bid and the lowest ask quoted, 0 when nothing is quoted. */
  ghost predicate IsNbbo(quotes: seq<VenueQuote>, bid: real, ask: real) {
    && (quotes == [] ==> bid == 0.0 && ask == 0.0)
    && (quotes != [] ==>
          && (exists i :: 0 <= i < |quotes| && quotes[i].bid == bid)
          && (exists i :: 0 <= i < |quotes| && quotes[i].ask == ask))
    && (forall i :: 0 <= i < |quotes| ==> quotes[i].bid <= bid && ask <= quotes[i].ask)
  }

  method Nbbo(quotes: seq<VenueQuote>) returns (bid: real, ask: real)
    ensures IsNbbo(quotes, bid, ask)
  {
    bid, ask := 0.0, 0.0;
    for k := 0 to |quotes|
      invariant IsNbbo(quotes[..k], bid, ask)
    {
      if k == 0 || quotes[k].bid > bid {
        bid := quotes[k].bid;
      }
      if k == 0 || quotes[k].ask < ask {
        ask := quotes[k].ask;
      }
    }
  }

  method ScoreQuotes(quotes: seq<VenueQuote>, isBuy: bool, net: VenueQuote -> real) returns (scored: seq<ScoredQuote>)
    ensures scored == Scored(quotes, isBuy, net)
  {
    scored := [];
    for k := 0 to |quotes|
      invariant scored == Scored(quotes[..k], isBuy, net)
    {
      var q := quotes[k];
      assert quotes[..k + 1][..k] == quotes[..k];
      if RawPrice(q, isBuy) > 0.0 && QuotedSize(q, isBuy) > 0.0 {
        scored := scored + [Score(q, isBuy, net)];
      }
    }
    assert quotes[..|quotes|] == quotes;
  }

  lemma {:induction false} SplitsSnoc(splits: seq<VenueSplit>, part: VenueSplit)
    ensures Filled(splits + [part]) == Filled(splits) + part.allocQty
    ensures Notional(splits + [part]) == Notional(splits) + AtPrice(part.price, part.allocQty)
  {
    assert (splits + [part])[..|splits|] == splits;
  }

  /** Each part was taken from its venue, and every venue but the last was emptied; the
      last too when `drained`. */
  ghost predicate FilledFrom(
    venues: FeeTable, order: seq<ScoredQuote>, isBuy: bool, splits: seq<VenueSplit>, drained: bool)
  {
    && |splits| <= |order|
    && (forall k :: 0 <= k < |splits| ==> TakenFrom(venues, order[k], isBuy, splits[k]))
    && (forall k :: 0 <= k < |splits| && (k < |splits| - 1 || drained) ==> splits[k].allocQty == order[k].availQty)
  }

  lemma {:induction false} FilledFromNext(
      venues: FeeTable, order: seq<ScoredQuote>, isBuy: bool, splits: seq<VenueSplit>, part: VenueSplit, drained: bool)
    requires FilledFrom(venues, order, isBuy, splits, true) && |splits| < |order|
    requires TakenFrom(venues, order[|splits|], isBuy, part)
    requires drained ==> part.allocQty == order[|splits|].availQty
    ensures FilledFrom(venues, order, isBuy, splits + [part], drained)
  {
    hide TakenFrom;
  }

  lemma {:induction false} FilledIsGreedy(
      venues: FeeTable, order: seq<ScoredQuote>, isBuy: bool, splits: seq<VenueSplit>, target: real)
    requires splits != [] && Filled(splits) <= target
    requires FilledFrom(venues, order, isBuy, splits, Filled(splits) < target)
    requires Filled(splits) < target ==> |splits| == |order|
    ensures GreedyFill(venues, order, isBuy, target, splits)
  {
    hide TakenFrom, Filled;
  }

  method FillGreedily(venues: FeeTable, order: seq<ScoredQuote>, isBuy: bool, target: real)
    returns (splits: seq<VenueSplit>, weightedPrice: real, filled: real)
    requires order != [] && target > 0.0
    requires forall k :: 0 <= k < |order| ==> order[k].availQty > 0.0
    ensures GreedyFill(venues, order, isBuy, target, splits)
    ensures filled == Filled(splits)
    ensures weightedPrice == Notional(splits)
  {
    splits, weightedPrice, filled := [], 0.0, 0.0;
    assert Filled(splits) == 0.0 && Notional(splits) == 0.0;
    assert FilledFrom(venues, order, isBuy, splits, true);
    hide Filled, Notional, AtPrice, FilledFrom, GreedyFill;
    var remaining := target;
    var i := 0;
    while i < |order| && remaining > 0.0
      invariant 0 <= i <= |order| && |splits| == i
      invariant remaining >= 0.0 && filled + remaining == target
      invariant filled == Filled(splits)
      invariant weightedPrice == Notional(splits)
      invariant i == 0 ==> remaining > 0.0
      invariant FilledFrom(venues, order, isBuy, splits, remaining > 0.0)
    {
      var s := order[i];
      var fillQty := Min(remaining, s.availQty);
      var fillPx := if isBuy then s.quote.ask else s.quote.bid;
      var part := VenueSplit(s.quote.exchange, fillQty, fillPx, ReportedFeeBps(venues, s.quote.exchange));
      SplitsSnoc(splits, part);
      FilledFromNext(venues, order, isBuy, splits, part, remaining - fillQty > 0.0);
      splits := splits + [part];
      weightedPrice := weightedPrice + AtPrice(fillPx, fillQty);
      filled := filled + fillQty;
      remaining := remaining - fillQty;
      i := i + 1;
    }
    FilledIsGreedy(venues, order, isBuy, splits, target);
  }

  /** A routing's result is a greedy fill along a ranking of exactly the tradable
      quotes, with the prices reported from it. */
  ghost predicate SplitRouting(venues: FeeTable, quotes: seq<VenueQuote>, isBuy: bool, totalQty: real,
                               order: seq<ScoredQuote>, r: RoutingResult)
  {
    && r.averageMarketPrice == (r.nbboBid + r.nbboAsk) / 2.0
    && multiset(order) == multiset(Scored(quotes, isBuy, NetPriceAt(venues, isBuy, r.averageMarketPrice)))
    && Ranked(order, isBuy)
    && GreedyFill(venues, order, isBuy, if totalQty <= 0.0 then 1.0 else totalQty, r.splits)
    && r.routedExchange == order[0].quote.exchange
    && r.exchangesSearched == |quotes|
    && IsNbbo(quotes, r.nbboBid, r.nbboAsk) && r.nbboBid > 0.0 && r.nbboAsk > 0.0
    && r.fillPrice == AverageFill(r.splits)
    && r.priceImprovementBps == Improvement(isBuy, r.averageMarketPrice, r.fillPrice)
  }

  /** Any routing the method below returns as a split fills the smaller of the wanted
      quantity and the depth, at the best net total any allocation could reach. */
  lemma {:induction false} RoutingIsBest(venues: FeeTable, quotes: seq<VenueQuote>, isBuy: bool, totalQty: real,
                      order: seq<ScoredQuote>, r: RoutingResult, alloc: seq<real>)
    requires SplitRouting(venues, quotes, isBuy, totalQty, order, r)
    requires Feasible(quotes, isBuy, alloc) && Total(alloc) == Filled(r.splits)
    ensures Filled(r.splits) == Min(if totalQty <= 0.0 then 1.0 else totalQty, Depth(quotes, isBuy))
    ensures var best := Weighted(quotes, alloc, NetPriceAt(venues, isBuy, r.averageMarketPrice));
            if isBuy then SplitNetTotal(order, r.splits) <= best else SplitNetTotal(order, r.splits) >= best
  {
    var net := NetPriceAt(venues, isBuy, r.averageMarketPrice);
    var target := if totalQty <= 0.0 then 1.0 else totalQty;
    GreedyFillsMin(venues, quotes, isBuy, net, order, target, r.splits);
    SplitIsOptimal(venues, quotes, isBuy, net, order, target, r.splits, alloc);
  }

  method RouteOrderWithSplit(venues: FeeTable, quotes: seq<VenueQuote>, side: string, totalQty: real)
    returns (r: Routing, ghost order: seq<ScoredQuote>)
    ensures r.NoMarket? <==> quotes == []
                             || (forall i :: 0 <= i < |quotes| ==> quotes[i].bid <= 0.0)
                             || (exists i :: 0 <= i < |quotes| && quotes[i].ask <= 0.0)
    ensures !r.NoMarket? ==>
              (r.SingleVenue? <==> forall i :: 0 <= i < |quotes| ==> !Tradable(quotes[i], IsBuySide(side)))
    ensures r.Split? ==> SplitRouting(venues, quotes, IsBuySide(side), totalQty, order, r.result)
  {
    order := [];
    if |quotes| == 0 {
      return NoMarket, [];
    }
    var nbboBid, nbboAsk := Nbbo(quotes);
    if nbboBid <= 0.0 || nbboAsk <= 0.0 {
      return NoMarket, [];
    }
    var mid := (nbboBid + nbboAsk) / 2.0;
    var isBuy := IsBuySide(side);
    var ranked := RankQuotes(quotes, isBuy, NetPriceAt(venues, isBuy, mid));
    order := ranked;
    if |ranked| == 0 {
      return SingleVenue, order;
    }
    var splits, weightedPrice, filled := FillGreedily(venues, ranked, isBuy, if totalQty <= 0.0 then 1.0 else totalQty);
    var avgFillPrice := weightedPrice / Max(filled, 1.0);
    r := Split(RoutingResult(splits[0].venue, avgFillPrice, |quotes|,
                             Improvement(isBuy, mid, avgFillPrice), mid, nbboBid, nbboAsk, splits));
  }

  method RankQuotes(quotes: seq<VenueQuote>, isBuy: bool, net: VenueQuote -> real) returns (ranked: seq<ScoredQuote>)
    ensures multiset(ranked) == multiset(Scored(quotes, isBuy, net))
    ensures Ranked(ranked, isBuy)
    ensures forall k :: 0 <= k < |ranked| ==> ranked[k].availQty > 0.0
    ensures ranked == [] <==> forall i :: 0 <= i < |quotes| ==> !Tradable(quotes[i], isBuy)
  {
    var scored := ScoreQuotes(quotes, isBuy, net);
    ranked := SortSlice(scored, (a: ScoredQuote, b: ScoredQuote) =>
      if isBuy then a.netPrice < b.netPrice else a.netPrice > b.netPrice);
    OrderFromScored(quotes, isBuy, net, ranked);
    NothingTradable(quotes, isBuy, net);
    assert |multiset(ranked)| == |multiset(scored)|;
  }

  lemma {:induction false} NothingTradable(quotes: seq<VenueQuote>, isBuy: bool, net: VenueQuote -> real)
    ensures Scored(quotes, isBuy, net) == [] <==> forall i :: 0 <= i < |quotes| ==> !Tradable(quotes[i], isBuy)
  {
    if quotes != [] {
      var n := |quotes| - 1;
      NothingTradable(quotes[..n], isBuy, net);
      if Tradable(quotes[n], isBuy) {
        assert Score(quotes[n], isBuy, net) in Scored(quotes, isBuy, net);
      } else {
        assert Scored(quotes, isBuy, net) == Scored(quotes[..n], isBuy, net);
      }
    }
  }

  // ----- the reported prices

  function AverageFill(splits: seq<VenueSplit>): real {
    Notional(splits) / Max(Filled(splits), 1.0)
  }

  /** Improvement over the mid in basis points, never negative, rounded to cents. */
  function Improvement(isBuy: bool, mid: real, fill: real): real {
    var bps := if mid <= 0.0 then 0.0 else Max(0.0, (if isBuy then mid - fill else fill - mid) / mid * 10000.0);
    (bps * 100.0 + 0.5).Floor as real / 100.0
  }

  lemma {:induction false} BoundStep(isBuy: bool, limit: real, filled: real, notional: real, x: real, price: real)
    requires x > 0.0
    requires if isBuy then limit <= price && limit * filled <= notional else price <= limit && notional <= limit * filled
    ensures isBuy ==> limit * (filled + x) <= notional + AtPrice(price, x)
    ensures !isBuy ==> notional + AtPrice(price, x) <= limit * (filled + x)
  {
    if isBuy {
      NonNegativeProduct(price - limit, x);
    } else {
      NonNegativeProduct(limit - price, x);
    }
  }

  lemma {:induction false} NotionalBound(splits: seq<VenueSplit>, isBuy: bool, limit: real)
    requires forall k :: 0 <= k < |splits| ==>
      splits[k].allocQty > 0.0 && if isBuy then limit <= splits[k].price else splits[k].price <= limit
    ensures isBuy ==> limit * Filled(splits) <= Notional(splits)
    ensures !isBuy ==> Notional(splits) <= limit * Filled(splits)
  {
    hide AtPrice;
    if splits != [] {
      NotionalBound(splits[..|splits| - 1], isBuy, limit);
      var s := splits[|splits| - 1];
      BoundStep(isBuy, limit, Filled(splits[..|splits| - 1]), Notional(splits[..|splits| - 1]), s.allocQty, s.price);
    }
  }

  lemma {:induction false} PositiveTotals(splits: seq<VenueSplit>)
    requires splits != []
    requires forall k :: 0 <= k < |splits| ==> splits[k].allocQty > 0.0 && splits[k].price > 0.0
    ensures Filled(splits) > 0.0 && Notional(splits) > 0.0
  {
    var last := splits[|splits| - 1];
    assert last.price * last.allocQty > 0.0;
    if |splits| > 1 {
      PositiveTotals(splits[..|splits| - 1]);
    }
  }

  lemma {:induction false} VwapIffAtLeastOne(splits: seq<VenueSplit>)
    requires Notional(splits) > 0.0 && Filled(splits) > 0.0
    ensures AverageFill(splits) * Filled(splits) == Notional(splits) <==> Filled(splits) >= 1.0
  {
    if Filled(splits) < 1.0 {
      assert Notional(splits) * Filled(splits) < Notional(splits) * 1.0;
    }
  }

  lemma {:induction false} AverageBound(isBuy: bool, splits: seq<VenueSplit>, limit: real)
    requires Filled(splits) >= 1.0
    requires if isBuy then limit * Filled(splits) <= Notional(splits) else Notional(splits) <= limit * Filled(splits)
    ensures if isBuy then limit <= AverageFill(splits) else AverageFill(splits) <= limit
  {
  }

  /** Every part of a greedy fill is a positive quantity at a price of the market that
      is no better than the NBBO on the order's side. */
  lemma {:induction false} FillPrices(venues: FeeTable, quotes: seq<VenueQuote>, isBuy: bool, net: VenueQuote -> real,
                   order: seq<ScoredQuote>, target: real, splits: seq<VenueSplit>)
    requires multiset(order) == multiset(Scored(quotes, isBuy, net))
    requires GreedyFill(venues, order, isBuy, target, splits)
    ensures forall k :: 0 <= k < |splits| ==>
              && splits[k].allocQty > 0.0
              && splits[k].price > 0.0
              && exists q :: q in quotes && splits[k].price == RawPrice(q, isBuy)
  {
    OrderFromScored(quotes, isBuy, net, order);
    assert forall k :: 0 <= k < |splits| ==> TakenFrom(venues, order[k], isBuy, splits[k]);
    assert forall k :: 0 <= k < |splits| ==> ScoredFrom(quotes, isBuy, net, order[k]);
  }

  /** The reported fill price is the volume-weighted average exactly when at least one
      unit was available to fill. */
  lemma {:induction false} AverageIsVwap(venues: FeeTable, quotes: seq<VenueQuote>, isBuy: bool, net: VenueQuote -> real,
                      order: seq<ScoredQuote>, target: real, splits: seq<VenueSplit>)
    requires multiset(order) == multiset(Scored(quotes, isBuy, net))
    requires GreedyFill(venues, order, isBuy, target, splits)
    ensures AverageFill(splits) * Filled(splits) == Notional(splits)
            <==> Min(target, Depth(quotes, isBuy)) >= 1.0
  {
    GreedyFillsMin(venues, quotes, isBuy, net, order, target, splits);
    FillPrices(venues, quotes, isBuy, net, order, target, splits);
    PositiveTotals(splits);
    VwapIffAtLeastOne(splits);
  }

  /** Half a unit of one quote at 100: the reported price is 50. */
  lemma {:induction false} HalfUnitHasNoVwap(venues: FeeTable, net: VenueQuote -> real)
    ensures
      var q := VenueQuote("X", 100.0, 100.0, 10.0, 10.0);
      var order, splits := [Score(q, true, net)], [VenueSplit("X", 0.5, 100.0, ReportedFeeBps(venues, "X"))];
      && order == Scored([q], true, net) && GreedyFill(venues, order, true, 0.5, splits)
      && AverageFill(splits) == 50.0 && AverageFill(splits) * Filled(splits) != Notional(splits)
  {
    var q := VenueQuote("X", 100.0, 100.0, 10.0, 10.0);
    var splits := [VenueSplit("X", 0.5, 100.0, ReportedFeeBps(venues, "X"))];
    assert [q][..0] == [];
    assert Scored([q], true, net) == Scored([], true, net) + [Score(q, true, net)];
    hide ReportedFeeBps, QuotedSize, RawPrice;
    SplitsSnoc([], splits[0]);
    assert [] + [splits[0]] == splits;
    assert Filled([]) == 0.0 && Notional([]) == 0.0 && AtPrice(100.0, 0.5) == 50.0;
  }

  lemma {:induction false} NoGain(isBuy: bool, mid: real, fill: real)
    requires mid > 0.0
    requires if isBuy then fill >= mid else fill <= mid
    ensures Improvement(isBuy, mid, fill) == 0.0
  {
    var gain := if isBuy then mid - fill else fill - mid;
    assert gain / mid * 10000.0 <= 0.0;
    assert (0.0 * 100.0 + 0.5).Floor == 0;
  }

  /** With an uncrossed market and at least one unit filled, a split never reports any
      price improvement: every fill is at or beyond the NBBO, which is beyond the mid. */
  lemma {:induction false} NoImprovementUncrossed(venues: FeeTable, quotes: seq<VenueQuote>, isBuy: bool, net: VenueQuote -> real,
                               bid: real, ask: real, order: seq<ScoredQuote>, target: real, splits: seq<VenueSplit>)
    requires 0.0 < bid <= ask
    requires IsNbbo(quotes, bid, ask)
    requires multiset(order) == multiset(Scored(quotes, isBuy, net))
    requires GreedyFill(venues, order, isBuy, target, splits)
    requires Min(target, Depth(quotes, isBuy)) >= 1.0
    ensures Improvement(isBuy, (bid + ask) / 2.0, AverageFill(splits)) == 0.0
  {
    var limit := if isBuy then ask else bid;
    GreedyFillsMin(venues, quotes, isBuy, net, order, target, splits);
    FillPrices(venues, quotes, isBuy, net, order, target, splits);
    NotionalBound(splits, isBuy, limit);
    AverageBound(isBuy, splits, limit);
    NoGain(isBuy, (bid + ask) / 2.0, AverageFill(splits));
  }
}
