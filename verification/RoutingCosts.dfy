/**
 What a routing costs in money: the notional at the venues' own prices, the taker fee of
 each venue on it, and the charge for its latency. The router's net price is exactly that
 per unit, so a venue no worse in price, fee and latency is used first, and no allocation
 costs less than the split.
 */
module RoutingCosts {
  import opened Basics
  import opened RealSums
  import opened SmartOrderRouter

  // ----- fees and latency of a part

  /** The taker fee a venue is charged at: 5 basis points if it is not listed. */
  function TakerBps(venues: FeeTable, exchange: string): real {
    if exchange in venues then venues[exchange].takerFeeBps else 5.0
  }

  /** Its latency: 10 milliseconds if it is not listed. */
  function Latency(venues: FeeTable, exchange: string): real {
    if exchange in venues then venues[exchange].latencyMs else 10.0
  }

  function FeeOf(venues: FeeTable, part: VenueSplit): real {
    part.price * part.allocQty * TakerBps(venues, part.venue) / 10000.0
  }

  /** A tenth of a basis point of the mid for every 100 ms. */
  function LatencyOf(venues: FeeTable, part: VenueSplit, mid: real): real {
    part.allocQty * mid * Latency(venues, part.venue) / 10000000.0
  }

  function Fees(venues: FeeTable, parts: seq<VenueSplit>): real {
    if parts == [] then 0.0 else Fees(venues, parts[..|parts| - 1]) + FeeOf(venues, parts[|parts| - 1])
  }

  function LatencyCharges(venues: FeeTable, parts: seq<VenueSplit>, mid: real): real {
    if parts == [] then 0.0
    else LatencyCharges(venues, parts[..|parts| - 1], mid) + LatencyOf(venues, parts[|parts| - 1], mid)
  }

  /** What buying the parts costs in all, or what selling them brings in. */
  function Money(venues: FeeTable, parts: seq<VenueSplit>, isBuy: bool, mid: real): real {
    if isBuy then Notional(parts) + Fees(venues, parts) + LatencyCharges(venues, parts, mid)
    else Notional(parts) - Fees(venues, parts) - LatencyCharges(venues, parts, mid)
  }

  function MoneyOf(venues: FeeTable, part: VenueSplit, isBuy: bool, mid: real): real {
    if isBuy then AtPrice(part.price, part.allocQty) + FeeOf(venues, part) + LatencyOf(venues, part, mid)
    else AtPrice(part.price, part.allocQty) - FeeOf(venues, part) - LatencyOf(venues, part, mid)
  }

  lemma {:induction false} MoneyLast(venues: FeeTable, parts: seq<VenueSplit>, isBuy: bool, mid: real)
    requires parts != []
    ensures
      var n := |parts| - 1;
      Money(venues, parts, isBuy, mid) == Money(venues, parts[..n], isBuy, mid) + MoneyOf(venues, parts[n], isBuy, mid)
  {
    hide AtPrice, FeeOf, LatencyOf;
  }

  // ----- the net price is money per unit

  lemma {:induction false} NetPriceIsMoney(venues: FeeTable, q: VenueQuote, isBuy: bool, mid: real, part: VenueSplit)
    requires part.venue == q.exchange && part.price == RawPrice(q, isBuy)
    ensures part.allocQty * NetPrice(venues, q, isBuy, mid) == MoneyOf(venues, part, isBuy, mid)
  {
    var profile := Profile(venues, q.exchange);
    assert profile.takerFeeBps == TakerBps(venues, q.exchange) && profile.latencyMs == Latency(venues, q.exchange);
    MoneyPerUnit(part.allocQty, part.price, profile.takerFeeBps, profile.latencyMs, mid);
  }

  lemma {:induction false} MoneyPerUnit(x: real, price: real, bps: real, ms: real, mid: real)
    ensures x * (price * (1.0 + bps / 10000.0) + ms / 1000.0 * 0.0001 * mid)
         == price * x + price * x * bps / 10000.0 + x * mid * ms / 10000000.0
    ensures x * (price * (1.0 - bps / 10000.0) - ms / 1000.0 * 0.0001 * mid)
         == price * x - price * x * bps / 10000.0 - x * mid * ms / 10000000.0
  {
    var fee, lat := bps / 10000.0, ms / 1000.0 * 0.0001 * mid;
    assert lat == mid * ms / 10000000.0;
    assert x * (price * fee) == price * x * bps / 10000.0;
    assert x * lat == x * mid * ms / 10000000.0;
    assert price * (1.0 + fee) == price + price * fee && price * (1.0 - fee) == price - price * fee;
    assert x * (price + price * fee + lat) == x * price + x * (price * fee) + x * lat;
    assert x * (price - price * fee - lat) == x * price - x * (price * fee) - x * lat;
  }

  /** A split's net total is its notional with fees and latency added, or taken off. */
  lemma {:induction false} SplitNetIsMoney(
      venues: FeeTable, order: seq<ScoredQuote>, isBuy: bool, mid: real, splits: seq<VenueSplit>)
    requires |splits| <= |order|
    requires forall k :: 0 <= k < |splits| ==>
               && TakenFrom(venues, order[k], isBuy, splits[k])
               && order[k].netPrice == NetPrice(venues, order[k].quote, isBuy, mid)
    ensures SplitNetTotal(order, splits) == Money(venues, splits, isBuy, mid)
  {
    if splits != [] {
      hide Money, MoneyOf, NetPrice, SplitNetTotal, TakenFrom;
      var n := |splits| - 1;
      SplitNetIsMoney(venues, order, isBuy, mid, splits[..n]);
      LastSplit(venues, order, isBuy, mid, splits);
      MoneyLast(venues, splits, isBuy, mid);
    } else {
      NoMoney(venues, isBuy, mid);
    }
  }

  lemma {:induction false} NoMoney(venues: FeeTable, isBuy: bool, mid: real)
    ensures Money(venues, [], isBuy, mid) == 0.0
  {
  }

  lemma {:induction false} LastSplit(
      venues: FeeTable, order: seq<ScoredQuote>, isBuy: bool, mid: real, splits: seq<VenueSplit>)
    requires 0 < |splits| <= |order|
    requires
      var n := |splits| - 1;
      && TakenFrom(venues, order[n], isBuy, splits[n])
      && order[n].netPrice == NetPrice(venues, order[n].quote, isBuy, mid)
    ensures
      var n := |splits| - 1;
      SplitNetTotal(order, splits) == SplitNetTotal(order, splits[..n]) + MoneyOf(venues, splits[n], isBuy, mid)
  {
    hide NetPrice, MoneyOf;
    NetPriceIsMoney(venues, order[|splits| - 1].quote, isBuy, mid, splits[|splits| - 1]);
  }

  /** An allocation over the quotes, part by part. */
  function Parts(quotes: seq<VenueQuote>, isBuy: bool, alloc: seq<real>): (parts: seq<VenueSplit>)
    requires |alloc| == |quotes|
    ensures |parts| == |quotes|
    ensures forall k :: 0 <= k < |parts| ==>
              && parts[k].venue == quotes[k].exchange && parts[k].allocQty == alloc[k]
              && parts[k].price == RawPrice(quotes[k], isBuy)
  {
    seq(|quotes|, k requires 0 <= k < |quotes| =>
      VenueSplit(quotes[k].exchange, alloc[k], RawPrice(quotes[k], isBuy), 0.0))
  }

  lemma {:induction false} AllocationNetIsMoney(
      venues: FeeTable, quotes: seq<VenueQuote>, isBuy: bool, mid: real, alloc: seq<real>)
    requires |alloc| == |quotes|
    ensures Weighted(quotes, alloc, NetPriceAt(venues, isBuy, mid))
         == Money(venues, Parts(quotes, isBuy, alloc), isBuy, mid)
  {
    if quotes != [] {
      hide Money, MoneyOf, NetPrice, Parts, Weighted, NetPriceAt;
      var n := |quotes| - 1;
      var parts := Parts(quotes, isBuy, alloc);
      AllocationNetIsMoney(venues, quotes[..n], isBuy, mid, alloc[..n]);
      LastAllocation(venues, quotes, isBuy, mid, alloc, parts[n]);
      MoneyLast(venues, parts, isBuy, mid);
      PartsInit(quotes, isBuy, alloc);
    } else {
      assert Parts(quotes, isBuy, alloc) == [];
    }
  }

  lemma {:induction false} LastAllocation(
      venues: FeeTable, quotes: seq<VenueQuote>, isBuy: bool, mid: real, alloc: seq<real>, part: VenueSplit)
    requires |alloc| == |quotes| > 0
    requires
      var q := quotes[|quotes| - 1];
      part.venue == q.exchange && part.allocQty == alloc[|quotes| - 1] && part.price == RawPrice(q, isBuy)
    ensures
      var n, net := |quotes| - 1, NetPriceAt(venues, isBuy, mid);
      Weighted(quotes, alloc, net) == Weighted(quotes[..n], alloc[..n], net) + MoneyOf(venues, part, isBuy, mid)
  {
    hide NetPrice, MoneyOf;
    NetPriceIsMoney(venues, quotes[|quotes| - 1], isBuy, mid, part);
  }

  lemma {:induction false} PartsInit(quotes: seq<VenueQuote>, isBuy: bool, alloc: seq<real>)
    requires |alloc| == |quotes| > 0
    ensures Parts(quotes, isBuy, alloc)[..|quotes| - 1]
         == Parts(quotes[..|quotes| - 1], isBuy, alloc[..|quotes| - 1])
  {
  }

  /** Main result: what a routing returns costs no more, fees and latency included, than any
      other way to buy the same quantity from the venues; or brings in no less. */
  lemma {:induction false} RoutingCostsLeast(venues: FeeTable, quotes: seq<VenueQuote>, isBuy: bool, totalQty: real,
                          order: seq<ScoredQuote>, r: RoutingResult, alloc: seq<real>)
    requires SplitRouting(venues, quotes, isBuy, totalQty, order, r)
    requires Feasible(quotes, isBuy, alloc) && Total(alloc) == Filled(r.splits)
    ensures
      var mid := (r.nbboBid + r.nbboAsk) / 2.0;
      var money, other := Money(venues, r.splits, isBuy, mid), Money(venues, Parts(quotes, isBuy, alloc), isBuy, mid);
      if isBuy then money <= other else money >= other
  {
    hide Money, Weighted, NetPrice, Parts, SplitNetTotal;
    var mid := r.averageMarketPrice;
    RoutingIsBest(venues, quotes, isBuy, totalQty, order, r, alloc);
    OrderFromScored(quotes, isBuy, NetPriceAt(venues, isBuy, mid), order);
    assert forall k :: 0 <= k < |r.splits| ==> ScoredFrom(quotes, isBuy, NetPriceAt(venues, isBuy, mid), order[k]);
    SplitNetIsMoney(venues, order, isBuy, mid, r.splits);
    AllocationNetIsMoney(venues, quotes, isBuy, mid, alloc);
  }

  // ----- a better venue comes first

  /** No worse on any count. */
  ghost predicate NoWorse(venues: FeeTable, a: VenueQuote, b: VenueQuote, isBuy: bool) {
    && (if isBuy then a.ask <= b.ask else a.bid >= b.bid)
    && TakerBps(venues, a.exchange) <= TakerBps(venues, b.exchange)
    && Latency(venues, a.exchange) <= Latency(venues, b.exchange)
  }

  /** No worse on any count, and better on one. */
  ghost predicate Better(venues: FeeTable, a: VenueQuote, b: VenueQuote, isBuy: bool) {
    NoWorse(venues, a, b, isBuy) && !NoWorse(venues, b, a, isBuy)
  }

  function Charged(price: real, factor: real): real {
    price * factor
  }

  function Delay(ms: real, mid: real): real {
    ms / 1000.0 * 0.0001 * mid
  }

  /** The net price from a raw price, a fee and a latency. */
  function BuyNet(price: real, bps: real, ms: real, mid: real): real {
    Charged(price, 1.0 + bps / 10000.0) + Delay(ms, mid)
  }

  function SellNet(price: real, bps: real, ms: real, mid: real): real {
    Charged(price, 1.0 - bps / 10000.0) - Delay(ms, mid)
  }

  lemma {:induction false} NetPriceFrom(venues: FeeTable, q: VenueQuote, mid: real)
    ensures NetPrice(venues, q, true, mid) == BuyNet(q.ask, TakerBps(venues, q.exchange), Latency(venues, q.exchange), mid)
    ensures NetPrice(venues, q, false, mid) == SellNet(q.bid, TakerBps(venues, q.exchange), Latency(venues, q.exchange), mid)
  {
    var profile := Profile(venues, q.exchange);
    assert profile.takerFeeBps == TakerBps(venues, q.exchange) && profile.latencyMs == Latency(venues, q.exchange);
  }

  lemma {:induction false} ChargedOrder(a: real, b: real, x: real, y: real)
    requires a <= b && x <= y && x > 0.0 && b > 0.0
    ensures Charged(a, x) <= Charged(b, y)
    ensures a < b || x < y ==> Charged(a, x) < Charged(b, y)
  {
    var left, right := (b - a) * x, b * (y - x);
    assert b * y - a * x == left + right;
    NonNegativeProduct(b - a, x);
    NonNegativeProduct(b, y - x);
    if a < b {
      PositiveProduct(b - a, x);
    } else if x < y {
      PositiveProduct(b, y - x);
    }
  }

  lemma {:induction false} DelayOrder(a: real, b: real, mid: real)
    requires a <= b && mid > 0.0
    ensures Delay(a, mid) <= Delay(b, mid) && (a < b ==> Delay(a, mid) < Delay(b, mid))
  {
    var d := (b - a) / 1000.0 * 0.0001;
    assert Delay(b, mid) - Delay(a, mid) == d * mid;
    if a < b {
      PositiveProduct(d, mid);
    }
  }

  lemma {:induction false} BuyNetOrder(p: real, q: real, f: real, g: real, l: real, m: real, mid: real)
    requires p <= q && f <= g && l <= m && q > 0.0 && f > -10000.0 && mid > 0.0 && (p < q || f < g || l < m)
    ensures BuyNet(p, f, l, mid) < BuyNet(q, g, m, mid)
  {
    hide Charged, Delay;
    ChargedOrder(p, q, 1.0 + f / 10000.0, 1.0 + g / 10000.0);
    DelayOrder(l, m, mid);
  }

  lemma {:induction false} SellNetOrder(p: real, q: real, f: real, g: real, l: real, m: real, mid: real)
    requires p >= q && f <= g && l <= m && p > 0.0 && g < 10000.0 && mid > 0.0 && (p > q || f < g || l < m)
    ensures SellNet(p, f, l, mid) > SellNet(q, g, m, mid)
  {
    hide Charged, Delay;
    ChargedOrder(q, p, 1.0 - g / 10000.0, 1.0 - f / 10000.0);
    DelayOrder(l, m, mid);
  }

  lemma {:induction false} BetterIsCheaper(venues: FeeTable, a: VenueQuote, b: VenueQuote, isBuy: bool, mid: real)
    requires mid > 0.0 && Better(venues, a, b, isBuy) && RawPrice(a, isBuy) > 0.0 && RawPrice(b, isBuy) > 0.0
    requires -10000.0 < TakerBps(venues, a.exchange) && TakerBps(venues, b.exchange) < 10000.0
    ensures SignedPrice(isBuy, NetPrice(venues, a, isBuy, mid)) < SignedPrice(isBuy, NetPrice(venues, b, isBuy, mid))
  {
    hide TakerBps, Latency, NetPrice, BuyNet, SellNet;
    NetPriceFrom(venues, a, mid);
    NetPriceFrom(venues, b, mid);
    var f, g := TakerBps(venues, a.exchange), TakerBps(venues, b.exchange);
    var l, m := Latency(venues, a.exchange), Latency(venues, b.exchange);
    if isBuy {
      BuyNetOrder(a.ask, b.ask, f, g, l, m, mid);
    } else {
      SellNetOrder(a.bid, b.bid, f, g, l, m, mid);
    }
  }

  /** Of two tradable quotes the one better in price, fee or latency, and no worse in the
      others, is ranked before the other, and so filled before it. */
  lemma {:induction false} BetterIsFirst(
      venues: FeeTable, quotes: seq<VenueQuote>, isBuy: bool, mid: real, order: seq<ScoredQuote>, i: nat, j: nat)
    requires multiset(order) == multiset(Scored(quotes, isBuy, NetPriceAt(venues, isBuy, mid))) && Ranked(order, isBuy)
    requires i < |order| && j < |order| && mid > 0.0 && Better(venues, order[i].quote, order[j].quote, isBuy)
    requires -10000.0 < TakerBps(venues, order[i].quote.exchange) && TakerBps(venues, order[j].quote.exchange) < 10000.0
    ensures i < j
  {
    hide NetPrice, TakerBps, NoWorse;
    var net := NetPriceAt(venues, isBuy, mid);
    OrderFromScored(quotes, isBuy, net, order);
    assert ScoredFrom(quotes, isBuy, net, order[i]) && ScoredFrom(quotes, isBuy, net, order[j]);
    BetterIsCheaper(venues, order[i].quote, order[j].quote, isBuy, mid);
  }

  // ----- sides and improvement

  /** Any spelling of BUY is a buy, and nothing else. */
  lemma {:induction false} BuySides(side: string)
    ensures IsBuySide(side)
       <==> |side| == 3 && side[0] in {'B', 'b'} && side[1] in {'U', 'u'} && side[2] in {'Y', 'y'}
  {
    var up := ToUpper(side);
    if |side| == 3 {
      assert up == [UpperChar(side[0]), UpperChar(side[1]), UpperChar(side[2])];
    }
    assert up == "BUY" ==> up[0] == 'B' && up[1] == 'U' && up[2] == 'Y';
  }

  /** The improvement reported is, to half a cent of a basis point, what the fill gained on
      the mid, and zero when it gained nothing. */
  lemma {:induction false} ImprovementMeans(isBuy: bool, mid: real, fill: real)
    requires mid > 0.0
    ensures
      var gain := if isBuy then mid - fill else fill - mid;
      var bps := Improvement(isBuy, mid, fill);
      if gain <= 0.0 then bps == 0.0 else -0.005 < bps - gain / mid * 10000.0 <= 0.005
  {
    var gain := if isBuy then mid - fill else fill - mid;
    if gain <= 0.0 {
      assert gain / mid <= 0.0;
    } else {
      assert gain / mid > 0.0;
    }
  }
}
