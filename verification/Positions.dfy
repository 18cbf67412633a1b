/**
 FIFO position lots (services/gateway/positions.go, `OnFill` and `OnClose`). Prices and
 quantities are reals; timestamps and the current price are not part of this model.
 */
module Positions {
  import opened Basics

  datatype Lot = Lot(qty: real, price: real, orderId: string)

  datatype Position = Position(
    side: string,
    lots: seq<Lot>,
    totalQty: real,
    avgEntry: real,
    totalNotional: real,
    realized: real)

  type Book = map<string, Position>

  function Times(a: real, b: real): real {
    a * b
  }

  // ----- closing lots

  /** What is left of a lot when `used` of it is closed. */
  function Cut(lot: Lot, used: real): seq<Lot> {
    if lot.qty - used > 0.0 then [lot.(qty := lot.qty - used)] else []
  }

  /** The lots that stay open when `qty` is closed from the front. */
  function Kept(lots: seq<Lot>, qty: real): seq<Lot> {
    if lots == [] then []
    else if qty <= 0.0 then lots
    else
      var used := Min(qty, lots[0].qty);
      Cut(lots[0], used) + Kept(lots[1..], qty - used)
  }

  /** What closing `qty` at `price` realizes. */
  function Pnl(lots: seq<Lot>, qty: real, price: real): real {
    if lots == [] || qty <= 0.0 then 0.0
    else
      var used := Min(qty, lots[0].qty);
      Times(used, price - lots[0].price) + Pnl(lots[1..], qty - used, price)
  }

  // ----- the book

  function AverageAfter(p: Position, qty: real, price: real): real {
    if p.totalQty + qty > 0.0 then (Times(p.avgEntry, p.totalQty) + Times(price, qty)) / (p.totalQty + qty) else p.avgEntry
  }

  function WithFill(p: Position, lot: Lot): Position {
    var avg := AverageAfter(p, lot.qty, lot.price);
    p.(lots := p.lots + [lot], totalQty := p.totalQty + lot.qty, avgEntry := avg,
       totalNotional := Times(avg, p.totalQty + lot.qty))
  }

  /** The side shown is that of the first fill; later fills of either side add to it. */
  function AfterFill(book: Book, symbol: string, side: string, lot: Lot): Book {
    var p := if symbol in book then book[symbol] else Position(ToUpper(side), [], 0.0, 0.0, 0.0, 0.0);
    book[symbol := WithFill(p, lot)]
  }

  function WithClose(p: Position, qty: real, price: real): Position {
    p.(lots := Kept(p.lots, qty), totalQty := p.totalQty - qty, realized := p.realized + Pnl(p.lots, qty, price))
  }

  function AfterClose(book: Book, symbol: string, qty: real, price: real): Book {
    if symbol !in book then book
    else
      var p := WithClose(book[symbol], qty, price);
      if p.totalQty <= 0.0 then book - {symbol} else book[symbol := p]
  }

  /** What `OnClose` returns. */
  function Realized(book: Book, symbol: string, qty: real, price: real): real {
    if symbol in book then Pnl(book[symbol].lots, qty, price) else 0.0
  }

  class PositionManager {
    var positions: Book

    constructor ()
      ensures positions == map[]
    {
      positions := map[];
    }

    method OnFill(orderId: string, symbol: string, side: string, qty: real, price: real)
      modifies this
      ensures positions == AfterFill(old(positions), symbol, side, Lot(qty, price, orderId))
    {
      hide Times;
      var p := if symbol in positions then positions[symbol] else Position(ToUpper(side), [], 0.0, 0.0, 0.0, 0.0);
      p := p.(lots := p.lots + [Lot(qty, price, orderId)]);
      var totalCost := Times(p.avgEntry, p.totalQty) + Times(price, qty);
      p := p.(totalQty := p.totalQty + qty);
      if p.totalQty > 0.0 {
        p := p.(avgEntry := totalCost / p.totalQty);
      }
      p := p.(totalNotional := Times(p.avgEntry, p.totalQty));
      positions := positions[symbol := p];
    }

    method OnClose(symbol: string, qty: real, price: real) returns (pnl: real)
      modifies this
      ensures positions == AfterClose(old(positions), symbol, qty, price)
      ensures pnl == Realized(old(positions), symbol, qty, price)
    {
      if symbol !in positions {
        return 0.0;
      }
      var p := positions[symbol];
      var lots;
      lots, pnl := CloseLots(p.lots, qty, price);
      p := p.(lots := lots, totalQty := p.totalQty - qty, realized := p.realized + pnl);
      if p.totalQty <= 0.0 {
        positions := positions - {symbol};
      } else {
        positions := positions[symbol := p];
      }
    }
  }

  lemma {:induction false} CloseFirst(lots: seq<Lot>, i: nat, qty: real, price: real)
    requires i < |lots| && qty > 0.0
    ensures
      var used := Min(qty, lots[i].qty);
      && Kept(lots[i..], qty) == Cut(lots[i], used) + Kept(lots[i + 1..], qty - used)
      && Pnl(lots[i..], qty, price) == Times(used, price - lots[i].price) + Pnl(lots[i + 1..], qty - used, price)
  {
    hide Times;
    assert lots[i..][0] == lots[i] && lots[i..][1..] == lots[i + 1..];
  }

  /** The loop over the lots. */
  method CloseLots(lots: seq<Lot>, qty: real, price: real) returns (kept: seq<Lot>, pnl: real)
    ensures kept == Kept(lots, qty)
    ensures pnl == Pnl(lots, qty, price)
  {
    hide Times, Kept, Pnl;
    var remaining := qty;
    kept, pnl := [], 0.0;
    assert lots[0..] == lots;
    for i := 0 to |lots|
      invariant kept + Kept(lots[i..], remaining) == Kept(lots, qty)
      invariant pnl + Pnl(lots[i..], remaining, price) == Pnl(lots, qty, price)
    {
      var lot := lots[i];
      if remaining <= 0.0 {
        NothingToClose(lots[i..], remaining, price);
        NothingToClose(lots[i + 1..], remaining, price);
        assert lots[i..] == [lot] + lots[i + 1..];
        kept := kept + [lot];
        continue;
      }
      CloseFirst(lots, i, remaining, price);
      var used := Min(remaining, lot.qty);
      pnl := pnl + Times(used, price - lot.price);
      remaining := remaining - used;
      if lot.qty - used > 0.0 {
        lot := lot.(qty := lot.qty - used);
        kept := kept + [lot];
      }
    }
    NoLots(remaining, price);
    assert lots[|lots|..] == [];
  }

  lemma {:induction false} NoLots(qty: real, price: real)
    ensures Kept([], qty) == [] && Pnl([], qty, price) == 0.0
  {
  }

  lemma {:induction false} NothingToClose(lots: seq<Lot>, qty: real, price: real)
    requires qty <= 0.0
    ensures Kept(lots, qty) == lots && Pnl(lots, qty, price) == 0.0
  {
  }

  // ----- what closing means

  function Sum(lots: seq<Lot>): real {
    if lots == [] then 0.0 else lots[0].qty + Sum(lots[1..])
  }

  function Cost(lots: seq<Lot>): real {
    if lots == [] then 0.0 else Times(lots[0].qty, lots[0].price) + Cost(lots[1..])
  }

  ghost predicate Positive(lots: seq<Lot>) {
    forall i :: 0 <= i < |lots| ==> lots[i].qty > 0.0
  }

  lemma {:induction false} SumPositive(lots: seq<Lot>)
    requires Positive(lots)
    ensures Sum(lots) >= 0.0 && (Sum(lots) > 0.0 <==> lots != [])
  {
    if lots != [] {
      SumPositive(lots[1..]);
    }
  }

  /** The lot whose unit is the one at distance `x` from the front of the queue. */
  function LotAt(lots: seq<Lot>, x: real): Lot
    requires 0.0 <= x < Sum(lots)
  {
    if x < lots[0].qty then lots[0] else LotAt(lots[1..], x - lots[0].qty)
  }

  /** Closing takes its quantity off the total, or empties it; lots stay positive. */
  lemma {:induction false} KeptQuantity(lots: seq<Lot>, qty: real)
    requires Positive(lots) && qty >= 0.0
    ensures Positive(Kept(lots, qty))
    ensures Sum(Kept(lots, qty)) == if qty < Sum(lots) then Sum(lots) - qty else 0.0
    decreases lots
  {
    hide Kept, Pnl, Sum, Cut;
    SumPositive(lots);
    if lots == [] {
      NoneKept(qty);
    } else if qty == 0.0 {
      NothingToClose(lots, qty, 0.0);
    } else {
      var lot, tail := lots[0], lots[1..];
      var used := Min(qty, lot.qty);
      CloseFirst(lots, 0, qty, 0.0);
      KeptQuantity(tail, qty - used);
      SumPositive(tail);
      assert lots == [lot] + tail;
      SumFirst(lot, tail);
      SumCut(lot, used, Kept(tail, qty - used));
    }
  }

  lemma {:induction false} NoneKept(qty: real)
    ensures Kept([], qty) == []
  {
  }

  lemma {:induction false} SumCut(lot: Lot, used: real, rest: seq<Lot>)
    requires used <= lot.qty && Positive(rest)
    ensures Positive(Cut(lot, used) + rest)
    ensures Sum(Cut(lot, used) + rest) == lot.qty - used + Sum(rest)
  {
    if lot.qty - used > 0.0 {
      SumFirst(lot.(qty := lot.qty - used), rest);
    } else {
      assert Cut(lot, used) + rest == rest;
    }
  }

  /** First in, first out: the unit at distance `x` after closing is the one at distance
      `qty + x` before, at the price and from the order it was opened with. */
  lemma {:induction false} KeptIsFifo(lots: seq<Lot>, qty: real, x: real)
    requires Positive(lots) && qty >= 0.0 && 0.0 <= x && qty + x < Sum(lots)
    ensures x < Sum(Kept(lots, qty))
    ensures LotAt(Kept(lots, qty), x).price == LotAt(lots, qty + x).price
    ensures LotAt(Kept(lots, qty), x).orderId == LotAt(lots, qty + x).orderId
    decreases lots
  {
    hide Kept;
    KeptQuantity(lots, qty);
    if qty <= 0.0 {
      NothingToClose(lots, qty, 0.0);
    } else {
      var lot, tail := lots[0], lots[1..];
      assert lots[0..] == lots;
      CloseFirst(lots, 0, qty, 0.0);
      if qty < lot.qty {
        NothingToClose(tail, 0.0, 0.0);
        assert Kept(lots, qty)[0] == lot.(qty := lot.qty - qty) && Kept(lots, qty)[1..] == tail;
      } else {
        assert Kept(lots, qty) == Kept(tail, qty - lot.qty);
        KeptIsFifo(tail, qty - lot.qty, x);
      }
    }
  }

  /** Cost is conserved: what closing realizes is the proceeds of the quantity closed less
      the cost that leaves the lots. */
  lemma {:induction false} CostConserved(lots: seq<Lot>, qty: real, price: real)
    requires Positive(lots) && qty >= 0.0
    ensures Pnl(lots, qty, price) == Times(price, Min(qty, Sum(lots))) - (Cost(lots) - Cost(Kept(lots, qty)))
    decreases lots
  {
    hide Times, Kept, Pnl;
    SumPositive(lots);
    if lots == [] || qty <= 0.0 {
      CostStep(Lot(0.0, 0.0, ""), 0.0, price, 0.0);
      NoLots(qty, price);
      if qty <= 0.0 {
        NothingToClose(lots, qty, price);
      }
    } else {
      var lot, tail, used := lots[0], lots[1..], Min(qty, lots[0].qty);
      CloseFirst(lots, 0, qty, price);
      assert lots[0..] == lots;
      CostConserved(tail, qty - used, price);
      SumPositive(tail);
      CostStep(lot, used, price, Min(qty - used, Sum(tail)));
      CostCut(lot, used, Kept(tail, qty - used));
    }
  }

  lemma {:induction false} CostCut(lot: Lot, used: real, rest: seq<Lot>)
    requires used <= lot.qty
    ensures Cost(Cut(lot, used) + rest) == Times(lot.qty - used, lot.price) + Cost(rest)
  {
    if lot.qty - used > 0.0 {
      assert (Cut(lot, used) + rest)[1..] == rest;
    } else {
      assert Cut(lot, used) + rest == rest;
    }
  }

  lemma {:induction false} CostStep(lot: Lot, used: real, price: real, more: real)
    ensures Times(used, price - lot.price)
         == Times(price, used) - (Times(lot.qty, lot.price) - Times(lot.qty - used, lot.price))
    ensures Times(price, used + more) == Times(price, used) + Times(price, more)
    ensures Times(0.0, lot.price) == 0.0 && Times(price, 0.0) == 0.0
  {
  }

  /** Closing in two steps is closing at once. */
  lemma {:induction false} CloseTwice(lots: seq<Lot>, a: real, b: real, price: real)
    requires Positive(lots) && a >= 0.0 && b >= 0.0
    ensures Kept(Kept(lots, a), b) == Kept(lots, a + b)
    ensures Pnl(lots, a, price) + Pnl(Kept(lots, a), b, price) == Pnl(lots, a + b, price)
    decreases lots
  {
    if lots != [] && a > 0.0 {
      if b <= 0.0 {
        NothingToClose(Kept(lots, a), b, price);
      } else {
        CloseTwiceStep(lots, a, b, price);
      }
    }
  }

  lemma {:induction false} CloseTwiceStep(lots: seq<Lot>, a: real, b: real, price: real)
    requires Positive(lots) && lots != [] && a > 0.0 && b > 0.0
    ensures Kept(Kept(lots, a), b) == Kept(lots, a + b)
    ensures Pnl(lots, a, price) + Pnl(Kept(lots, a), b, price) == Pnl(lots, a + b, price)
    decreases lots, 0
  {
    hide Times, Kept, Pnl;
    var lot, tail := lots[0], lots[1..];
    assert lots[0..] == lots;
    CloseFirst(lots, 0, a, price);
    CloseFirst(lots, 0, a + b, price);
    if a < lot.qty {
      var cut := lot.(qty := lot.qty - a);
      NothingToClose(tail, 0.0, price);
      CloseFirst([cut] + tail, 0, b, price);
      assert ([cut] + tail)[0..] == [cut] + tail && ([cut] + tail)[1..] == tail;
      SplitUse(a, Min(b, cut.qty), price - lot.price);
    } else {
      CloseTwice(tail, a - lot.qty, b, price);
      assert Cut(lot, lot.qty) + Kept(tail, a - lot.qty) == Kept(tail, a - lot.qty);
    }
  }

  lemma {:induction false} SplitUse(a: real, b: real, gain: real)
    ensures Times(a + b, gain) == Times(a, gain) + Times(b, gain)
  {
  }

  // ----- runs

  datatype Event =
    | Fill(symbol: string, side: string, lot: Lot)
    | Close(symbol: string, qty: real, price: real)

  function Step(book: Book, e: Event): Book {
    match e
    case Fill(symbol, side, lot) => AfterFill(book, symbol, side, lot)
    case Close(symbol, qty, price) => AfterClose(book, symbol, qty, price)
  }

  function Run(events: seq<Event>): Book {
    if events == [] then map[] else Step(Run(events[..|events| - 1]), events[|events| - 1])
  }

  /** Fills are positive and closes not negative. */
  ghost predicate Proper(events: seq<Event>) {
    forall i :: 0 <= i < |events| ==>
      match events[i]
      case Fill(_, _, lot) => lot.qty > 0.0
      case Close(_, qty, _) => qty >= 0.0
  }

  ghost predicate SoundPosition(p: Position) {
    p.lots != [] && Positive(p.lots) && p.totalQty == Sum(p.lots)
  }

  ghost predicate Sound(book: Book) {
    forall s :: s in book ==> SoundPosition(book[s])
  }

  lemma {:induction false} SumSnoc(lots: seq<Lot>, lot: Lot)
    ensures Sum(lots + [lot]) == Sum(lots) + lot.qty
    ensures Cost(lots + [lot]) == Cost(lots) + Times(lot.qty, lot.price)
  {
    hide Times;
    if lots == [] {
      assert lots + [lot] == [lot];
    } else {
      assert (lots + [lot])[1..] == lots[1..] + [lot];
      SumSnoc(lots[1..], lot);
    }
  }

  lemma {:induction false} FillKeepsSound(book: Book, symbol: string, side: string, lot: Lot)
    requires Sound(book) && lot.qty > 0.0
    ensures Sound(AfterFill(book, symbol, side, lot))
  {
    hide Sum, AverageAfter;
    NoSum();
    SumSnoc(OpenLots(book, symbol), lot);
  }

  lemma {:induction false} NoSum()
    ensures Sum([]) == 0.0 && Cost([]) == 0.0
  {
  }

  lemma {:induction false} CloseKeepsSound(book: Book, symbol: string, qty: real, price: real)
    requires Sound(book) && qty >= 0.0
    ensures Sound(AfterClose(book, symbol, qty, price))
  {
    hide Sum, Kept, Pnl;
    if symbol in book {
      KeptQuantity(book[symbol].lots, qty);
      SumPositive(Kept(book[symbol].lots, qty));
    }
  }

  /** In every run, every position has positive lots that add up to its total. */
  lemma {:induction false} RunIsSound(events: seq<Event>)
    requires Proper(events)
    ensures Sound(Run(events))
  {
    hide Sound, AfterFill, AfterClose;
    if events == [] {
      EmptyIsSound();
    } else {
      var n := |events| - 1;
      RunIsSound(events[..n]);
      match events[n]
      case Fill(symbol, side, lot) => FillKeepsSound(Run(events[..n]), symbol, side, lot);
      case Close(symbol, qty, price) => CloseKeepsSound(Run(events[..n]), symbol, qty, price);
    }
  }

  lemma {:induction false} EmptyIsSound()
    ensures Sound(map[])
  {
  }

  /** Closing `a` and then `b` at one price leaves the same book, and realizes the same in
      total, as closing `a + b`; the position may go with the first close or the second. */
  lemma {:induction false} CloseInTwo(book: Book, symbol: string, a: real, b: real, price: real)
    requires Sound(book) && a >= 0.0 && b >= 0.0
    ensures AfterClose(AfterClose(book, symbol, a, price), symbol, b, price) == AfterClose(book, symbol, a + b, price)
    ensures Realized(book, symbol, a, price) + Realized(AfterClose(book, symbol, a, price), symbol, b, price)
         == Realized(book, symbol, a + b, price)
  {
    hide Sum, Kept, Pnl;
    if symbol in book {
      var p := book[symbol];
      CloseTwice(p.lots, a, b, price);
      KeptQuantity(p.lots, a);
      SumPositive(Kept(p.lots, a));
      if p.totalQty - a <= 0.0 {
        NoLots(b, price);
      } else {
        var mid := book[symbol := WithClose(p, a, price)];
        assert mid - {symbol} == book - {symbol};
        assert mid[symbol := WithClose(WithClose(p, a, price), b, price)]
            == book[symbol := WithClose(WithClose(p, a, price), b, price)];
      }
    }
  }

  function OpenLots(book: Book, symbol: string): seq<Lot> {
    if symbol in book then book[symbol].lots else []
  }

  /** Paid for the fills of a symbol. */
  function Paid(events: seq<Event>, symbol: string): real {
    if events == [] then 0.0
    else
      var e := events[|events| - 1];
      Paid(events[..|events| - 1], symbol)
      + if e.Fill? && e.symbol == symbol then Times(e.lot.qty, e.lot.price) else 0.0
  }

  function Bought(events: seq<Event>, symbol: string): real {
    if events == [] then 0.0
    else
      var e := events[|events| - 1];
      Bought(events[..|events| - 1], symbol) + if e.Fill? && e.symbol == symbol then e.lot.qty else 0.0
  }

  /** How much of a close finds something open. */
  function ClosedBy(book: Book, e: Event): real
    requires e.Close?
  {
    Min(e.qty, Sum(OpenLots(book, e.symbol)))
  }

  function Proceeds(events: seq<Event>, symbol: string): real {
    if events == [] then 0.0
    else
      var init, e := events[..|events| - 1], events[|events| - 1];
      Proceeds(init, symbol)
      + if e.Close? && e.symbol == symbol then Times(e.price, ClosedBy(Run(init), e)) else 0.0
  }

  function ClosedQty(events: seq<Event>, symbol: string): real {
    if events == [] then 0.0
    else
      var init, e := events[..|events| - 1], events[|events| - 1];
      ClosedQty(init, symbol) + if e.Close? && e.symbol == symbol then ClosedBy(Run(init), e) else 0.0
  }

  /** The sum of what the closes of a symbol returned. */
  function RealizedTotal(events: seq<Event>, symbol: string): real {
    if events == [] then 0.0
    else
      var init, e := events[..|events| - 1], events[|events| - 1];
      RealizedTotal(init, symbol)
      + if e.Close? && e.symbol == symbol then Realized(Run(init), symbol, e.qty, e.price) else 0.0
  }

  lemma {:induction false} FillAddsLot(book: Book, symbol: string, side: string, lot: Lot)
    ensures OpenLots(AfterFill(book, symbol, side, lot), symbol) == OpenLots(book, symbol) + [lot]
    ensures forall other :: other != symbol ==>
              OpenLots(AfterFill(book, symbol, side, lot), other) == OpenLots(book, other)
  {
    hide AverageAfter;
  }

  lemma {:induction false} CloseKeepsLots(book: Book, symbol: string, qty: real, price: real)
    requires Sound(book) && qty >= 0.0
    ensures OpenLots(AfterClose(book, symbol, qty, price), symbol) == Kept(OpenLots(book, symbol), qty)
    ensures Realized(book, symbol, qty, price) == Pnl(OpenLots(book, symbol), qty, price)
    ensures Positive(OpenLots(book, symbol))
    ensures forall other :: other != symbol ==>
              OpenLots(AfterClose(book, symbol, qty, price), other) == OpenLots(book, other)
  {
    hide Sum, Kept, Pnl;
    NoLots(qty, price);
    if symbol in book {
      KeptQuantity(book[symbol].lots, qty);
      SumPositive(Kept(book[symbol].lots, qty));
    }
  }

  /** Over every run, for every symbol: what closes realized is what they brought in less
      what was paid for the lots no longer open, and open quantity is bought less closed. */
  lemma {:induction false} MoneyIsConserved(events: seq<Event>, symbol: string)
    requires Proper(events)
    ensures
      var lots := OpenLots(Run(events), symbol);
      && RealizedTotal(events, symbol) == Proceeds(events, symbol) - (Paid(events, symbol) - Cost(lots))
      && Sum(lots) == Bought(events, symbol) - ClosedQty(events, symbol)
  {
    hide Times, Sum, Cost, Kept, Pnl, OpenLots, AfterFill, AfterClose, Realized, Min;
    if events == [] {
      NothingOpen(symbol);
      NoSum();
    } else {
      var n := |events| - 1;
      var book, e := Run(events[..n]), events[n];
      MoneyIsConserved(events[..n], symbol);
      RunIsSound(events[..n]);
      match e
      case Fill(s, side, lot) =>
        FillAddsLot(book, s, side, lot);
        SumSnoc(OpenLots(book, s), lot);
      case Close(s, qty, price) =>
        CloseKeepsLots(book, s, qty, price);
        CloseBooks(OpenLots(book, s), qty, price);
    }
  }

  lemma {:induction false} NothingOpen(symbol: string)
    ensures OpenLots(map[], symbol) == []
  {
  }

  lemma {:induction false} CloseBooks(lots: seq<Lot>, qty: real, price: real)
    requires Positive(lots) && qty >= 0.0
    ensures Pnl(lots, qty, price) == Times(price, Min(qty, Sum(lots))) - (Cost(lots) - Cost(Kept(lots, qty)))
    ensures Sum(Kept(lots, qty)) == Sum(lots) - Min(qty, Sum(lots))
  {
    hide Sum, Kept, Pnl, Times, Cost;
    CostConserved(lots, qty, price);
    KeptQuantity(lots, qty);
  }

  // ----- what a position shows

  /** What the closes of a symbol returned since its position was opened. */
  function RealizedSince(events: seq<Event>, symbol: string): real {
    if events == [] then 0.0
    else
      var init, e := events[..|events| - 1], events[|events| - 1];
      if symbol !in Run(init) then 0.0
      else
        RealizedSince(init, symbol)
        + if e.Close? && e.symbol == symbol then Realized(Run(init), symbol, e.qty, e.price) else 0.0
  }

  /** The side of the fill that opened a position. */
  function OpeningSide(events: seq<Event>, symbol: string): string {
    if events == [] then ""
    else
      var init, e := events[..|events| - 1], events[|events| - 1];
      if symbol in Run(init) then OpeningSide(init, symbol)
      else if e.Fill? && e.symbol == symbol then e.side else ""
  }

  /** In every run, the profit a position shows is what its closes returned, and the side
      that of the fill that opened it, in upper case. */
  lemma {:induction false} PositionShows(events: seq<Event>, symbol: string)
    requires symbol in Run(events)
    ensures Run(events)[symbol].realized == RealizedSince(events, symbol)
    ensures Run(events)[symbol].side == ToUpper(OpeningSide(events, symbol))
  {
    hide Times, Kept, Pnl, AverageAfter, ToUpper;
    var n := |events| - 1;
    var init, e := events[..n], events[n];
    if symbol in Run(init) {
      PositionShows(init, symbol);
    }
  }

  /** After a fill the notional shown is the cost of the open lots, if the average was right. */
  lemma {:induction false} NotionalIsCost(p: Position, lot: Lot)
    requires AverageIsRight(p) && p.totalQty + lot.qty > 0.0
    ensures WithFill(p, lot).totalNotional == Cost(p.lots + [lot])
  {
    hide Cost, Times, AverageAfter;
    FillKeepsAverage(p, lot);
  }

  // ----- the average entry price

  /** The average entry price is that of the open lots. */
  ghost predicate AverageIsRight(p: Position) {
    Times(p.avgEntry, p.totalQty) == Cost(p.lots)
  }

  /** A fill puts the average right, or rather keeps it right. */
  lemma {:induction false} FillKeepsAverage(p: Position, lot: Lot)
    requires AverageIsRight(p) && p.totalQty + lot.qty > 0.0
    ensures AverageIsRight(WithFill(p, lot))
  {
    hide Cost;
    SumSnoc(p.lots, lot);
    var total := p.totalQty + lot.qty;
    Quotient(Times(p.avgEntry, p.totalQty) + Times(lot.price, lot.qty), total);
    assert Times(lot.price, lot.qty) == Times(lot.qty, lot.price);
  }

  lemma {:induction false} Quotient(value: real, total: real)
    requires total != 0.0
    ensures Times(value / total, total) == value
  {
  }

  ghost predicate OnePrice(lots: seq<Lot>, price: real) {
    forall i :: 0 <= i < |lots| ==> lots[i].price == price
  }

  lemma {:induction false} CostAtOnePrice(lots: seq<Lot>, price: real)
    requires OnePrice(lots, price)
    ensures Cost(lots) == Times(price, Sum(lots))
  {
    if lots != [] {
      CostAtOnePrice(lots[1..], price);
      SplitUse(lots[0].qty, Sum(lots[1..]), price);
      TimesCommutes(price, Sum(lots));
      TimesCommutes(price, Sum(lots[1..]));
    } else {
      CostStep(Lot(0.0, 0.0, ""), 0.0, price, 0.0);
    }
  }

  lemma {:induction false} TimesCommutes(a: real, b: real)
    ensures Times(a, b) == Times(b, a)
  {
  }

  lemma {:induction false} KeptAtOnePrice(lots: seq<Lot>, qty: real, price: real)
    requires OnePrice(lots, price)
    ensures OnePrice(Kept(lots, qty), price)
    decreases lots
  {
    if lots != [] && qty > 0.0 {
      KeptAtOnePrice(lots[1..], qty - Min(qty, lots[0].qty), price);
    }
  }

  /** Closing the first `k` lots leaves the others. */
  lemma {:induction false} CloseWhole(lots: seq<Lot>, k: nat)
    requires Positive(lots) && k <= |lots|
    ensures Kept(lots, Sum(lots[..k])) == lots[k..]
    decreases k
  {
    hide Kept, Pnl, Sum;
    if k == 0 {
      NoSum();
      NothingToClose(lots, 0.0, 0.0);
    } else {
      var first, tail := lots[0], lots[1..];
      assert lots[..k] == [first] + tail[..k - 1];
      SumFirst(first, tail[..k - 1]);
      SumPositive(tail[..k - 1]);
      CloseFirst(lots, 0, Sum(lots[..k]), 0.0);
      CloseWhole(tail, k - 1);
    }
  }

  lemma {:induction false} SumFirst(lot: Lot, rest: seq<Lot>)
    ensures Sum([lot] + rest) == lot.qty + Sum(rest)
  {
    assert ([lot] + rest)[1..] == rest;
  }

  lemma {:induction false} SumSplit(lots: seq<Lot>, k: nat)
    requires k <= |lots|
    ensures Sum(lots) == Sum(lots[..k]) + Sum(lots[k..])
    ensures Cost(lots) == Cost(lots[..k]) + Cost(lots[k..])
    decreases k
  {
    hide Times;
    if k == 0 {
      assert lots[..0] == [] && lots[0..] == lots;
    } else {
      assert lots[..k][0] == lots[0] && lots[..k][1..] == lots[1..][..k - 1];
      assert lots[1..][k - 1..] == lots[k..];
      SumSplit(lots[1..], k - 1);
    }
  }

  /** A partial close does not touch the average. It stays right, for every quantity that
      can be partially closed, exactly when all lots were opened at that price. */
  lemma {:induction false} AverageStaysRightIff(p: Position, price: real)
    requires SoundPosition(p) && AverageIsRight(p)
    ensures (forall qty :: 0.0 <= qty < p.totalQty ==> AverageIsRight(WithClose(p, qty, price)))
       <==> OnePrice(p.lots, p.avgEntry)
  {
    hide Kept, Pnl, Sum, Cost, Times;
    if OnePrice(p.lots, p.avgEntry) {
      forall qty | 0.0 <= qty < p.totalQty
        ensures AverageIsRight(WithClose(p, qty, price))
      {
        KeptAtOnePrice(p.lots, qty, p.avgEntry);
        CostAtOnePrice(Kept(p.lots, qty), p.avgEntry);
        KeptQuantity(p.lots, qty);
      }
    } else {
      var k := FirstOther(p.lots, p.avgEntry);
      OtherPriceShows(p, k, price);
    }
  }

  /** One unit at 100 and one at 200: after closing the first, the average still says 150. */
  lemma {:induction false} TwoPricesLoseAverage(price: real)
    ensures
      var p := Position("BUY", [Lot(1.0, 100.0, "a"), Lot(1.0, 200.0, "b")], 2.0, 150.0, 300.0, 0.0);
      AverageIsRight(p) && !AverageIsRight(WithClose(p, 1.0, price))
  {
    var a, b := Lot(1.0, 100.0, "a"), Lot(1.0, 200.0, "b");
    assert [a, b][1..] == [b] && [b][1..] == [];
    NothingToClose([b], 0.0, price);
    assert Kept([a, b], 1.0) == [] + Kept([b], 0.0) == [b];
  }

  lemma {:induction false} FirstOther(lots: seq<Lot>, price: real) returns (k: nat)
    requires !OnePrice(lots, price)
    ensures k < |lots| && lots[k].price != price && OnePrice(lots[..k], price)
  {
    if lots[0].price != price {
      k := 0;
    } else {
      var j := FirstOther(lots[1..], price);
      k := j + 1;
      assert forall i :: 0 < i < k ==> lots[i] == lots[1..][..j][i - 1];
    }
  }

  lemma {:induction false} OtherPriceShows(p: Position, k: nat, price: real)
    requires SoundPosition(p) && AverageIsRight(p)
    requires k < |p.lots| && p.lots[k].price != p.avgEntry && OnePrice(p.lots[..k], p.avgEntry)
    ensures 0.0 <= Sum(p.lots[..k + 1]) < p.totalQty
    ensures !AverageIsRight(WithClose(p, Sum(p.lots[..k + 1]), price))
  {
    hide Kept, Pnl, Sum, Cost, Times;
    var lots, avg, lot := p.lots, p.avgEntry, p.lots[k];
    var head, tail := lots[..k], lots[k + 1..];
    var qty := Sum(lots[..k + 1]);
    SumSplit(lots, k + 1);
    assert lots[..k + 1] == head + [lot];
    SumSnoc(head, lot);
    SumPositive(head);
    SumPositive(tail);
    CostAtOnePrice(head, avg);
    CloseWhole(lots, k + 1);
    UnequalValue(lot.qty, lot.price, avg);
    ThreeWays(avg, Sum(head), lot.qty, Sum(tail));
    if tail == [] {
      NoSum();
    }
  }

  lemma {:induction false} UnequalValue(qty: real, a: real, b: real)
    requires qty > 0.0 && a != b
    ensures Times(qty, a) != Times(b, qty)
  {
    assert qty * a - b * qty == qty * (a - b);
  }

  lemma {:induction false} ThreeWays(a: real, x: real, y: real, z: real)
    ensures Times(a, x + y + z) == Times(a, x) + Times(a, y) + Times(a, z)
    ensures Times(a, 0.0) == 0.0
  {
  }
}
