/**
 Post-trade surveillance (services/gateway/post_trade_surveillance.go): the per-client
 histories, bounded and evicted, and the wash-trade and momentum detectors that scan
 them. Timestamps are nanoseconds; the clock of the cleanup is handed in.
 */
module Surveillance {
  import opened Basics

  datatype Kind = NewOrder | Fill | Cancel | OtherKind

  datatype ClientId = ClientId(number: int)

  datatype Trade = Trade(kind: Kind, orderId: int, client: ClientId, symbol: string, side: string, ts: int)

  const SECOND := 1_000_000_000
  const MINUTE := 60 * SECOND
  const HOUR := 60 * MINUTE
  const WASH_TRADE_WINDOW := 60 * SECOND
  const MOMENTUM_WINDOW := 2 * SECOND
  const MAX_CLIENT_HISTORY := 500
  const BURST := 10

  type Histories = map<ClientId, seq<Trade>>

  function HistoryOf(m: Histories, client: ClientId): seq<Trade> {
    if client in m then m[client] else []
  }

  // ----- histories

  function Bounded(s: seq<Trade>): seq<Trade> {
    if |s| > MAX_CLIENT_HISTORY then s[1..] else s
  }

  /** What a cleanup leaves: the trades later than the cutoff. */
  function Later(s: seq<Trade>, cutoff: int): seq<Trade> {
    if s == [] then []
    else
      var n := |s| - 1;
      Later(s[..n], cutoff) + if s[n].ts > cutoff then [s[n]] else []
  }

  datatype State = State(orders: Histories, fills: Histories)

  datatype Event = Process(trade: Trade) | Cleanup(now: int)

  function Recorded(s: State, t: Trade): State {
    State(
      s.orders[t.client := Bounded(HistoryOf(s.orders, t.client) + [t])],
      if t.kind == Fill then s.fills[t.client := HistoryOf(s.fills, t.client) + [t]] else s.fills)
  }

  function Evicted(m: Histories, cutoff: int): Histories {
    map c | c in m :: Later(m[c], cutoff)
  }

  function Step(s: State, e: Event): State {
    match e
    case Process(t) => Recorded(s, t)
    case Cleanup(now) => State(Evicted(s.orders, now - HOUR), Evicted(s.fills, now - HOUR))
  }

  function Run(events: seq<Event>): State {
    if events == [] then State(map[], map[]) else Step(Run(events[..|events| - 1]), events[|events| - 1])
  }

  // ----- detectors

  function AbsDiff(a: int, b: int): int {
    if a - b < 0 then -(a - b) else a - b
  }

  /** Another order, same symbol, other side, within the window. */
  predicate IsWash(prev: Trade, t: Trade) {
    && prev.orderId != t.orderId
    && prev.symbol == t.symbol
    && prev.side != t.side
    && AbsDiff(prev.ts, t.ts) <= WASH_TRADE_WINDOW
  }

  /** The first fill that makes a wash trade with `t`. */
  function FirstWash(fills: seq<Trade>, t: Trade): Option<Trade> {
    if fills == [] then None
    else
      var n := |fills| - 1;
      var earlier := FirstWash(fills[..n], t);
      if earlier.Some? then earlier else if IsWash(fills[n], t) then Some(fills[n]) else None
  }

  predicate InBurst(h: Trade, t: Trade) {
    h.ts > t.ts - MOMENTUM_WINDOW && h.symbol == t.symbol
  }

  function BurstCount(history: seq<Trade>, t: Trade): nat {
    if history == [] then 0
    else
      var n := |history| - 1;
      BurstCount(history[..n], t) + if InBurst(history[n], t) then 1 else 0
  }

  predicate IsMomentum(history: seq<Trade>, t: Trade) {
    |history| >= 10 && BurstCount(history, t) >= BURST
  }

  method CheckWashTrade(fills: seq<Trade>, t: Trade) returns (found: Option<Trade>)
    ensures found == FirstWash(fills, t)
  {
    for i := 0 to |fills|
      invariant FirstWash(fills[..i], t) == None
    {
      assert fills[..i + 1][..i] == fills[..i];
      var prev := fills[i];
      if prev.orderId == t.orderId {
        continue;
      }
      if prev.symbol == t.symbol && prev.side != t.side && AbsDiff(prev.ts, t.ts) <= WASH_TRADE_WINDOW {
        FirstWashStays(fills, t, i + 1);
        return Some(prev);
      }
    }
    assert fills[..|fills|] == fills;
    return None;
  }

  /** The fill named is the first of another order in the same symbol, on the other side and
      no more than sixty seconds before or after; none is named exactly when there is none. */
  lemma {:induction false} FirstWashMeans(fills: seq<Trade>, t: Trade)
    ensures FirstWash(fills, t).None? <==> forall i :: 0 <= i < |fills| ==>
              || fills[i].orderId == t.orderId || fills[i].symbol != t.symbol || fills[i].side == t.side
              || fills[i].ts < t.ts - 60_000_000_000 || fills[i].ts > t.ts + 60_000_000_000
    ensures FirstWash(fills, t).Some? ==>
              exists k :: 0 <= k < |fills| && FirstWash(fills, t) == Some(fills[k]) && FirstWash(fills[..k], t) == None
  {
    if fills != [] {
      var n := |fills| - 1;
      FirstWashMeans(fills[..n], t);
      if FirstWash(fills[..n], t).Some? {
        var k :| 0 <= k < n && FirstWash(fills[..n], t) == Some(fills[..n][k]) && FirstWash(fills[..n][..k], t) == None;
        assert fills[..n][..k] == fills[..k];
      }
    }
  }

  /** A count adds up, and counts an event in the same symbol less than two seconds old. */
  lemma {:induction false} BurstCountMeans(a: seq<Trade>, b: seq<Trade>, h: Trade, t: Trade)
    ensures BurstCount(a + b, t) == BurstCount(a, t) + BurstCount(b, t)
    ensures BurstCount([h], t) == if h.symbol == t.symbol && h.ts > t.ts - 2_000_000_000 then 1 else 0
  {
    CountConcat(a, b, t);
    assert [h][..0] == [];
  }

  lemma {:induction false} FirstWashStays(fills: seq<Trade>, t: Trade, k: nat)
    requires k <= |fills| && FirstWash(fills[..k], t).Some?
    ensures FirstWash(fills, t) == FirstWash(fills[..k], t)
  {
    if k < |fills| {
      var n := |fills| - 1;
      assert fills[..n][..k] == fills[..k];
      FirstWashStays(fills[..n], t, k);
    } else {
      assert fills[..k] == fills;
    }
  }

  method CheckMomentumIgnition(history: seq<Trade>, t: Trade) returns (alert: bool)
    ensures alert == IsMomentum(history, t)
  {
    if |history| < 10 {
      return false;
    }
    var cutoff := t.ts - MOMENTUM_WINDOW;
    var count := 0;
    for i := 0 to |history|
      invariant count == BurstCount(history[..i], t)
    {
      assert history[..i + 1][..i] == history[..i];
      if history[i].ts > cutoff && history[i].symbol == t.symbol {
        count := count + 1;
      }
    }
    assert history[..|history|] == history;
    alert := count >= BURST;
  }

  lemma {:induction false} LaterNext(s: seq<Trade>, i: nat, cutoff: int)
    requires i < |s|
    ensures s[i].ts > cutoff ==> Later(s[..i + 1], cutoff) == Later(s[..i], cutoff) + [s[i]]
    ensures s[i].ts <= cutoff ==> Later(s[..i + 1], cutoff) == Later(s[..i], cutoff)
  {
    assert s[..i + 1][..i] == s[..i];
  }

  /** The compaction of a slice over itself: reading stays ahead of writing. */
  method CompactInPlace(a: array<Trade>, cutoff: int) returns (n: nat)
    modifies a
    ensures n <= a.Length && a[..n] == Later(old(a[..]), cutoff)
  {
    n := 0;
    ghost var was := a[..];
    for i := 0 to a.Length
      invariant n <= i
      invariant a[..n] == Later(was[..i], cutoff)
      invariant forall k :: i <= k < a.Length ==> a[k] == was[k]
    {
      hide Later;
      LaterNext(was, i, cutoff);
      if a[i].ts > cutoff {
        ghost var front := a[..n];
        a[n] := a[i];
        assert a[..n + 1] == front + [was[i]];
        n := n + 1;
      }
    }
    assert was[..a.Length] == was;
  }

  class Engine {
    var clientOrders: Histories
    var clientFills: Histories

    ghost function Value(): State
      reads this
    {
      State(clientOrders, clientFills)
    }

    constructor ()
      ensures Value() == Run([])
    {
      clientOrders, clientFills := map[], map[];
    }

    /** Stores the trade and runs the detectors for its kind. */
    method ProcessEvent(t: Trade) returns (wash: Option<Trade>, momentum: bool)
      modifies this
      ensures Value() == Step(old(Value()), Process(t))
      ensures wash == if t.kind == Fill then FirstWash(HistoryOf(clientFills, t.client), t) else None
      ensures momentum == (t.kind == NewOrder && IsMomentum(HistoryOf(clientOrders, t.client), t))
    {
      wash, momentum := None, false;
      var orders := HistoryOf(clientOrders, t.client) + [t];
      if |orders| > MAX_CLIENT_HISTORY {
        orders := orders[1..];
      }
      clientOrders := clientOrders[t.client := orders];
      match t.kind {
        case NewOrder => momentum := CheckMomentumIgnition(orders, t);
        case Fill =>
          clientFills := clientFills[t.client := HistoryOf(clientFills, t.client) + [t]];
          wash := CheckWashTrade(clientFills[t.client], t);
        case Cancel =>
        case OtherKind =>
      }
    }

    method CleanUp(now: int)
      modifies this
      ensures Value() == Step(old(Value()), Cleanup(now))
    {
      var cutoff := now - HOUR;
      clientOrders := EvictAll(clientOrders, cutoff);
      clientFills := EvictAll(clientFills, cutoff);
    }
  }

  /** Compacts every client's history, the clients in any order. */
  method EvictAll(m: Histories, cutoff: int) returns (r: Histories)
    ensures r == Evicted(m, cutoff)
  {
    r := map[];
    var left := m.Keys;
    while exists c :: c in left
      invariant forall c :: c in m <==> c in left || c in r
      invariant forall c :: c in left ==> c !in r
      invariant forall c :: c in r ==> c in m && r[c] == Later(m[c], cutoff)
      decreases |left|
    {
      var c :| c in left;
      var s := m[c];
      var a := new Trade[|s|](i requires 0 <= i < |s| => s[i]);
      assert a[..] == s;
      var n := CompactInPlace(a, cutoff);
      r := r[c := a[..n]];
      left := left - {c};
    }
    IsEvicted(m, r, cutoff);
  }

  lemma {:induction false} IsEvicted(m: Histories, r: Histories, cutoff: int)
    requires forall c :: c in m <==> c in r
    requires forall c :: c in r ==> r[c] == Later(m[c], cutoff)
    ensures r == Evicted(m, cutoff)
  {
    assert r.Keys == Evicted(m, cutoff).Keys;
  }

  // ----- the full history

  /** Everything processed for a client. */
  function AllOrders(events: seq<Event>, client: ClientId): seq<Trade> {
    if events == [] then []
    else
      var n := |events| - 1;
      AllOrders(events[..n], client)
      + if events[n].Process? && events[n].trade.client == client then [events[n].trade] else []
  }

  function AllFills(events: seq<Event>, client: ClientId): seq<Trade> {
    if events == [] then []
    else
      var n := |events| - 1;
      AllFills(events[..n], client)
      + if events[n].Process? && events[n].trade.client == client && events[n].trade.kind == Fill
        then [events[n].trade] else []
  }

  /** `live` is `full` without some trades no later than `h`. */
  ghost predicate Pruned(full: seq<Trade>, live: seq<Trade>, h: int) {
    if full == [] then live == []
    else
      var n, m := |full| - 1, |live| - 1;
      || (full[n].ts <= h && Pruned(full[..n], live, h))
      || (live != [] && live[m] == full[n] && Pruned(full[..n], live[..m], h))
  }

  lemma {:induction false} PrunedSnoc(full: seq<Trade>, live: seq<Trade>, h: int, t: Trade)
    requires Pruned(full, live, h)
    ensures Pruned(full + [t], live + [t], h)
  {
    assert (full + [t])[..|full|] == full && (live + [t])[..|live|] == live;
  }

  lemma {:induction false} PrunedLater(full: seq<Trade>, live: seq<Trade>, h: int, cutoff: int)
    requires Pruned(full, live, h) && cutoff <= h
    ensures Pruned(full, Later(live, cutoff), h)
  {
    if full != [] {
      var n, m := |full| - 1, |live| - 1;
      if full[n].ts <= h && Pruned(full[..n], live, h) {
        PrunedLater(full[..n], live, h, cutoff);
      } else {
        PrunedLater(full[..n], live[..m], h, cutoff);
        var kept := Later(live[..m], cutoff);
        if live[m].ts > cutoff {
          assert (kept + [live[m]])[..|kept|] == kept;
        } else {
          assert kept + [] == kept;
        }
      }
    }
  }

  lemma {:induction false} PrunedFirst(full: seq<Trade>, live: seq<Trade>, h: int)
    requires Pruned(full, live, h) && live != [] && live[0].ts <= h
    ensures Pruned(full, live[1..], h)
  {
    var n, m := |full| - 1, |live| - 1;
    if full[n].ts <= h && Pruned(full[..n], live, h) {
      PrunedFirst(full[..n], live, h);
    } else if m > 0 {
      PrunedFirst(full[..n], live[..m], h);
      assert live[..m][1..] == live[1..][..m - 1];
    } else {
      assert live[1..] == live[..m] == [];
    }
  }

  /** The trades dropped do not match: the first match is the same. */
  lemma {:induction false} FirstWashPruned(full: seq<Trade>, live: seq<Trade>, h: int, t: Trade)
    requires Pruned(full, live, h)
    requires forall i :: 0 <= i < |full| && full[i].ts <= h ==> !IsWash(full[i], t)
    ensures FirstWash(live, t) == FirstWash(full, t)
  {
    if full != [] {
      var n, m := |full| - 1, |live| - 1;
      if full[n].ts <= h && Pruned(full[..n], live, h) {
        FirstWashPruned(full[..n], live, h, t);
      } else {
        FirstWashPruned(full[..n], live[..m], h, t);
      }
    }
  }

  /** Fills at any moment of any run, when no cleanup has reached beyond `h`. */
  lemma {:induction false} LiveFillsPruned(events: seq<Event>, client: ClientId, h: int)
    requires forall i :: 0 <= i < |events| && events[i].Cleanup? ==> events[i].now - HOUR <= h
    ensures Pruned(AllFills(events, client), HistoryOf(Run(events).fills, client), h)
  {
    hide Pruned, Later, Bounded;
    if events == [] {
      PrunedNothing(h);
    } else {
      var n := |events| - 1;
      var s, e := Run(events[..n]), events[n];
      var full, live := AllFills(events[..n], client), HistoryOf(s.fills, client);
      LiveFillsPruned(events[..n], client, h);
      match e
      case Process(t) =>
        PrunedSnoc(full, live, h, t);
        assert full + [] == full;
      case Cleanup(now) =>
        PrunedLater(full, live, h, now - HOUR);
        EvictedHistory(s.fills, client, now - HOUR);
        assert full + [] == full;
    }
  }

  lemma {:induction false} PrunedNothing(h: int)
    ensures Pruned([], [], h)
  {
  }

  lemma {:induction false} EvictedHistory(m: Histories, client: ClientId, cutoff: int)
    ensures HistoryOf(Evicted(m, cutoff), client) == Later(HistoryOf(m, client), cutoff)
  {
  }

  lemma {:induction false} RecordedHistory(s: State, t: Trade, client: ClientId)
    ensures HistoryOf(Recorded(s, t).orders, client)
         == if t.client == client then Bounded(HistoryOf(s.orders, client) + [t]) else HistoryOf(s.orders, client)
  {
    hide Bounded;
  }

  /** Cleanups so far have run at most 59 minutes ahead of a trade. */
  ghost predicate Timely(events: seq<Event>, t: Trade) {
    forall i :: 0 <= i < |events| && events[i].Cleanup? ==> events[i].now - 59 * MINUTE < t.ts
  }

  /** A wash-trade verdict, down to the fill it names, is that of the client's full fill
      history, whatever has been evicted. */
  lemma {:induction false} WashVerdictIsComplete(events: seq<Event>, t: Trade)
    requires t.kind == Fill && Timely(events, t)
    ensures
      var after := events + [Process(t)];
      FirstWash(HistoryOf(Run(after).fills, t.client), t) == FirstWash(AllFills(after, t.client), t)
  {
    hide Pruned, Run, AllFills, FirstWash;
    var after := events + [Process(t)];
    var h := t.ts - WASH_TRADE_WINDOW - 1;
    assert forall i :: 0 <= i < |after| && after[i].Cleanup? ==> after[i] == events[i];
    LiveFillsPruned(after, t.client, h);
    FirstWashPruned(AllFills(after, t.client), HistoryOf(Run(after).fills, t.client), h, t);
  }

  // ----- bursts

  ghost predicate InOrder(s: seq<Trade>) {
    forall i, j :: 0 <= i < j < |s| ==> s[i].ts <= s[j].ts
  }

  /** How many trades are later than `h`. */
  function CountAfter(s: seq<Trade>, h: int): (n: nat)
    ensures n <= |s|
  {
    if s == [] then 0 else CountAfter(s[..|s| - 1], h) + if s[|s| - 1].ts > h then 1 else 0
  }

  lemma {:induction false} PrunedAtMost(full: seq<Trade>, live: seq<Trade>, h: int, limit: int)
    requires Pruned(full, live, h)
    requires forall i :: 0 <= i < |full| ==> full[i].ts <= limit
    ensures forall i :: 0 <= i < |live| ==> live[i].ts <= limit
  {
    if full != [] {
      var n, m := |full| - 1, |live| - 1;
      if full[n].ts <= h && Pruned(full[..n], live, h) {
        PrunedAtMost(full[..n], live, h, limit);
      } else {
        PrunedAtMost(full[..n], live[..m], h, limit);
        assert forall i :: 0 <= i < m ==> live[i] == live[..m][i];
      }
    }
  }

  lemma {:induction false} PrunedInOrder(full: seq<Trade>, live: seq<Trade>, h: int)
    requires Pruned(full, live, h) && InOrder(full)
    ensures InOrder(live)
  {
    if full != [] {
      var n, m := |full| - 1, |live| - 1;
      if full[n].ts <= h && Pruned(full[..n], live, h) {
        PrunedInOrder(full[..n], live, h);
      } else {
        PrunedInOrder(full[..n], live[..m], h);
        PrunedAtMost(full[..n], live[..m], h, full[n].ts);
        assert forall i :: 0 <= i < m ==> live[i] == live[..m][i];
      }
    }
  }

  /** Dropping trades no later than `h` leaves all those later than `h`. */
  lemma {:induction false} PrunedCount(full: seq<Trade>, live: seq<Trade>, h: int)
    requires Pruned(full, live, h)
    ensures CountAfter(live, h) == CountAfter(full, h)
  {
    if full != [] {
      var n, m := |full| - 1, |live| - 1;
      if full[n].ts <= h && Pruned(full[..n], live, h) {
        PrunedCount(full[..n], live, h);
      } else {
        PrunedCount(full[..n], live[..m], h);
      }
    }
  }

  lemma {:induction false} PrunedBurst(full: seq<Trade>, live: seq<Trade>, t: Trade)
    requires Pruned(full, live, t.ts - MOMENTUM_WINDOW)
    ensures BurstCount(live, t) == BurstCount(full, t)
  {
    if full != [] {
      var n, m := |full| - 1, |live| - 1;
      if full[n].ts <= t.ts - MOMENTUM_WINDOW && Pruned(full[..n], live, t.ts - MOMENTUM_WINDOW) {
        PrunedBurst(full[..n], live, t);
      } else {
        PrunedBurst(full[..n], live[..m], t);
      }
    }
  }

  lemma {:induction false} AllAfter(s: seq<Trade>, h: int)
    requires forall i :: 0 <= i < |s| ==> s[i].ts > h
    ensures CountAfter(s, h) == |s|
  {
    if s != [] {
      AllAfter(s[..|s| - 1], h);
    }
  }

  /** A trade that falls off a full history is no later than `h`, as no more than the
      history's length are. */
  lemma {:induction false} BoundKeepsPruned(full: seq<Trade>, live: seq<Trade>, h: int)
    requires Pruned(full, live, h) && InOrder(full) && CountAfter(full, h) <= MAX_CLIENT_HISTORY
    ensures Pruned(full, Bounded(live), h)
  {
    hide Pruned, CountAfter;
    if |live| > MAX_CLIENT_HISTORY {
      PrunedInOrder(full, live, h);
      PrunedCount(full, live, h);
      if live[0].ts > h {
        AllAfter(live, h);
      }
      PrunedFirst(full, live, h);
    }
  }

  lemma {:induction false} CountAfterPrefix(s: seq<Trade>, k: nat, h: int)
    requires k <= |s|
    ensures CountAfter(s[..k], h) <= CountAfter(s, h)
  {
    if k == |s| {
      assert s[..k] == s;
    } else {
      assert s[..|s| - 1][..k] == s[..k];
      CountAfterPrefix(s[..|s| - 1], k, h);
    }
  }

  /** Orders at any moment of a run in time order, when no cleanup has reached beyond `h`
      and no more than a history's length came after it. */
  lemma {:induction false} LiveOrdersPruned(events: seq<Event>, client: ClientId, h: int)
    requires forall i :: 0 <= i < |events| && events[i].Cleanup? ==> events[i].now - HOUR <= h
    requires InOrder(AllOrders(events, client)) && CountAfter(AllOrders(events, client), h) <= MAX_CLIENT_HISTORY
    ensures Pruned(AllOrders(events, client), HistoryOf(Run(events).orders, client), h)
  {
    hide Pruned, Later, Bounded, CountAfter, Recorded, Evicted, InOrder, AllOrders, HistoryOf;
    if events == [] {
      NoOrders(client, h);
    } else {
      var n := |events| - 1;
      var s, e := Run(events[..n]), events[n];
      var full, live := AllOrders(events[..n], client), HistoryOf(s.orders, client);
      OrdersSoFar(events, client, h);
      LiveOrdersPruned(events[..n], client, h);
      match e
      case Process(t) =>
        RecordedHistory(s, t, client);
        if t.client == client {
          PrunedSnoc(full, live, h, t);
          BoundKeepsPruned(full + [t], live + [t], h);
        }
      case Cleanup(now) =>
        PrunedLater(full, live, h, now - HOUR);
        EvictedHistory(s.orders, client, now - HOUR);
    }
  }

  lemma {:induction false} NoOrders(client: ClientId, h: int)
    ensures Pruned(AllOrders([], client), HistoryOf(Run([]).orders, client), h)
  {
  }

  /** One event back, the history is the same or one trade shorter. */
  lemma {:induction false} OrdersSoFar(events: seq<Event>, client: ClientId, h: int)
    requires events != [] && InOrder(AllOrders(events, client))
    ensures
      var full, e := AllOrders(events[..|events| - 1], client), events[|events| - 1];
      && InOrder(full) && CountAfter(full, h) <= CountAfter(AllOrders(events, client), h)
      && AllOrders(events, client)
      == if e.Process? && e.trade.client == client then full + [e.trade] else full
  {
    var full, all := AllOrders(events[..|events| - 1], client), AllOrders(events, client);
    assert full == all[..|full|];
    assert full + [] == full;
    CountAfterPrefix(all, |full|, h);
  }

  lemma {:induction false} BurstFits(s: seq<Trade>, t: Trade)
    ensures BurstCount(s, t) <= |s|
  {
    if s != [] {
      BurstFits(s[..|s| - 1], t);
    }
  }

  /** A momentum verdict is that of the client's full history, when its events are in time
      order, no more than 500 of them fall in the two-second window, and no cleanup has
      reached into it. */
  lemma {:induction false} MomentumVerdictIsComplete(events: seq<Event>, t: Trade)
    requires LagAtMost(events, t, HOUR - MOMENTUM_WINDOW)
    requires
      var all := AllOrders(events + [Process(t)], t.client);
      InOrder(all) && CountAfter(all, t.ts - MOMENTUM_WINDOW) <= MAX_CLIENT_HISTORY
    ensures
      var after := events + [Process(t)];
      IsMomentum(HistoryOf(Run(after).orders, t.client), t) <==> IsMomentum(AllOrders(after, t.client), t)
  {
    hide Pruned, Run, AllOrders, BurstCount, CountAfter, InOrder;
    var after := events + [Process(t)];
    var h := t.ts - MOMENTUM_WINDOW;
    assert forall i :: 0 <= i < |after| && after[i].Cleanup? ==> after[i] == events[i];
    LiveOrdersPruned(after, t.client, h);
    var full, live := AllOrders(after, t.client), HistoryOf(Run(after).orders, t.client);
    PrunedBurst(full, live, t);
    BurstFits(full, t);
    BurstFits(live, t);
  }

  // ----- how tight the bounds are

  /** No cleanup so far has run more than `d` ahead of a trade. */
  ghost predicate LagAtMost(events: seq<Event>, t: Trade, d: int) {
    forall i :: 0 <= i < |events| && events[i].Cleanup? ==> events[i].now - t.ts <= d
  }

  ghost predicate WashComplete(events: seq<Event>, t: Trade) {
    var after := events + [Process(t)];
    FirstWash(HistoryOf(Run(after).fills, t.client), t) == FirstWash(AllFills(after, t.client), t)
  }

  /** A fill sixty seconds back, evicted by a cleanup 59 minutes ahead. */
  lemma {:induction false} LateFillMissesWash()
    ensures
      var c := ClientId(0);
      var bought, sold := Trade(Fill, 1, c, "X", "BUY", 0), Trade(Fill, 2, c, "X", "SELL", MINUTE);
      var events := [Process(bought), Cleanup(HOUR)];
      LagAtMost(events, sold, 59 * MINUTE) && !WashComplete(events, sold)
  {
    var c := ClientId(0);
    var bought, sold := Trade(Fill, 1, c, "X", "BUY", 0), Trade(Fill, 2, c, "X", "SELL", MINUTE);
    assert IsWash(bought, sold) && !IsWash(sold, sold);
    hide Run, AllFills, FirstWash, IsWash, HistoryOf;
    var e2, e3 := [Process(bought), Cleanup(HOUR)], [Process(bought), Cleanup(HOUR), Process(sold)];
    assert e2 + [Process(sold)] == e3;
    LiveAfterEviction(bought, sold);
    FullWithBoth(bought, sold);
  }

  lemma {:induction false} LiveAfterEviction(bought: Trade, sold: Trade)
    requires bought.kind == Fill && sold.kind == Fill && bought.client == sold.client && bought.ts == 0
    requires !IsWash(sold, sold)
    ensures FirstWash(HistoryOf(Run([Process(bought), Cleanup(HOUR), Process(sold)]).fills, sold.client), sold) == None
  {
    var c := sold.client;
    var e1, e2, e3 := [Process(bought)], [Process(bought), Cleanup(HOUR)],
                      [Process(bought), Cleanup(HOUR), Process(sold)];
    assert e1[..0] == [] && e2[..1] == e1 && e3[..2] == e2;
    assert HistoryOf(Run(e1).fills, c) == [] + [bought] == [bought];
    EvictedHistory(Run(e1).fills, c, 0);
    LaterNext([bought], 0, 0);
    assert [bought][..0] == [] && [bought][..1] == [bought];
    assert HistoryOf(Run(e2).fills, c) == [];
    assert HistoryOf(Run(e3).fills, c) == [] + [sold] == [sold];
    assert [sold][..0] == [];
  }

  lemma {:induction false} FullWithBoth(bought: Trade, sold: Trade)
    requires bought.kind == Fill && sold.kind == Fill && bought.client == sold.client && IsWash(bought, sold)
    ensures FirstWash(AllFills([Process(bought), Cleanup(HOUR), Process(sold)], sold.client), sold) == Some(bought)
  {
    var c := sold.client;
    var e1, e2, e3 := [Process(bought)], [Process(bought), Cleanup(HOUR)],
                      [Process(bought), Cleanup(HOUR), Process(sold)];
    assert e1[..0] == [] && e2[..1] == e1 && e3[..2] == e2;
    assert AllFills(e1, c) == [] + [bought] == [bought];
    assert AllFills(e2, c) == [bought] + [] == [bought];
    assert AllFills(e3, c) == [bought] + [sold] == [bought, sold];
    assert [bought, sold][..1] == [bought] && [bought][..0] == [];
    assert FirstWash([], sold) == None;
    assert FirstWash([bought], sold) == Some(bought);
    assert FirstWash([bought, sold], sold) == Some(bought);
  }

  /** Wash verdicts are complete in every run whose cleanups are at most `d` ahead, exactly
      for `d` under 59 minutes. */
  lemma {:induction false} WashCompleteIff(d: int)
    ensures (forall events, t: Trade :: t.kind == Fill && LagAtMost(events, t, d) ==> WashComplete(events, t))
       <==> d < 59 * MINUTE
  {
    hide WashComplete;
    if d < 59 * MINUTE {
      forall events, t: Trade | t.kind == Fill && LagAtMost(events, t, d)
        ensures WashComplete(events, t)
      {
        assert Timely(events, t);
        WashVerdict(events, t);
      }
    } else {
      LateFillMissesWash();
      var sold := Trade(Fill, 2, ClientId(0), "X", "SELL", MINUTE);
      var events := [Process(Trade(Fill, 1, ClientId(0), "X", "BUY", 0)), Cleanup(HOUR)];
      assert LagAtMost(events, sold, d);
    }
  }

  lemma {:induction false} WashVerdict(events: seq<Event>, t: Trade)
    requires t.kind == Fill && Timely(events, t)
    ensures WashComplete(events, t)
  {
    hide Run, AllFills, FirstWash;
    WashVerdictIsComplete(events, t);
  }

  ghost predicate MomentumComplete(events: seq<Event>, t: Trade) {
    var after := events + [Process(t)];
    IsMomentum(HistoryOf(Run(after).orders, t.client), t) <==> IsMomentum(AllOrders(after, t.client), t)
  }

  /** The client's events are in time order, at most `n` of them in the window. */
  ghost predicate Crowded(events: seq<Event>, t: Trade, n: nat) {
    var all := AllOrders(events + [Process(t)], t.client);
    InOrder(all) && CountAfter(all, t.ts - MOMENTUM_WINDOW) <= n
  }

  /** Some trades, one after the other. */
  function Processed(s: seq<Trade>): seq<Event> {
    seq(|s|, i requires 0 <= i < |s| => Process(s[i]))
  }

  ghost predicate AllOf(s: seq<Trade>, c: ClientId) {
    forall i :: 0 <= i < |s| ==> s[i].client == c
  }

  function Last500(s: seq<Trade>): seq<Trade> {
    if |s| > MAX_CLIENT_HISTORY then s[|s| - MAX_CLIENT_HISTORY..] else s
  }

  /** Without cleanups a history is the last 500 trades. */
  lemma {:induction false} LiveIsTail(s: seq<Trade>, c: ClientId)
    requires AllOf(s, c)
    ensures AllOrders(Processed(s), c) == s && HistoryOf(Run(Processed(s)).orders, c) == Last500(s)
  {
    hide Run, AllOrders, Processed, Last500, HistoryOf, Bounded, Recorded;
    if s == [] {
      NothingProcessed(c);
    } else {
      var n := |s| - 1;
      LiveIsTail(s[..n], c);
      ProcessedLast(s, c);
      assert s == s[..n] + [s[n]];
      RecordedHistory(Run(Processed(s[..n])), s[n], c);
      TailGrows(s, n);
    }
  }

  lemma {:induction false} NothingProcessed(c: ClientId)
    ensures AllOrders(Processed([]), c) == [] && HistoryOf(Run(Processed([])).orders, c) == Last500([])
  {
  }

  lemma {:induction false} ProcessedLast(s: seq<Trade>, c: ClientId)
    requires s != [] && s[|s| - 1].client == c
    ensures
      var init, last := s[..|s| - 1], s[|s| - 1];
      && AllOrders(Processed(s), c) == AllOrders(Processed(init), c) + [last]
      && Run(Processed(s)).orders == Recorded(Run(Processed(init)), last).orders
  {
    hide Recorded;
    assert Processed(s)[..|s| - 1] == Processed(s[..|s| - 1]);
  }

  lemma {:induction false} TailGrows(s: seq<Trade>, n: nat)
    requires n == |s| - 1
    ensures Bounded(Last500(s[..n]) + [s[n]]) == Last500(s)
  {
  }

  function Order(symbol: string): Trade {
    Trade(NewOrder, 0, ClientId(0), symbol, "BUY", 0)
  }

  /** One order of X, 491 of Y, nine more of X, all at once. */
  function Flood(): seq<Trade> {
    [Order("X")] + seq(491, i => Order("Y")) + seq(9, i => Order("X"))
  }

  lemma {:induction false} CountConcat(a: seq<Trade>, b: seq<Trade>, t: Trade)
    ensures BurstCount(a + b, t) == BurstCount(a, t) + BurstCount(b, t)
    decreases |b|
  {
    if b == [] {
      assert a + b == a;
    } else {
      assert (a + b)[..|a + b| - 1] == a + b[..|b| - 1];
      CountConcat(a, b[..|b| - 1], t);
    }
  }

  lemma {:induction false} CountSame(s: seq<Trade>, h: Trade, t: Trade)
    requires forall i :: 0 <= i < |s| ==> s[i] == h
    ensures BurstCount(s, t) == if InBurst(h, t) then |s| else 0
  {
    if s != [] {
      CountSame(s[..|s| - 1], h, t);
    }
  }

  lemma {:induction false} FloodCounts()
    ensures |Flood()| == 501 && BurstCount(Flood(), Order("X")) == 10 && BurstCount(Flood()[1..], Order("X")) == 9
  {
    var x, ys, xs := [Order("X")], seq(491, i => Order("Y")), seq(9, i => Order("X"));
    var t := Order("X");
    assert "X"[0] != "Y"[0];
    CountSame(x, Order("X"), t);
    CountSame(ys, Order("Y"), t);
    CountSame(xs, Order("X"), t);
    CountConcat(x + ys, xs, t);
    CountConcat(x, ys, t);
    CountConcat(ys, xs, t);
    assert Flood()[1..] == ys + xs;
  }

  /** 501 events in the window, and no cleanup: the first falls off, and the verdict with it. */
  lemma {:induction false} FloodMissesMomentum(d: int)
    ensures
      var t, events := Order("X"), Processed(Flood()[..500]);
      LagAtMost(events, t, d) && Crowded(events, t, 501) && !MomentumComplete(events, t)
  {
    hide Run, AllOrders, BurstCount, IsMomentum;
    var t, s := Order("X"), Flood();
    FloodCounts();
    FloodShape();
    var events := Processed(s[..500]);
    assert events + [Process(t)] == Processed(s);
    LiveIsTail(s, ClientId(0));
    assert Last500(s) == s[1..];
    Verdicts(s, t);
  }

  lemma {:induction false} FloodShape()
    ensures |Flood()| == 501 && Flood()[500] == Order("X") && AllOf(Flood(), ClientId(0)) && InOrder(Flood())
  {
  }

  lemma {:induction false} Verdicts(s: seq<Trade>, t: Trade)
    requires |s| == 501 && BurstCount(s, t) == 10 && BurstCount(s[1..], t) == 9
    ensures IsMomentum(s, t) && !IsMomentum(s[1..], t)
  {
  }

  // ----- ten in the window, nine of them evicted

  function Burst(): seq<Trade> {
    seq(9, i => Order("X"))
  }

  /** Nine orders, and a cleanup just far enough ahead to evict them before the tenth. */
  lemma {:induction false} LateBurstMissesMomentum()
    ensures
      var t, events := Order("X").(ts := MOMENTUM_WINDOW - 1), Processed(Burst()) + [Cleanup(HOUR)];
      LagAtMost(events, t, HOUR - MOMENTUM_WINDOW + 1) && Crowded(events, t, BURST) && !MomentumComplete(events, t)
  {
    hide Run, AllOrders, BurstCount, CountAfter, HistoryOf, IsMomentum, InOrder;
    var t := Order("X").(ts := MOMENTUM_WINDOW - 1);
    BurstEvicted(t);
    BurstOfTen(t);
  }

  lemma {:induction false} BurstEvicted(t: Trade)
    requires t.client == ClientId(0)
    ensures
      var after := Processed(Burst()) + [Cleanup(HOUR)] + [Process(t)];
      AllOrders(after, t.client) == Burst() + [t] && HistoryOf(Run(after).orders, t.client) == [t]
  {
    hide Run, AllOrders, HistoryOf, Processed, Recorded, Evicted, Later;
    var c, nine := t.client, Processed(Burst());
    LiveIsTail(Burst(), c);
    RunSnoc(nine, Cleanup(HOUR), c);
    RunSnoc(nine + [Cleanup(HOUR)], Process(t), c);
    EvictedHistory(Run(nine).orders, c, 0);
    AllEvicted(Burst(), 0);
    RecordedHistory(Run(nine + [Cleanup(HOUR)]), t, c);
    assert [] + [t] == [t];
    assert Burst() + [] == Burst();
  }

  lemma {:induction false} BurstOfTen(t: Trade)
    requires t == Order("X").(ts := MOMENTUM_WINDOW - 1)
    ensures
      var all := Burst() + [t];
      && InOrder(all) && CountAfter(all, t.ts - MOMENTUM_WINDOW) == BURST
      && IsMomentum(all, t) && !IsMomentum([t], t)
  {
    hide BurstCount, CountAfter;
    CountConcat(Burst(), [t], t);
    CountSame(Burst(), Order("X"), t);
    CountSame([t], t, t);
    AllAfter(Burst() + [t], t.ts - MOMENTUM_WINDOW);
  }

  lemma {:induction false} RunSnoc(events: seq<Event>, e: Event, c: ClientId)
    ensures Run(events + [e]) == Step(Run(events), e)
    ensures AllOrders(events + [e], c)
         == AllOrders(events, c) + if e.Process? && e.trade.client == c then [e.trade] else []
  {
    hide Step;
    assert (events + [e])[..|events|] == events;
  }

  lemma {:induction false} AllEvicted(s: seq<Trade>, cutoff: int)
    requires forall i :: 0 <= i < |s| ==> s[i].ts <= cutoff
    ensures Later(s, cutoff) == []
  {
    if s != [] {
      AllEvicted(s[..|s| - 1], cutoff);
    }
  }

  // ----- nine orders pushed out by events long past

  function Jumble(): seq<Trade> {
    seq(9, i => Order("X").(ts := MOMENTUM_WINDOW)) + seq(500, i => Order("Y")) + [Order("X").(ts := MOMENTUM_WINDOW)]
  }

  /** Out of time order ten in the window are too many: 500 earlier events that arrive late
      push nine of them out. */
  lemma {:induction false} LateEventsMissMomentum(d: int)
    ensures
      var t, events := Order("X").(ts := MOMENTUM_WINDOW), Processed(Jumble()[..509]);
      && LagAtMost(events, t, d) && !MomentumComplete(events, t)
      && CountAfter(AllOrders(events + [Process(t)], t.client), t.ts - MOMENTUM_WINDOW) == BURST
  {
    hide Run, AllOrders, BurstCount, IsMomentum, CountAfter;
    var t, s := Order("X").(ts := MOMENTUM_WINDOW), Jumble();
    JumbleCounts();
    assert AllOf(s, ClientId(0)) && |s| == 510 && s[509] == t;
    var events := Processed(s[..509]);
    assert events + [Process(t)] == Processed(s);
    LiveIsTail(s, ClientId(0));
    assert Last500(s) == s[10..];
    JumbleVerdicts(s, t);
  }

  lemma {:induction false} JumbleVerdicts(s: seq<Trade>, t: Trade)
    requires |s| == 510 && BurstCount(s, t) == 10 && BurstCount(s[10..], t) == 1
    ensures IsMomentum(s, t) && !IsMomentum(s[10..], t)
  {
  }

  lemma {:induction false} JumbleCounts()
    ensures
      var t, s := Order("X").(ts := MOMENTUM_WINDOW), Jumble();
      && |s| == 510 && BurstCount(s, t) == 10 && BurstCount(s[10..], t) == 1
      && CountAfter(s, t.ts - MOMENTUM_WINDOW) == 10
  {
    hide BurstCount, CountAfter;
    var t := Order("X").(ts := MOMENTUM_WINDOW);
    var xs, ys, last := seq(9, i => t), seq(500, i => Order("Y")), [t];
    var s := Jumble();
    assert s == xs + ys + last;
    assert s[10..] == ys[1..] + last;
    CountSame(xs, t, t);
    CountSame(ys, Order("Y"), t);
    CountSame(ys[1..], Order("Y"), t);
    CountSame(last, t, t);
    CountConcat(xs + ys, last, t);
    CountConcat(xs, ys, t);
    CountConcat(ys[1..], last, t);
    AfterConcat(xs + ys, last, 0);
    AfterConcat(xs, ys, 0);
    AllAfter(xs, 0);
    NoneAfter(ys, 0);
    AllAfter(last, 0);
  }

  lemma {:induction false} AfterConcat(a: seq<Trade>, b: seq<Trade>, h: int)
    ensures CountAfter(a + b, h) == CountAfter(a, h) + CountAfter(b, h)
    decreases |b|
  {
    if b == [] {
      assert a + b == a;
    } else {
      assert (a + b)[..|a + b| - 1] == a + b[..|b| - 1];
      AfterConcat(a, b[..|b| - 1], h);
    }
  }

  lemma {:induction false} NoneAfter(s: seq<Trade>, h: int)
    requires forall i :: 0 <= i < |s| ==> s[i].ts <= h
    ensures CountAfter(s, h) == 0
  {
    if s != [] {
      NoneAfter(s[..|s| - 1], h);
    }
  }

  // ----- fewer than ten in the window

  /** A time that no trade and no cleanup's cutoff is after. */
  lemma {:induction false} Bound(events: seq<Event>, c: ClientId) returns (h: int)
    ensures forall i :: 0 <= i < |events| && events[i].Cleanup? ==> events[i].now - HOUR <= h
    ensures forall i :: 0 <= i < |AllOrders(events, c)| ==> AllOrders(events, c)[i].ts <= h
  {
    if events == [] {
      h := 0;
    } else {
      var n := |events| - 1;
      h := Bound(events[..n], c);
      var e := events[n];
      var last := if e.Process? then e.trade.ts else e.now - HOUR;
      h := if h < last then last else h;
    }
  }

  lemma {:induction false} PrunedBurstAtMost(full: seq<Trade>, live: seq<Trade>, h: int, t: Trade)
    requires Pruned(full, live, h)
    ensures BurstCount(live, t) <= BurstCount(full, t)
  {
    if full != [] {
      var n, m := |full| - 1, |live| - 1;
      if full[n].ts <= h && Pruned(full[..n], live, h) {
        PrunedBurstAtMost(full[..n], live, h, t);
      } else {
        PrunedBurstAtMost(full[..n], live[..m], h, t);
      }
    }
  }

  lemma {:induction false} BurstInWindow(s: seq<Trade>, t: Trade)
    ensures BurstCount(s, t) <= CountAfter(s, t.ts - MOMENTUM_WINDOW)
  {
    if s != [] {
      BurstInWindow(s[..|s| - 1], t);
    }
  }

  /** With fewer than ten in the window there is no burst, in the full history or what is
      left of it. */
  lemma {:induction false} FewIsNoBurst(events: seq<Event>, t: Trade)
    requires Crowded(events, t, BURST - 1)
    ensures MomentumComplete(events, t)
  {
    hide Run, AllOrders, BurstCount, CountAfter, InOrder, Pruned;
    var after := events + [Process(t)];
    var full, live := AllOrders(after, t.client), HistoryOf(Run(after).orders, t.client);
    var h := Bound(after, t.client);
    NoneAfter(full, h);
    LiveOrdersPruned(after, t.client, h);
    PrunedBurstAtMost(full, live, h, t);
    BurstInWindow(full, t);
  }

  // ----- exactly when

  /** Momentum verdicts are complete in every run in time order, with cleanups at most `d`
      ahead and at most `n` events in the window, exactly when no cleanup can reach into the
      window and no more than 500 are in it; or too few are to make a burst. */
  lemma {:induction false} MomentumCompleteIff(d: int, n: nat)
    ensures (forall events, t :: LagAtMost(events, t, d) && Crowded(events, t, n) ==> MomentumComplete(events, t))
       <==> n < BURST || (n <= MAX_CLIENT_HISTORY && d <= HOUR - MOMENTUM_WINDOW)
  {
    hide MomentumComplete, Crowded, Processed, Flood, Burst;
    if n < BURST {
      forall events, t | LagAtMost(events, t, d) && Crowded(events, t, n)
        ensures MomentumComplete(events, t)
      {
        MoreCrowded(events, t, n, BURST - 1);
        FewIsNoBurst(events, t);
      }
    } else if n > MAX_CLIENT_HISTORY {
      FloodMissesMomentum(d);
      FloodShape();
      MoreCrowded(Processed(Flood()[..500]), Order("X"), 501, n);
    } else if d > HOUR - MOMENTUM_WINDOW {
      var t, events := Order("X").(ts := MOMENTUM_WINDOW - 1), Processed(Burst()) + [Cleanup(HOUR)];
      LateBurstMissesMomentum();
      MoreCrowded(events, t, BURST, n);
      assert LagAtMost(events, t, d);
    } else {
      forall events, t | LagAtMost(events, t, d) && Crowded(events, t, n)
        ensures MomentumComplete(events, t)
      {
        MoreCrowded(events, t, n, MAX_CLIENT_HISTORY);
        MomentumVerdict(events, t);
      }
    }
  }

  lemma {:induction false} MoreCrowded(events: seq<Event>, t: Trade, n: nat, more: nat)
    requires Crowded(events, t, n) && n <= more
    ensures Crowded(events, t, more)
  {
  }

  lemma {:induction false} MomentumVerdict(events: seq<Event>, t: Trade)
    requires LagAtMost(events, t, HOUR - MOMENTUM_WINDOW) && Crowded(events, t, MAX_CLIENT_HISTORY)
    ensures MomentumComplete(events, t)
  {
    hide Run, AllOrders, IsMomentum, InOrder, CountAfter;
    MomentumVerdictIsComplete(events, t);
  }
}
