/**
 The order lifecycle state machine (services/gateway/order_lifecycle.go): registration
 and restoring of orders, legal state transitions with their history, fills and replaces.
 Timestamps are not part of this model.
 */
module OrderLifecycle {
  import opened Basics

  datatype OrderState =
    | Unset
    | New
    | Pending
    | Working
    | Partial
    | Filled
    | CancelPending
    | Canceled
    | Rejected
    | Expired
    | Other(name: string)

  datatype Reason = Text(text: string) | FillOf(qty: real, price: real) | RestoredFromDurableState

  datatype Change = Change(from: OrderState, into: OrderState, reason: Reason)

  datatype Order = Order(
    id: string,
    qty: real,
    price: real,
    filledQty: real,
    avgFillPrice: real,
    leavesQty: real,
    state: OrderState,
    history: seq<Change>)

  /** The legal transitions. */
  function Targets(state: OrderState): seq<OrderState> {
    match state
    case New => [Pending, Rejected]
    case Pending => [Working, Rejected, Canceled]
    case Working => [Partial, Filled, CancelPending, Rejected, Expired]
    case Partial => [Filled, CancelPending, Expired]
    case CancelPending => [Canceled, Partial, Filled]
    case _ => []
  }

  predicate Legal(from: OrderState, into: OrderState) {
    into in Targets(from)
  }

  predicate Terminal(state: OrderState) {
    state == Filled || state == Canceled || state == Rejected || state == Expired
  }

  function AtLeastZero(x: real): real {
    if x < 0.0 then 0.0 else x
  }

  // ----- one order

  datatype Op =
    | ToState(into: OrderState, reason: string)
    | Fill(qty: real, price: real)
    | Replace(price: real, qty: real)

  function Registered(o: Order): Order {
    o.(state := New, leavesQty := o.qty)
  }

  function Restored(o: Order): Order {
    var state := if o.state == Unset then New else o.state;
    var leaves := if o.leavesQty == 0.0 then AtLeastZero(o.qty - o.filledQty) else o.leavesQty;
    o.(state := state, leavesQty := leaves, history := o.history + [Change(New, state, RestoredFromDurableState)])
  }

  function Moved(o: Order, into: OrderState, reason: Reason): Order {
    o.(state := into, history := o.history + [Change(o.state, into, reason)])
  }

  predicate CanMove(o: Order, into: OrderState) {
    !Terminal(o.state) && Legal(o.state, into)
  }

  /** The value of the fills an order accounts for. */
  function FillValue(o: Order): real {
    o.avgFillPrice * o.filledQty
  }

  /** The average after a fill; unchanged unless something is then filled. */
  function NewAverage(o: Order, qty: real, price: real): real {
    if o.filledQty + qty > 0.0 then (o.avgFillPrice * o.filledQty + price * qty) / (o.filledQty + qty)
    else o.avgFillPrice
  }

  /** Quantities after a fill, in any state. */
  function Counted(o: Order, qty: real, price: real): Order {
    o.(avgFillPrice := NewAverage(o, qty, price),
       filledQty := o.filledQty + qty,
       leavesQty := AtLeastZero(o.qty - (o.filledQty + qty)))
  }

  function FillTarget(o: Order): OrderState {
    if o.leavesQty == 0.0 then Filled else Partial
  }

  function Applied(o: Order, op: Op): Order {
    match op
    case ToState(into, reason) => if CanMove(o, into) then Moved(o, into, Text(reason)) else o
    case Fill(qty, price) =>
      var c := Counted(o, qty, price);
      if Legal(c.state, FillTarget(c)) then Moved(c, FillTarget(c), FillOf(qty, price)) else c
    case Replace(price, qty) => o.(price := price, qty := qty, leavesQty := AtLeastZero(qty - o.filledQty))
  }

  function AppliedAll(o: Order, ops: seq<Op>): Order {
    if ops == [] then o else Applied(AppliedAll(o, ops[..|ops| - 1]), ops[|ops| - 1])
  }

  // ----- all orders

  datatype Event = Register(order: Order) | Restore(order: Order) | Act(id: string, op: Op)

  function Step(orders: map<string, Order>, e: Event): map<string, Order> {
    match e
    case Register(o) => if o.id in orders then orders else orders[o.id := Registered(o)]
    case Restore(o) => if o.id in orders then orders else orders[o.id := Restored(o)]
    case Act(id, op) => if id in orders then orders[id := Applied(orders[id], op)] else orders
  }

  function Run(events: seq<Event>): map<string, Order> {
    if events == [] then map[] else Step(Run(events[..|events| - 1]), events[|events| - 1])
  }

  datatype Result = Ok(order: Order) | NotFound | AlreadyRegistered | TerminalState | InvalidTransition

  class StateMachine {
    var orders: map<string, Order>

    constructor ()
      ensures orders == Run([])
    {
      orders := map[];
    }

    method RegisterOrder(o: Order) returns (r: Result)
      modifies this
      ensures orders == Step(old(orders), Register(o))
      ensures r == if o.id in old(orders) then AlreadyRegistered else Ok(Registered(o))
    {
      if o.id in orders {
        return AlreadyRegistered;
      }
      var entered := o.(state := New, leavesQty := o.qty);
      orders := orders[o.id := entered];
      return Ok(entered);
    }

    method RestoreOrder(o: Order) returns (r: Result)
      modifies this
      ensures orders == Step(old(orders), Restore(o))
      ensures r == if o.id in old(orders) then AlreadyRegistered else Ok(Restored(o))
    {
      if o.id in orders {
        return AlreadyRegistered;
      }
      var entered := o;
      if entered.state == Unset {
        entered := entered.(state := New);
      }
      if entered.leavesQty == 0.0 {
        entered := entered.(leavesQty := entered.qty - entered.filledQty);
        if entered.leavesQty < 0.0 {
          entered := entered.(leavesQty := 0.0);
        }
      }
      entered := entered.(history := entered.history + [Change(New, entered.state, RestoredFromDurableState)]);
      orders := orders[o.id := entered];
      return Ok(entered);
    }

    method Transition(id: string, into: OrderState, reason: string) returns (r: Result)
      modifies this
      ensures orders == Step(old(orders), Act(id, ToState(into, reason)))
      ensures r == if id !in old(orders) then NotFound
                   else if Terminal(old(orders)[id].state) then TerminalState
                   else if !Legal(old(orders)[id].state, into) then InvalidTransition
                   else Ok(orders[id])
    {
      if id !in orders {
        return NotFound;
      }
      var order := orders[id];
      var valid := IsValidTarget(order.state, into);
      if Terminal(order.state) {
        assert orders[id := order] == orders;
        return TerminalState;
      }
      if !valid {
        assert orders[id := order] == orders;
        return InvalidTransition;
      }
      order := order.(history := order.history + [Change(order.state, into, Text(reason))], state := into);
      orders := orders[id := order];
      return Ok(order);
    }

    method RecordFill(id: string, qty: real, price: real) returns (r: Result)
      modifies this
      ensures orders == Step(old(orders), Act(id, Fill(qty, price)))
      ensures r == if id in old(orders) then Ok(orders[id]) else NotFound
    {
      if id !in orders {
        return NotFound;
      }
      var order := orders[id];
      var total := order.filledQty + qty;
      if total > 0.0 {
        order := order.(avgFillPrice := (order.avgFillPrice * order.filledQty + price * qty) / total);
      }
      order := order.(filledQty := total);
      order := order.(leavesQty := order.qty - order.filledQty);
      if order.leavesQty < 0.0 {
        order := order.(leavesQty := 0.0);
      }
      assert order == Counted(orders[id], qty, price);
      var into := if order.leavesQty == 0.0 then Filled else Partial;
      var valid := IsValidTarget(order.state, into);
      if valid {
        order := order.(history := order.history + [Change(order.state, into, FillOf(qty, price))], state := into);
      }
      orders := orders[id := order];
      return Ok(order);
    }

    method Cancel(id: string) returns (r: Result)
      modifies this
      ensures orders == Step(old(orders), Act(id, ToState(CancelPending, "user_cancel_request")))
      ensures r == if id !in old(orders) then NotFound
                   else if Terminal(old(orders)[id].state) then TerminalState
                   else if !Legal(old(orders)[id].state, CancelPending) then InvalidTransition
                   else Ok(orders[id])
    {
      r := Transition(id, CancelPending, "user_cancel_request");
    }

    method ConfirmCancel(id: string) returns (r: Result)
      modifies this
      ensures orders == Step(old(orders), Act(id, ToState(Canceled, "exchange_cancel_ack")))
      ensures r == if id !in old(orders) then NotFound
                   else if Terminal(old(orders)[id].state) then TerminalState
                   else if !Legal(old(orders)[id].state, Canceled) then InvalidTransition
                   else Ok(orders[id])
    {
      r := Transition(id, Canceled, "exchange_cancel_ack");
    }

    method ApplyReplace(id: string, price: real, qty: real) returns (r: Result)
      modifies this
      ensures orders == Step(old(orders), Act(id, Replace(price, qty)))
      ensures r == if id in old(orders) then Ok(orders[id]) else NotFound
    {
      if id !in orders {
        return NotFound;
      }
      var order := orders[id].(price := price, qty := qty, leavesQty := qty - orders[id].filledQty);
      if order.leavesQty < 0.0 {
        order := order.(leavesQty := 0.0);
      }
      orders := orders[id := order];
      return Ok(order);
    }
  }

  /** The scan of the legal targets. */
  method IsValidTarget(from: OrderState, into: OrderState) returns (valid: bool)
    ensures valid == Legal(from, into)
  {
    hide Targets;
    var targets := Targets(from);
    valid := false;
    for i := 0 to |targets|
      invariant !valid && into !in targets[..i]
    {
      if targets[i] == into {
        return true;
      }
    }
    assert targets[..|targets|] == targets;
  }

  // ----- from the machine to one order

  /** An order as it first entered the machine. */
  function Entry(events: seq<Event>, id: string): Option<Order> {
    if events == [] then None
    else
      var before, e := Entry(events[..|events| - 1], id), events[|events| - 1];
      if before.Some? then before
      else if e.Register? && e.order.id == id then Some(Registered(e.order))
      else if e.Restore? && e.order.id == id then Some(Restored(e.order))
      else None
  }

  /** What was done to an order since. */
  function OpsOn(events: seq<Event>, id: string): seq<Op> {
    if events == [] then []
    else
      var n := |events| - 1;
      OpsOn(events[..n], id)
      + if Entry(events[..n], id).Some? && events[n].Act? && events[n].id == id then [events[n].op] else []
  }

  /** Every order of every run is its entry with the operations on it applied; a second
      registration and operations on other orders do not touch it. */
  lemma {:induction false} RunIsPerOrder(events: seq<Event>, id: string)
    ensures id in Run(events) <==> Entry(events, id).Some?
    ensures id in Run(events) ==> Run(events)[id] == AppliedAll(Entry(events, id).value, OpsOn(events, id))
    ensures Entry(events, id).None? ==> OpsOn(events, id) == []
  {
    hide Applied, Registered, Restored;
    if events != [] {
      var n := |events| - 1;
      RunIsPerOrder(events[..n], id);
      var ops := OpsOn(events[..n], id);
      if Entry(events[..n], id).Some? && events[n].Act? && events[n].id == id {
        assert (ops + [events[n].op])[..|ops|] == ops;
      } else {
        assert OpsOn(events, id) == ops + [] == ops;
      }
    }
  }

  // ----- what every run keeps

  /** A connected chain of legal transitions. */
  ghost predicate Chain(changes: seq<Change>, from: OrderState, into: OrderState) {
    if changes == [] then from == into
    else
      var n := |changes| - 1;
      changes[n].into == into && Legal(changes[n].from, into) && Chain(changes[..n], from, changes[n].from)
  }

  lemma {:induction false} ChainGrows(
      history: seq<Change>, k: nat, from: OrderState, state: OrderState, c: Change)
    requires k <= |history| && Chain(history[k..], from, state) && c.from == state && Legal(state, c.into)
    ensures Chain((history + [c])[k..], from, c.into)
  {
    var grown := (history + [c])[k..];
    assert grown == history[k..] + [c];
    assert grown[..|grown| - 1] == history[k..];
  }

  /** Whatever is done to an order, its history grows by a connected chain of legal
      transitions from the state it had to the state it has. */
  lemma {:induction false} HistoryIsChain(o: Order, ops: seq<Op>)
    ensures
      var r := AppliedAll(o, ops);
      o.history <= r.history && Chain(r.history[|o.history|..], o.state, r.state)
  {
    hide Legal, NewAverage, AtLeastZero;
    if ops == [] {
      assert o.history[|o.history|..] == [];
    } else {
      var n := |ops| - 1;
      var p, op := AppliedAll(o, ops[..n]), ops[n];
      HistoryIsChain(o, ops[..n]);
      match op
      case ToState(into, reason) =>
        if CanMove(p, into) {
          ChainGrows(p.history, |o.history|, o.state, p.state, Change(p.state, into, Text(reason)));
        }
      case Fill(qty, price) =>
        var c := Counted(p, qty, price);
        if Legal(c.state, FillTarget(c)) {
          ChainGrows(
            p.history, |o.history|, o.state, p.state, Change(p.state, FillTarget(c), FillOf(qty, price)));
        }
      case Replace(_, _) =>
    }
  }

  /** In every run, an order's history is what it entered with, then a restore event if it
      was restored, then a chain of legal transitions ending in its state. */
  lemma {:induction false} RunHistory(events: seq<Event>, id: string)
    requires Entry(events, id).Some?
    ensures id in Run(events)
    ensures
      var entry, o := Entry(events, id).value, Run(events)[id];
      entry.history <= o.history && Chain(o.history[|entry.history|..], entry.state, o.state)
  {
    hide Entry, Run, OpsOn, AppliedAll;
    RunIsPerOrder(events, id);
    HistoryIsChain(Entry(events, id).value, OpsOn(events, id));
  }

  /** How orders enter: new with their own history, or restored with one more event that
      ends in the restored state. */
  lemma {:induction false} EntryShape(events: seq<Event>, id: string)
    requires Entry(events, id).Some?
    ensures
      var entry := Entry(events, id).value;
      || (exists i :: 0 <= i < |events| && events[i].Register? && entry == Registered(events[i].order) && entry.state == New)
      || (exists i :: 0 <= i < |events| && events[i].Restore? && entry == Restored(events[i].order)
            && entry.history == events[i].order.history + [Change(New, entry.state, RestoredFromDurableState)])
  {
    var n := |events| - 1;
    if Entry(events[..n], id).Some? {
      EntryShape(events[..n], id);
      assert forall i :: 0 <= i < n ==> events[..n][i] == events[i];
    } else {
      assert events[n].Register? || events[n].Restore?;
    }
  }

  /** A terminal state is never left, and no more history is written. */
  lemma {:induction false} TerminalIsFinal(o: Order, ops: seq<Op>)
    requires Terminal(o.state)
    ensures AppliedAll(o, ops).state == o.state && AppliedAll(o, ops).history == o.history
  {
    if ops != [] {
      TerminalIsFinal(o, ops[..|ops| - 1]);
    }
  }

  /** In every run, an order once terminal keeps its state and history. */
  lemma {:induction false} RunTerminalIsFinal(events: seq<Event>, more: seq<Event>, id: string)
    requires id in Run(events) && Terminal(Run(events)[id].state)
    ensures id in Run(events + more)
    ensures Run(events + more)[id].state == Run(events)[id].state
    ensures Run(events + more)[id].history == Run(events)[id].history
    decreases |more|
  {
    hide Legal;
    if more == [] {
      assert events + more == events;
    } else {
      var n := |more| - 1;
      RunTerminalIsFinal(events, more[..n], id);
      assert (events + more)[..|events + more| - 1] == events + more[..n];
      NoWayOut(Run(events)[id].state);
    }
  }

  lemma {:induction false} NoWayOut(state: OrderState)
    requires Terminal(state)
    ensures forall into :: !Legal(state, into)
  {
  }

  // ----- which states follow which

  /** The states a state can be entered from. */
  function Sources(into: OrderState): set<OrderState> {
    match into
    case Pending => {New}
    case Working => {Pending}
    case Partial => {Working, CancelPending}
    case Filled => {Working, Partial, CancelPending}
    case CancelPending => {Working, Partial}
    case Canceled => {Pending, CancelPending}
    case Rejected => {New, Pending, Working}
    case Expired => {Working, Partial}
    case _ => {}
  }

  /** The table of transitions, read from its other end. */
  lemma {:induction false} LegalIffSource(from: OrderState, into: OrderState)
    ensures Legal(from, into) <==> from in Sources(into)
  {
  }

  /** The market has seen the order. */
  predicate Worked(state: OrderState) {
    state == Working || state == Partial || state == Filled || state == CancelPending || state == Expired
  }

  /** A new order gets there only by being accepted: from PENDING to WORKING. */
  lemma {:induction false} WorkedWasAccepted(changes: seq<Change>, into: OrderState)
    requires Chain(changes, New, into) && Worked(into)
    ensures exists k :: 0 <= k < |changes| && changes[k].from == Pending && changes[k].into == Working
  {
    hide Legal;
    var n := |changes| - 1;
    LegalIffSource(changes[n].from, into);
    if into != Working {
      WorkedWasAccepted(changes[..n], changes[n].from);
    }
  }

  // ----- fills

  /** The states in which a fill moves an order. */
  predicate Open(state: OrderState) {
    state == Working || state == Partial || state == CancelPending
  }

  /** A fill of an open order ends it exactly when it reaches the quantity, and otherwise
      leaves it partly filled; in any other state it only changes the quantities. */
  lemma {:induction false} FillMovesTo(o: Order, qty: real, price: real)
    ensures
      var r := Applied(o, Fill(qty, price));
      && (Open(o.state) ==> (r.state == Filled <==> o.filledQty + qty >= o.qty))
      && (Open(o.state) ==> (r.state == Partial <==> o.filledQty + qty < o.qty))
      && (!Open(o.state) ==> r.state == o.state)
      && (r.state != o.state ==> r.history == o.history + [Change(o.state, r.state, FillOf(qty, price))])
      && (r.state == o.state ==> r.history == o.history)
  {
    hide NewAverage;
  }

  /** Nothing but fills takes an order to PARTIAL or FILLED. */
  ghost predicate OnlyFillsFill(ops: seq<Op>) {
    forall i :: 0 <= i < |ops| && ops[i].ToState? ==> ops[i].into != Filled && ops[i].into != Partial
  }

  /** Operation `k` is a fill that brings an open order to its quantity. */
  ghost predicate Completes(o: Order, ops: seq<Op>, k: nat) {
    && k < |ops| && ops[k].Fill?
    && Open(AppliedAll(o, ops[..k]).state)
    && AppliedAll(o, ops[..k]).filledQty + ops[k].qty >= AppliedAll(o, ops[..k]).qty
  }

  /** Then an order is FILLED exactly when one of them brought it to its quantity. */
  lemma {:induction false} FilledIffCompleted(o: Order, ops: seq<Op>)
    requires o.state != Filled && OnlyFillsFill(ops)
    ensures AppliedAll(o, ops).state == Filled <==> exists k: nat :: Completes(o, ops, k)
  {
    hide Applied;
    if ops != [] {
      var n := |ops| - 1;
      var p, op := AppliedAll(o, ops[..n]), ops[n];
      FilledIffCompleted(o, ops[..n]);
      CompletesLast(o, ops);
      AppliedState(p, op);
    }
  }

  lemma {:induction false} CompletesLast(o: Order, ops: seq<Op>)
    requires ops != []
    ensures
      var n := |ops| - 1;
      (exists k: nat :: Completes(o, ops, k)) <==> (exists k: nat :: Completes(o, ops[..n], k)) || Completes(o, ops, n)
  {
    hide AppliedAll;
    var n := |ops| - 1;
    assert forall k: nat :: k < n ==> ops[..n][..k] == ops[..k];
    forall k: nat | k < n
      ensures Completes(o, ops, k) <==> Completes(o, ops[..n], k)
    {
    }
    if exists k: nat :: Completes(o, ops, k) {
      var k: nat :| Completes(o, ops, k);
      assert k < n ==> Completes(o, ops[..n], k);
    }
    if exists k: nat :: Completes(o, ops[..n], k) {
      var k: nat :| Completes(o, ops[..n], k);
      assert Completes(o, ops, k);
    }
  }

  lemma {:induction false} AppliedState(o: Order, op: Op)
    requires op.ToState? ==> op.into != Filled && op.into != Partial
    ensures Applied(o, op).state == Filled
       <==> o.state == Filled || (op.Fill? && Open(o.state) && o.filledQty + op.qty >= o.qty)
  {
    hide NewAverage;
    if op.Fill? {
      FillMovesTo(o, op.qty, op.price);
    }
  }

  /** In every run: a registered order, moved to PARTIAL and FILLED by fills only, is FILLED
      exactly when a fill brought it to its quantity while it was open. */
  lemma {:induction false} RunFilledIff(events: seq<Event>, id: string)
    requires Entry(events, id).Some? && Entry(events, id).value.state == New && OnlyFillsFill(OpsOn(events, id))
    ensures id in Run(events)
    ensures Run(events)[id].state == Filled
       <==> exists k: nat :: Completes(Entry(events, id).value, OpsOn(events, id), k)
  {
    hide Entry, Run, OpsOn, AppliedAll, Completes, OnlyFillsFill;
    RunIsPerOrder(events, id);
    FilledIffCompleted(Entry(events, id).value, OpsOn(events, id));
  }

  // ----- terms

  /** The price and quantity last agreed. */
  function Terms(o: Order, ops: seq<Op>): (real, real) {
    if ops == [] then (o.price, o.qty)
    else
      var op := ops[|ops| - 1];
      if op.Replace? then (op.price, op.qty) else Terms(o, ops[..|ops| - 1])
  }

  /** An order has the price and quantity of its latest replace, and nothing else changes
      them. */
  lemma {:induction false} TermsAreLatest(o: Order, ops: seq<Op>)
    ensures (AppliedAll(o, ops).price, AppliedAll(o, ops).qty) == Terms(o, ops)
  {
    hide NewAverage, Legal, AtLeastZero;
    if ops != [] {
      TermsAreLatest(o, ops[..|ops| - 1]);
    }
  }

  /** A replace changes no state, no history and nothing filled. */
  lemma {:induction false} ReplaceKeeps(o: Order, price: real, qty: real)
    ensures
      var r := Applied(o, Replace(price, qty));
      && r.state == o.state && r.history == o.history && r.id == o.id
      && r.filledQty == o.filledQty && r.avgFillPrice == o.avgFillPrice
      && r.leavesQty >= 0.0 && (r.leavesQty == 0.0 <==> qty <= o.filledQty)
  {
  }

  // ----- quantities

  ghost predicate LeavesMatch(o: Order) {
    o.leavesQty == AtLeastZero(o.qty - o.filledQty)
  }

  /** What is left to fill is the quantity less what is filled, never negative, in every
      state that follows a consistent one. */
  lemma {:induction false} LeavesStayRight(o: Order, ops: seq<Op>)
    requires LeavesMatch(o)
    ensures LeavesMatch(AppliedAll(o, ops))
  {
    hide NewAverage, Legal;
    if ops != [] {
      LeavesStayRight(o, ops[..|ops| - 1]);
    }
  }

  /** Registering makes an unfilled order of non-negative quantity consistent; restoring,
      one that comes consistent or with nothing left recorded. */
  lemma {:induction false} EntryLeaves(o: Order)
    ensures o.filledQty == 0.0 && o.qty >= 0.0 ==> LeavesMatch(Registered(o))
    ensures LeavesMatch(Restored(o)) <==> o.leavesQty == 0.0 || LeavesMatch(o)
  {
  }

  /** An order enters as it is, but for its state and what is left of it: registered it is
      NEW with all of it left; restored it keeps its state, or is NEW if it has none. */
  lemma {:induction false} EntryKeeps(o: Order)
    ensures
      var a, b := Registered(o), Restored(o);
      && a.state == New && a.leavesQty == o.qty && a == o.(state := a.state, leavesQty := a.leavesQty)
      && b.state == (if o.state == Unset then New else o.state)
      && b == o.(state := b.state, leavesQty := b.leavesQty, history := b.history)
  {
  }

  /** What the fills among some operations are worth. */
  function ValueOf(ops: seq<Op>): real {
    if ops == [] then 0.0
    else
      var op := ops[|ops| - 1];
      ValueOf(ops[..|ops| - 1]) + if op.Fill? then op.price * op.qty else 0.0
  }

  function QuantityOf(ops: seq<Op>): real {
    if ops == [] then 0.0
    else
      var op := ops[|ops| - 1];
      QuantityOf(ops[..|ops| - 1]) + if op.Fill? then op.qty else 0.0
  }

  lemma {:induction false} AverageTimesTotal(value: real, total: real)
    requires total != 0.0
    ensures (value / total) * total == value
  {
  }

  lemma {:induction false} Distribute(a: real, b: real, c: real)
    ensures a * (b + c) == a * b + a * c
  {
  }

  /** One fill is accounted for exactly when something is then filled, or its price makes
      no difference. */
  lemma {:induction false} FillCountsIff(o: Order, qty: real, price: real)
    ensures FillValue(Counted(o, qty, price)) == FillValue(o) + price * qty
       <==> o.filledQty + qty > 0.0 || o.avgFillPrice * qty == price * qty
  {
    if o.filledQty + qty > 0.0 {
      AverageTimesTotal(o.avgFillPrice * o.filledQty + price * qty, o.filledQty + qty);
    } else {
      Distribute(o.avgFillPrice, o.filledQty, qty);
      assert FillValue(Counted(o, qty, price)) == o.avgFillPrice * (o.filledQty + qty);
    }
  }

  /** Taking back ten units at 90 that were filled at 100: the average stays, and the
      hundred gained is not accounted for. */
  lemma {:induction false} FillToZeroIsLost(o: Order)
    requires o.filledQty == 10.0 && o.avgFillPrice == 100.0
    ensures FillValue(Counted(o, -10.0, 90.0)) == 0.0 && FillValue(o) + 90.0 * -10.0 == 100.0
  {
  }

  ghost predicate PositiveFills(ops: seq<Op>) {
    forall i :: 0 <= i < |ops| && ops[i].Fill? ==> ops[i].qty > 0.0
  }

  lemma {:induction false} FilledTotal(o: Order, ops: seq<Op>)
    ensures AppliedAll(o, ops).filledQty == o.filledQty + QuantityOf(ops)
  {
    hide NewAverage, Legal, AtLeastZero;
    if ops != [] {
      FilledTotal(o, ops[..|ops| - 1]);
    }
  }

  lemma {:induction false} QuantityPositive(ops: seq<Op>)
    requires PositiveFills(ops)
    ensures QuantityOf(ops) >= 0.0
  {
    if ops != [] {
      QuantityPositive(ops[..|ops| - 1]);
    }
  }

  lemma {:induction false} ValueUnchanged(o: Order, op: Op)
    ensures !op.Fill? ==> FillValue(Applied(o, op)) == FillValue(o)
    ensures op.Fill? ==> FillValue(Applied(o, op)) == FillValue(Counted(o, op.qty, op.price))
  {
    hide NewAverage, Legal, AtLeastZero;
  }

  /** Average price times filled quantity is the value of all fills recorded, on top of
      what the order entered with. */
  lemma {:induction false} AverageAccountsForFills(o: Order, ops: seq<Op>)
    requires o.filledQty >= 0.0 && PositiveFills(ops)
    ensures FillValue(AppliedAll(o, ops)) == FillValue(o) + ValueOf(ops)
  {
    hide FillValue, Applied, Counted;
    if ops != [] {
      var n := |ops| - 1;
      var p, op := AppliedAll(o, ops[..n]), ops[n];
      AverageAccountsForFills(o, ops[..n]);
      FilledTotal(o, ops[..n]);
      QuantityPositive(ops[..n]);
      ValueUnchanged(p, op);
      if op.Fill? {
        FillCountsIff(p, op.qty, op.price);
      }
    }
  }

  /** In every run of positive fills: the quantity filled, what is left and the average
      price of every order that entered consistent. */
  lemma {:induction false} RunQuantities(events: seq<Event>, id: string)
    requires Entry(events, id).Some? && PositiveFills(OpsOn(events, id))
    requires Entry(events, id).value.filledQty >= 0.0 && LeavesMatch(Entry(events, id).value)
    ensures id in Run(events)
    ensures
      var entry, ops, o := Entry(events, id).value, OpsOn(events, id), Run(events)[id];
      && o.filledQty == entry.filledQty + QuantityOf(ops)
      && LeavesMatch(o)
      && FillValue(o) == FillValue(entry) + ValueOf(ops)
  {
    hide Entry, Run, OpsOn, AppliedAll, FillValue, LeavesMatch;
    var entry, ops := Entry(events, id).value, OpsOn(events, id);
    RunIsPerOrder(events, id);
    FilledTotal(entry, ops);
    LeavesStayRight(entry, ops);
    AverageAccountsForFills(entry, ops);
  }
}
