/**
 Which halts survive, over the interleavings of `KillSwitchSteps`: exactly which overlaps
 and crashes can lose one, and exactly when recovery gives the halted slots and no others.
 */
module KillSwitchSlots {
  import opened KillSwitch
  import opened KillSwitchSteps
  import opened KillSwitchReset

  // ----- targets that are not tripped and reset at a time

  /** No target of `ids` is tripped while it is being reset, nor the other way round. */
  ghost predicate TargetsSafe(d: Discipline, group: Group, ids: iset<string>) {
    forall t: Op, r: Op :: t.TripTarget? && r.ResetTarget? && t.group == r.group == group && t.id == r.id && t.id in ids ==>
      !d.overlap(t, r) && !d.overlap(r, t)
  }

  /** The pairs that clash on a slot are the trips and resets of its target. */
  lemma {:induction false} SlotClash(a: Op, b: Op, group: Group, id: string)
    ensures Clash(a, b, SlotFor(group, id)) <==>
      || (a.TripTarget? && b.ResetTarget? && a.group == b.group == group && a.id == b.id == id)
      || (a.ResetTarget? && b.TripTarget? && a.group == b.group == group && a.id == b.id == id)
  {
  }

  lemma {:induction false} TargetsSafeAt(d: Discipline, group: Group, ids: iset<string>, id: string)
    requires TargetsSafe(d, group, ids) && id in ids
    ensures CellSafe(d, SlotFor(group, id))
  {
    hide Clash;
    forall a, b | Clash(a, b, SlotFor(group, id))
      ensures !d.overlap(a, b)
    {
      SlotClash(a, b, group, id);
    }
  }

  ghost predicate Injective(h: Hashes, group: Group, ids: iset<string>) {
    forall a, b :: a in ids && b in ids && SlotOf(h, group, a) == SlotOf(h, group, b) ==> a == b
  }

  predicate OpOver(op: Op, group: Group, ids: iset<string>) {
    (op.TripTarget? || op.ResetTarget?) && op.group == group ==> op.id in ids
  }

  /** A run only names ids of a given set. */
  ghost predicate Over(events: seq<Event>, group: Group, ids: iset<string>) {
    forall i :: 0 <= i < |events| && events[i].Start? ==> OpOver(events[i].op, group, ids)
  }

  ghost predicate WorldOver(w: World, group: Group, ids: iset<string>) {
    && (forall k :: k in w.tasks ==> OpOver(w.tasks[k].op, group, ids))
    && (forall id :: id in Tripped(w.state.log, group) ==> id in ids)
  }

  lemma {:induction false} StepOver(w: World, h: Hashes, e: Event, group: Group, ids: iset<string>)
    requires KeysBelow(w) && WorldOver(w, group, ids) && (e.Start? ==> OpOver(e.op, group, ids))
    ensures WorldOver(Next(w, h, e), group, ids)
  {
    hide Tripped, OpOver, EntryOf, Started, Restored, Acted;
    match e
    case Initiate(token, admin) =>
    case Start(op) => StartedShape(w, h, op, Flag);
    case Act(k) =>
      if k in w.tasks {
        ActedLog(w, h, k);
        ActedTasks(w, h, k);
        LoggedOver(w.state.log, w.tasks[k], group, ids);
      } else {
        ActedNothing(w, h, k);
      }
    case Restart => RestoredLog(w.state.log, h);
  }

  lemma {:induction false} LoggedOver(log: seq<Entry>, t: Task, group: Group, ids: iset<string>)
    requires OpOver(t.op, group, ids) && forall id :: id in Tripped(log, group) ==> id in ids
    ensures forall id :: id in Tripped(log + [EntryOf(t.op, t.found, t.initiator)], group) ==> id in ids
  {
    hide Tripped, EntryOf;
    LoggedTripped(log, t.op, t.found, t.initiator, group);
  }

  lemma {:induction false} RunOver(events: seq<Event>, h: Hashes, group: Group, ids: iset<string>)
    requires Over(events, group, ids)
    ensures KeysBelow(Run(events, h)) && WorldOver(Run(events, h), group, ids)
  {
    hide Next, Tripped, OpOver;
    if events == [] {
      NothingTripped();
    } else {
      var n := |events| - 1;
      RunOver(events[..n], h, group, ids);
      StepOver(Run(events[..n], h), h, events[n], group, ids);
      StepKeepsKeys(Run(events[..n], h), h, events[n]);
    }
  }

  ghost predicate ExactSlots(s: State, h: Hashes, group: Group) {
    BankOf(s, group).halted == RestoredBank(s.log, h, group).halted
  }

  /** Two ids in one slot: halting one and resetting the other loses the live halt, which
      the log still holds. Nothing overlaps in this run. */
  lemma {:induction false} CollisionLosesHalt(h: Hashes, d: Discipline, group: Group, a: string, b: string)
      returns (events: seq<Event>)
    requires a != b && SlotOf(h, group, a) == SlotOf(h, group, b)
    ensures Obeys(events, d, h) && Quiet(Run(events, h)) && Over(events, group, iset{a, b})
    ensures a in Tripped(Run(events, h).state.log, group)
    ensures SlotOf(h, group, a) !in BankOf(Run(events, h).state, group).halted
    ensures !ExactSlots(Run(events, h).state, h, group)
  {
    hide Run, Obeys, Tripped, EntryOf, Effect, OpOver;
    NothingYet(h, d);
    NothingTripped();
    var trip, reset := TripTarget(group, a, "", ""), ResetTarget(group, b, "", "");
    var e1 := Partly([], h, d, trip);
    var w1 := Run(e1, h);
    var e2 := Finish(e1, h, d, 0);
    LoggedTripped(w1.state.log, trip, w1.tasks[0].found, w1.tasks[0].initiator, group);
    var w2 := Run(e2, h);
    var e3 := Partly(e2, h, d, reset);
    var w3 := Run(e3, h);
    EffectAt(w2.state, h, reset, Flag);
    ResetEffect(w2.state, h, group, b);
    events := Finish(e3, h, d, 1);
    LoggedTripped(w3.state.log, reset, w3.tasks[1].found, w3.tasks[1].initiator, group);
    assert a in Tripped(Run(events, h).state.log, group).Keys;
    assert OpOver(trip, group, iset{a, b}) && OpOver(reset, group, iset{a, b}) by { OverBoth(group, a, b); }
  }

  lemma {:induction false} OverBoth(group: Group, a: string, b: string)
    ensures OpOver(TripTarget(group, a, "", ""), group, iset{a, b}) && OpOver(ResetTarget(group, b, "", ""), group, iset{a, b})
  {
  }

  lemma {:induction false} ResetEffect(s: State, h: Hashes, group: Group, id: string)
    ensures SlotOf(h, group, id) !in BankOf(Effect(s, h, ResetTarget(group, id, "", "")), group).halted
  {
  }

  lemma {:induction false} OverMore(events: seq<Event>, group: Group, ids: iset<string>, more: iset<string>)
    requires Over(events, group, ids) && ids <= more
    ensures Over(events, group, more)
  {
  }

  // ----- what runs over some ids keep

  /** Targets a run does not name do not clash, and those it names are kept from it. */
  lemma {:induction false} StepTargetsApart(
      w: World, h: Hashes, d: Discipline, e: Event, group: Group, ids: iset<string>)
    requires KeysBelow(w) && TargetsApart(w, group) && TargetsSafe(d, group, ids) && Allowed(d, w, e)
    requires WorldOver(Next(w, h, e), group, ids)
    ensures TargetsApart(Next(w, h, e), group)
  {
    hide Next, NoClash, Allowed, TargetsSafe;
    forall id
      ensures NoClash(Next(w, h, e), SlotFor(group, id))
    {
      assert NoClash(w, SlotFor(group, id));
      if id in ids {
        TargetsSafeAt(d, group, ids, id);
        StepNoClash(w, h, d, e, SlotFor(group, id));
      } else {
        NotOver(Next(w, h, e), group, ids, id);
      }
    }
  }

  lemma {:induction false} NotOver(w: World, group: Group, ids: iset<string>, id: string)
    requires WorldOver(w, group, ids) && id !in ids
    ensures NoClash(w, SlotFor(group, id))
  {
    hide Clash, Tripped;
    forall j, k | j in w.tasks && k in w.tasks
      ensures !Clash(w.tasks[j].op, w.tasks[k].op, SlotFor(group, id))
    {
      SlotClash(w.tasks[j].op, w.tasks[k].op, group, id);
    }
  }

  lemma {:induction false} RunSlots(events: seq<Event>, h: Hashes, d: Discipline, group: Group, ids: iset<string>)
    requires TargetsSafe(d, group, ids) && Obeys(events, d, h) && Over(events, group, ids)
    ensures KeysBelow(Run(events, h)) && TargetsApart(Run(events, h), group) && SlotInv(Run(events, h), h, group)
  {
    hide Next, SlotInv, TargetsApart, TargetsSafe, Allowed, WorldOver;
    if events == [] {
      StartSlots(h, group);
    } else {
      var n := |events| - 1;
      var w, e := Run(events[..n], h), events[n];
      RunSlots(events[..n], h, d, group, ids);
      RunOver(events, h, group, ids);
      StepTargetsApart(w, h, d, e, group, ids);
      StepKeepsSlots(w, h, e, group);
    }
  }

  lemma {:induction false} StartSlots(h: Hashes, group: Group)
    ensures KeysBelow(START) && TargetsApart(START, group) && SlotInv(START, h, group)
  {
  }

  /** Over ids that do not collide, the slot of each is a cell like the others. */
  lemma {:induction false} RunSlotCell(
      events: seq<Event>, h: Hashes, d: Discipline, group: Group, ids: iset<string>, id: string)
    requires TargetsSafe(d, group, ids) && Obeys(events, d, h) && Over(events, group, ids)
    requires Injective(h, group, ids) && id in ids
    ensures CellInv(Run(events, h), h, SlotFor(group, id)) && AllApart(Run(events, h), h, SlotFor(group, id))
  {
    hide Next, CellInv, AllApart, Allowed, TargetsSafe, TargetsApart, SlotInv;
    var c := SlotFor(group, id);
    if events == [] {
      StartCell(h, c);
    } else {
      var n := |events| - 1;
      var w, e := Run(events[..n], h), events[n];
      RunSlotCell(events[..n], h, d, group, ids, id);
      RunSlots(events[..n], h, d, group, ids);
      ApartAt(w, group, id);
      StepKeepsCell(w, h, e, c);
    }
  }

  lemma {:induction false} ApartAt(w: World, group: Group, id: string)
    requires TargetsApart(w, group)
    ensures NoClash(w, SlotFor(group, id))
  {
  }

  // ----- recovery gives exactly the halted slots

  /** Over ids that do not collide, and are not tripped and reset at a time, the order path's
      check of a target says exactly whether its latest row is a trip, whenever nothing is
      in flight. */
  lemma {:induction false} HaltedIffTripped(
      events: seq<Event>, h: Hashes, d: Discipline, group: Group, ids: iset<string>, id: string)
    requires TargetsSafe(d, group, ids) && Obeys(events, d, h) && Quiet(Run(events, h))
    requires Over(events, group, ids) && Injective(h, group, ids) && id in ids
    ensures SlotOf(h, group, id) in BankOf(Run(events, h).state, group).halted
       <==> id in Tripped(Run(events, h).state.log, group)
  {
    hide Run, Tripped, CellInv, Quiet;
    RunSlotCell(events, h, d, group, ids, id);
    QuietCell(Run(events, h), h, SlotFor(group, id));
  }

  lemma {:induction false} SlotsAreExact(events: seq<Event>, h: Hashes, d: Discipline, group: Group, ids: iset<string>)
    requires TargetsSafe(d, group, ids) && Obeys(events, d, h) && Quiet(Run(events, h))
    requires Over(events, group, ids) && Injective(h, group, ids)
    ensures ExactSlots(Run(events, h).state, h, group)
  {
    hide Run, Obeys, Tripped, Quiet, Over, Injective, TargetsSafe, SlotInv, TargetsApart;
    var w := Run(events, h);
    RunSlots(events, h, d, group, ids);
    QuietSlots(w, h, group);
    RunOver(events, h, group, ids);
    forall slot | slot in RestoredBank(w.state.log, h, group).halted
      ensures slot in BankOf(w.state, group).halted
    {
      var id :| id in Tripped(w.state.log, group).Keys && SlotOf(h, group, id) == slot;
      HaltedIffTripped(events, h, d, group, ids, id);
    }
  }

  /** A reset and a trip of one target in flight together: the reset clears the slot, the
      trip runs whole, then the reset drops the reason and logs. The target is halted, and
      nothing is according to the log. */
  lemma {:induction false} TripInsideReset(h: Hashes, d: Discipline, trip: Op, reset: Op) returns (events: seq<Event>)
    requires trip.TripTarget? && reset.ResetTarget? && trip.group == reset.group && trip.id == reset.id
    requires d.overlap(trip, reset) || d.overlap(reset, trip)
    ensures Obeys(events, d, h) && Quiet(Run(events, h)) && Over(events, trip.group, iset{trip.id})
    ensures SlotOf(h, trip.group, trip.id) in BankOf(Run(events, h).state, trip.group).halted
    ensures Tripped(Run(events, h).state.log, trip.group) == map[]
  {
    hide Run, Obeys, EntryOf, Tripped, Quiet, Marked, Noted, Over;
    var group, ids := trip.group, iset{trip.id};
    var e2, r, t := BothStarted(h, d, trip, reset);
    NothingTripped();
    MarkStep(e2, h, d, r);
    var e3 := e2 + [Act(r)];
    MarkStep(e3, h, d, t);
    var e4 := e3 + [Act(t)];
    MarkedTrip(Run(e3, h).state, h, trip);
    NoteStep(e4, h, d, t);
    var e5 := e4 + [Act(t)];
    NotedKeepsSlots(Run(e4, h).state, trip, group);
    var e6 := Finish(e5, h, d, t);
    var w5 := Run(e5, h);
    LoggedTripped(w5.state.log, trip, w5.tasks[t].found, w5.tasks[t].initiator, group);
    NoteStep(e6, h, d, r);
    NotedKeepsSlots(Run(e6, h).state, reset, group);
    events := LastReset(e6 + [Act(r)], h, d, r, trip.id);
    OverAct(e2, r, group, ids);
    OverAct(e3, t, group, ids);
    OverAct(e4, t, group, ids);
    OverAct(e5, t, group, ids);
    OverAct(e6, r, group, ids);
    OverAct(e6 + [Act(r)], r, group, ids);
  }

  lemma {:induction false} OverAct(events: seq<Event>, k: nat, group: Group, ids: iset<string>)
    requires Over(events, group, ids)
    ensures Over(events + [Act(k)], group, ids)
  {
  }

  lemma {:induction false} BothStarted(h: Hashes, d: Discipline, trip: Op, reset: Op)
      returns (events: seq<Event>, r: nat, t: nat)
    requires trip.TripTarget? && reset.ResetTarget? && trip.group == reset.group && trip.id == reset.id
    requires d.overlap(trip, reset) || d.overlap(reset, trip)
    ensures Obeys(events, d, h) && Over(events, trip.group, iset{trip.id}) && r != t
    ensures
      var w := Run(events, h);
      && w.state.log == [] && r in w.tasks && t in w.tasks
      && w.tasks[r].op == reset && w.tasks[r].next == AtMark && w.tasks[t].op == trip && w.tasks[t].next == AtMark
      && forall j :: j in w.tasks ==> j == r || j == t
  {
    hide Run, Obeys;
    NothingYet(h, d);
    var first, second := if d.overlap(reset, trip) then reset else trip,
                         if d.overlap(reset, trip) then trip else reset;
    StartStep([], h, d, first);
    var e1 := [Start(first)];
    assert [] + [Start(first)] == e1;
    StartStep(e1, h, d, second);
    events := e1 + [Start(second)];
    r, t := if first == reset then 0 else 1, if first == reset then 1 else 0;
  }

  lemma {:induction false} LastReset(before: seq<Event>, h: Hashes, d: Discipline, k: nat, id: string) returns (events: seq<Event>)
    requires Obeys(before, d, h) && k in Run(before, h).tasks && Run(before, h).tasks[k].next == AtLog
    requires Run(before, h).tasks[k].op.ResetTarget? && Run(before, h).tasks[k].op.id == id
    requires forall j :: j in Run(before, h).tasks ==> j == k
    requires forall t :: t in Tripped(Run(before, h).state.log, Run(before, h).tasks[k].op.group) ==> t == id
    ensures Obeys(events, d, h) && Quiet(Run(events, h)) && events == before + [Act(k)]
    ensures
      var group := Run(before, h).tasks[k].op.group;
      && BankOf(Run(events, h).state, group) == BankOf(Run(before, h).state, group)
      && Tripped(Run(events, h).state.log, group) == map[]
  {
    hide Run, Obeys, EntryOf, Tripped;
    var w := Run(before, h);
    events := Finish(before, h, d, k);
    LoggedTripped(w.state.log, w.tasks[k].op, w.tasks[k].found, w.tasks[k].initiator, w.tasks[k].op.group);
  }

  lemma {:induction false} MarkedTrip(s: State, h: Hashes, trip: Op)
    requires trip.TripTarget?
    ensures SlotOf(h, trip.group, trip.id) in BankOf(Marked(s, h, trip), trip.group).halted
  {
  }

  lemma {:induction false} NotedKeepsSlots(s: State, op: Op, group: Group)
    ensures BankOf(Noted(s, op), group).halted == BankOf(s, group).halted && Noted(s, op).log == s.log
  {
  }

  /** Recovery gives exactly the halted slots in every run over a set of ids, whenever
      nothing is in flight, exactly when no two of them share a slot and none is tripped and
      reset at a time. */
  lemma {:induction false} RecoveryIsExactIff(h: Hashes, d: Discipline, group: Group, ids: iset<string>)
    ensures (forall events :: Obeys(events, d, h) && Quiet(Run(events, h)) && Over(events, group, ids) ==>
               ExactSlots(Run(events, h).state, h, group))
       <==> Injective(h, group, ids) && TargetsSafe(d, group, ids)
  {
    hide Run, Obeys, Over, Quiet, ExactSlots;
    if !Injective(h, group, ids) {
      var a, b :| a in ids && b in ids && SlotOf(h, group, a) == SlotOf(h, group, b) && a != b;
      var events := CollisionLosesHalt(h, d, group, a, b);
      OverMore(events, group, iset{a, b}, ids);
    } else if !TargetsSafe(d, group, ids) {
      var t: Op, r: Op :| t.TripTarget? && r.ResetTarget? && t.group == r.group == group && t.id == r.id && t.id in ids
        && (d.overlap(t, r) || d.overlap(r, t));
      var events := TripInsideReset(h, d, t, r);
      OverMore(events, group, iset{t.id}, ids);
      NoneRestored(Run(events, h).state, h, group, t.id);
    } else {
      forall events | Obeys(events, d, h) && Quiet(Run(events, h)) && Over(events, group, ids)
        ensures ExactSlots(Run(events, h).state, h, group)
      {
        SlotsAreExact(events, h, d, group, ids);
      }
    }
  }

  lemma {:induction false} NoneRestored(s: State, h: Hashes, group: Group, id: string)
    requires SlotOf(h, group, id) in BankOf(s, group).halted && Tripped(s.log, group) == map[]
    ensures !(BankOf(s, group).halted <= RestoredBank(s.log, h, group).halted) && !ExactSlots(s, h, group)
  {
    hide Tripped;
  }

  // ----- which orders are refused

  lemma {:induction false} NoOverlapIsSafe(d: Discipline, group: Group, ids: iset<string>)
    requires NoOverlap(d)
    ensures TargetsSafe(d, group, ids)
  {
    forall t: Op, r: Op | t.TripTarget? && r.ResetTarget? && t.group == r.group == group && t.id == r.id && t.id in ids
      ensures !d.overlap(t, r) && !d.overlap(r, t)
    {
      ConflictMeans(t, r);
      ConflictMeans(r, t);
    }
  }

  /** The reason given for a target is that of its latest row. */
  ghost predicate ReasonIsLogged(s: State, group: Group, id: string) {
    var latest := Latest(s.log, Of(group), id);
    latest.Some? && OrEmpty(BankOf(s, group).reasons, id) == latest.value.reason
  }

  /** A target's check, and the reason it gives, are those of its latest row. */
  lemma {:induction false} HaltsIffLatestTrips(
      events: seq<Event>, h: Hashes, d: Discipline, group: Group, ids: iset<string>, id: string)
    requires NoOverlap(d) && Obeys(events, d, h) && Quiet(Run(events, h))
    requires Over(events, group, ids) && Injective(h, group, ids) && id in ids
    ensures
      var s := Run(events, h).state;
      && (Halts(s, h, group, id) <==> id != "" && LatestIsTrip(s.log, Of(group), id))
      && (Halts(s, h, group, id) ==> ReasonIsLogged(s, group, id))
  {
    hide Run, Obeys, Quiet, Over, Injective, NoOverlap, Tripped, Latest, Tracked, Compatible;
    NoOverlapIsSafe(d, group, ids);
    HaltedIffTripped(events, h, d, group, ids, id);
    RunIsTracked(events, h, d);
    QuietReasons(Run(events, h), h, group);
    TrippedAt(Run(events, h).state.log, group, id);
  }

  /** Main result on the order path: with no conflicting overlaps and ids that do not
      collide, whenever nothing is in flight, an order is refused exactly when the latest
      row of the system, of its algo or of its trader is a trip; and the reason given at
      each level is that of the row. */
  lemma {:induction false} OrderRefusedIff(
      events: seq<Event>, h: Hashes, d: Discipline, algos: iset<string>, traders: iset<string>, algo: string, trader: string)
    requires NoOverlap(d) && Obeys(events, d, h) && Quiet(Run(events, h))
    requires Over(events, Algo, algos) && Injective(h, Algo, algos) && algo in algos
    requires Over(events, Trader, traders) && Injective(h, Trader, traders) && trader in traders
    ensures
      var s := Run(events, h).state;
      var latest := LatestOf(s.log, System);
      && (s.halted || Halts(s, h, Algo, algo) || Halts(s, h, Trader, trader)
          <==> || (latest.Some? && latest.value.action == Trip)
               || (algo != "" && LatestIsTrip(s.log, Of(Algo), algo))
               || (trader != "" && LatestIsTrip(s.log, Of(Trader), trader)))
      && (s.halted ==> latest.Some? && s.note == Note(latest.value.reason, latest.value.actor))
      && (Halts(s, h, Algo, algo) ==> ReasonIsLogged(s, Algo, algo))
      && (Halts(s, h, Trader, trader) ==> ReasonIsLogged(s, Trader, trader))
  {
    hide Run, Obeys, Quiet, Over, Injective, NoOverlap, Latest, LatestIsTrip, LatestOf, Tracked, Compatible, Halts, ReasonIsLogged;
    HaltsIffLatestTrips(events, h, d, Algo, algos, algo);
    HaltsIffLatestTrips(events, h, d, Trader, traders, trader);
    RunIsTracked(events, h, d);
    QuietSystem(Run(events, h), h);
  }

  lemma {:induction false} QuietSystem(w: World, h: Hashes)
    requires Quiet(w) && Tracked(w, h)
    ensures w.state.halted == RestoredFlag(w.state.log) && w.state.note == RestoredNote(w.state.log)
  {
    hide CellInv, SlotInv, RestoredFlag, RestoredNote, Quiet;
    QuietCell(w, h, Flag);
    QuietCell(w, h, NoteCell);
  }

  // ----- no halt is lost

  /** A restart would bring back every halt there is. */
  ghost predicate HaltsRestored(s: State, h: Hashes) {
    && (s.halted ==> RestoredFlag(s.log))
    && s.algos.halted <= RestoredBank(s.log, h, Algo).halted
    && s.traders.halted <= RestoredBank(s.log, h, Trader).halted
  }

  /** No trip overlaps a reset of its target, and no crash falls inside a trip. */
  ghost predicate TargetTripsAlone(d: Discipline) {
    && (forall t: Op, r: Op :: t.TripTarget? && r.ResetTarget? && t.group == r.group && t.id == r.id ==>
          !d.overlap(t, r) && !d.overlap(r, t))
    && (forall t: Op :: t.TripTarget? ==> !d.crash(t))
  }

  lemma {:induction false} SafeSlotsRestored(events: seq<Event>, h: Hashes, d: Discipline, group: Group)
    requires TargetTripsAlone(d) && Obeys(events, d, h) && Allowed(d, Run(events, h), Restart)
    ensures BankOf(Run(events, h).state, group).halted <= RestoredBank(Run(events, h).state.log, h, group).halted
  {
    hide Run, Obeys, Tripped, TargetsApart;
    var w := Run(events, h);
    RunSlots(events, h, d, group, iset id: string | 0 <= |id|);
    assert forall k :: k in w.tasks ==> !w.tasks[k].op.TripTarget?;
    forall slot | slot in BankOf(w.state, group).halted
      ensures slot in RestoredBank(w.state.log, h, group).halted
    {
      var id :| SlotOf(h, group, id) == slot && Backed(w, group, id);
      assert id in Tripped(w.state.log, group).Keys;
    }
  }

  lemma {:induction false} SafeFlagRestored(events: seq<Event>, h: Hashes, d: Discipline)
    requires TripsAlone(d) && Obeys(events, d, h) && Allowed(d, Run(events, h), Restart) && Run(events, h).state.halted
    ensures RestoredFlag(Run(events, h).state.log)
  {
    hide Run, Obeys, CellInv, NoClash, CellSafe, RestoredFlag;
    TripsAloneKeepFlag(d);
    RunFlag(events, h, d);
    if !RestoredFlag(Run(events, h).state.log) {
      UnloggedHalt(Run(events, h), h);
    }
  }

  /** A crash after a trip has set the slot and before it has logged. */
  lemma {:induction false} CrashInsideTargetTrip(h: Hashes, d: Discipline, trip: Op) returns (events: seq<Event>)
    requires trip.TripTarget? && d.crash(trip)
    ensures Obeys(events, d, h) && Allowed(d, Run(events, h), Restart)
    ensures SlotOf(h, trip.group, trip.id) in BankOf(Run(events, h).state, trip.group).halted
    ensures Tripped(Run(events, h).state.log, trip.group) == map[]
  {
    hide Run, Obeys, Tripped, Marked;
    NothingYet(h, d);
    NothingTripped();
    StartStep([], h, d, trip);
    MarkStep([] + [Start(trip)], h, d, 0);
    MarkedTrip(Run([] + [Start(trip)], h).state, h, trip);
    events := [] + [Start(trip)] + [Act(0)];
  }

  lemma {:induction false} UnsafeTarget(h: Hashes, d: Discipline) returns (events: seq<Event>)
    requires !TargetTripsAlone(d)
    ensures Obeys(events, d, h) && Allowed(d, Run(events, h), Restart) && !HaltsRestored(Run(events, h).state, h)
  {
    hide Run, Obeys, Tripped, RestoredFlag, RestoredBank;
    var t: Op;
    if exists op: Op :: op.TripTarget? && d.crash(op) {
      t :| t.TripTarget? && d.crash(t);
      events := CrashInsideTargetTrip(h, d, t);
    } else {
      var u: Op, r: Op :| u.TripTarget? && r.ResetTarget? && u.group == r.group && u.id == r.id
        && (d.overlap(u, r) || d.overlap(r, u));
      t := u;
      events := TripInsideReset(h, d, t, r);
    }
    NoneRestored(Run(events, h).state, h, t.group, t.id);
  }

  /** Every restart a discipline allows brings back every halt, of the system and of all
      targets, exactly when no trip overlaps a reset of what it trips and no crash falls
      inside a trip. Overlapping trips, and crashes inside resets, do no harm to this. */
  lemma {:induction false} HaltsRestoredIff(h: Hashes, d: Discipline)
    ensures (forall events :: Obeys(events, d, h) && Allowed(d, Run(events, h), Restart) ==>
               HaltsRestored(Run(events, h).state, h))
       <==> TripsAlone(d) && TargetTripsAlone(d)
  {
    hide Run, Obeys, Allowed, RestoredFlag, RestoredBank, TripsAlone, TargetTripsAlone;
    if !TripsAlone(d) {
      var events := UnsafeRun(h, d);
    } else if !TargetTripsAlone(d) {
      var events := UnsafeTarget(h, d);
    } else {
      forall events | Obeys(events, d, h) && Allowed(d, Run(events, h), Restart)
        ensures HaltsRestored(Run(events, h).state, h)
      {
        SafeSlotsRestored(events, h, d, Algo);
        SafeSlotsRestored(events, h, d, Trader);
        if Run(events, h).state.halted {
          SafeFlagRestored(events, h, d);
        }
      }
    }
  }
}
