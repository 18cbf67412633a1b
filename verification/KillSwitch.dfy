/**
 The multi-level kill switch (services/gateway/kill_switch.go): halt flags in hashed
 slots, reason maps, an append-only event log, recovery from that log, and the
 two-person reset of the system switch. The log always accepts a row; tokens and slot
 hashes are arbitrary.

 A trip, reset or confirm takes no lock around the whole of it: it stores a flag, then
 writes a reason, then appends a row. These three actions are defined here one by one.
 The manager's methods do them in a row; `KillSwitchSteps` lets other operations and
 crashes come between them.
 */
module KillSwitch {
  import opened Basics

  datatype Group = Algo | Trader

  datatype Level = System | Of(group: Group)

  datatype Action = Trip | Reset

  /** A row of the log. */
  datatype Entry = Entry(level: Level, target: string, action: Action, reason: string, actor: string, second: string)

  type AlgoSlot = n: nat | n < 256
  type TraderSlot = n: nat | n < 4096

  /** The slot hashes. */
  datatype Hashes = Hashes(algo: string -> AlgoSlot, trader: string -> TraderSlot)

  function SlotOf(h: Hashes, group: Group, id: string): nat {
    match group
    case Algo => h.algo(id)
    case Trader => h.trader(id)
  }

  /** The halted slots of a group, and the reasons given. */
  datatype Bank = Bank(halted: set<nat>, reasons: map<string, string>)

  /** Why, and by whom, the system was halted; empty while it runs. */
  datatype Note = Note(reason: string, actor: string)

  const NO_NOTE := Note("", "")

  datatype State = State(
    halted: bool,
    note: Note,
    algos: Bank,
    traders: Bank,
    pending: map<string, string>,
    log: seq<Entry>)

  function BankOf(s: State, group: Group): Bank {
    match group
    case Algo => s.algos
    case Trader => s.traders
  }

  function WithBank(s: State, group: Group, bank: Bank): State {
    match group
    case Algo => s.(algos := bank)
    case Trader => s.(traders := bank)
  }

  // ----- what the log says

  /** The latest row for a target. */
  function Latest(log: seq<Entry>, level: Level, target: string): Option<Entry> {
    if log == [] then None
    else
      var e := log[|log| - 1];
      if e.level == level && e.target == target then Some(e) else Latest(log[..|log| - 1], level, target)
  }

  /** The latest row for a level. */
  function LatestOf(log: seq<Entry>, level: Level): Option<Entry> {
    if log == [] then None
    else
      var e := log[|log| - 1];
      if e.level == level then Some(e) else LatestOf(log[..|log| - 1], level)
  }

  function Targets(log: seq<Entry>, level: Level): set<string> {
    set e | e in log && e.level == level :: e.target
  }

  predicate LatestIsTrip(log: seq<Entry>, level: Level, target: string) {
    var latest := Latest(log, level, target);
    latest.Some? && latest.value.action == Trip
  }

  /** The targets whose latest row is a trip, with its reason. */
  function Tripped(log: seq<Entry>, group: Group): map<string, string> {
    map t | t in Targets(log, Of(group)) && LatestIsTrip(log, Of(group), t) :: Latest(log, Of(group), t).value.reason
  }

  function SlotSet(h: Hashes, group: Group, ids: set<string>): set<nat> {
    set id | id in ids :: SlotOf(h, group, id)
  }

  function RestoredBank(log: seq<Entry>, h: Hashes, group: Group): Bank {
    Bank(SlotSet(h, group, Tripped(log, group).Keys), Tripped(log, group))
  }

  predicate RestoredFlag(log: seq<Entry>) {
    var latest := LatestOf(log, System);
    latest.Some? && latest.value.action == Trip
  }

  function RestoredNote(log: seq<Entry>): Note {
    if RestoredFlag(log) then Note(LatestOf(log, System).value.reason, LatestOf(log, System).value.actor) else NO_NOTE
  }

  /** The state a new manager starts in, given the log. */
  function Restored(log: seq<Entry>, h: Hashes): State {
    State(RestoredFlag(log), RestoredNote(log), RestoredBank(log, h, Algo), RestoredBank(log, h, Trader), map[], log)
  }

  const FRESH := State(false, NO_NOTE, Bank({}, map[]), Bank({}, map[]), map[], [])

  // ----- operations and their actions

  datatype Op =
    | TripSystem(reason: string, actor: string)
    | TripTarget(group: Group, id: string, reason: string, actor: string)
    | ResetTarget(group: Group, id: string, reason: string, actor: string)
    | Confirm(token: string, admin: string)

  datatype Outcome = Done | InvalidToken | SameAdmin

  function ConfirmOutcome(s: State, token: string, admin: string): Outcome {
    if token !in s.pending then InvalidToken
    else if s.pending[token] == admin then SameAdmin
    else Done
  }

  /** A confirm first uses up its token, whatever comes of it. */
  function Taken(s: State, token: string): State {
    s.(pending := s.pending - {token})
  }

  /** First action: the flag, or the slot of the target. */
  function Marked(s: State, h: Hashes, op: Op): State {
    match op
    case TripSystem(_, _) => s.(halted := true)
    case TripTarget(group, id, _, _) =>
      var bank := BankOf(s, group);
      WithBank(s, group, bank.(halted := bank.halted + {SlotOf(h, group, id)}))
    case ResetTarget(group, id, _, _) =>
      var bank := BankOf(s, group);
      WithBank(s, group, bank.(halted := bank.halted - {SlotOf(h, group, id)}))
    case Confirm(_, _) => s.(halted := false)
  }

  /** Second action: the note, or the reason of the target. */
  function Noted(s: State, op: Op): State {
    match op
    case TripSystem(reason, actor) => s.(note := Note(reason, actor))
    case TripTarget(group, id, reason, _) =>
      var bank := BankOf(s, group);
      WithBank(s, group, bank.(reasons := bank.reasons[id := reason]))
    case ResetTarget(group, id, _, _) =>
      var bank := BankOf(s, group);
      WithBank(s, group, bank.(reasons := bank.reasons - {id}))
    case Confirm(_, _) => s.(note := NO_NOTE)
  }

  function TripEntry(group: Group, id: string, reason: string, actor: string): Entry {
    Entry(Of(group), id, Trip, reason, actor, "")
  }

  function ResetEntry(group: Group, id: string, reason: string, actor: string): Entry {
    Entry(Of(group), id, Reset, reason, actor, "")
  }

  /** The row an operation logs; that of a confirm has the reason it found and the admin
      who made the initiation. */
  function EntryOf(op: Op, found: string, initiator: string): Entry {
    match op
    case TripSystem(reason, actor) => Entry(System, "", Trip, reason, actor, "")
    case TripTarget(group, id, reason, actor) => TripEntry(group, id, reason, actor)
    case ResetTarget(group, id, reason, actor) => ResetEntry(group, id, reason, actor)
    case Confirm(_, admin) => Entry(System, "", Reset, found, initiator, admin)
  }

  /** Third action: the row. */
  function Logged(s: State, e: Entry): State {
    s.(log := s.log + [e])
  }

  /** The three actions with nothing in between. */
  function Uninterrupted(s: State, h: Hashes, op: Op, initiator: string): State {
    var m := Marked(s, h, op);
    Logged(Noted(m, op), EntryOf(op, m.note.reason, initiator))
  }

  // ----- the log after one more row

  lemma {:induction false} LatestSnoc(log: seq<Entry>, e: Entry, level: Level, target: string)
    ensures Latest(log + [e], level, target)
         == if e.level == level && e.target == target then Some(e) else Latest(log, level, target)
    ensures LatestOf(log + [e], level) == if e.level == level then Some(e) else LatestOf(log, level)
  {
    assert (log + [e])[..|log|] == log;
  }

  lemma {:induction false} LatestIsLogged(log: seq<Entry>, level: Level, target: string)
    ensures Latest(log, level, target).Some? ==> target in Targets(log, level)
  {
    if log != [] {
      LatestIsLogged(log[..|log| - 1], level, target);
      assert log[|log| - 1] in log;
      assert forall e :: e in log[..|log| - 1] ==> e in log;
    }
  }

  lemma {:induction false} TrippedAt(log: seq<Entry>, group: Group, t: string)
    ensures t in Tripped(log, group) <==> LatestIsTrip(log, Of(group), t)
    ensures t in Tripped(log, group) ==> Tripped(log, group)[t] == Latest(log, Of(group), t).value.reason
  {
    LatestIsLogged(log, Of(group), t);
  }

  lemma {:induction false} TrippedAfterTrip(log: seq<Entry>, group: Group, id: string, reason: string, actor: string)
    ensures Tripped(log + [TripEntry(group, id, reason, actor)], group) == Tripped(log, group)[id := reason]
  {
    hide Tripped, Latest;
    var e := TripEntry(group, id, reason, actor);
    forall t
      ensures t in Tripped(log + [e], group) <==> t in Tripped(log, group)[id := reason]
      ensures t in Tripped(log + [e], group) ==> Tripped(log + [e], group)[t] == Tripped(log, group)[id := reason][t]
    {
      LatestSnoc(log, e, Of(group), t);
      TrippedAt(log, group, t);
      TrippedAt(log + [e], group, t);
    }
  }

  lemma {:induction false} TrippedAfterReset(log: seq<Entry>, group: Group, id: string, reason: string, actor: string)
    ensures Tripped(log + [ResetEntry(group, id, reason, actor)], group) == Tripped(log, group) - {id}
  {
    hide Tripped, Latest;
    var e := ResetEntry(group, id, reason, actor);
    forall t
      ensures t in Tripped(log + [e], group) <==> t in Tripped(log, group) - {id}
      ensures t in Tripped(log + [e], group) ==> Tripped(log + [e], group)[t] == Tripped(log, group)[t]
    {
      LatestSnoc(log, e, Of(group), t);
      TrippedAt(log, group, t);
      TrippedAt(log + [e], group, t);
    }
  }

  lemma {:induction false} TrippedAfterOther(log: seq<Entry>, e: Entry, group: Group)
    requires e.level != Of(group)
    ensures Tripped(log + [e], group) == Tripped(log, group)
  {
    hide Tripped, Latest;
    forall t
      ensures t in Tripped(log + [e], group) <==> t in Tripped(log, group)
      ensures t in Tripped(log + [e], group) ==> Tripped(log + [e], group)[t] == Tripped(log, group)[t]
    {
      LatestSnoc(log, e, Of(group), t);
      TrippedAt(log, group, t);
      TrippedAt(log + [e], group, t);
    }
  }

  // ----- the manager

  /** The flags that are set. */
  function SlotsOf(flags: seq<bool>): set<nat> {
    set k: nat | k < |flags| && flags[k]
  }

  lemma {:induction false} SlotsAfter(flags: seq<bool>, k: nat, v: bool)
    requires k < |flags|
    ensures SlotsOf(flags[k := v]) == if v then SlotsOf(flags) + {k} else SlotsOf(flags) - {k}
  {
  }

  function OrEmpty(m: map<string, string>, id: string): string {
    if id in m then m[id] else ""
  }

  /** The switch of a target is on; an order that names none has none. */
  predicate Halts(s: State, h: Hashes, group: Group, id: string) {
    id != "" && SlotOf(h, group, id) in BankOf(s, group).halted
  }

  class Manager {
    const hashes: Hashes
    const algoHalts: array<bool>
    const traderHalts: array<bool>
    var systemHalt: bool
    var systemReason: string
    var systemTrippedBy: string
    var algoReasons: map<string, string>
    var traderReasons: map<string, string>
    var pendingResets: map<string, string>
    var log: seq<Entry>

    ghost predicate Valid()
      reads this, algoHalts, traderHalts
    {
      algoHalts.Length == 256 && traderHalts.Length == 4096 && algoHalts != traderHalts
    }

    ghost function Live(): State
      reads this, algoHalts, traderHalts
    {
      State(
        systemHalt,
        Note(systemReason, systemTrippedBy),
        Bank(SlotsOf(algoHalts[..]), algoReasons),
        Bank(SlotsOf(traderHalts[..]), traderReasons),
        pendingResets,
        log)
    }

    constructor (hashes: Hashes, log: seq<Entry>)
      ensures Valid() && fresh(algoHalts) && fresh(traderHalts)
      ensures this.hashes == hashes
      ensures Live() == Restored(log, hashes)
    {
      this.hashes := hashes;
      this.log := log;
      var algos := ClearFlags(256);
      var traders := ClearFlags(4096);
      algoHalts, traderHalts := algos, traders;
      systemHalt, systemReason, systemTrippedBy := false, "", "";
      pendingResets := map[];
      algoReasons, traderReasons := map[], map[];
      new;
      RestoreFromDb();
    }

    /** Run once, on a manager that nothing has happened to yet. */
    method RestoreFromDb()
      requires Valid() && Live() == FRESH.(log := log)
      modifies this, algoHalts, traderHalts
      ensures Valid() && Live() == Restored(old(log), hashes)
    {
      hide SlotsOf, SlotSet, Tripped, LatestOf;
      var latest := LatestOf(log, System);
      if latest.Some? && latest.value.action == Trip {
        systemHalt, systemReason, systemTrippedBy := true, latest.value.reason, latest.value.actor;
      }
      algoReasons := RestoreGroup(algoHalts, hashes, Algo, Tripped(log, Algo));
      traderReasons := RestoreGroup(traderHalts, hashes, Trader, Tripped(log, Trader));
    }

    method IsSystemHalted() returns (halted: bool)
      ensures halted == Live().halted
    {
      halted := systemHalt;
    }

    method IsAlgoHalted(id: string) returns (halted: bool)
      requires Valid()
      ensures halted == (id != "" && SlotOf(hashes, Algo, id) in Live().algos.halted)
    {
      if id == "" {
        return false;
      }
      halted := algoHalts[hashes.algo(id)];
    }

    method IsTraderHalted(id: string) returns (halted: bool)
      requires Valid()
      ensures halted == (id != "" && SlotOf(hashes, Trader, id) in Live().traders.halted)
    {
      if id == "" {
        return false;
      }
      halted := traderHalts[hashes.trader(id)];
    }

    method IsOrderBlocked(algo: string, trader: string) returns (blocked: bool, reason: string)
      requires Valid()
      ensures blocked <==> Live().halted || Halts(Live(), hashes, Algo, algo) || Halts(Live(), hashes, Trader, trader)
      ensures Live().halted ==> reason == "SYSTEM_KILL_SWITCH: " + Live().note.reason
      ensures !Live().halted && Halts(Live(), hashes, Algo, algo) ==>
                reason == "ALGO_KILL_SWITCH[" + algo + "]: " + OrEmpty(Live().algos.reasons, algo)
      ensures !Live().halted && !Halts(Live(), hashes, Algo, algo) && Halts(Live(), hashes, Trader, trader) ==>
                reason == "TRADER_KILL_SWITCH[" + trader + "]: " + OrEmpty(Live().traders.reasons, trader)
      ensures !blocked ==> reason == ""
    {
      var system := IsSystemHalted();
      if system {
        return true, "SYSTEM_KILL_SWITCH: " + systemReason;
      }
      var algoHalted := IsAlgoHalted(algo);
      if algoHalted {
        return true, "ALGO_KILL_SWITCH[" + algo + "]: " + OrEmpty(algoReasons, algo);
      }
      var traderHalted := IsTraderHalted(trader);
      if traderHalted {
        return true, "TRADER_KILL_SWITCH[" + trader + "]: " + OrEmpty(traderReasons, trader);
      }
      return false, "";
    }

    method TripSystem(reason: string, actor: string)
      requires Valid()
      modifies this
      ensures Valid() && Live() == Uninterrupted(old(Live()), hashes, Op.TripSystem(reason, actor), "")
    {
      systemHalt := true;
      systemReason, systemTrippedBy := reason, actor;
      log := log + [Entry(System, "", Trip, reason, actor, "")];
    }

    method TripAlgo(id: string, reason: string, actor: string)
      requires Valid()
      modifies this, algoHalts
      ensures Valid() && Live() == Uninterrupted(old(Live()), hashes, TripTarget(Algo, id, reason, actor), "")
    {
      SlotsAfter(algoHalts[..], hashes.algo(id), true);
      algoHalts[hashes.algo(id)] := true;
      assert algoHalts[..] == old(algoHalts[..])[hashes.algo(id) := true];
      algoReasons := algoReasons[id := reason];
      log := log + [TripEntry(Algo, id, reason, actor)];
    }

    method TripTrader(id: string, reason: string, actor: string)
      requires Valid()
      modifies this, traderHalts
      ensures Valid() && Live() == Uninterrupted(old(Live()), hashes, TripTarget(Trader, id, reason, actor), "")
    {
      SlotsAfter(traderHalts[..], hashes.trader(id), true);
      traderHalts[hashes.trader(id)] := true;
      assert traderHalts[..] == old(traderHalts[..])[hashes.trader(id) := true];
      traderReasons := traderReasons[id := reason];
      log := log + [TripEntry(Trader, id, reason, actor)];
    }

    method ResetAlgo(id: string, actor: string, reason: string)
      requires Valid()
      modifies this, algoHalts
      ensures Valid() && Live() == Uninterrupted(old(Live()), hashes, ResetTarget(Algo, id, reason, actor), "")
    {
      SlotsAfter(algoHalts[..], hashes.algo(id), false);
      algoHalts[hashes.algo(id)] := false;
      assert algoHalts[..] == old(algoHalts[..])[hashes.algo(id) := false];
      algoReasons := algoReasons - {id};
      log := log + [ResetEntry(Algo, id, reason, actor)];
    }

    method ResetTrader(id: string, actor: string, reason: string)
      requires Valid()
      modifies this, traderHalts
      ensures Valid() && Live() == Uninterrupted(old(Live()), hashes, ResetTarget(Trader, id, reason, actor), "")
    {
      SlotsAfter(traderHalts[..], hashes.trader(id), false);
      traderHalts[hashes.trader(id)] := false;
      assert traderHalts[..] == old(traderHalts[..])[hashes.trader(id) := false];
      traderReasons := traderReasons - {id};
      log := log + [ResetEntry(Trader, id, reason, actor)];
    }

    /** The token, a hash of admin, reason and time, is handed in. */
    method InitiateSystemReset(admin: string, token: string)
      requires Valid()
      modifies this`pendingResets
      ensures Valid() && Live() == old(Live()).(pending := old(pendingResets)[token := admin])
    {
      pendingResets := pendingResets[token := admin];
    }

    method ConfirmSystemReset(token: string, admin: string) returns (outcome: Outcome)
      requires Valid()
      modifies this
      ensures Valid() && outcome == ConfirmOutcome(old(Live()), token, admin)
      ensures Live() == if outcome == Done
                        then Uninterrupted(Taken(old(Live()), token), hashes, Confirm(token, admin), old(pendingResets)[token])
                        else Taken(old(Live()), token)
      ensures outcome == Done ==>
                log == old(log) + [Entry(System, "", Reset, old(systemReason), old(pendingResets)[token], admin)]
    {
      if token !in pendingResets {
        assert pendingResets - {token} == pendingResets;
        return InvalidToken;
      }
      var initiator := pendingResets[token];
      pendingResets := pendingResets - {token};
      if initiator == admin {
        return SameAdmin;
      }
      systemHalt := false;
      var previous := systemReason;
      systemReason, systemTrippedBy := "", "";
      log := log + [Entry(System, "", Reset, previous, initiator, admin)];
      return Done;
    }
  }

  /** Sets the slots of the tripped targets, in the order the rows come, and collects
      their reasons. */
  method RestoreGroup(flags: array<bool>, h: Hashes, group: Group, rows: map<string, string>)
      returns (reasons: map<string, string>)
    requires forall id :: SlotOf(h, group, id) < flags.Length
    modifies flags
    ensures SlotsOf(flags[..]) == old(SlotsOf(flags[..])) + SlotSet(h, group, rows.Keys)
    ensures reasons == rows
  {
    hide SlotsOf, SlotSet, SlotOf;
    var ids := RowOrder(rows);
    reasons := map[];
    ghost var start := SlotsOf(flags[..]);
    NoSlots(h, group);
    assert IdsOf(ids[..0]) == {};
    for i := 0 to |ids|
      invariant reasons.Keys == IdsOf(ids[..i])
      invariant forall id :: id in reasons ==> id in rows && reasons[id] == rows[id]
      invariant SlotsOf(flags[..]) == start + SlotSet(h, group, IdsOf(ids[..i]))
    {
      IdsSnoc(ids, i);
      SlotsGrow(h, group, IdsOf(ids[..i]), ids[i]);
      SetFlag(flags, SlotOf(h, group, ids[i]));
      reasons := reasons[ids[i] := rows[ids[i]]];
    }
    assert ids[..|ids|] == ids;
    assert IdsOf(ids) == rows.Keys;
  }

  function IdsOf(ids: seq<string>): set<string> {
    set id | id in ids
  }

  lemma {:induction false} IdsSnoc(ids: seq<string>, i: nat)
    requires i < |ids|
    ensures IdsOf(ids[..i + 1]) == IdsOf(ids[..i]) + {ids[i]}
  {
    assert ids[..i + 1] == ids[..i] + [ids[i]];
  }

  /** The rows of a query, in an unspecified order. */
  method RowOrder(rows: map<string, string>) returns (ids: seq<string>)
    ensures forall id :: id in ids <==> id in rows
  {
    ids := [];
    var left := rows.Keys;
    while exists id :: id in left
      invariant forall id :: id in rows <==> id in left || id in ids
      decreases |left|
    {
      var id :| id in left;
      ids := ids + [id];
      left := left - {id};
    }
  }

  method SetFlag(flags: array<bool>, k: nat)
    requires k < flags.Length
    modifies flags
    ensures SlotsOf(flags[..]) == old(SlotsOf(flags[..])) + {k}
  {
    SlotsAfter(flags[..], k, true);
    flags[k] := true;
    assert flags[..] == old(flags[..])[k := true];
  }

  lemma {:induction false} NoSlots(h: Hashes, group: Group)
    ensures SlotSet(h, group, {}) == {}
  {
  }

  lemma {:induction false} SlotsGrow(h: Hashes, group: Group, ids: set<string>, id: string)
    ensures SlotSet(h, group, ids + {id}) == SlotSet(h, group, ids) + {SlotOf(h, group, id)}
  {
    assert id in ids + {id};
    assert forall t :: t in ids ==> t in ids + {id};
  }

  method ClearFlags(n: nat) returns (flags: array<bool>)
    ensures fresh(flags) && flags.Length == n
    ensures SlotsOf(flags[..]) == {}
  {
    flags := new bool[n](_ => false);
  }
}
