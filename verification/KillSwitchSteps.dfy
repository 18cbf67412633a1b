/**
 The kill switch as it runs: operations are in flight together, other operations and
 crashes come between the actions of each, and every interleaving is a run.

 Log and live state need not agree, then. What is proved is exactly which overlaps and
 which crashes must be kept out for them to.
 */
module KillSwitchSteps {
  import opened Basics
  import opened KillSwitch

  /** The action an operation comes to next. */
  datatype Stage = AtMark | AtNote | AtLog

  /** An operation in flight. */
  datatype Task = Task(op: Op, next: Stage, found: string, initiator: string)

  datatype World = World(state: State, tasks: map<nat, Task>, count: nat)

  const START := World(FRESH, map[], 0)

  datatype Event = Initiate(token: string, admin: string) | Start(op: Op) | Act(k: nat) | Restart

  /** A confirm takes its token under a lock; it goes on only if that succeeds. */
  function Started(w: World, op: Op): World {
    match op
    case Confirm(token, admin) =>
      if ConfirmOutcome(w.state, token, admin) == Done then
        World(Taken(w.state, token), w.tasks[w.count := Task(op, AtMark, "", w.state.pending[token])], w.count + 1)
      else
        World(Taken(w.state, token), w.tasks, w.count + 1)
    case _ => World(w.state, w.tasks[w.count := Task(op, AtMark, "", "")], w.count + 1)
  }

  function Acted(w: World, h: Hashes, k: nat): World {
    if k !in w.tasks then w
    else
      var t := w.tasks[k];
      match t.next
      case AtMark => World(Marked(w.state, h, t.op), w.tasks[k := t.(next := AtNote)], w.count)
      case AtNote =>
        World(Noted(w.state, t.op), w.tasks[k := t.(next := AtLog, found := w.state.note.reason)], w.count)
      case AtLog => World(Logged(w.state, EntryOf(t.op, t.found, t.initiator)), w.tasks - {k}, w.count)
  }

  /** What an event does. A restart drops whatever is in flight. */
  function Next(w: World, h: Hashes, e: Event): World {
    match e
    case Initiate(token, admin) => w.(state := w.state.(pending := w.state.pending[token := admin]))
    case Start(op) => Started(w, op)
    case Act(k) => Acted(w, h, k)
    case Restart => World(Restored(w.state.log, h), map[], w.count)
  }

  function Run(events: seq<Event>, h: Hashes): World {
    if events == [] then START else Next(Run(events[..|events| - 1], h), h, events[|events| - 1])
  }

  // ----- disciplines

  /** Which operations may start while which is in flight, and inside which a crash may fall. */
  datatype Discipline = Discipline(overlap: (Op, Op) -> bool, crash: Op -> bool)

  ghost predicate Allowed(d: Discipline, w: World, e: Event) {
    match e
    case Start(op) => forall k :: k in w.tasks ==> d.overlap(w.tasks[k].op, op)
    case Restart => forall k :: k in w.tasks ==> d.crash(w.tasks[k].op)
    case _ => true
  }

  ghost predicate Obeys(events: seq<Event>, d: Discipline, h: Hashes) {
    events == []
    || (Obeys(events[..|events| - 1], d, h) && Allowed(d, Run(events[..|events| - 1], h), events[|events| - 1]))
  }

  /** Nothing is in flight. */
  ghost predicate Quiet(w: World) {
    forall k :: k !in w.tasks
  }

  /** A restart would bring back the switch, its note and all reasons as they are, and
      every halted slot. */
  ghost predicate Agrees(s: State, h: Hashes) {
    var r := Restored(s.log, h);
    && s.halted == r.halted && s.note == r.note
    && s.algos.reasons == r.algos.reasons && s.algos.halted <= r.algos.halted
    && s.traders.reasons == r.traders.reasons && s.traders.halted <= r.traders.halted
  }

  // ----- cells: what operations write

  datatype Cell = Flag | NoteCell | ReasonFor(group: Group, id: string) | SlotFor(group: Group, id: string)

  datatype Value = Bit(bit: bool) | Text(note: Note) | Given(reason: Option<string>)

  function Lookup(m: map<string, string>, id: string): Option<string> {
    if id in m then Some(m[id]) else None
  }

  function LiveAt(s: State, h: Hashes, c: Cell): Value {
    match c
    case Flag => Bit(s.halted)
    case NoteCell => Text(s.note)
    case ReasonFor(group, id) => Given(Lookup(BankOf(s, group).reasons, id))
    case SlotFor(group, id) => Bit(SlotOf(h, group, id) in BankOf(s, group).halted)
  }

  /** What the log says the cell should be. */
  function LogAt(log: seq<Entry>, c: Cell): Value {
    match c
    case Flag => Bit(RestoredFlag(log))
    case NoteCell => Text(RestoredNote(log))
    case ReasonFor(group, id) => Given(Lookup(Tripped(log, group), id))
    case SlotFor(group, id) => Bit(id in Tripped(log, group))
  }

  function Writes(op: Op, c: Cell): Option<Value> {
    match op
    case TripSystem(reason, actor) =>
      if c == Flag then Some(Bit(true)) else if c == NoteCell then Some(Text(Note(reason, actor))) else None
    case TripTarget(group, id, reason, _) =>
      if c == SlotFor(group, id) then Some(Bit(true))
      else if c == ReasonFor(group, id) then Some(Given(Some(reason)))
      else None
    case ResetTarget(group, id, _, _) =>
      if c == SlotFor(group, id) then Some(Bit(false))
      else if c == ReasonFor(group, id) then Some(Given(None))
      else None
    case Confirm(_, _) =>
      if c == Flag then Some(Bit(false)) else if c == NoteCell then Some(Text(NO_NOTE)) else None
  }

  /** Written by the first action of an operation; other cells by the second. */
  predicate First(c: Cell) {
    c.Flag? || c.SlotFor?
  }

  predicate Wrote(t: Task, c: Cell) {
    Writes(t.op, c).Some? && (if First(c) then t.next != AtMark else t.next == AtLog)
  }

  /** Two operations write different values to a cell. */
  predicate Clash(a: Op, b: Op, c: Cell) {
    Writes(a, c).Some? && Writes(b, c).Some? && Writes(a, c) != Writes(b, c)
  }

  ghost predicate Conflict(a: Op, b: Op) {
    exists c :: Clash(a, b, c)
  }

  /** Operations that conflict are: a system trip and a confirm; system trips with another
      reason or author; a trip and a reset of one target; trips of one target with
      another reason. */
  lemma {:induction false} ConflictMeans(a: Op, b: Op)
    ensures Conflict(a, b) <==>
      || (a.TripSystem? && b.TripSystem? && (a.reason != b.reason || a.actor != b.actor))
      || (a.TripSystem? && b.Confirm?)
      || (a.Confirm? && b.TripSystem?)
      || (a.TripTarget? && b.TripTarget? && a.group == b.group && a.id == b.id && a.reason != b.reason)
      || (a.TripTarget? && b.ResetTarget? && a.group == b.group && a.id == b.id)
      || (a.ResetTarget? && b.TripTarget? && a.group == b.group && a.id == b.id)
  {
    if a.TripSystem? || a.Confirm? {
      assert Clash(a, b, Flag) || Clash(a, b, NoteCell) || !Conflict(a, b);
    } else {
      var c := ReasonFor(a.group, a.id);
      assert Clash(a, b, c) || !Conflict(a, b);
    }
  }

  ghost predicate NoOverlap(d: Discipline) {
    forall a, b :: Conflict(a, b) ==> !d.overlap(a, b)
  }

  ghost predicate NoCrash(d: Discipline) {
    forall op :: !d.crash(op)
  }

  // ----- what the actions do to a cell

  /** No other target of the cell's slot is involved. */
  predicate Apart(h: Hashes, op: Op, c: Cell) {
    c.SlotFor? && (op.TripTarget? || op.ResetTarget?) && op.group == c.group ==>
      (SlotOf(h, c.group, op.id) == SlotOf(h, c.group, c.id) ==> op.id == c.id)
  }

  lemma {:induction false} MarkedAt(s: State, h: Hashes, op: Op, c: Cell)
    requires Apart(h, op, c)
    ensures LiveAt(Marked(s, h, op), h, c)
         == if First(c) && Writes(op, c).Some? then Writes(op, c).value else LiveAt(s, h, c)
  {
  }

  lemma {:induction false} NotedAt(s: State, h: Hashes, op: Op, c: Cell)
    ensures LiveAt(Noted(s, op), h, c)
         == if !First(c) && Writes(op, c).Some? then Writes(op, c).value else LiveAt(s, h, c)
  {
  }

  lemma {:induction false} LoggedSystem(log: seq<Entry>, op: Op, found: string, initiator: string)
    ensures
      var longer := log + [EntryOf(op, found, initiator)];
      && LogAt(longer, Flag) == (if Writes(op, Flag).Some? then Writes(op, Flag).value else LogAt(log, Flag))
      && LogAt(longer, NoteCell)
      == (if Writes(op, NoteCell).Some? then Writes(op, NoteCell).value else LogAt(log, NoteCell))
  {
    hide LatestOf;
    LatestSnoc(log, EntryOf(op, found, initiator), System, "");
  }

  lemma {:induction false} LoggedTripped(log: seq<Entry>, op: Op, found: string, initiator: string, group: Group)
    ensures
      var longer := Tripped(log + [EntryOf(op, found, initiator)], group);
      longer == if op.TripTarget? && op.group == group then Tripped(log, group)[op.id := op.reason]
                else if op.ResetTarget? && op.group == group then Tripped(log, group) - {op.id}
                else Tripped(log, group)
  {
    hide Tripped;
    if op.TripTarget? && op.group == group {
      TrippedAfterTrip(log, group, op.id, op.reason, op.actor);
    } else if op.ResetTarget? && op.group == group {
      TrippedAfterReset(log, group, op.id, op.reason, op.actor);
    } else {
      TrippedAfterOther(log, EntryOf(op, found, initiator), group);
    }
  }

  lemma {:induction false} LoggedAt(log: seq<Entry>, op: Op, found: string, initiator: string, c: Cell)
    ensures LogAt(log + [EntryOf(op, found, initiator)], c)
         == if Writes(op, c).Some? then Writes(op, c).value else LogAt(log, c)
  {
    hide Tripped, RestoredFlag, RestoredNote, EntryOf;
    match c
    case Flag => LoggedSystem(log, op, found, initiator);
    case NoteCell => LoggedSystem(log, op, found, initiator);
    case ReasonFor(group, _) => LoggedTripped(log, op, found, initiator, group);
    case SlotFor(group, _) => LoggedTripped(log, op, found, initiator, group);
  }

  /** No other tripped target shares the cell's slot. */
  ghost predicate LogApart(log: seq<Entry>, h: Hashes, c: Cell) {
    c.SlotFor? ==> forall t ::
      t in Tripped(log, c.group) && SlotOf(h, c.group, t) == SlotOf(h, c.group, c.id) ==> t == c.id
  }

  lemma {:induction false} RestoredAt(log: seq<Entry>, h: Hashes, c: Cell)
    requires LogApart(log, h, c)
    ensures LiveAt(Restored(log, h), h, c) == LogAt(log, c)
  {
    hide Tripped, RestoredFlag, RestoredNote;
    if c.SlotFor? {
      var m := Tripped(log, c.group);
      assert c.id in m ==> c.id in m.Keys;
    }
  }

  // ----- a cell is ahead of the log only while its writer is in flight

  ghost predicate KeysBelow(w: World) {
    forall k :: k in w.tasks ==> k < w.count
  }

  ghost predicate NoClash(w: World, c: Cell) {
    forall j, k :: j in w.tasks && k in w.tasks ==> !Clash(w.tasks[j].op, w.tasks[k].op, c)
  }

  ghost predicate AllApart(w: World, h: Hashes, c: Cell) {
    LogApart(w.state.log, h, c) && forall k :: k in w.tasks ==> Apart(h, w.tasks[k].op, c)
  }

  ghost predicate HasWriter(w: World, c: Cell) {
    exists k :: k in w.tasks && Wrote(w.tasks[k], c)
  }

  ghost predicate CellInv(w: World, h: Hashes, c: Cell) {
    && (forall k :: k in w.tasks && Wrote(w.tasks[k], c) ==>
          LiveAt(w.state, h, c) == Writes(w.tasks[k].op, c).value)
    && (LiveAt(w.state, h, c) == LogAt(w.state.log, c) || HasWriter(w, c))
  }

  /** A start changes no cell and no row, and adds at most one task that has done nothing. */
  lemma {:induction false} StartedShape(w: World, h: Hashes, op: Op, c: Cell)
    requires KeysBelow(w)
    ensures
      var v := Started(w, op);
      && LiveAt(v.state, h, c) == LiveAt(w.state, h, c) && v.state.log == w.state.log && KeysBelow(v)
      && (forall k :: k in w.tasks ==> k in v.tasks && v.tasks[k] == w.tasks[k])
      && (forall k :: k in v.tasks && k !in w.tasks ==> v.tasks[k].op == op && v.tasks[k].next == AtMark)
  {
  }

  lemma {:induction false} StartKeepsCell(w: World, h: Hashes, op: Op, c: Cell)
    requires KeysBelow(w) && CellInv(w, h, c) && AllApart(w, h, c) && Apart(h, op, c)
    ensures CellInv(Started(w, op), h, c) && AllApart(Started(w, op), h, c)
  {
    hide LogAt, LiveAt, Writes, Apart, LogApart, Started;
    var v := Started(w, op);
    StartedShape(w, h, op, c);
    if HasWriter(w, c) {
      var k :| k in w.tasks && Wrote(w.tasks[k], c);
      assert k in v.tasks && v.tasks[k] == w.tasks[k];
    }
  }

  lemma {:induction false} MarkKeepsCell(w: World, h: Hashes, k: nat, c: Cell)
    requires CellInv(w, h, c) && NoClash(w, c) && AllApart(w, h, c)
    requires k in w.tasks && w.tasks[k].next == AtMark
    ensures CellInv(Acted(w, h, k), h, c)
  {
    hide LogAt, LiveAt, Writes, Apart, LogApart, Marked;
    var v, op := Acted(w, h, k), w.tasks[k].op;
    MarkedAt(w.state, h, op, c);
    assert v.state.log == w.state.log by { MarkKeepsLog(w.state, h, op); }
    assert !Clash(w.tasks[k].op, w.tasks[k].op, c);
    forall j | j in v.tasks && Wrote(v.tasks[j], c)
      ensures LiveAt(v.state, h, c) == Writes(v.tasks[j].op, c).value
    {
      assert v.tasks[j].op == w.tasks[j].op;
      assert !Clash(w.tasks[j].op, w.tasks[k].op, c);
    }
    if First(c) && Writes(op, c).Some? {
      assert Wrote(v.tasks[k], c);
    } else if HasWriter(w, c) {
      var j :| j in w.tasks && Wrote(w.tasks[j], c);
      assert j in v.tasks && Wrote(v.tasks[j], c);
    }
  }

  lemma {:induction false} MarkKeepsLog(s: State, h: Hashes, op: Op)
    ensures Marked(s, h, op).log == s.log && Noted(s, op).log == s.log
  {
  }

  lemma {:induction false} NoteKeepsCell(w: World, h: Hashes, k: nat, c: Cell)
    requires CellInv(w, h, c) && NoClash(w, c)
    requires k in w.tasks && w.tasks[k].next == AtNote
    ensures CellInv(Acted(w, h, k), h, c)
  {
    hide LogAt, LiveAt, Writes, Noted;
    var v, op := Acted(w, h, k), w.tasks[k].op;
    NotedAt(w.state, h, op, c);
    MarkKeepsLog(w.state, h, op);
    forall j | j in v.tasks && Wrote(v.tasks[j], c)
      ensures LiveAt(v.state, h, c) == Writes(v.tasks[j].op, c).value
    {
      assert v.tasks[j].op == w.tasks[j].op;
      assert !Clash(w.tasks[j].op, w.tasks[k].op, c);
    }
    if !First(c) && Writes(op, c).Some? {
      assert Wrote(v.tasks[k], c);
    } else if HasWriter(w, c) {
      var j :| j in w.tasks && Wrote(w.tasks[j], c);
      assert j in v.tasks && Wrote(v.tasks[j], c);
    }
  }

  lemma {:induction false} LogKeepsCell(w: World, h: Hashes, k: nat, c: Cell)
    requires CellInv(w, h, c)
    requires k in w.tasks && w.tasks[k].next == AtLog
    ensures CellInv(Acted(w, h, k), h, c)
  {
    hide LogAt, Writes, EntryOf;
    var v, t := Acted(w, h, k), w.tasks[k];
    LoggedAt(w.state.log, t.op, t.found, t.initiator, c);
    assert LiveAt(v.state, h, c) == LiveAt(w.state, h, c);
    if Writes(t.op, c).Some? {
      assert Wrote(t, c);
    } else if HasWriter(w, c) {
      var j :| j in w.tasks && Wrote(w.tasks[j], c);
      assert j in v.tasks && v.tasks[j] == w.tasks[j];
    }
  }

  lemma {:induction false} ActKeepsApart(w: World, h: Hashes, k: nat, c: Cell)
    requires AllApart(w, h, c) && KeysBelow(w)
    ensures AllApart(Acted(w, h, k), h, c) && KeysBelow(Acted(w, h, k))
  {
    hide Apart, Tripped, Marked, Noted, EntryOf;
    if k in w.tasks {
      var t := w.tasks[k];
      MarkKeepsLog(w.state, h, t.op);
      if t.next == AtLog && c.SlotFor? {
        LoggedTripped(w.state.log, t.op, t.found, t.initiator, c.group);
        if t.op.TripTarget? && t.op.group == c.group {
          OpApart(h, t.op, c);
        }
      }
    }
  }

  lemma {:induction false} OpApart(h: Hashes, op: Op, c: Cell)
    requires Apart(h, op, c) && c.SlotFor? && op.TripTarget? && op.group == c.group
    ensures SlotOf(h, c.group, op.id) == SlotOf(h, c.group, c.id) ==> op.id == c.id
  {
  }

  // ----- every halted slot is that of a target known to be tripped

  ghost predicate ClearedBy(w: World, group: Group, id: string) {
    exists k :: k in w.tasks && w.tasks[k].op.ResetTarget? && w.tasks[k].op.group == group
      && w.tasks[k].op.id == id && w.tasks[k].next != AtMark
  }

  ghost predicate TrippedBy(w: World, group: Group, id: string) {
    exists k :: k in w.tasks && w.tasks[k].op.TripTarget? && w.tasks[k].op.group == group
      && w.tasks[k].op.id == id && w.tasks[k].next != AtMark
  }

  /** The log has it tripped and no reset of it is under way, or a trip of it is. */
  ghost predicate Backed(w: World, group: Group, id: string) {
    (id in Tripped(w.state.log, group) && !ClearedBy(w, group, id)) || TrippedBy(w, group, id)
  }

  ghost predicate SlotInv(w: World, h: Hashes, group: Group) {
    forall slot :: slot in BankOf(w.state, group).halted ==>
      exists id :: SlotOf(h, group, id) == slot && Backed(w, group, id)
  }

  /** No target of the group is being tripped and reset at a time. */
  ghost predicate TargetsApart(w: World, group: Group) {
    forall id :: NoClash(w, SlotFor(group, id))
  }

  /** Being backed depends on the log and on which tasks of the target have marked. */
  lemma {:induction false} BackedSame(w: World, v: World, group: Group, id: string)
    requires Backed(w, group, id)
    requires id in Tripped(w.state.log, group) ==> id in Tripped(v.state.log, group)
    requires ClearedBy(v, group, id) ==> ClearedBy(w, group, id)
    requires TrippedBy(w, group, id) ==> TrippedBy(v, group, id)
    ensures Backed(v, group, id)
  {
  }

  lemma {:induction false} MarkSlots(w: World, h: Hashes, k: nat, group: Group)
    requires k in w.tasks && w.tasks[k].next == AtMark
    ensures
      var v, op := Acted(w, h, k), w.tasks[k].op;
      BankOf(v.state, group).halted
      == if op.TripTarget? && op.group == group then BankOf(w.state, group).halted + {SlotOf(h, group, op.id)}
         else if op.ResetTarget? && op.group == group then BankOf(w.state, group).halted - {SlotOf(h, group, op.id)}
         else BankOf(w.state, group).halted
  {
  }

  lemma {:induction false} MarkMarks(w: World, h: Hashes, k: nat, group: Group, id: string)
    requires k in w.tasks && w.tasks[k].next == AtMark
    ensures
      var v, op := Acted(w, h, k), w.tasks[k].op;
      && (TrippedBy(w, group, id) ==> TrippedBy(v, group, id))
      && (op.TripTarget? && op.group == group && op.id == id ==> TrippedBy(v, group, id))
      && (!(op.ResetTarget? && op.group == group && op.id == id) && ClearedBy(v, group, id) ==> ClearedBy(w, group, id))
  {
    hide Marked;
    var v, op := Acted(w, h, k), w.tasks[k].op;
    if TrippedBy(w, group, id) {
      var j :| j in w.tasks && w.tasks[j].op.TripTarget? && w.tasks[j].op.group == group
        && w.tasks[j].op.id == id && w.tasks[j].next != AtMark;
      assert j in v.tasks && v.tasks[j] == w.tasks[j];
    }
    assert k in v.tasks && v.tasks[k].op == op && v.tasks[k].next == AtNote;
    if ClearedBy(v, group, id) {
      var j :| j in v.tasks && v.tasks[j].op.ResetTarget? && v.tasks[j].op.group == group
        && v.tasks[j].op.id == id && v.tasks[j].next != AtMark;
      assert j != k ==> v.tasks[j] == w.tasks[j];
    }
  }

  lemma {:induction false} MarkKeepsSlots(w: World, h: Hashes, k: nat, group: Group)
    requires SlotInv(w, h, group) && k in w.tasks && w.tasks[k].next == AtMark
    ensures SlotInv(Acted(w, h, k), h, group)
  {
    hide Acted, Tripped, TrippedBy, ClearedBy;
    var v, op := Acted(w, h, k), w.tasks[k].op;
    MarkSlots(w, h, k, group);
    assert v.state.log == w.state.log by { ActedLog(w, h, k); }
    forall slot | slot in BankOf(v.state, group).halted
      ensures exists id :: SlotOf(h, group, id) == slot && Backed(v, group, id)
    {
      if slot in BankOf(w.state, group).halted {
        var id :| SlotOf(h, group, id) == slot && Backed(w, group, id);
        MarkMarks(w, h, k, group, id);
        BackedSame(w, v, group, id);
      } else {
        MarkMarks(w, h, k, group, op.id);
        assert Backed(v, group, op.id);
      }
    }
  }

  lemma {:induction false} ActedLog(w: World, h: Hashes, k: nat)
    requires k in w.tasks
    ensures w.tasks[k].next != AtLog ==> Acted(w, h, k).state.log == w.state.log
    ensures w.tasks[k].next == AtLog ==>
      Acted(w, h, k).state.log == w.state.log + [EntryOf(w.tasks[k].op, w.tasks[k].found, w.tasks[k].initiator)]
  {
    hide EntryOf;
    MarkKeepsLog(w.state, h, w.tasks[k].op);
  }

  lemma {:induction false} NoteKeepsSlots(w: World, h: Hashes, k: nat, group: Group)
    requires SlotInv(w, h, group) && k in w.tasks && w.tasks[k].next == AtNote
    ensures SlotInv(Acted(w, h, k), h, group)
  {
    hide Tripped;
    var v := Acted(w, h, k);
    ActedLog(w, h, k);
    assert BankOf(v.state, group).halted == BankOf(w.state, group).halted;
    assert forall j :: j in w.tasks ==> j in v.tasks && v.tasks[j].op == w.tasks[j].op
                                        && (v.tasks[j].next == AtMark <==> w.tasks[j].next == AtMark);
    forall slot | slot in BankOf(v.state, group).halted
      ensures exists id :: SlotOf(h, group, id) == slot && Backed(v, group, id)
    {
      var id :| SlotOf(h, group, id) == slot && Backed(w, group, id);
      BackedSame(w, v, group, id);
    }
  }

  /** Of tasks that do not clash, none trips what another resets. */
  lemma {:induction false} TripOrReset(w: World, j: nat, k: nat)
    requires j in w.tasks && k in w.tasks && w.tasks[j].op.TripTarget? && w.tasks[k].op.ResetTarget?
    requires w.tasks[j].op.group == w.tasks[k].op.group && w.tasks[j].op.id == w.tasks[k].op.id
    ensures !NoClash(w, SlotFor(w.tasks[k].op.group, w.tasks[k].op.id))
  {
    assert Clash(w.tasks[j].op, w.tasks[k].op, SlotFor(w.tasks[k].op.group, w.tasks[k].op.id));
  }

  /** Who a target is backed by once a task has logged. */
  lemma {:induction false} LogBacks(w: World, h: Hashes, k: nat, group: Group, id: string)
    requires k in w.tasks && w.tasks[k].next == AtLog && Backed(w, group, id)
    requires NoClash(w, SlotFor(group, id))
    ensures Backed(Acted(w, h, k), group, id)
  {
    hide Tripped, EntryOf, NoClash;
    var v, t := Acted(w, h, k), w.tasks[k];
    LoggedTripped(w.state.log, t.op, t.found, t.initiator, group);
    assert forall j :: j in v.tasks <==> j in w.tasks && j != k;
    assert forall j :: j in v.tasks ==> v.tasks[j] == w.tasks[j];
    assert ClearedBy(v, group, id) ==> ClearedBy(w, group, id);
    if TrippedBy(w, group, id) {
      var j :| j in w.tasks && w.tasks[j].op.TripTarget? && w.tasks[j].op.group == group
        && w.tasks[j].op.id == id && w.tasks[j].next != AtMark;
      forall i | i in w.tasks && w.tasks[i].op.ResetTarget? && w.tasks[i].op.group == group && w.tasks[i].op.id == id
        ensures false
      {
        TripOrReset(w, j, i);
      }
      assert j != k ==> j in v.tasks;
    } else {
      assert t.op.ResetTarget? && t.op.group == group && t.op.id == id ==> ClearedBy(w, group, id);
    }
  }

  lemma {:induction false} LogKeepsSlots(w: World, h: Hashes, k: nat, group: Group)
    requires SlotInv(w, h, group) && k in w.tasks && w.tasks[k].next == AtLog && TargetsApart(w, group)
    ensures SlotInv(Acted(w, h, k), h, group)
  {
    hide Backed, NoClash;
    var v := Acted(w, h, k);
    assert BankOf(v.state, group).halted == BankOf(w.state, group).halted;
    forall slot | slot in BankOf(v.state, group).halted
      ensures exists id :: SlotOf(h, group, id) == slot && Backed(v, group, id)
    {
      var id :| SlotOf(h, group, id) == slot && Backed(w, group, id);
      LogBacks(w, h, k, group, id);
    }
  }

  lemma {:induction false} StartKeepsSlots(w: World, h: Hashes, op: Op, group: Group)
    requires SlotInv(w, h, group) && KeysBelow(w)
    ensures SlotInv(Started(w, op), h, group)
  {
    hide Tripped;
    var v := Started(w, op);
    assert BankOf(v.state, group).halted == BankOf(w.state, group).halted;
    StartedShape(w, h, op, Flag);
    forall slot | slot in BankOf(v.state, group).halted
      ensures exists id :: SlotOf(h, group, id) == slot && Backed(v, group, id)
    {
      var id :| SlotOf(h, group, id) == slot && Backed(w, group, id);
      StartedBacks(w, v, op, group, id);
    }
  }

  lemma {:induction false} StartedBacks(w: World, v: World, op: Op, group: Group, id: string)
    requires Backed(w, group, id) && v.state.log == w.state.log
    requires forall k :: k in w.tasks ==> k in v.tasks && v.tasks[k] == w.tasks[k]
    requires forall k :: k in v.tasks && k !in w.tasks ==> v.tasks[k].op == op && v.tasks[k].next == AtMark
    ensures Backed(v, group, id)
  {
    hide Tripped;
    if TrippedBy(w, group, id) {
      var j :| j in w.tasks && w.tasks[j].op.TripTarget? && w.tasks[j].op.group == group
        && w.tasks[j].op.id == id && w.tasks[j].next != AtMark;
      assert j in v.tasks && v.tasks[j] == w.tasks[j];
    }
    BackedSame(w, v, group, id);
  }

  lemma {:induction false} RestartKeepsSlots(w: World, h: Hashes, group: Group)
    ensures SlotInv(Next(w, h, Restart), h, group)
  {
    hide Tripped;
    var v := Next(w, h, Restart);
    var m := Tripped(w.state.log, group);
    forall slot | slot in BankOf(v.state, group).halted
      ensures exists id :: SlotOf(h, group, id) == slot && Backed(v, group, id)
    {
      var id :| id in m.Keys && SlotOf(h, group, id) == slot;
      assert Backed(v, group, id);
    }
  }

  // ----- what every run keeps

  ghost predicate Compatible(w: World) {
    forall c :: NoClash(w, c)
  }

  ghost predicate Tracked(w: World, h: Hashes) {
    && KeysBelow(w)
    && (forall c: Cell :: !c.SlotFor? ==> CellInv(w, h, c))
    && SlotInv(w, h, Algo) && SlotInv(w, h, Trader)
  }

  /** A discipline that keeps one cell from being written differently by two at a time. */
  ghost predicate CellSafe(d: Discipline, c: Cell) {
    forall a, b :: Clash(a, b, c) ==> !d.overlap(a, b)
  }

  lemma {:induction false} StartNoClash(w: World, h: Hashes, d: Discipline, op: Op, c: Cell)
    requires KeysBelow(w) && NoClash(w, c) && CellSafe(d, c) && Allowed(d, w, Start(op))
    ensures NoClash(Started(w, op), c)
  {
    hide Started, Clash;
    var v := Started(w, op);
    StartedShape(w, h, op, Flag);
    forall j, k | j in v.tasks && k in v.tasks
      ensures !Clash(v.tasks[j].op, v.tasks[k].op, c)
    {
      ClashConflicts(v.tasks[j].op, v.tasks[k].op, c);
      ClashConflicts(v.tasks[k].op, v.tasks[j].op, c);
      NoSelfClash(op, c);
    }
  }

  lemma {:induction false} NoSelfClash(op: Op, c: Cell)
    ensures !Clash(op, op, c)
  {
  }

  lemma {:induction false} ClashConflicts(a: Op, b: Op, c: Cell)
    ensures Clash(a, b, c) ==> Clash(b, a, c) && Conflict(a, b) && Conflict(b, a)
  {
    assert Clash(a, b, c) ==> Clash(b, a, c);
  }

  lemma {:induction false} ActNoClash(w: World, h: Hashes, k: nat, c: Cell)
    requires NoClash(w, c)
    ensures NoClash(Acted(w, h, k), c)
  {
    hide Clash, Marked, Noted, EntryOf;
    var v := Acted(w, h, k);
    assert forall j :: j in v.tasks ==> j in w.tasks && v.tasks[j].op == w.tasks[j].op;
  }

  lemma {:induction false} ActKeepsCell(w: World, h: Hashes, k: nat, c: Cell)
    requires CellInv(w, h, c) && NoClash(w, c) && AllApart(w, h, c)
    ensures CellInv(Acted(w, h, k), h, c)
  {
    hide CellInv, NoClash, AllApart;
    if k in w.tasks {
      match w.tasks[k].next
      case AtMark => MarkKeepsCell(w, h, k, c);
      case AtNote => NoteKeepsCell(w, h, k, c);
      case AtLog => LogKeepsCell(w, h, k, c);
    }
  }

  lemma {:induction false} ActKeepsSlots(w: World, h: Hashes, k: nat, group: Group)
    requires SlotInv(w, h, group) && TargetsApart(w, group)
    ensures SlotInv(Acted(w, h, k), h, group)
  {
    hide SlotInv, NoClash;
    if k in w.tasks {
      match w.tasks[k].next
      case AtMark => MarkKeepsSlots(w, h, k, group);
      case AtNote => NoteKeepsSlots(w, h, k, group);
      case AtLog => LogKeepsSlots(w, h, k, group);
    }
  }

  lemma {:induction false} RestartKeepsCell(w: World, h: Hashes, c: Cell)
    requires LogApart(w.state.log, h, c)
    ensures CellInv(Next(w, h, Restart), h, c)
  {
    hide LiveAt, LogAt, Restored;
    RestoredAt(w.state.log, h, c);
    assert Next(w, h, Restart).state.log == w.state.log by { RestoredLog(w.state.log, h); }
  }

  lemma {:induction false} RestoredLog(log: seq<Entry>, h: Hashes)
    ensures Restored(log, h).log == log && Restored(log, h).pending == map[]
  {
  }

  lemma {:induction false} InitiateKeepsCell(w: World, h: Hashes, token: string, admin: string, c: Cell)
    requires CellInv(w, h, c)
    ensures CellInv(Next(w, h, Initiate(token, admin)), h, c)
  {
    hide LogAt, Writes;
    var v := Next(w, h, Initiate(token, admin));
    assert LiveAt(v.state, h, c) == LiveAt(w.state, h, c) && v.tasks == w.tasks;
    if HasWriter(w, c) {
      var k :| k in w.tasks && Wrote(w.tasks[k], c);
      assert k in v.tasks;
    }
  }

  lemma {:induction false} InitiateKeepsSlots(w: World, h: Hashes, token: string, admin: string, group: Group)
    requires SlotInv(w, h, group)
    ensures SlotInv(Next(w, h, Initiate(token, admin)), h, group)
  {
    hide Tripped;
    var v := Next(w, h, Initiate(token, admin));
    assert BankOf(v.state, group) == BankOf(w.state, group);
    forall slot | slot in BankOf(v.state, group).halted
      ensures exists id :: SlotOf(h, group, id) == slot && Backed(v, group, id)
    {
      var id :| SlotOf(h, group, id) == slot && Backed(w, group, id);
      StartedBacks(w, v, Confirm("", ""), group, id);
    }
  }

  lemma {:induction false} StepKeepsCell(w: World, h: Hashes, e: Event, c: Cell)
    requires KeysBelow(w) && NoClash(w, c) && CellInv(w, h, c) && AllApart(w, h, c)
    requires e.Start? ==> Apart(h, e.op, c)
    ensures CellInv(Next(w, h, e), h, c) && AllApart(Next(w, h, e), h, c)
  {
    hide CellInv, Started, Acted, Apart, NoClash, Restored, LogApart;
    match e
    case Initiate(token, admin) => InitiateKeepsCell(w, h, token, admin, c);
    case Start(op) => StartKeepsCell(w, h, op, c);
    case Act(k) =>
      ActKeepsCell(w, h, k, c);
      ActKeepsApart(w, h, k, c);
    case Restart =>
      RestartKeepsCell(w, h, c);
      RestoredLog(w.state.log, h);
  }

  lemma {:induction false} StepKeepsSlots(w: World, h: Hashes, e: Event, group: Group)
    requires KeysBelow(w) && TargetsApart(w, group) && SlotInv(w, h, group)
    ensures SlotInv(Next(w, h, e), h, group)
  {
    hide SlotInv, Started, Acted, NoClash, Restored;
    match e
    case Initiate(token, admin) => InitiateKeepsSlots(w, h, token, admin, group);
    case Start(op) => StartKeepsSlots(w, h, op, group);
    case Act(k) => ActKeepsSlots(w, h, k, group);
    case Restart => RestartKeepsSlots(w, h, group);
  }

  lemma {:induction false} StepNoClash(w: World, h: Hashes, d: Discipline, e: Event, c: Cell)
    requires KeysBelow(w) && NoClash(w, c) && CellSafe(d, c) && Allowed(d, w, e)
    ensures NoClash(Next(w, h, e), c)
  {
    hide Clash, Started, Acted, CellSafe, Allowed, Restored;
    match e
    case Initiate(token, admin) =>
    case Start(op) => StartNoClash(w, h, d, op, c);
    case Act(k) => ActNoClash(w, h, k, c);
    case Restart =>
  }

  lemma {:induction false} StepKeepsKeys(w: World, h: Hashes, e: Event)
    requires KeysBelow(w)
    ensures KeysBelow(Next(w, h, e))
  {
    hide Marked, Noted, EntryOf, Restored;
  }

  lemma {:induction false} StepIsCompatible(w: World, h: Hashes, d: Discipline, e: Event)
    requires KeysBelow(w) && Compatible(w) && NoOverlap(d) && Allowed(d, w, e)
    ensures Compatible(Next(w, h, e))
  {
    hide Next, NoClash, Allowed, Clash;
    forall c
      ensures NoClash(Next(w, h, e), c)
    {
      assert NoClash(w, c);
      assert CellSafe(d, c) by { SafeEverywhere(d, c); }
      StepNoClash(w, h, d, e, c);
    }
  }

  lemma {:induction false} SafeEverywhere(d: Discipline, c: Cell)
    requires NoOverlap(d)
    ensures CellSafe(d, c)
  {
    hide Clash;
    forall a, b | Clash(a, b, c)
      ensures !d.overlap(a, b)
    {
      assert Conflict(a, b);
    }
  }

  lemma {:induction false} StepKeepsTracked(w: World, h: Hashes, d: Discipline, e: Event)
    requires Tracked(w, h) && Compatible(w) && NoOverlap(d) && Allowed(d, w, e)
    ensures Tracked(Next(w, h, e), h) && Compatible(Next(w, h, e))
  {
    hide CellInv, SlotInv, Next, Compatible, NoOverlap, Allowed, TargetsApart;
    StepIsCompatible(w, h, d, e);
    CompatibleTargets(w);
    StepKeepsKeys(w, h, e);
    StepKeepsSlots(w, h, e, Algo);
    StepKeepsSlots(w, h, e, Trader);
    forall c: Cell | !c.SlotFor?
      ensures CellInv(Next(w, h, e), h, c)
    {
      OtherCellsApart(w, h, e, c);
      CompatibleAt(w, c);
      StepKeepsCell(w, h, e, c);
    }
  }

  lemma {:induction false} CompatibleAt(w: World, c: Cell)
    requires Compatible(w)
    ensures NoClash(w, c)
  {
  }

  lemma {:induction false} CompatibleTargets(w: World)
    requires Compatible(w)
    ensures TargetsApart(w, Algo) && TargetsApart(w, Trader)
  {
    hide NoClash;
  }

  lemma {:induction false} OtherCellsApart(w: World, h: Hashes, e: Event, c: Cell)
    requires !c.SlotFor?
    ensures AllApart(w, h, c) && (e.Start? ==> Apart(h, e.op, c))
  {
  }

  lemma {:induction false} RunIsTracked(events: seq<Event>, h: Hashes, d: Discipline)
    requires NoOverlap(d) && Obeys(events, d, h)
    ensures Tracked(Run(events, h), h) && Compatible(Run(events, h))
  {
    hide Tracked, Compatible, Next, NoOverlap, Allowed;
    if events == [] {
      StartIsTracked(h);
    } else {
      var n := |events| - 1;
      RunIsTracked(events[..n], h, d);
      StepKeepsTracked(Run(events[..n], h), h, d, events[n]);
    }
  }

  lemma {:induction false} StartIsTracked(h: Hashes)
    ensures Tracked(START, h) && Compatible(START)
  {
  }

  lemma {:induction false} QuietCell(w: World, h: Hashes, c: Cell)
    requires Quiet(w) && CellInv(w, h, c)
    ensures LiveAt(w.state, h, c) == LogAt(w.state.log, c)
  {
  }

  lemma {:induction false} QuietReasons(w: World, h: Hashes, group: Group)
    requires Quiet(w) && Tracked(w, h)
    ensures BankOf(w.state, group).reasons == Tripped(w.state.log, group)
  {
    hide CellInv, SlotInv, Tripped, Quiet;
    forall id: string
      ensures Lookup(BankOf(w.state, group).reasons, id) == Lookup(Tripped(w.state.log, group), id)
    {
      QuietCell(w, h, ReasonFor(group, id));
    }
    SameLookups(BankOf(w.state, group).reasons, Tripped(w.state.log, group));
  }

  lemma {:induction false} SameLookups(a: map<string, string>, b: map<string, string>)
    requires forall id :: Lookup(a, id) == Lookup(b, id)
    ensures a == b
  {
    assert forall id :: id in a ==> Lookup(a, id) == Lookup(b, id);
    assert forall id :: id in b ==> Lookup(a, id) == Lookup(b, id);
  }

  lemma {:induction false} QuietSlots(w: World, h: Hashes, group: Group)
    requires Quiet(w) && SlotInv(w, h, group)
    ensures BankOf(w.state, group).halted <= RestoredBank(w.state.log, h, group).halted
  {
    hide Tripped;
    forall slot | slot in BankOf(w.state, group).halted
      ensures slot in RestoredBank(w.state.log, h, group).halted
    {
      var id :| SlotOf(h, group, id) == slot && Backed(w, group, id);
      assert id in Tripped(w.state.log, group).Keys;
    }
  }

  lemma {:induction false} QuietAgrees(w: World, h: Hashes)
    requires Quiet(w) && Tracked(w, h)
    ensures Agrees(w.state, h)
  {
    hide CellInv, SlotInv, Tripped, RestoredFlag, RestoredNote, Quiet, SlotSet;
    QuietCell(w, h, Flag);
    QuietCell(w, h, NoteCell);
    QuietReasons(w, h, Algo);
    QuietReasons(w, h, Trader);
    QuietSlots(w, h, Algo);
    QuietSlots(w, h, Trader);
  }

  // ----- runs put together

  lemma {:induction false} RunNext(events: seq<Event>, h: Hashes, d: Discipline, e: Event)
    ensures Run(events + [e], h) == Next(Run(events, h), h, e)
    ensures Obeys(events + [e], d, h) <==> Obeys(events, d, h) && Allowed(d, Run(events, h), e)
  {
    assert (events + [e])[..|events|] == events;
  }

  lemma {:induction false} MarkStep(events: seq<Event>, h: Hashes, d: Discipline, k: nat)
    requires Obeys(events, d, h) && k in Run(events, h).tasks && Run(events, h).tasks[k].next == AtMark
    ensures
      var w, v := Run(events, h), Run(events + [Act(k)], h);
      && Obeys(events + [Act(k)], d, h) && v.count == w.count
      && v.state == Marked(w.state, h, w.tasks[k].op) && v.state.log == w.state.log
      && k in v.tasks && v.tasks[k] == w.tasks[k].(next := AtNote)
      && (forall j :: j != k ==> (j in v.tasks <==> j in w.tasks))
      && (forall j :: j != k && j in w.tasks ==> v.tasks[j] == w.tasks[j])
  {
    hide Run, Obeys;
    RunNext(events, h, d, Act(k));
    MarkKeepsLog(Run(events, h).state, h, Run(events, h).tasks[k].op);
  }

  lemma {:induction false} NoteStep(events: seq<Event>, h: Hashes, d: Discipline, k: nat)
    requires Obeys(events, d, h) && k in Run(events, h).tasks && Run(events, h).tasks[k].next == AtNote
    ensures
      var w, v := Run(events, h), Run(events + [Act(k)], h);
      && Obeys(events + [Act(k)], d, h) && v.count == w.count
      && v.state == Noted(w.state, w.tasks[k].op) && v.state.log == w.state.log
      && k in v.tasks && v.tasks[k].op == w.tasks[k].op && v.tasks[k].next == AtLog
      && (forall j :: j != k ==> (j in v.tasks <==> j in w.tasks))
      && (forall j :: j != k && j in w.tasks ==> v.tasks[j] == w.tasks[j])
  {
    hide Run, Obeys;
    RunNext(events, h, d, Act(k));
  }

  lemma {:induction false} StartStep(events: seq<Event>, h: Hashes, d: Discipline, op: Op)
    requires Obeys(events, d, h) && Allowed(d, Run(events, h), Start(op)) && Ready(Run(events, h).state, op)
    ensures
      var w, v := Run(events, h), Run(events + [Start(op)], h);
      && Obeys(events + [Start(op)], d, h) && v.count == w.count + 1
      && v.state.log == w.state.log && v.state.halted == w.state.halted
      && (!op.Confirm? ==> v.state == w.state)
      && w.count in v.tasks && v.tasks[w.count].op == op && v.tasks[w.count].next == AtMark
      && (forall j :: j != w.count ==> (j in v.tasks <==> j in w.tasks))
      && (forall j :: j != w.count && j in w.tasks ==> v.tasks[j] == w.tasks[j])
  {
    hide Run, Obeys;
    RunNext(events, h, d, Start(op));
  }

  predicate Ready(s: State, op: Op) {
    op.Confirm? ==> ConfirmOutcome(s, op.token, op.admin) == Done
  }

  /** The state an operation acts on. */
  function Entered(s: State, op: Op): State {
    if op.Confirm? then Taken(s, op.token) else s
  }

  /** The live state when all but the row is written. */
  function Effect(s: State, h: Hashes, op: Op): State {
    Noted(Marked(Entered(s, op), h, op), op)
  }

  /** `v` is `w` with task `k` added or changed to one of `op`, at its last action. */
  ghost predicate AboutToLog(w: World, v: World, k: nat, op: Op) {
    && k in v.tasks && v.tasks[k].op == op && v.tasks[k].next == AtLog
    && (forall j :: j != k ==> (j in v.tasks <==> j in w.tasks))
    && (forall j :: j != k && j in w.tasks ==> v.tasks[j] == w.tasks[j])
  }

  /** Starts an operation and takes it as far as its row. */
  lemma {:induction false} Partly(events: seq<Event>, h: Hashes, d: Discipline, op: Op) returns (longer: seq<Event>)
    requires Obeys(events, d, h) && KeysBelow(Run(events, h))
    requires Allowed(d, Run(events, h), Start(op)) && Ready(Run(events, h).state, op)
    ensures Obeys(longer, d, h)
    ensures longer == events + [Start(op)] + [Act(Run(events, h).count)] + [Act(Run(events, h).count)]
    ensures
      var w, v := Run(events, h), Run(longer, h);
      && v.state == Effect(w.state, h, op) && v.count == w.count + 1
      && AboutToLog(w, v, w.count, op)
  {
    hide Run, Marked, Noted, Obeys;
    var w := Run(events, h);
    var k := w.count;
    RunNext(events, h, d, Start(op));
    RunNext(events + [Start(op)], h, d, Act(k));
    RunNext(events + [Start(op)] + [Act(k)], h, d, Act(k));
    longer := events + [Start(op)] + [Act(k)] + [Act(k)];
  }

  /** Writes the row. */
  lemma {:induction false} Finish(events: seq<Event>, h: Hashes, d: Discipline, k: nat) returns (longer: seq<Event>)
    requires Obeys(events, d, h) && k in Run(events, h).tasks && Run(events, h).tasks[k].next == AtLog
    ensures Obeys(longer, d, h) && longer == events + [Act(k)]
    ensures
      var w, v := Run(events, h), Run(longer, h);
      && v.state == Logged(w.state, EntryOf(w.tasks[k].op, w.tasks[k].found, w.tasks[k].initiator))
      && v.count == w.count
      && (forall j :: j in v.tasks <==> j in w.tasks && j != k)
      && (forall j :: j in v.tasks ==> v.tasks[j] == w.tasks[j])
  {
    hide Run, EntryOf, Obeys;
    RunNext(events, h, d, Act(k));
    longer := events + [Act(k)];
  }

  /** With nothing in between, an operation does what the manager's method does. */
  lemma {:induction false} WholeOperation(events: seq<Event>, h: Hashes, op: Op)
    requires KeysBelow(Run(events, h)) && Ready(Run(events, h).state, op)
    ensures
      var w, k := Run(events, h), Run(events, h).count;
      var v := Run(events + [Start(op)] + [Act(k)] + [Act(k)] + [Act(k)], h);
      && v.state == Uninterrupted(Entered(w.state, op), h, op, if op.Confirm? then w.state.pending[op.token] else "")
      && (forall j :: j in v.tasks <==> j in w.tasks)
  {
    hide Run, Obeys;
    var d := Discipline((a: Op, b: Op) => true, (a: Op) => true);
    var w, k := Run(events, h), Run(events, h).count;
    RunNext(events, h, d, Start(op));
    RunNext(events + [Start(op)], h, d, Act(k));
    RunNext(events + [Start(op)] + [Act(k)], h, d, Act(k));
    RunNext(events + [Start(op)] + [Act(k)] + [Act(k)], h, d, Act(k));
    MarkKeepsNote(Entered(w.state, op), h, op);
  }

  lemma {:induction false} MarkKeepsNote(s: State, h: Hashes, op: Op)
    ensures Marked(s, h, op).note == s.note
  {
  }

  lemma {:induction false} EffectAt(s: State, h: Hashes, op: Op, c: Cell)
    requires !c.SlotFor?
    ensures LiveAt(Effect(s, h, op), h, c)
         == if Writes(op, c).Some? then Writes(op, c).value else LiveAt(s, h, c)
    ensures Effect(s, h, op).log == s.log
  {
    hide Marked, Noted, Writes;
    var t := Entered(s, op);
    MarkedAt(t, h, op, c);
    NotedAt(Marked(t, h, op), h, op, c);
    MarkKeepsLog(t, h, op);
    MarkKeepsLog(Marked(t, h, op), h, op);
    assert LiveAt(t, h, c) == LiveAt(s, h, c);
  }

  lemma {:induction false} LogAtFinish(s: State, h: Hashes, op: Op, found: string, initiator: string, c: Cell)
    ensures LiveAt(Logged(s, EntryOf(op, found, initiator)), h, c) == LiveAt(s, h, c)
    ensures LogAt(Logged(s, EntryOf(op, found, initiator)).log, c)
         == if Writes(op, c).Some? then Writes(op, c).value else LogAt(s.log, c)
  {
    hide Writes, EntryOf, LogAt;
    LoggedAt(s.log, op, found, initiator, c);
  }

  lemma {:induction false} AgreementAt(s: State, h: Hashes, c: Cell)
    requires Agrees(s, h) && !c.SlotFor?
    ensures LiveAt(s, h, c) == LogAt(s.log, c)
  {
    hide Tripped, RestoredFlag, RestoredNote, SlotSet;
  }

  function Other(admin: string): (other: string)
    ensures other != admin
  {
    var other := admin + "*";
    assert |other| != |admin|;
    other
  }

  /** Makes a confirm possible. */
  lemma {:induction false} Prepare(events: seq<Event>, h: Hashes, d: Discipline, op: Op) returns (longer: seq<Event>)
    requires Obeys(events, d, h)
    ensures Obeys(longer, d, h) && Ready(Run(longer, h).state, op)
    ensures
      var w, v := Run(events, h), Run(longer, h);
      && v.tasks == w.tasks && v.count == w.count && v.state == w.state.(pending := v.state.pending)
      && (forall a: Op :: !op.Confirm? && Ready(w.state, a) ==> Ready(v.state, a))
  {
    hide Run, Obeys;
    if op.Confirm? {
      RunNext(events, h, d, Initiate(op.token, Other(op.admin)));
      longer := events + [Initiate(op.token, Other(op.admin))];
    } else {
      longer := events;
    }
  }

  lemma {:induction false} NothingYet(h: Hashes, d: Discipline)
    ensures Run([], h) == START && Obeys([], d, h)
  {
  }

  /** Of two conflicting operations, at most one is a confirm. */
  lemma {:induction false} OneConfirms(a: Op, b: Op)
    requires Conflict(a, b)
    ensures !(a.Confirm? && b.Confirm?)
    ensures exists c: Cell :: !c.SlotFor? && Clash(a, b, c)
  {
    var c :| Clash(a, b, c);
    if c.SlotFor? {
      assert Clash(a, b, ReasonFor(c.group, c.id));
    }
  }

  /** Two conflicting operations that may overlap: one is taken as far as its row, the
      other runs whole, then the first logs. Live state is the second's, the log the
      first's. */
  lemma {:induction false} OverlapBreaks(h: Hashes, d: Discipline, a: Op, b: Op) returns (events: seq<Event>)
    requires Conflict(a, b) && d.overlap(a, b)
    ensures Obeys(events, d, h) && Quiet(Run(events, h)) && !Agrees(Run(events, h).state, h)
  {
    hide Run, Obeys, Agrees, Effect, Writes, EntryOf, LiveAt, LogAt;
    OneConfirms(a, b);
    var c: Cell :| !c.SlotFor? && Clash(a, b, c);
    NothingYet(h, d);
    var e1 := Prepare([], h, d, if a.Confirm? then a else b);
    var e2 := Partly(e1, h, d, a);
    var w1, w2 := Run(e1, h), Run(e2, h);
    EntersReady(w1.state, h, a, b);
    var e3 := Partly(e2, h, d, b);
    var w3 := Run(e3, h);
    EffectAt(w2.state, h, b, c);
    var e4 := Finish(e3, h, d, w2.count);
    var w4 := Run(e4, h);
    LogAtFinish(w3.state, h, b, w3.tasks[w2.count].found, w3.tasks[w2.count].initiator, c);
    events := Finish(e4, h, d, w1.count);
    LogAtFinish(w4.state, h, a, w4.tasks[w1.count].found, w4.tasks[w1.count].initiator, c);
    if Agrees(Run(events, h).state, h) {
      AgreementAt(Run(events, h).state, h, c);
    }
  }

  lemma {:induction false} EntersReady(s: State, h: Hashes, a: Op, b: Op)
    requires Ready(s, if a.Confirm? then a else b) && !(a.Confirm? && b.Confirm?)
    ensures Ready(s, a) && Ready(Effect(s, h, a), b)
  {
  }

  /** Log and live state agree whenever nothing is in flight, in every run of a
      discipline, exactly when it lets no two conflicting operations overlap. Crashes do
      not matter for this. */
  lemma {:induction false} AgreementIff(h: Hashes, d: Discipline)
    ensures (forall events :: Obeys(events, d, h) && Quiet(Run(events, h)) ==> Agrees(Run(events, h).state, h))
       <==> NoOverlap(d)
  {
    hide Run, Obeys, Agrees, Conflict, Quiet;
    if NoOverlap(d) {
      forall events | Obeys(events, d, h) && Quiet(Run(events, h))
        ensures Agrees(Run(events, h).state, h)
      {
        RunIsTracked(events, h, d);
        QuietAgrees(Run(events, h), h);
      }
    } else {
      var a, b :| Conflict(a, b) && d.overlap(a, b);
      var events := OverlapBreaks(h, d, a, b);
    }
  }

  /** A crash inside any operation can change what a restart brings back. */
  lemma {:induction false} CrashBreaks(h: Hashes, d: Discipline, op: Op) returns (events: seq<Event>)
    requires d.crash(op)
    ensures Obeys(events, d, h) && Allowed(d, Run(events, h), Restart) && !Agrees(Run(events, h).state, h)
  {
    hide Run, Obeys, Agrees, Effect, EntryOf, LiveAt, LogAt;
    NothingYet(h, d);
    var e1 := UndoneLater(h, d, op);
    var e2 := Prepare(e1, h, d, op);
    var w2 := Run(e2, h);
    events := Partly(e2, h, d, op);
    var c := if op.TripSystem? || op.Confirm? then Flag else ReasonFor(op.group, op.id);
    EffectAt(w2.state, h, op, c);
    if Agrees(Run(events, h).state, h) {
      AgreementAt(Run(events, h).state, h, c);
    }
  }

  /** What `op` writes first differs from the log: for a reset, after a trip. */
  lemma {:induction false} UndoneLater(h: Hashes, d: Discipline, op: Op) returns (events: seq<Event>)
    ensures Obeys(events, d, h) && Quiet(Run(events, h)) && KeysBelow(Run(events, h))
    ensures
      var c := if op.TripSystem? || op.Confirm? then Flag else ReasonFor(op.group, op.id);
      Some(LogAt(Run(events, h).state.log, c)) != Writes(op, c)
  {
    hide Run, Obeys, Effect, EntryOf;
    NothingYet(h, d);
    NothingTripped();
    if op.TripSystem? || op.TripTarget? {
      events := [];
    } else {
      var trip := if op.Confirm? then TripSystem("", "") else TripTarget(op.group, op.id, "", "");
      var c := if op.Confirm? then Flag else ReasonFor(op.group, op.id);
      var e1 := Partly([], h, d, trip);
      var w1 := Run(e1, h);
      events := Finish(e1, h, d, 0);
      LogAtFinish(w1.state, h, trip, w1.tasks[0].found, w1.tasks[0].initiator, c);
    }
  }

  lemma {:induction false} NothingTripped()
    ensures !RestoredFlag([]) && Tripped([], Algo) == map[] && Tripped([], Trader) == map[]
  {
  }

  /** Every restart a discipline allows brings back the switch, its note, all reasons and
      every halted slot, exactly when no two conflicting operations overlap and no crash
      falls inside one. */
  lemma {:induction false} RecoveryIff(h: Hashes, d: Discipline)
    ensures (forall events :: Obeys(events, d, h) && Allowed(d, Run(events, h), Restart) ==>
               Agrees(Run(events, h).state, h))
       <==> NoOverlap(d) && NoCrash(d)
  {
    hide Run, Obeys, Agrees, Conflict;
    if NoOverlap(d) && NoCrash(d) {
      forall events | Obeys(events, d, h) && Allowed(d, Run(events, h), Restart)
        ensures Agrees(Run(events, h).state, h)
      {
        assert Quiet(Run(events, h));
        RunIsTracked(events, h, d);
        QuietAgrees(Run(events, h), h);
      }
    } else if !NoCrash(d) {
      var op :| d.crash(op);
      var events := CrashBreaks(h, d, op);
    } else {
      var a, b :| Conflict(a, b) && d.overlap(a, b);
      var events := OverlapBreaks(h, d, a, b);
      assert Allowed(d, Run(events, h), Restart);
    }
  }

  // ----- the start, and what an action leaves

  lemma {:induction false} ActedTasks(w: World, h: Hashes, k: nat)
    requires k in w.tasks
    ensures
      var v := Acted(w, h, k);
      && (forall j :: j in v.tasks ==> j in w.tasks && v.tasks[j].op == w.tasks[j].op)
      && (forall j :: j in w.tasks && j != k ==> j in v.tasks && v.tasks[j] == w.tasks[j])
      && (k in v.tasks <==> w.tasks[k].next != AtLog)
      && v.count == w.count
  {
    hide EntryOf, Marked, Noted;
  }

  lemma {:induction false} ActedNothing(w: World, h: Hashes, k: nat)
    requires k !in w.tasks
    ensures Acted(w, h, k) == w
  {
  }

  lemma {:induction false} StartCell(h: Hashes, c: Cell)
    ensures CellInv(START, h, c) && AllApart(START, h, c)
  {
    hide Tripped;
    NothingTripped();
    NoneYet();
  }

  lemma {:induction false} NoneYet()
    ensures !RestoredFlag([]) && RestoredNote([]) == NO_NOTE
  {
  }
}
