/**
 The two-person reset of the system switch, over the interleavings of `KillSwitchSteps`:
 what confirms return in every run, and exactly which overlaps and crashes must be kept
 out for every halt to end by two admins.
 */
module KillSwitchReset {
  import opened KillSwitch
  import opened KillSwitchSteps

  // ----- tokens

  /** Events after which a token's earlier initiation no longer stands. */
  predicate Ends(e: Event, token: string) {
    || (e.Initiate? && e.token == token)
    || (e.Start? && e.op.Confirm? && e.op.token == token)
    || e.Restart?
  }

  /** The initiation at `j` issued `token` to `admin` and nothing has used it up since. */
  ghost predicate Stands(events: seq<Event>, j: int, token: string, admin: string) {
    && 0 <= j < |events|
    && events[j] == Initiate(token, admin)
    && forall k :: j < k < |events| ==> !Ends(events[k], token)
  }

  predicate PendingFor(s: State, token: string, admin: string) {
    token in s.pending && s.pending[token] == admin
  }

  lemma {:induction false} StepPending(w: World, h: Hashes, e: Event, token: string, admin: string)
    ensures
      var v := Next(w, h, e);
      PendingFor(v.state, token, admin)
      <==> if e.Initiate? && e.token == token then e.admin == admin
           else !Ends(e, token) && PendingFor(w.state, token, admin)
  {
    hide EntryOf;
    match e
    case Initiate(_, _) =>
    case Start(_) =>
    case Act(_) =>
    case Restart => RestoredLog(w.state.log, h);
  }

  /** A pending token is exactly one whose latest initiation stands. */
  lemma {:induction false} PendingIffStands(events: seq<Event>, h: Hashes, token: string, admin: string)
    ensures PendingFor(Run(events, h).state, token, admin) <==> exists j :: Stands(events, j, token, admin)
  {
    hide Next, PendingFor;
    if events == [] {
      NothingPending(token, admin);
    } else {
      var n := |events| - 1;
      var e := events[n];
      PendingIffStands(events[..n], h, token, admin);
      StepPending(Run(events[..n], h), h, e, token, admin);
      if e.Initiate? && e.token == token {
        assert e.admin == admin ==> Stands(events, n, token, admin);
        forall j | Stands(events, j, token, admin)
          ensures j == n
        {
          assert Ends(events[n], token);
        }
      } else if Ends(e, token) {
        forall j
          ensures !Stands(events, j, token, admin)
        {
          assert 0 <= j < n ==> Ends(events[n], token);
        }
      } else {
        forall j
          ensures Stands(events, j, token, admin) <==> Stands(events[..n], j, token, admin)
        {
          StandsStep(events, j, token, admin);
        }
      }
    }
  }

  lemma {:induction false} NothingPending(token: string, admin: string)
    ensures !PendingFor(START.state, token, admin)
  {
  }

  lemma {:induction false} StandsStep(events: seq<Event>, j: int, token: string, admin: string)
    requires events != [] && !Ends(events[|events| - 1], token)
    ensures Stands(events, j, token, admin) <==> Stands(events[..|events| - 1], j, token, admin)
  {
  }

  /** What every confirm of every run returns: it fails for want of a standing initiation,
      or because the same admin made it, and succeeds in every other case. */
  lemma {:induction false} ConfirmOutcomes(events: seq<Event>, h: Hashes, token: string, admin: string)
    ensures
      var outcome := ConfirmOutcome(Run(events, h).state, token, admin);
      && (outcome == Done <==> exists j, other :: Stands(events, j, token, other) && other != admin)
      && (outcome == SameAdmin <==> exists j :: Stands(events, j, token, admin))
      && (outcome == InvalidToken <==> !exists j, other :: Stands(events, j, token, other))
  {
    hide Run, Stands;
    var s := Run(events, h).state;
    forall j, other | Stands(events, j, token, other)
      ensures PendingFor(s, token, other)
    {
      PendingIffStands(events, h, token, other);
    }
    if token in s.pending {
      PendingIffStands(events, h, token, s.pending[token]);
    }
  }

  /** Each initiation justifies at most one confirm attempt: a later attempt that is not
      turned away for its token has an initiation of its own in between. */
  lemma {:induction false} OneConfirmPerInitiation(
      events: seq<Event>, h: Hashes, i: nat, k: nat, token: string, a: string, b: string)
    requires i < k < |events| && events[i] == Start(Confirm(token, a)) && events[k] == Start(Confirm(token, b))
    requires ConfirmOutcome(Run(events[..k], h).state, token, b) != InvalidToken
    ensures exists j :: i < j < k && events[j].Initiate? && events[j].token == token
  {
    hide Run;
    ConfirmOutcomes(events[..k], h, token, b);
    var j, other :| Stands(events[..k], j, token, other);
    assert events[..k][j] == events[j];
    assert j < i ==> Ends(events[..k][i], token);
    assert j != i;
  }

  // ----- how a halt ends

  ghost predicate HaltEnds(events: seq<Event>, h: Hashes, i: nat) {
    i < |events| && Run(events[..i], h).state.halted && !Run(events[..i + 1], h).state.halted
  }

  /** The confirm that became task `k` was at `j`, when an initiation by another admin stood. */
  ghost predicate ConfirmedBy(events: seq<Event>, h: Hashes, k: nat, j: int) {
    && 0 <= j < |events| && events[j].Start? && events[j].op.Confirm?
    && Run(events[..j], h).count == k
    && exists m, other :: Stands(events[..j], m, events[j].op.token, other) && other != events[j].op.admin
  }

  /** The event is an action of such a confirm, started earlier. */
  ghost predicate ByTwo(events: seq<Event>, h: Hashes, i: nat) {
    i < |events| && events[i].Act? && exists j :: ConfirmedBy(events[..i], h, events[i].k, j)
  }

  /** Every task was started, under its number, by an operation that was ready. */
  lemma {:induction false} TaskOrigin(events: seq<Event>, h: Hashes, k: nat) returns (j: int)
    requires k in Run(events, h).tasks
    ensures 0 <= j < |events| && events[j] == Start(Run(events, h).tasks[k].op)
    ensures Run(events[..j], h).count == k && Ready(Run(events[..j], h).state, Run(events, h).tasks[k].op)
    ensures
      var t, s := Run(events, h).tasks[k], Run(events[..j], h).state;
      t.op.Confirm? ==> t.op.token in s.pending && t.initiator == s.pending[t.op.token]
  {
    hide Marked, Noted, EntryOf, Restored;
    var n := |events| - 1;
    var w := Run(events[..n], h);
    var t := Run(events, h).tasks[k];
    if k in w.tasks && t.op == w.tasks[k].op && t.initiator == w.tasks[k].initiator {
      j := TaskOrigin(events[..n], h, k);
      assert events[..n][..j] == events[..j];
    } else {
      j := n;
    }
  }

  lemma {:induction false} ConfirmTask(events: seq<Event>, h: Hashes, k: nat)
    requires k in Run(events, h).tasks && Run(events, h).tasks[k].op.Confirm?
    ensures exists j :: ConfirmedBy(events, h, k, j)
  {
    hide Run, Stands;
    var j := TaskOrigin(events, h, k);
    var op := events[j].op;
    ConfirmOutcomes(events[..j], h, op.token, op.admin);
    assert ConfirmedBy(events, h, k, j);
  }

  // ----- the rows of the log

  /** The row an operation should leave: what was done, to whom, why and by whom. A confirm
      leaves both admins, the one who initiated first. */
  ghost predicate RowTells(row: Entry, op: Op, initiator: string) {
    match op
    case TripSystem(reason, actor) =>
      row.level == System && row.action == Trip && row.reason == reason && row.actor == actor
    case TripTarget(group, id, reason, actor) =>
      row.level == Of(group) && row.target == id && row.action == Trip && row.reason == reason && row.actor == actor
    case ResetTarget(group, id, reason, actor) =>
      row.level == Of(group) && row.target == id && row.action == Reset && row.reason == reason && row.actor == actor
    case Confirm(_, admin) =>
      row.level == System && row.action == Reset && row.actor == initiator && row.second == admin
  }

  /** In every run, each row of the log is that of an operation started before; and the row
      of a confirm names two different admins, the first with an initiation that stood. */
  lemma {:induction false} RowsTellOperations(events: seq<Event>, h: Hashes, i: nat) returns (j: int)
    requires i < |Run(events, h).state.log|
    ensures 0 <= j < |events| && events[j].Start? && RowTells(Run(events, h).state.log[i], events[j].op, Run(events, h).state.log[i].actor)
    ensures
      var row, op := Run(events, h).state.log[i], events[j].op;
      op.Confirm? ==> row.actor != row.second && exists m :: Stands(events[..j], m, op.token, row.actor)
  {
    hide Run, Next;
    var n := |events| - 1;
    assert events != [] by { NoRows(h); }
    var init, e := events[..n], events[n];
    var w := Run(init, h);
    assert events == init + [e];
    RunIs(events, h);
    NewRow(w, h, e);
    if i < |w.state.log| {
      j := RowsTellOperations(init, h, i);
      assert init[..j] == events[..j] && init[j] == events[j];
    } else {
      j := TaskOrigin(init, h, e.k);
      var op := w.tasks[e.k].op;
      assert init[..j] == events[..j];
      if op.Confirm? {
        ConfirmOutcomes(events[..j], h, op.token, op.admin);
        PendingIffStands(events[..j], h, op.token, w.tasks[e.k].initiator);
      }
    }
  }

  lemma {:induction false} NoRows(h: Hashes)
    ensures Run([], h).state.log == []
  {
  }

  lemma {:induction false} RunIs(events: seq<Event>, h: Hashes)
    requires events != []
    ensures Run(events, h) == Next(Run(events[..|events| - 1], h), h, events[|events| - 1])
  {
  }

  /** Only the last action of an operation adds a row, and that is its own. */
  lemma {:induction false} NewRow(w: World, h: Hashes, e: Event)
    ensures
      var log := Next(w, h, e).state.log;
      || log == w.state.log
      || (&& e.Act? && e.k in w.tasks && |log| == |w.state.log| + 1 && log[..|w.state.log|] == w.state.log
          && RowTells(log[|w.state.log|], w.tasks[e.k].op, w.tasks[e.k].initiator)
          && (w.tasks[e.k].op.Confirm? ==> log[|w.state.log|].actor == w.tasks[e.k].initiator))
  {
    hide Tripped, LatestOf;
    if e.Act? && e.k in w.tasks {
      ActedLog(w, h, e.k);
    } else if e.Restart? {
      RestoredLog(w.state.log, h);
    }
  }

  /** Which events can end a halt. */
  lemma {:induction false} WhatEndsHalt(w: World, h: Hashes, e: Event)
    requires w.state.halted && !Next(w, h, e).state.halted
    ensures (e.Act? && e.k in w.tasks && w.tasks[e.k].op.Confirm?) || (e.Restart? && !RestoredFlag(w.state.log))
  {
    hide EntryOf, RestoredFlag;
  }

  /** No system trip overlaps a confirm, and no crash falls inside a system trip. */
  ghost predicate TripsAlone(d: Discipline) {
    && (forall t: Op, c: Op :: t.TripSystem? && c.Confirm? ==> !d.overlap(t, c) && !d.overlap(c, t))
    && (forall t: Op :: t.TripSystem? ==> !d.crash(t))
  }

  lemma {:induction false} TripsAloneKeepFlag(d: Discipline)
    requires TripsAlone(d)
    ensures CellSafe(d, Flag)
  {
    forall a, b | Clash(a, b, Flag)
      ensures !d.overlap(a, b)
    {
      FlagClash(a, b);
    }
  }

  /** The pairs that clash on the flag are the trips and the confirms. */
  lemma {:induction false} FlagClash(a: Op, b: Op)
    ensures Clash(a, b, Flag) <==> (a.TripSystem? && b.Confirm?) || (a.Confirm? && b.TripSystem?)
  {
  }

  lemma {:induction false} RunFlag(events: seq<Event>, h: Hashes, d: Discipline)
    requires CellSafe(d, Flag) && Obeys(events, d, h)
    ensures KeysBelow(Run(events, h)) && NoClash(Run(events, h), Flag) && CellInv(Run(events, h), h, Flag)
  {
    hide Next, CellInv, NoClash, AllApart, Allowed, CellSafe;
    if events == [] {
      StartCell(h, Flag);
      StartNoClashes();
    } else {
      var n := |events| - 1;
      var w, e := Run(events[..n], h), events[n];
      RunFlag(events[..n], h, d);
      OtherCellsApart(w, h, e, Flag);
      StepKeepsCell(w, h, e, Flag);
      StepNoClash(w, h, d, e, Flag);
      StepKeepsKeys(w, h, e);
    }
  }

  lemma {:induction false} StartNoClashes()
    ensures KeysBelow(START) && NoClash(START, Flag)
  {
  }

  /** A restart that ends a halt needs a trip in flight. */
  lemma {:induction false} UnloggedHalt(w: World, h: Hashes)
    requires CellInv(w, h, Flag) && w.state.halted && !RestoredFlag(w.state.log)
    ensures exists k :: k in w.tasks && w.tasks[k].op.TripSystem?
  {
    var k :| k in w.tasks && Wrote(w.tasks[k], Flag);
  }

  lemma {:induction false} SafeHaltEndsByTwo(events: seq<Event>, h: Hashes, d: Discipline, i: nat)
    requires TripsAlone(d) && Obeys(events, d, h) && HaltEnds(events, h, i)
    ensures ByTwo(events, h, i)
  {
    hide Run, Next, CellInv, NoClash, CellSafe, Obeys, ConfirmedBy, RestoredFlag;
    var w, e := Run(events[..i], h), events[i];
    assert events[..i + 1] == events[..i] + [e];
    RunNext(events[..i], h, d, e);
    ObeysPrefix(events, h, d, i + 1);
    TripsAloneKeepFlag(d);
    RunFlag(events[..i], h, d);
    WhatEndsHalt(w, h, e);
    if e.Restart? {
      UnloggedHalt(w, h);
    } else {
      ConfirmTask(events[..i], h, e.k);
    }
  }

  lemma {:induction false} ObeysPrefix(events: seq<Event>, h: Hashes, d: Discipline, n: nat)
    requires Obeys(events, d, h) && n <= |events|
    ensures Obeys(events[..n], d, h)
  {
    hide Allowed, Run;
    if n < |events| {
      ObeysPrefix(events[..|events| - 1], h, d, n);
      assert events[..|events| - 1][..n] == events[..n];
    } else {
      assert events[..n] == events;
    }
  }

  // ----- how it can end otherwise

  /** A trip and a confirm in flight together: the confirm clears the flag, the trip runs
      whole, then the confirm clears the note and logs. The system is halted, and the
      latest row says it is not. */
  lemma {:induction false} TripInsideConfirm(h: Hashes, d: Discipline, trip: Op, confirm: Op) returns (events: seq<Event>)
    requires trip.TripSystem? && confirm.Confirm? && (d.overlap(trip, confirm) || d.overlap(confirm, trip))
    ensures Obeys(events, d, h) && Quiet(Run(events, h))
    ensures Run(events, h).state.halted && !RestoredFlag(Run(events, h).state.log)
  {
    hide Run, Obeys, EntryOf, RestoredFlag, Quiet;
    NothingYet(h, d);
    var e0 := Prepare([], h, d, confirm);
    var first, second := if d.overlap(confirm, trip) then confirm else trip,
                         if d.overlap(confirm, trip) then trip else confirm;
    StartStep(e0, h, d, first);
    var e1 := e0 + [Start(first)];
    StartStep(e1, h, d, second);
    var e2 := e1 + [Start(second)];
    var c, t: nat := if first == confirm then 0 else 1, if first == confirm then 1 else 0;
    MarkStep(e2, h, d, c);
    var e3 := e2 + [Act(c)];
    MarkStep(e3, h, d, t);
    var e4 := e3 + [Act(t)];
    NoteStep(e4, h, d, t);
    var e5 := Finish(e4 + [Act(t)], h, d, t);
    NoteStep(e5, h, d, c);
    events := LastRow(e5 + [Act(c)], h, d, c);
  }

  lemma {:induction false} LastRow(before: seq<Event>, h: Hashes, d: Discipline, k: nat) returns (events: seq<Event>)
    requires Obeys(before, d, h) && k in Run(before, h).tasks
    requires Run(before, h).tasks[k].next == AtLog && Run(before, h).tasks[k].op.Confirm?
    requires forall j :: j in Run(before, h).tasks ==> j == k
    ensures Obeys(events, d, h) && Quiet(Run(events, h))
    ensures Run(events, h).state.halted == Run(before, h).state.halted
    ensures !RestoredFlag(Run(events, h).state.log)
  {
    hide Run, Obeys, EntryOf, RestoredFlag, RestoredNote;
    var w := Run(before, h);
    events := Finish(before, h, d, k);
    LoggedAt(w.state.log, w.tasks[k].op, w.tasks[k].found, w.tasks[k].initiator, Flag);
  }

  /** A crash after a trip has set the flag and before it has logged. */
  lemma {:induction false} CrashInsideTrip(h: Hashes, d: Discipline, trip: Op) returns (events: seq<Event>)
    requires trip.TripSystem? && d.crash(trip)
    ensures Obeys(events, d, h) && Allowed(d, Run(events, h), Restart)
    ensures Run(events, h).state.halted && !RestoredFlag(Run(events, h).state.log)
  {
    hide Run, Obeys, RestoredFlag;
    NothingYet(h, d);
    NoneYet();
    StartStep([], h, d, trip);
    MarkStep([] + [Start(trip)], h, d, 0);
    events := [] + [Start(trip)] + [Act(0)];
  }

  /** Then a restart ends the halt, and nobody has reset anything. */
  lemma {:induction false} RestartEndsHalt(events: seq<Event>, h: Hashes, d: Discipline)
    requires Obeys(events, d, h) && Allowed(d, Run(events, h), Restart)
    requires Run(events, h).state.halted && !RestoredFlag(Run(events, h).state.log)
    ensures
      var all := events + [Restart];
      Obeys(all, d, h) && HaltEnds(all, h, |events|) && !ByTwo(all, h, |events|)
  {
    hide Run, Obeys, RestoredFlag;
    var all := events + [Restart];
    RunNext(events, h, d, Restart);
    assert all[..|events|] == events && all[..|events| + 1] == all;
  }

  /** In every run of a discipline, each change of the system switch from halted to running
      is an action of a confirm that answered an earlier initiation by a different admin,
      exactly when no system trip overlaps a confirm and no crash falls inside a trip. */
  lemma {:induction false} HaltEndsOnlyByTwoIff(h: Hashes, d: Discipline)
    ensures (forall events, i :: Obeys(events, d, h) && HaltEnds(events, h, i) ==> ByTwo(events, h, i))
       <==> TripsAlone(d)
  {
    hide Run, Obeys, HaltEnds, ByTwo, RestoredFlag;
    if TripsAlone(d) {
      forall events, i: nat | Obeys(events, d, h) && HaltEnds(events, h, i)
        ensures ByTwo(events, h, i)
      {
        SafeHaltEndsByTwo(events, h, d, i);
      }
    } else {
      var events := UnsafeRun(h, d);
      RestartEndsHalt(events, h, d);
    }
  }

  lemma {:induction false} UnsafeRun(h: Hashes, d: Discipline) returns (events: seq<Event>)
    requires !TripsAlone(d)
    ensures Obeys(events, d, h) && Allowed(d, Run(events, h), Restart)
    ensures Run(events, h).state.halted && !RestoredFlag(Run(events, h).state.log)
  {
    hide Run, Obeys, RestoredFlag;
    if exists op: Op :: op.TripSystem? && d.crash(op) {
      var trip: Op :| trip.TripSystem? && d.crash(trip);
      events := CrashInsideTrip(h, d, trip);
    } else {
      var t: Op, c: Op :| t.TripSystem? && c.Confirm? && (d.overlap(t, c) || d.overlap(c, t));
      events := TripInsideConfirm(h, d, t, c);
    }
  }
}
