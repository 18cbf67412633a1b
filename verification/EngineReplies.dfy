/**
 What callers of the matching-engine client are told, over every interleaving of
 `EngineClient`: the engine is asked the very text of the call, the answer it gives is the
 one the caller gets, and an answer that is there to be read does reach a caller that waits.
 */
module EngineReplies {
  import opened Basics
  import opened EngineClient

  // ----- the text of a call

  /** The text a call was made with. */
  function Said(events: seq<Event>, id: nat): Option<string> {
    if events == [] then None
    else
      var before, e := Said(events[..|events| - 1], id), events[|events| - 1];
      if before.Some? then before else if e.Call? && e.id == id then Some(e.text) else None
  }

  ghost predicate Carries(events: seq<Event>, command: Command) {
    Said(events, command.id) == Some(command.text)
  }

  /** Whatever is on its way to the engine carries the text of its call. */
  ghost predicate TextsKept(events: seq<Event>, s: State) {
    && (forall id :: id in s.callers ==> Said(events, id).Some?)
    && (forall id :: id in s.callers && s.callers[id].Checked? ==> Said(events, id) == Some(s.callers[id].text))
    && (forall i :: 0 <= i < |s.queue| ==> Carries(events, s.queue[i]))
    && (forall w :: 0 <= w < |s.workers| && !s.workers[w].Idle? ==> Carries(events, s.workers[w].command))
    && (s.conn.Some? ==>
          forall i :: 0 <= i < |s.conn.value.requests| ==> Carries(events, s.conn.value.requests[i]))
  }

  lemma {:induction false} SaidStands(events: seq<Event>, e: Event)
    ensures forall id :: Said(events, id).Some? ==> Said(events + [e], id) == Said(events, id)
    ensures forall id :: Said(events, id).None? ==>
              Said(events + [e], id) == if e.Call? && e.id == id then Some(e.text) else None
  {
    assert (events + [e])[..|events|] == events;
  }

  /** More events do not change what was said. */
  lemma {:induction false} KeptLonger(events: seq<Event>, e: Event, s: State)
    requires TextsKept(events, s)
    ensures TextsKept(events + [e], s)
  {
    hide Said;
    SaidStands(events, e);
  }

  lemma {:induction false} CallKeepsTexts(events: seq<Event>, s: State, id: nat, text: string)
    requires TextsKept(events, s) && id !in s.callers && Said(events, id) == Some(text)
    ensures TextsKept(events, Called(s, id, text))
  {
    hide Said;
  }

  lemma {:induction false} CallersKeepTexts(events: seq<Event>, s: State, id: nat)
    requires TextsKept(events, s) && id in s.callers
    ensures TextsKept(events, GaveUp(s, id))
    ensures id in s.responses ==> TextsKept(events, Received(s, id))
  {
    hide Said, Carries;
  }

  lemma {:induction false} EnqueueKeepsTexts(events: seq<Event>, s: State, id: nat)
    requires TextsKept(events, s) && HasChecked(s, id)
    ensures TextsKept(events, Enqueued(s, id))
  {
    hide Said;
    var t := Enqueued(s, id);
    assert Carries(events, t.queue[|s.queue|]);
  }

  lemma {:induction false} TakeKeepsTexts(events: seq<Event>, s: State, w: nat)
    requires TextsKept(events, s) && w < |s.workers|
    ensures IsIdle(s, w) && s.queue != [] ==> TextsKept(events, Taken(s, w))
    ensures HasReply(s, w) ==> TextsKept(events, Delivered(s, w))
  {
    hide Said;
  }

  /** A worker that stays on its command, and sends nothing else. */
  lemma {:induction false} WorkKeepsTexts(events: seq<Event>, s: State, w: nat, worker: Worker, t: State)
    requires TextsKept(events, s) && w < |s.workers| && !s.workers[w].Idle? && !worker.Idle?
    requires worker.command == s.workers[w].command
    requires t == s.(conn := t.conn, enabled := t.enabled, holder := t.holder, workers := s.workers[w := worker])
    requires t.conn.Some? ==>
               && s.conn.Some?
               && (|| t.conn.value.requests == s.conn.value.requests
                   || t.conn.value.requests == s.conn.value.requests + [worker.command])
    ensures TextsKept(events, t)
  {
    hide Said, Carries;
  }

  lemma {:induction false} ConnectionKeepsTexts(events: seq<Event>, s: State, data: string)
    requires TextsKept(events, s)
    ensures CanAnswer(s) ==> TextsKept(events, Answered(s, data))
    ensures TextsKept(events, Connected(s)) && TextsKept(events, ConnectFailed(s))
  {
    hide Said;
  }

  lemma {:induction false} StepKeepsTexts(events: seq<Event>, s: State, e: Event)
    requires TextsKept(events, s) && (e.Call? && e.id !in s.callers ==> Said(events, e.id) == Some(e.text))
    ensures TextsKept(events, Next(s, e))
  {
    hide TextsKept, Said, Called, Enqueued, GaveUp, Received, Taken, Delivered, Answered, Connected, ConnectFailed;
    match e
    case Call(id, text) => if id !in s.callers { CallKeepsTexts(events, s, id, text); }
    case Enqueue(id) => if HasChecked(s, id) { EnqueueKeepsTexts(events, s, id); }
    case QueueTimeout(id) => if HasChecked(s, id) { CallersKeepTexts(events, s, id); }
    case Take(w) => if IsIdle(s, w) { TakeKeepsTexts(events, s, w); }
    case FindDisconnected(w) =>
      if HasTaken(s, w) {
        WorkKeepsTexts(events, s, w, Worker.Replying(s.workers[w].command, Failed), FoundDisconnected(s, w));
      }
    case Write(w) =>
      if CanWrite(s, w) { WorkKeepsTexts(events, s, w, Worker.Wrote(s.workers[w].command), Written(s, w)); }
    case WriteFails(w) =>
      if CanWrite(s, w) { WorkKeepsTexts(events, s, w, Worker.Replying(s.workers[w].command, Failed), Broken(s, w)); }
    case Answer(data) => ConnectionKeepsTexts(events, s, data);
    case Read(w) =>
      if CanRead(s, w) {
        WorkKeepsTexts(
          events, s, w, Worker.Replying(s.workers[w].command, Ok(s.conn.value.replies[0])), ReadLine(s, w));
      }
    case ReadFails(w) =>
      if HasWritten(s, w) {
        WorkKeepsTexts(events, s, w, Worker.Replying(s.workers[w].command, Failed), Broken(s, w));
      }
    case Deliver(w) => if HasReply(s, w) { TakeKeepsTexts(events, s, w); }
    case Receive(id) => if Waits(s, id) { CallersKeepTexts(events, s, id); }
    case WaitTimeout(id) => if Waits(s, id) { CallersKeepTexts(events, s, id); }
    case Connect => ConnectionKeepsTexts(events, s, "");
    case ConnectFails => ConnectionKeepsTexts(events, s, "");
  }

  /** Only callers have said anything. */
  ghost predicate SaidByCallers(events: seq<Event>, s: State) {
    forall id :: Said(events, id).Some? ==> id in s.callers
  }

  lemma {:induction false} StepKeepsCallers(s: State, e: Event)
    ensures forall id :: id in s.callers ==> id in Next(s, e).callers
    ensures e.Call? ==> e.id in Next(s, e).callers
  {
  }

  /** In every run each command queued, with a worker or on the connection carries the text
      of the call with its id. */
  lemma {:induction false} RunKeepsTexts(events: seq<Event>)
    ensures TextsKept(events, Run(events)) && SaidByCallers(events, Run(events))
  {
    hide Next, TextsKept;
    if events == [] {
      NothingSaid();
    } else {
      var n := |events| - 1;
      var init, e := events[..n], events[n];
      assert events == init + [e];
      RunKeepsTexts(init);
      KeptLonger(init, e, Run(init));
      SaidStands(init, e);
      StepKeepsTexts(events, Run(init), e);
      StepKeepsCallers(Run(init), e);
    }
  }

  lemma {:induction false} NothingSaid()
    ensures TextsKept([], INITIAL) && SaidByCallers([], INITIAL)
  {
  }

  // ----- the answer to a call

  /** At event `i` the engine, asked `text` for the call `id`, answered `data`. */
  ghost predicate AnsweredAt(events: seq<Event>, i: int, id: nat, text: string, data: string) {
    && 0 <= i < |events| && events[i] == Answer(data)
    && var s := Run(events[..i]);
       CanAnswer(s) && s.conn.value.requests[0] == Command(id, text)
  }

  lemma {:induction false} AnswersAreGiven(events: seq<Event>, id: nat) returns (i: int, text: string)
    requires id in Run(events).answers
    ensures AnsweredAt(events, i, id, text, Run(events).answers[id])
  {
    var n := |events| - 1;
    var init, e := events[..n], events[n];
    var s := Run(init);
    assert events[..n] == init;
    NewAnswers(s, e);
    if e.Answer? && CanAnswer(s) && s.conn.value.requests[0].id == id {
      i, text := n, s.conn.value.requests[0].text;
    } else {
      hide Next;
      i, text := AnswersAreGiven(init, id);
      assert init[..i] == events[..i] && init[i] == events[i];
    }
  }

  /** Only the engine adds an answer, to the request it reads next. */
  lemma {:induction false} NewAnswers(s: State, e: Event)
    ensures Next(s, e).answers
         == if e.Answer? && CanAnswer(s) then s.answers[s.conn.value.requests[0].id := e.data] else s.answers
  {
  }

  /** Main result: a reply a caller gets, in any run, is what the engine answered when it was
      asked the text of that very call. */
  lemma {:induction false} RepliesAnswerTheCall(events: seq<Event>, id: nat, data: string)
      returns (i: int, text: string)
    requires id in Run(events).callers && Run(events).callers[id] == Returned(Ok(data))
    ensures Said(events, id) == Some(text) && AnsweredAt(events, i, id, text, data)
  {
    hide Run, Said;
    RepliesAreOwn(events, id, data);
    i, text := AnswersAreGiven(events, id);
    RunKeepsTexts(events[..i]);
    SaidEarlier(events, i, id);
  }

  lemma {:induction false} SaidEarlier(events: seq<Event>, n: nat, id: nat)
    requires n <= |events| && Said(events[..n], id).Some?
    ensures Said(events, id) == Said(events[..n], id)
  {
    if n == |events| {
      assert events[..n] == events;
    } else {
      assert events[..|events| - 1][..n] == events[..n];
      SaidEarlier(events[..|events| - 1], n, id);
    }
  }

  // ----- answers reach their callers

  /** A caller has got a reply. */
  ghost predicate Told(s: State, id: nat, data: string) {
    id in s.callers && s.callers[id] == Returned(Ok(data))
  }

  /** Main result: in any run, an answer there to be read is the engine's answer to the
      command of the worker that waits for it; read and delivered, it is what the caller
      gets, if the caller still waits. */
  lemma {:induction false} AnswerReachesCaller(events: seq<Event>, w: nat)
    requires CanRead(Run(events), w) && Waits(Run(events), Run(events).workers[w].command.id)
    ensures
      var s, id := Run(events), Run(events).workers[w].command.id;
      && id in s.answers && s.conn.value.replies == [s.answers[id]]
      && Told(Run(events + [Read(w)] + [Deliver(w)] + [Receive(id)]), id, s.answers[id])
  {
    hide Run, Inv, Next;
    var s := Run(events);
    var id := s.workers[w].command.id;
    RunKeepsInv(events);
    AnswerIsOnTheWire(s, w);
    RunSnoc(events, Read(w));
    RunSnoc(events + [Read(w)], Deliver(w));
    RunSnoc(events + [Read(w)] + [Deliver(w)], Receive(id));
    ReadAndDeliver(s, w);
  }

  lemma {:induction false} AnswerIsOnTheWire(s: State, w: nat)
    requires Inv(s) && CanRead(s, w)
    ensures s.workers[w].command.id in s.answers && s.conn.value.replies == [s.answers[s.workers[w].command.id]]
  {
    hide RepliesMatch, Placed, AnswersAreLate;
  }

  lemma {:induction false} ReadAndDeliver(s: State, w: nat)
    requires CanRead(s, w) && Waits(s, s.workers[w].command.id)
    ensures
      var id := s.workers[w].command.id;
      Told(Next(Next(Next(s, Read(w)), Deliver(w)), Receive(id)), id, s.conn.value.replies[0])
  {
  }

  /** A connection that is up, an idle worker and nothing queued. */
  ghost predicate AtRest(s: State, w: nat) {
    s.enabled && s.conn.Some? && s.holder.None? && s.queue == [] && IsIdle(s, w)
  }

  /** Then a call gets through: the engine is asked its text, and its answer comes back. */
  lemma {:induction false} CallGetsThrough(events: seq<Event>, w: nat, id: nat, text: string, data: string)
    requires AtRest(Run(events), w) && id !in Run(events).callers
    ensures
      var sent := events + [Call(id, text)] + [Enqueue(id)] + [Take(w)] + [Write(w)];
      && Run(sent).conn == Some(Conn([Command(id, text)], []))
      && Told(Run(sent + [Answer(data)] + [Read(w)] + [Deliver(w)] + [Receive(id)]), id, data)
  {
    hide Run, Inv, Next, AtRest;
    var e1 := events + [Call(id, text)];
    var e2 := e1 + [Enqueue(id)];
    var e3 := e2 + [Take(w)];
    var sent := e3 + [Write(w)];
    var answered := sent + [Answer(data)];
    RunKeepsInv(events);
    RunSnoc(events, Call(id, text));
    RunSnoc(e1, Enqueue(id));
    RunSnoc(e2, Take(w));
    RunSnoc(e3, Write(w));
    CallIsSent(Run(events), w, id, text);
    RunSnoc(sent, Answer(data));
    SentIsAnswered(Run(sent), w, id, data);
    AnswerReachesCaller(answered, w);
  }

  /** The worker has written the command of a caller that waits, and nothing else is on the
      connection. */
  ghost predicate IsSent(s: State, w: nat, id: nat) {
    HasWritten(s, w) && s.workers[w].command.id == id && Waits(s, id)
  }

  lemma {:induction false} CallIsSent(s: State, w: nat, id: nat, text: string)
    requires Inv(s) && AtRest(s, w) && id !in s.callers
    ensures
      var t := Next(Next(Next(Next(s, Call(id, text)), Enqueue(id)), Take(w)), Write(w));
      t.conn == Some(Conn([Command(id, text)], [])) && IsSent(t, w, id)
  {
    hide RepliesMatch, Placed, AnswersAreLate, HolderWaits;
    var t1 := Next(s, Call(id, text));
    var t2 := Next(t1, Enqueue(id));
    assert t2.queue == [Command(id, text)];
    var t3 := Next(t2, Take(w));
    assert t3.workers[w] == Worker.Took(Command(id, text)) && t3.conn == Some(Conn([], []));
    assert [] + [Command(id, text)] == [Command(id, text)];
  }

  lemma {:induction false} SentIsAnswered(s: State, w: nat, id: nat, data: string)
    requires IsSent(s, w, id) && s.conn.Some? && |s.conn.value.requests| == 1 && s.conn.value.replies == []
    ensures
      var t := Next(s, Answer(data));
      IsSent(t, w, id) && t.conn == Some(Conn([], [data]))
  {
    var c := s.conn.value;
    assert c.requests[1..] == [] && c.replies + [data] == [data];
  }

  // ----- first come, first served

  function Ids(commands: seq<Command>): seq<nat> {
    if commands == [] then [] else [commands[0].id] + Ids(commands[1..])
  }

  /** The calls that got into the queue, in that order. */
  function Entered(events: seq<Event>): seq<nat> {
    if events == [] then []
    else
      var init, e := events[..|events| - 1], events[|events| - 1];
      Entered(init)
      + if Queues(Run(init), e) then [e.id] else []
  }

  /** The calls whose commands workers took, in that order. */
  function Served(events: seq<Event>): seq<nat> {
    if events == [] then []
    else
      var init, e := events[..|events| - 1], events[|events| - 1];
      Served(init)
      + if e.Take? && IsIdle(Run(init), e.w) && HasTaken(Run(events), e.w) then [Run(events).workers[e.w].command.id]
        else []
  }

  lemma {:induction false} IdsSnoc(commands: seq<Command>, c: Command)
    ensures Ids(commands + [c]) == Ids(commands) + [c.id]
  {
    if commands == [] {
      assert commands + [c] == [c];
    } else {
      assert (commands + [c])[1..] == commands[1..] + [c];
      IdsSnoc(commands[1..], c);
    }
  }

  /** In every run commands are taken in the order they were queued. */
  lemma {:induction false} FirstComeFirstServed(events: seq<Event>)
    ensures Entered(events) == Served(events) + Ids(Run(events).queue)
  {
    if events != [] {
      hide Entered, Served, Ids;
      var n := |events| - 1;
      FirstComeFirstServed(events[..n]);
      ServeStep(events);
    } else {
      assert [] + Ids([]) == [];
    }
  }

  predicate Queues(s: State, e: Event) {
    e.Enqueue? && HasChecked(s, e.id) && |s.queue| < QUEUE_CAPACITY
  }

  predicate Takes(s: State, e: Event) {
    e.Take? && IsIdle(s, e.w) && s.queue != []
  }

  /** What each event does to the queue. */
  lemma {:induction false} QueueStep(s: State, e: Event)
    ensures
      var t := Next(s, e);
      && (Queues(s, e) ==> t.queue == s.queue + [Command(e.id, s.callers[e.id].text)])
      && (Takes(s, e) ==> t.queue == s.queue[1..] && HasTaken(t, e.w) && t.workers[e.w].command == s.queue[0])
      && (Queues(s, e) || Takes(s, e) || t.queue == s.queue)
      && (e.Take? && IsIdle(s, e.w) && s.queue == [] ==> !HasTaken(t, e.w))
  {
  }

  lemma {:induction false} ServeStep(events: seq<Event>)
    requires events != []
    requires
      var init := events[..|events| - 1];
      Entered(init) == Served(init) + Ids(Run(init).queue)
    ensures Entered(events) == Served(events) + Ids(Run(events).queue)
  {
    hide Next;
    var init, e := events[..|events| - 1], events[|events| - 1];
    var s := Run(init);
    QueueStep(s, e);
    EnteredServed(events);
    hide Entered, Served, Run;
    assert Served(init) + [] == Served(init) && Entered(init) + [] == Entered(init);
    if Queues(s, e) {
      IdsSnoc(s.queue, Command(e.id, s.callers[e.id].text));
    } else if Takes(s, e) {
      assert Ids(s.queue) == [s.queue[0].id] + Ids(s.queue[1..]);
    }
  }

  lemma {:induction false} EnteredServed(events: seq<Event>)
    requires events != []
    ensures
      var init, e := events[..|events| - 1], events[|events| - 1];
      var s, t := Run(init), Run(events);
      && t == Next(s, e)
      && Entered(events)
      == Entered(init) + (if Queues(s, e) then [e.id] else [])
      && Served(events)
      == Served(init) + (if e.Take? && IsIdle(s, e.w) && HasTaken(t, e.w) then [t.workers[e.w].command.id] else [])
  {
    hide Next;
  }

  // ----- calls that fail at once

  /** Told that there is no connection, and never queued. */
  ghost predicate TurnedAway(s: State, id: nat) {
    id in s.callers && s.callers[id] == Returned(Failed) && id in s.places && s.places[id] == WithCaller
  }

  /** A call is turned away exactly when the client is disabled or has no connection. */
  lemma {:induction false} TurnedAwayIff(s: State, id: nat, text: string)
    requires id !in s.callers
    ensures TurnedAway(Next(s, Call(id, text)), id) <==> !s.enabled || s.conn.None?
    ensures s.enabled && s.conn.Some? ==> HasChecked(Next(s, Call(id, text)), id)
  {
  }

  lemma {:induction false} TurnedAwayStays(s: State, e: Event, id: nat)
    requires Placed(s) && TurnedAway(s, id)
    ensures TurnedAway(Next(s, e), id)
  {
    if e.Take? && IsIdle(s, e.w) && s.queue != [] {
      assert s.places[s.queue[0].id] == InQueue;
    } else if e.Deliver? && HasReply(s, e.w) {
      assert s.places[s.workers[e.w].command.id] == WithWorker(e.w);
    }
  }

  /** Whatever happens next, the engine is never asked. */
  lemma {:induction false} TurnedAwayIsNeverSent(events: seq<Event>, more: seq<Event>, id: nat)
    requires TurnedAway(Run(events), id)
    ensures TurnedAway(Run(events + more), id) && id !in Run(events + more).answers
    decreases |more|
  {
    hide Run, Next;
    RunKeepsInv(events + more);
    if more == [] {
      assert events + more == events;
    } else {
      var n := |more| - 1;
      TurnedAwayIsNeverSent(events, more[..n], id);
      RunKeepsInv(events + more[..n]);
      assert events + more == events + more[..n] + [more[n]];
      RunSnoc(events + more[..n], more[n]);
      TurnedAwayStays(Run(events + more[..n]), more[n], id);
    }
  }

  /** A connect that fails turns calls away, until one succeeds. */
  lemma {:induction false} ConnectDecides(s: State, id: nat, text: string)
    requires s.holder.None? && id !in s.callers
    ensures TurnedAway(Next(Next(s, ConnectFails), Call(id, text)), id)
    ensures HasChecked(Next(Next(s, Connect), Call(id, text)), id)
  {
  }
}
