/**
 The matching-engine client (services/gateway/orchestrator.go, `MatchingEngineClient`) as
 a state machine: callers queue commands, I/O workers take them and, holding the mutex,
 write the request and read one line back. Every interleaving of callers, workers,
 timeouts, connection errors and reconnects is a run.

 The text of a request holds no newline, so that it is one request on the wire. The
 engine answers each request it reads with one line, in order, and sends nothing unasked.
 */
module EngineClient {
  import opened Basics

  datatype Command = Command(id: nat, text: string)

  datatype Result = Ok(data: string) | Failed

  /** What a connection carries: requests the engine has not answered, and lines the
      client has not read. */
  datatype Conn = Conn(requests: seq<Command>, replies: seq<string>)

  /** An I/O loop between commands, or at a point of one. */
  datatype Worker =
    | Idle
    | Took(command: Command)
    | Wrote(command: Command)
    | Replying(command: Command, result: Result)

  datatype Caller = Checked(text: string) | Waiting | Returned(result: Result)

  /** Where the command of a call is. */
  datatype Place = WithCaller | InQueue | WithWorker(w: nat) | Replied

  /** `answers` and `places` are history: what the engine answered to each request, and
      where each command has got to. */
  datatype State = State(
    conn: Option<Conn>,
    enabled: bool,
    holder: Option<nat>,
    workers: seq<Worker>,
    queue: seq<Command>,
    responses: map<nat, Result>,
    callers: map<nat, Caller>,
    answers: map<nat, string>,
    places: map<nat, Place>)

  const QUEUE_CAPACITY := 64

  const INITIAL := State(None, false, None, [], [], map[], map[], map[], map[])

  datatype Event =
    | Call(id: nat, text: string)
    | Enqueue(id: nat)
    | QueueTimeout(id: nat)
    | Take(w: nat)
    | FindDisconnected(w: nat)
    | Write(w: nat)
    | WriteFails(w: nat)
    | Answer(data: string)
    | Read(w: nat)
    | ReadFails(w: nat)
    | Deliver(w: nat)
    | Receive(id: nat)
    | WaitTimeout(id: nat)
    | Connect
    | ConnectFails

  predicate HasTaken(s: State, w: nat) {
    w < |s.workers| && s.workers[w].Took?
  }

  predicate HasWritten(s: State, w: nat) {
    w < |s.workers| && s.workers[w].Wrote?
  }

  predicate HasChecked(s: State, id: nat) {
    id in s.callers && s.callers[id].Checked?
  }

  predicate Waits(s: State, id: nat) {
    id in s.callers && s.callers[id].Waiting?
  }

  predicate IsIdle(s: State, w: nat) {
    w < |s.workers| && s.workers[w].Idle?
  }

  predicate HasReply(s: State, w: nat) {
    w < |s.workers| && s.workers[w].Replying?
  }

  predicate CanWrite(s: State, w: nat) {
    HasTaken(s, w) && s.holder.None? && s.conn.Some?
  }

  predicate CanAnswer(s: State) {
    s.conn.Some? && s.conn.value.requests != []
  }

  predicate CanRead(s: State, w: nat) {
    HasWritten(s, w) && s.conn.Some? && s.conn.value.replies != []
  }

  // ----- callers

  /** A call, and its check that there is a connection. */
  function Called(s: State, id: nat, text: string): State {
    s.(callers := s.callers[id := if s.enabled && s.conn.Some? then Caller.Checked(text) else Returned(Failed)],
       places := s.places[id := WithCaller])
  }

  function Enqueued(s: State, id: nat): State
    requires HasChecked(s, id)
  {
    s.(queue := s.queue + [Command(id, s.callers[id].text)],
       callers := s.callers[id := Caller.Waiting],
       places := s.places[id := InQueue])
  }

  function GaveUp(s: State, id: nat): State {
    s.(callers := s.callers[id := Returned(Failed)])
  }

  function Received(s: State, id: nat): State
    requires id in s.responses
  {
    s.(callers := s.callers[id := Returned(s.responses[id])])
  }

  // ----- workers

  function Taken(s: State, w: nat): State
    requires IsIdle(s, w) && s.queue != []
  {
    s.(queue := s.queue[1..],
       workers := s.workers[w := Worker.Took(s.queue[0])],
       places := s.places[s.queue[0].id := WithWorker(w)])
  }

  function FoundDisconnected(s: State, w: nat): State
    requires HasTaken(s, w)
  {
    s.(workers := s.workers[w := Worker.Replying(s.workers[w].command, Failed)])
  }

  function Written(s: State, w: nat): State
    requires CanWrite(s, w)
  {
    var c := s.conn.value;
    s.(conn := Some(c.(requests := c.requests + [s.workers[w].command])),
       holder := Some(w),
       workers := s.workers[w := Worker.Wrote(s.workers[w].command)])
  }

  /** A request failed on the wire: the connection is closed before the mutex is let go. */
  function Broken(s: State, w: nat): State
    requires HasTaken(s, w) || HasWritten(s, w)
  {
    s.(conn := None, enabled := false, holder := None,
       workers := s.workers[w := Worker.Replying(s.workers[w].command, Failed)])
  }

  function ReadLine(s: State, w: nat): State
    requires CanRead(s, w)
  {
    var c := s.conn.value;
    s.(conn := Some(c.(replies := c.replies[1..])), holder := None,
       workers := s.workers[w := Worker.Replying(s.workers[w].command, Ok(c.replies[0]))])
  }

  function Delivered(s: State, w: nat): State
    requires HasReply(s, w)
  {
    var id := s.workers[w].command.id;
    s.(workers := s.workers[w := Worker.Idle],
       responses := s.responses[id := s.workers[w].result],
       places := s.places[id := Replied])
  }

  // ----- the engine and the connection

  function Answered(s: State, data: string): State
    requires CanAnswer(s)
  {
    var c := s.conn.value;
    s.(conn := Some(Conn(c.requests[1..], c.replies + [data])), answers := s.answers[c.requests[0].id := data])
  }

  /** A reconnect drops the old connection, if any, and starts one more I/O loop. */
  function Connected(s: State): State {
    s.(conn := Some(Conn([], [])), enabled := true, workers := s.workers + [Worker.Idle])
  }

  function ConnectFailed(s: State): State {
    s.(enabled := false)
  }

  /** What an event does; one that cannot happen when it comes changes nothing. */
  function Next(s: State, e: Event): State {
    match e
    case Call(id, text) => if id !in s.callers then Called(s, id, text) else s
    case Enqueue(id) => if HasChecked(s, id) && |s.queue| < QUEUE_CAPACITY then Enqueued(s, id) else s
    case QueueTimeout(id) => if HasChecked(s, id) then GaveUp(s, id) else s
    case Take(w) => if IsIdle(s, w) && s.queue != [] then Taken(s, w) else s
    case FindDisconnected(w) => if HasTaken(s, w) && s.holder.None? && s.conn.None? then FoundDisconnected(s, w) else s
    case Write(w) => if CanWrite(s, w) then Written(s, w) else s
    case WriteFails(w) => if CanWrite(s, w) then Broken(s, w) else s
    case Answer(data) => if CanAnswer(s) then Answered(s, data) else s
    case Read(w) => if CanRead(s, w) then ReadLine(s, w) else s
    case ReadFails(w) => if HasWritten(s, w) then Broken(s, w) else s
    case Deliver(w) => if HasReply(s, w) then Delivered(s, w) else s
    case Receive(id) => if Waits(s, id) && id in s.responses then Received(s, id) else s
    case WaitTimeout(id) => if Waits(s, id) then GaveUp(s, id) else s
    case Connect => if s.holder.None? then Connected(s) else s
    case ConnectFails => if s.holder.None? then ConnectFailed(s) else s
  }

  function Run(events: seq<Event>): State {
    if events == [] then INITIAL else Next(Run(events[..|events| - 1]), events[|events| - 1])
  }

  // ----- what every run keeps

  /** The connection carries nothing, or the one request of the worker that holds the
      mutex, or the engine's answer to it. */
  ghost predicate OneOutstanding(s: State) {
    match s.holder
    case None => s.conn.Some? ==> s.conn.value == Conn([], [])
    case Some(w) =>
      && w < |s.workers| && s.workers[w].Wrote? && s.conn.Some?
      && var command := s.workers[w].command;
         || (s.conn.value == Conn([command], []) && command.id !in s.answers)
         || (command.id in s.answers && s.conn.value == Conn([], [s.answers[command.id]]))
  }

  ghost predicate HolderWaits(s: State) {
    forall w :: 0 <= w < |s.workers| && s.workers[w].Wrote? ==> s.holder == Some(w)
  }

  predicate IsAnswerTo(s: State, id: nat, result: Result) {
    result.Ok? ==> id in s.answers && s.answers[id] == result.data
  }

  /** Every result on its way to a caller, or returned to one, is the engine's answer to
      that caller's request. */
  ghost predicate RepliesMatch(s: State) {
    && (forall w :: 0 <= w < |s.workers| && s.workers[w].Replying? ==>
          IsAnswerTo(s, s.workers[w].command.id, s.workers[w].result))
    && (forall id :: id in s.responses ==> IsAnswerTo(s, id, s.responses[id]))
    && (forall id :: id in s.callers && s.callers[id].Returned? ==> IsAnswerTo(s, id, s.callers[id].result))
  }

  /** Each command is in one place, and is there once. */
  ghost predicate Placed(s: State) {
    && s.places.Keys == s.callers.Keys
    && |s.queue| <= QUEUE_CAPACITY
    && (forall i :: 0 <= i < |s.queue| ==> s.queue[i].id in s.places && s.places[s.queue[i].id] == InQueue)
    && (forall i, j :: 0 <= i < j < |s.queue| ==> s.queue[i].id != s.queue[j].id)
    && (forall w :: 0 <= w < |s.workers| && !s.workers[w].Idle? ==>
          && s.workers[w].command.id in s.places
          && s.places[s.workers[w].command.id] == WithWorker(w))
    && (forall id :: id in s.responses ==> id in s.places && s.places[id] == Replied)
    && (forall id :: id in s.callers && s.callers[id].Checked? ==> s.places[id] == WithCaller)
  }

  /** The engine has answered no command that was not written. */
  ghost predicate AnswersAreLate(s: State) {
    && (forall id :: id in s.answers ==> id in s.places && (s.places[id].WithWorker? || s.places[id].Replied?))
    && (forall w :: 0 <= w < |s.workers| && s.workers[w].Took? ==> s.workers[w].command.id !in s.answers)
  }

  ghost predicate Inv(s: State) {
    OneOutstanding(s) && HolderWaits(s) && RepliesMatch(s) && Placed(s) && AnswersAreLate(s)
  }

  lemma {:induction false} CallKeepsInv(s: State, id: nat, text: string)
    requires Inv(s) && id !in s.callers
    ensures Inv(Called(s, id, text))
  {
    hide Placed;
    CallKeepsPlaced(s, id, text);
  }

  lemma {:induction false} CallKeepsPlaced(s: State, id: nat, text: string)
    requires Placed(s) && id !in s.callers
    ensures Placed(Called(s, id, text)) && id !in s.places
  {
  }

  lemma {:induction false} EnqueueKeepsInv(s: State, id: nat)
    requires Inv(s) && HasChecked(s, id) && |s.queue| < QUEUE_CAPACITY
    ensures Inv(Enqueued(s, id))
  {
    hide Placed;
    EnqueueKeepsPlaced(s, id);
  }

  lemma {:induction false} EnqueueKeepsPlaced(s: State, id: nat)
    requires Placed(s) && HasChecked(s, id) && |s.queue| < QUEUE_CAPACITY
    ensures Placed(Enqueued(s, id)) && id in s.places && s.places[id] == WithCaller
  {
  }

  lemma {:induction false} GiveUpKeepsInv(s: State, id: nat)
    requires Inv(s) && (HasChecked(s, id) || Waits(s, id))
    ensures Inv(GaveUp(s, id))
  {
  }

  lemma {:induction false} ReceiveKeepsInv(s: State, id: nat)
    requires Inv(s) && Waits(s, id) && id in s.responses
    ensures Inv(Received(s, id))
  {
  }

  lemma {:induction false} TakeKeepsInv(s: State, w: nat)
    requires Inv(s) && IsIdle(s, w) && s.queue != []
    ensures Inv(Taken(s, w))
  {
    hide Placed;
    TakeKeepsPlaced(s, w);
  }

  lemma {:induction false} TakeKeepsPlaced(s: State, w: nat)
    requires Placed(s) && IsIdle(s, w) && s.queue != []
    ensures Placed(Taken(s, w))
    ensures s.queue[0].id in s.places && s.places[s.queue[0].id] == InQueue
  {
  }

  lemma {:induction false} DisconnectedKeepsInv(s: State, w: nat)
    requires Inv(s) && HasTaken(s, w) && s.holder.None?
    ensures Inv(FoundDisconnected(s, w))
  {
  }

  lemma {:induction false} WriteKeepsInv(s: State, w: nat)
    requires Inv(s) && CanWrite(s, w)
    ensures Inv(Written(s, w))
  {
  }

  lemma {:induction false} BreakKeepsInv(s: State, w: nat)
    requires Inv(s) && (CanWrite(s, w) || HasWritten(s, w))
    ensures Inv(Broken(s, w))
  {
  }

  lemma {:induction false} ReadKeepsInv(s: State, w: nat)
    requires Inv(s) && CanRead(s, w)
    ensures Inv(ReadLine(s, w))
  {
  }

  lemma {:induction false} DeliverKeepsInv(s: State, w: nat)
    requires Inv(s) && HasReply(s, w)
    ensures Inv(Delivered(s, w))
    ensures s.workers[w].command.id !in s.responses
  {
    hide Placed, RepliesMatch;
    DeliverKeepsPlaced(s, w);
    DeliverKeepsReplies(s, w);
  }

  lemma {:induction false} DeliverKeepsReplies(s: State, w: nat)
    requires RepliesMatch(s) && HasReply(s, w)
    ensures RepliesMatch(Delivered(s, w))
  {
  }

  lemma {:induction false} DeliverKeepsPlaced(s: State, w: nat)
    requires Placed(s) && HasReply(s, w)
    ensures Placed(Delivered(s, w))
    ensures s.workers[w].command.id !in s.responses
  {
  }

  lemma {:induction false} AnswerKeepsInv(s: State, data: string)
    requires Inv(s) && CanAnswer(s)
    ensures Inv(Answered(s, data))
    ensures s.conn.value.requests[0].id !in s.answers
  {
  }

  lemma {:induction false} ConnectKeepsInv(s: State)
    requires Inv(s) && s.holder.None?
    ensures Inv(Connected(s)) && Inv(ConnectFailed(s))
  {
    hide Placed;
    ConnectKeepsPlaced(s);
  }

  lemma {:induction false} ConnectKeepsPlaced(s: State)
    requires Placed(s)
    ensures Placed(Connected(s)) && Placed(ConnectFailed(s))
  {
  }

  lemma {:induction false} StepKeepsInv(s: State, e: Event)
    requires Inv(s)
    ensures Inv(Next(s, e))
  {
    hide Inv, Called, Enqueued, GaveUp, Received, Taken, FoundDisconnected, Written, Broken, ReadLine, Delivered,
      Answered, Connected, ConnectFailed;
    match e
    case Call(id, text) => if id !in s.callers { CallKeepsInv(s, id, text); }
    case Enqueue(id) => if HasChecked(s, id) && |s.queue| < QUEUE_CAPACITY { EnqueueKeepsInv(s, id); }
    case QueueTimeout(id) => if HasChecked(s, id) { GiveUpKeepsInv(s, id); }
    case Take(w) => if IsIdle(s, w) && s.queue != [] { TakeKeepsInv(s, w); }
    case FindDisconnected(w) => if HasTaken(s, w) && s.holder.None? { DisconnectedKeepsInv(s, w); }
    case Write(w) => if CanWrite(s, w) { WriteKeepsInv(s, w); }
    case WriteFails(w) => if CanWrite(s, w) { BreakKeepsInv(s, w); }
    case Answer(data) => if CanAnswer(s) { AnswerKeepsInv(s, data); }
    case Read(w) => if CanRead(s, w) { ReadKeepsInv(s, w); }
    case ReadFails(w) => if HasWritten(s, w) { BreakKeepsInv(s, w); }
    case Deliver(w) => if HasReply(s, w) { DeliverKeepsInv(s, w); }
    case Receive(id) => if Waits(s, id) && id in s.responses { ReceiveKeepsInv(s, id); }
    case WaitTimeout(id) => if Waits(s, id) { GiveUpKeepsInv(s, id); }
    case Connect => if s.holder.None? { ConnectKeepsInv(s); }
    case ConnectFails => if s.holder.None? { ConnectKeepsInv(s); }
  }

  lemma {:induction false} RunKeepsInv(events: seq<Event>)
    ensures Inv(Run(events))
  {
    hide Next;
    if events != [] {
      RunKeepsInv(events[..|events| - 1]);
      StepKeepsInv(Run(events[..|events| - 1]), events[|events| - 1]);
    }
  }

  // ----- nothing is lost

  ghost predicate Queued(s: State, id: nat) {
    exists i :: 0 <= i < |s.queue| && s.queue[i].id == id
  }

  ghost predicate HeldBy(s: State, w: nat, id: nat) {
    w < |s.workers| && !s.workers[w].Idle? && s.workers[w].command.id == id
  }

  /** A command is where it is said to be. */
  ghost predicate IsAt(s: State, id: nat, place: Place) {
    match place
    case WithCaller => true
    case InQueue => Queued(s, id)
    case WithWorker(w) => HeldBy(s, w, id)
    case Replied => id in s.responses
  }

  ghost predicate Found(s: State) {
    && s.places.Keys == s.callers.Keys
    && (forall id :: id in s.places ==> IsAt(s, id, s.places[id]))
    && (forall id :: id in s.callers && s.callers[id].Waiting? ==> s.places[id] != WithCaller)
  }

  lemma {:induction false} CallerKeepsFound(s: State, id: nat, text: string)
    requires Found(s)
    ensures id !in s.callers ==> Found(Called(s, id, text))
    ensures id in s.callers ==> Found(GaveUp(s, id))
    ensures id in s.callers && id in s.responses ==> Found(Received(s, id))
  {
  }

  lemma {:induction false} EnqueueKeepsFound(s: State, id: nat)
    requires Found(s) && HasChecked(s, id)
    ensures Found(Enqueued(s, id))
  {
    var t := Enqueued(s, id);
    assert t.queue[|s.queue|].id == id;
    forall other | other in t.places
      ensures IsAt(t, other, t.places[other])
    {
      if other != id && Queued(s, other) {
        var i :| 0 <= i < |s.queue| && s.queue[i].id == other;
        assert t.queue[i].id == other;
      }
    }
  }

  lemma {:induction false} TakeKeepsFound(s: State, w: nat)
    requires Found(s) && Placed(s) && IsIdle(s, w) && s.queue != []
    ensures Found(Taken(s, w))
  {
    hide Placed;
    var t := Taken(s, w);
    QueueIsPlaced(s);
    forall other | other in t.places
      ensures IsAt(t, other, t.places[other])
    {
      if other != s.queue[0].id && Queued(s, other) {
        var i :| 0 <= i < |s.queue| && s.queue[i].id == other;
        assert t.queue[i - 1].id == other;
      }
    }
  }

  lemma {:induction false} QueueIsPlaced(s: State)
    requires Placed(s) && s.queue != []
    ensures s.queue[0].id in s.places
  {
  }

  /** A worker that stays on its command. */
  lemma {:induction false} WorkKeepsFound(s: State, w: nat, worker: Worker, t: State)
    requires Found(s) && w < |s.workers| && !s.workers[w].Idle? && !worker.Idle?
    requires worker.command == s.workers[w].command
    requires t == s.(conn := t.conn, enabled := t.enabled, holder := t.holder, workers := s.workers[w := worker])
    ensures Found(t)
  {
  }

  lemma {:induction false} DeliverKeepsFound(s: State, w: nat)
    requires Found(s) && Placed(s) && HasReply(s, w)
    ensures Found(Delivered(s, w))
  {
    hide Placed;
    WorkerIsPlaced(s, w);
  }

  lemma {:induction false} WorkerIsPlaced(s: State, w: nat)
    requires Placed(s) && w < |s.workers| && !s.workers[w].Idle?
    ensures s.workers[w].command.id in s.places && s.places[s.workers[w].command.id] == WithWorker(w)
  {
  }

  lemma {:induction false} ConnectKeepsFound(s: State)
    requires Found(s)
    ensures Found(Connected(s)) && Found(ConnectFailed(s))
  {
  }

  lemma {:induction false} AnswerKeepsFound(s: State, data: string)
    requires Found(s) && CanAnswer(s)
    ensures Found(Answered(s, data))
  {
  }

  lemma {:induction false} StepKeepsFound(s: State, e: Event)
    requires Found(s) && Placed(s)
    ensures Found(Next(s, e))
  {
    hide Found, Placed, Called, Enqueued, GaveUp, Received, Taken, Delivered, Answered, Connected, ConnectFailed;
    match e
    case Call(id, text) => CallerKeepsFound(s, id, text);
    case Enqueue(id) => if HasChecked(s, id) { EnqueueKeepsFound(s, id); }
    case QueueTimeout(id) => CallerKeepsFound(s, id, "");
    case Take(w) => if IsIdle(s, w) && s.queue != [] { TakeKeepsFound(s, w); }
    case FindDisconnected(w) =>
      if HasTaken(s, w) {
        WorkKeepsFound(s, w, Worker.Replying(s.workers[w].command, Failed), FoundDisconnected(s, w));
      }
    case Write(w) =>
      if CanWrite(s, w) { WorkKeepsFound(s, w, Worker.Wrote(s.workers[w].command), Written(s, w)); }
    case WriteFails(w) =>
      if CanWrite(s, w) { WorkKeepsFound(s, w, Worker.Replying(s.workers[w].command, Failed), Broken(s, w)); }
    case Answer(data) => if CanAnswer(s) { AnswerKeepsFound(s, data); }
    case Read(w) =>
      if CanRead(s, w) {
        WorkKeepsFound(
          s, w, Worker.Replying(s.workers[w].command, Ok(s.conn.value.replies[0])), ReadLine(s, w));
      }
    case ReadFails(w) =>
      if HasWritten(s, w) { WorkKeepsFound(s, w, Worker.Replying(s.workers[w].command, Failed), Broken(s, w)); }
    case Deliver(w) => if HasReply(s, w) { DeliverKeepsFound(s, w); }
    case Receive(id) => CallerKeepsFound(s, id, "");
    case WaitTimeout(id) => CallerKeepsFound(s, id, "");
    case Connect => ConnectKeepsFound(s);
    case ConnectFails => ConnectKeepsFound(s);
  }

  lemma {:induction false} RunKeepsFound(events: seq<Event>)
    ensures Found(Run(events))
  {
    hide Next;
    if events != [] {
      var init := events[..|events| - 1];
      RunKeepsFound(init);
      RunKeepsInv(init);
      StepKeepsFound(Run(init), events[|events| - 1]);
    }
  }

  /** In every run the command of a waiting caller is still in the queue, or with one
      worker, or its reply is in the caller's channel. */
  lemma {:induction false} CommandsAreNotLost(events: seq<Event>, id: nat)
    requires Waits(Run(events), id)
    ensures
      var s := Run(events);
      Queued(s, id) || id in s.responses || exists w :: HeldBy(s, w, id)
  {
    hide Run, Queued, HeldBy;
    RunKeepsFound(events);
  }

  /** At any moment of any run at most one request is on the connection, answered or not,
      and it is that of the worker that holds the mutex. */
  lemma {:induction false} AtMostOneOutstanding(events: seq<Event>)
    ensures
      var s := Run(events);
      s.conn.Some? ==>
        && |s.conn.value.requests| + |s.conn.value.replies| <= 1
        && (s.holder.None? ==> s.conn.value == Conn([], []))
        && (s.conn.value.requests != [] ==>
              HasWritten(s, s.holder.value) && s.conn.value.requests == [s.workers[s.holder.value].command])
  {
    RunKeepsInv(events);
  }

  /** Any reply a caller of any run receives is the engine's answer to that caller's own
      request. */
  lemma {:induction false} RepliesAreOwn(events: seq<Event>, id: nat, data: string)
    requires id in Run(events).callers && Run(events).callers[id] == Returned(Ok(data))
    ensures id in Run(events).answers && Run(events).answers[id] == data
  {
    RunKeepsInv(events);
  }

  /** The engine answers a request once: what it answered is never replaced. */
  lemma {:induction false} AnswersStand(events: seq<Event>, e: Event, id: nat)
    requires id in Run(events).answers
    ensures id in Run(events + [e]).answers && Run(events + [e]).answers[id] == Run(events).answers[id]
  {
    hide Inv, Run;
    var s := Run(events);
    RunSnoc(events, e);
    RunKeepsInv(events);
    if e.Answer? && CanAnswer(s) {
      AnswerKeepsInv(s, e.data);
    }
  }

  /** A worker's reply never blocks: the caller's one-place channel is still empty. */
  lemma {:induction false} DeliveredOnce(events: seq<Event>, w: nat)
    requires HasReply(Run(events), w)
    ensures Run(events).workers[w].command.id !in Run(events).responses
  {
    hide Inv, Run;
    RunKeepsInv(events);
    DeliverKeepsInv(Run(events), w);
  }

  lemma {:induction false} RunSnoc(events: seq<Event>, e: Event)
    ensures Run(events + [e]) == Next(Run(events), e)
  {
    assert (events + [e])[..|events|] == events;
  }
}
