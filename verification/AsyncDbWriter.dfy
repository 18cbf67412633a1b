/**
 The asynchronous batch writer (services/gateway/async_db.go): callers enqueue without
 blocking, one worker collects operations into batches and hands them to `flush`. Every
 interleaving of callers, worker, ticker and shutdown is a run.
 */
module AsyncDbWriter {

  datatype Op = Op(query: string, args: seq<string>)

  datatype Phase = Running | Draining | Exited

  /** How the database takes a batch. There may be none, or no transaction begins. In one
      that does, the statements at some places fail, which is only logged, and it is then
      committed or not. */
  datatype Outcome = NotBegun | Ended(failed: set<nat>, committed: bool)

  /** A batch handed to `flush`, and what became of it. */
  datatype Batch = Batch(ops: seq<Op>, outcome: Outcome)

  predicate Commits(outcome: Outcome) {
    outcome.Ended? && outcome.committed
  }

  /** The statements that do not fail. */
  function Ran(ops: seq<Op>, failed: set<nat>): seq<Op> {
    if ops == [] then []
    else
      var n := |ops| - 1;
      Ran(ops[..n], failed) + if n in failed then [] else [ops[n]]
  }

  /** What a batch adds to the database. */
  function Rows(b: Batch): seq<Op> {
    if Commits(b.outcome) then Ran(b.ops, b.outcome.failed) else []
  }

  /** `accepted`, `attempts` and `written` are history: the operations callers were told are
      queued, how many were offered, and those the database now holds. */
  datatype State = State(
    capacity: nat,
    batchSize: int,
    queue: seq<Op>,
    buffer: seq<Op>,
    phase: Phase,
    cancelled: bool,
    flushed: seq<Batch>,
    droppedOps: nat,
    flushedOps: nat,
    accepted: seq<Op>,
    attempts: nat,
    written: seq<Op>)

  function NewWriter(capacity: nat, batchSize: int): State {
    State(capacity, batchSize, [], [], Running, false, [], 0, 0, [], 0, [])
  }

  /** `outcome` is that of the flush, if the event leads to one. */
  datatype Event =
    | Enqueue(op: Op)
    | HandOver(op: Op, outcome: Outcome)
    | Take(outcome: Outcome)
    | Tick(outcome: Outcome)
    | Cancel
    | StartDrain
    | DrainTake
    | DrainEnd(outcome: Outcome)

  function Flushed(s: State, outcome: Outcome): State {
    if s.buffer == [] then s
    else
      s.(flushed := s.flushed + [Batch(s.buffer, outcome)], buffer := [],
         written := s.written + Rows(Batch(s.buffer, outcome)),
         flushedOps := s.flushedOps + if Commits(outcome) then |s.buffer| else 0)
  }

  /** The worker gets one more operation. */
  function Collected(s: State, op: Op, outcome: Outcome): State {
    var t := s.(buffer := s.buffer + [op]);
    if |t.buffer| >= t.batchSize then Flushed(t, outcome) else t
  }

  function Offered(s: State, op: Op): State {
    if |s.queue| < s.capacity then
      s.(queue := s.queue + [op], accepted := s.accepted + [op], attempts := s.attempts + 1)
    else
      s.(droppedOps := s.droppedOps + 1, attempts := s.attempts + 1)
  }

  /** What an event does; one that cannot happen when it comes changes nothing. */
  function Next(s: State, e: Event): State {
    match e
    case Enqueue(op) => Offered(s, op)
    case HandOver(op, outcome) =>
      if s.phase == Running && s.queue == [] then
        Collected(s.(accepted := s.accepted + [op], attempts := s.attempts + 1), op, outcome)
      else s
    case Take(outcome) =>
      if s.phase == Running && s.queue != [] then Collected(s.(queue := s.queue[1..]), s.queue[0], outcome) else s
    case Tick(outcome) => if s.phase == Running then Flushed(s, outcome) else s
    case Cancel => s.(cancelled := true)
    case StartDrain => if s.phase == Running && s.cancelled then s.(phase := Draining) else s
    case DrainTake =>
      if s.phase == Draining && s.queue != [] then s.(buffer := s.buffer + [s.queue[0]], queue := s.queue[1..]) else s
    case DrainEnd(outcome) =>
      if s.phase == Draining && s.queue == [] then Flushed(s, outcome).(phase := Exited) else s
  }

  function Run(start: State, events: seq<Event>): State {
    if events == [] then start else Next(Run(start, events[..|events| - 1]), events[|events| - 1])
  }

  // ----- the writer

  class Writer {
    const capacity: nat
    const batchSize: int
    var queue: seq<Op>
    var buffer: seq<Op>
    var phase: Phase
    var cancelled: bool
    var droppedOps: nat
    var flushedOps: nat
    ghost var flushed: seq<Batch>
    ghost var accepted: seq<Op>
    ghost var attempts: nat
    ghost var written: seq<Op>

    ghost function Value(): State
      reads this
    {
      State(capacity, batchSize, queue, buffer, phase, cancelled, flushed, droppedOps, flushedOps, accepted, attempts,
            written)
    }

    constructor (capacity: nat, batchSize: int)
      ensures Value() == NewWriter(capacity, batchSize)
    {
      this.capacity, this.batchSize := capacity, batchSize;
      queue, buffer, droppedOps, flushedOps := [], [], 0, 0;
      phase, cancelled := Running, false;
      flushed, accepted, attempts, written := [], [], 0, [];
    }

    method Enqueue(op: Op) returns (ok: bool)
      modifies this
      ensures Value() == Next(old(Value()), Event.Enqueue(op))
      ensures ok == (|old(queue)| < capacity)
      ensures ok ==> accepted == old(accepted) + [op] && queue == old(queue) + [op] && droppedOps == old(droppedOps)
      ensures !ok ==> accepted == old(accepted) && queue == old(queue) && droppedOps == old(droppedOps) + 1
    {
      attempts := attempts + 1;
      if |queue| < capacity {
        queue := queue + [op];
        accepted := accepted + [op];
        return true;
      }
      droppedOps := droppedOps + 1;
      return false;
    }

    /** `outcome` is what the database does. */
    method Flush(outcome: Outcome)
      modifies this
      ensures Value() == Flushed(old(Value()), outcome)
    {
      if buffer == [] {
        return;
      }
      ghost var batch := Batch(buffer, outcome);
      flushed := flushed + [batch];
      if outcome.Ended? {
        ghost var ran: seq<Op> := [];
        for i := 0 to |buffer|
          invariant ran == Ran(buffer[..i], outcome.failed)
        {
          assert buffer[..i + 1][..i] == buffer[..i];
          if i !in outcome.failed {
            ran := ran + [buffer[i]];
          }
        }
        assert buffer[..|buffer|] == buffer;
        if outcome.committed {
          written := written + ran;
          flushedOps := flushedOps + |buffer|;
        }
      }
      buffer := [];
    }

    /** The worker's receive branch. */
    method Receive(outcome: Outcome)
      requires phase == Running && queue != []
      modifies this
      ensures Value() == Next(old(Value()), Take(outcome))
    {
      var op := queue[0];
      queue := queue[1..];
      buffer := buffer + [op];
      if |buffer| >= batchSize {
        Flush(outcome);
      }
    }

    /** The worker's ticker branch. */
    method OnTick(outcome: Outcome)
      requires phase == Running
      modifies this
      ensures Value() == Next(old(Value()), Tick(outcome))
    {
      if |buffer| > 0 {
        Flush(outcome);
      }
    }

    /** `Shutdown` cancels the context. */
    method Shutdown()
      modifies this
      ensures Value() == Next(old(Value()), Cancel)
    {
      cancelled := true;
    }

    /** The worker sees the context cancelled and turns to draining. */
    method OnCancelled()
      requires phase == Running && cancelled
      modifies this
      ensures Value() == Next(old(Value()), StartDrain)
      ensures phase == Draining
    {
      phase := Draining;
    }

    /** The worker's last branch: everything queued joins the buffer, which is flushed.
        Nothing is enqueued meanwhile. */
    method DrainRemaining(outcome: Outcome)
      requires phase == Draining
      modifies this
      ensures Value() == Next(Drained(old(Value())), DrainEnd(outcome))
    {
      while queue != []
        invariant phase == Draining && Drained(Value()) == Drained(old(Value()))
        decreases |queue|
      {
        var op := queue[0];
        assert buffer + queue == (buffer + [op]) + queue[1..];
        buffer, queue := buffer + [op], queue[1..];
      }
      assert buffer + queue == buffer;
      if |buffer| > 0 {
        Flush(outcome);
      }
      phase := Exited;
    }
  }

  /** The state when a drain has emptied the queue. */
  function Drained(s: State): State {
    s.(buffer := s.buffer + s.queue, queue := [])
  }

  lemma {:induction false} DrainTakesAll(s: State)
    requires s.phase == Draining
    ensures Run(s, seq(|s.queue|, _ => DrainTake)) == Drained(s)
    decreases |s.queue|
  {
    hide Run, Next, Drained;
    var n := |s.queue|;
    if n == 0 {
      NothingToDrain(s);
    } else {
      var t, op := s.(queue := s.queue[..n - 1]), s.queue[n - 1];
      assert s == t.(queue := t.queue + [op]);
      DrainTakesAll(t);
      DrainIgnoresTail(t, op, n - 1);
      LastDrain(t, op);
    }
  }

  lemma {:induction false} NothingToDrain(s: State)
    requires s.queue == []
    ensures Run(s, seq(0, _ => DrainTake)) == Drained(s)
  {
    assert s.buffer + s.queue == s.buffer;
  }

  lemma {:induction false} LastDrain(t: State, op: Op)
    requires t.phase == Draining
    requires Run(t.(queue := t.queue + [op]), seq(|t.queue|, _ => DrainTake)) == Drained(t).(queue := [op])
    ensures Run(t.(queue := t.queue + [op]), seq(|t.queue| + 1, _ => DrainTake))
         == Drained(t.(queue := t.queue + [op]))
  {
    var n := |t.queue|;
    assert seq(n + 1, _ => DrainTake)[..n] == seq(n, _ => DrainTake);
    assert t.buffer + (t.queue + [op]) == (t.buffer + t.queue) + [op];
  }

  lemma {:induction false} DrainIgnoresTail(s: State, op: Op, k: nat)
    requires s.phase == Draining && k <= |s.queue|
    ensures
      var r := Run(s, seq(k, _ => DrainTake));
      && r.phase == Draining && |r.queue| == |s.queue| - k
      && Run(s.(queue := s.queue + [op]), seq(k, _ => DrainTake)) == r.(queue := r.queue + [op])
  {
    if k > 0 {
      DrainIgnoresTail(s, op, k - 1);
      assert seq(k, _ => DrainTake)[..k - 1] == seq(k - 1, _ => DrainTake);
      var r := Run(s, seq(k - 1, _ => DrainTake));
      assert (r.queue + [op])[1..] == r.queue[1..] + [op];
    }
  }

  // ----- what every run keeps

  /** All operations handed to `flush`, in order. */
  function Handed(flushed: seq<Batch>): seq<Op> {
    if flushed == [] then [] else Handed(flushed[..|flushed| - 1]) + flushed[|flushed| - 1].ops
  }

  function Committed(flushed: seq<Batch>): nat {
    if flushed == [] then 0
    else
      var b := flushed[|flushed| - 1];
      Committed(flushed[..|flushed| - 1]) + if Commits(b.outcome) then |b.ops| else 0
  }

  /** The operations the database holds after some batches. */
  function Written(flushed: seq<Batch>): seq<Op> {
    if flushed == [] then [] else Written(flushed[..|flushed| - 1]) + Rows(flushed[|flushed| - 1])
  }

  lemma {:induction false} HandedSnoc(flushed: seq<Batch>, b: Batch)
    ensures Handed(flushed + [b]) == Handed(flushed) + b.ops
    ensures Committed(flushed + [b]) == Committed(flushed) + if Commits(b.outcome) then |b.ops| else 0
    ensures Written(flushed + [b]) == Written(flushed) + Rows(b)
  {
    hide Rows;
    assert (flushed + [b])[..|flushed|] == flushed;
  }

  /** Nothing lost, repeated or reordered on the way to the database, every attempt counted,
      and every operation of a committed batch. */
  ghost predicate Conserved(s: State) {
    && s.accepted == Handed(s.flushed) + s.buffer + s.queue
    && s.attempts == |s.accepted| + s.droppedOps
    && s.flushedOps == Committed(s.flushed)
    && s.written == Written(s.flushed)
  }

  ghost predicate Bounded(s: State) {
    && |s.queue| <= s.capacity
    && (s.phase == Running ==> s.buffer == [] || |s.buffer| < s.batchSize)
    && (s.phase == Exited ==> s.buffer == [])
    && (forall i :: 0 <= i < |s.flushed| ==> s.flushed[i].ops != [])
  }

  lemma {:induction false} FlushKeeps(s: State, outcome: Outcome)
    requires Conserved(s)
    ensures Conserved(Flushed(s, outcome))
  {
    HandedSnoc(s.flushed, Batch(s.buffer, outcome));
  }

  lemma {:induction false} CollectKeeps(s: State, op: Op, outcome: Outcome)
    requires Conserved(s.(buffer := s.buffer + [op]))
    ensures Conserved(Collected(s, op, outcome))
  {
    FlushKeeps(s.(buffer := s.buffer + [op]), outcome);
  }

  lemma {:induction false} MoveFirst(done: seq<Op>, buffer: seq<Op>, queue: seq<Op>)
    requires queue != []
    ensures done + buffer + queue == done + (buffer + [queue[0]]) + queue[1..]
  {
    assert queue == [queue[0]] + queue[1..];
  }

  lemma {:induction false} OfferConserves(s: State, op: Op)
    requires Conserved(s)
    ensures Conserved(Offered(s, op))
  {
    hide Handed, Committed, Written;
    assert Handed(s.flushed) + s.buffer + s.queue + [op] == Handed(s.flushed) + s.buffer + (s.queue + [op]);
  }

  lemma {:induction false} HandOverConserves(s: State, op: Op, outcome: Outcome)
    requires Conserved(s) && s.queue == []
    ensures Conserved(Collected(s.(accepted := s.accepted + [op], attempts := s.attempts + 1), op, outcome))
  {
    hide Handed, Committed, Written, Collected;
    var t := s.(accepted := s.accepted + [op], attempts := s.attempts + 1);
    assert Handed(s.flushed) + s.buffer + [] + [op] == Handed(s.flushed) + (s.buffer + [op]) + [];
    CollectKeeps(t, op, outcome);
  }

  lemma {:induction false} TakeConserves(s: State, outcome: Outcome)
    requires Conserved(s) && s.queue != []
    ensures Conserved(Collected(s.(queue := s.queue[1..]), s.queue[0], outcome))
    ensures Conserved(s.(buffer := s.buffer + [s.queue[0]], queue := s.queue[1..]))
  {
    hide Handed, Committed, Written, Collected;
    MoveFirst(Handed(s.flushed), s.buffer, s.queue);
    CollectKeeps(s.(queue := s.queue[1..]), s.queue[0], outcome);
  }

  lemma {:induction false} StepConserves(s: State, e: Event)
    requires Conserved(s)
    ensures Conserved(Next(s, e))
  {
    hide Handed, Committed, Written, Collected, Flushed, Offered;
    match e
    case Enqueue(op) => OfferConserves(s, op);
    case HandOver(op, outcome) => if s.queue == [] { HandOverConserves(s, op, outcome); }
    case Take(outcome) => if s.queue != [] { TakeConserves(s, outcome); }
    case Tick(outcome) => FlushKeeps(s, outcome);
    case DrainTake => if s.queue != [] { TakeConserves(s, NotBegun); }
    case DrainEnd(outcome) => FlushKeeps(s, outcome);
    case _ =>
  }

  lemma {:induction false} StepBounded(s: State, e: Event)
    requires Bounded(s)
    ensures Bounded(Next(s, e))
  {
  }

  /** In every interleaving the accepted operations are, in order and each once, the
      flushed batches, then the buffer, then the queue; attempts are accepted or dropped. */
  lemma {:induction false} RunConserves(capacity: nat, batchSize: int, events: seq<Event>)
    ensures Conserved(Run(NewWriter(capacity, batchSize), events))
    ensures Bounded(Run(NewWriter(capacity, batchSize), events))
  {
    hide Next, Bounded, Conserved;
    if events == [] {
      NewIsConserved(capacity, batchSize);
    } else {
      var n := |events| - 1;
      RunConserves(capacity, batchSize, events[..n]);
      StepConserves(Run(NewWriter(capacity, batchSize), events[..n]), events[n]);
      StepBounded(Run(NewWriter(capacity, batchSize), events[..n]), events[n]);
    }
  }

  lemma {:induction false} NewIsConserved(capacity: nat, batchSize: int)
    ensures Conserved(NewWriter(capacity, batchSize)) && Bounded(NewWriter(capacity, batchSize))
  {
  }

  lemma {:induction false} ExitIsFinal(s: State, e: Event)
    requires s.phase == Exited
    ensures Next(s, e).phase == Exited && Next(s, e).flushed == s.flushed
  {
  }

  /** Once the worker has exited, what was handed to `flush` is exactly what had been
      accepted when its final drain ended: nothing less, and nothing later. */
  lemma {:induction false} ExitFlushesAll(capacity: nat, batchSize: int, events: seq<Event>, d: nat)
    requires d < |events| && events[d].DrainEnd?
    requires
      var s := Run(NewWriter(capacity, batchSize), events[..d]);
      s.phase == Draining && s.queue == []
    ensures
      var s := Run(NewWriter(capacity, batchSize), events);
      s.phase == Exited && s.buffer == []
      && Handed(s.flushed) == Run(NewWriter(capacity, batchSize), events[..d]).accepted
    decreases |events|
  {
    hide Conserved, Bounded, Handed, Next;
    var start := NewWriter(capacity, batchSize);
    var n := |events| - 1;
    RunConserves(capacity, batchSize, events);
    if d < n {
      assert events[..n][..d] == events[..d];
      ExitFlushesAll(capacity, batchSize, events[..n], d);
      ExitIsFinal(Run(start, events[..n]), events[n]);
      BufferGone(Run(start, events));
    } else {
      var s := Run(start, events[..d]);
      RunConserves(capacity, batchSize, events[..d]);
      DrainHandsOver(s, events[d].outcome);
      assert events[..n] == events[..d];
    }
  }

  lemma {:induction false} BufferGone(s: State)
    requires Bounded(s) && s.phase == Exited
    ensures s.buffer == []
  {
  }

  lemma {:induction false} DrainHandsOver(s: State, outcome: Outcome)
    requires Conserved(s) && s.phase == Draining && s.queue == []
    ensures Handed(Next(s, DrainEnd(outcome)).flushed) == s.accepted
    ensures Next(s, DrainEnd(outcome)).buffer == [] && Next(s, DrainEnd(outcome)).phase == Exited
  {
    hide Handed, Committed, Written, Rows, Commits;
    HandedSnoc(s.flushed, Batch(s.buffer, outcome));
    assert Handed(s.flushed) + s.buffer + [] == Handed(s.flushed) + s.buffer;
    if s.buffer == [] {
      assert Handed(s.flushed) + [] == Handed(s.flushed);
    }
  }

  /** What is accepted after the worker has exited stays in the queue for good: in every
      later state the queue is exactly that. */
  lemma {:induction false} LateIsStranded(capacity: nat, batchSize: int, events: seq<Event>, d: nat)
    requires d < |events| && events[d].DrainEnd?
    requires
      var s := Run(NewWriter(capacity, batchSize), events[..d]);
      s.phase == Draining && s.queue == []
    ensures
      var before, s := Run(NewWriter(capacity, batchSize), events[..d]).accepted, Run(NewWriter(capacity, batchSize), events);
      before <= s.accepted && s.queue == s.accepted[|before|..]
  {
    hide Run, Handed, Committed;
    var before, s := Run(NewWriter(capacity, batchSize), events[..d]).accepted, Run(NewWriter(capacity, batchSize), events);
    ExitFlushesAll(capacity, batchSize, events, d);
    RunConserves(capacity, batchSize, events);
    assert s.accepted == before + [] + s.queue == before + s.queue;
  }

  // ----- when batches are flushed

  /** The worker gets one more operation from the queue, in its order. The batch is flushed
      when that fills it, and not before. */
  lemma {:induction false} TakeFlushesAtSize(s: State, outcome: Outcome)
    requires s.phase == Running && s.queue != []
    ensures
      var t, batch := Next(s, Take(outcome)), s.buffer + [s.queue[0]];
      && t.queue == s.queue[1..]
      && (|batch| < s.batchSize ==> t.buffer == batch && t.flushed == s.flushed)
      && (|batch| >= s.batchSize ==> t.buffer == [] && t.flushed == s.flushed + [Batch(batch, outcome)])
  {
  }

  /** A tick leaves nothing in the buffer. */
  lemma {:induction false} TickFlushes(s: State, outcome: Outcome)
    requires s.phase == Running
    ensures
      var t := Next(s, Tick(outcome));
      && t.buffer == [] && t.queue == s.queue && t.accepted == s.accepted
      && t.flushed == if s.buffer == [] then s.flushed else s.flushed + [Batch(s.buffer, outcome)]
  {
  }

  /** So in every run, after a tick, all that was accepted has been handed over except what
      is still queued. */
  lemma {:induction false} TickHandsOver(capacity: nat, batchSize: int, events: seq<Event>, outcome: Outcome)
    requires Run(NewWriter(capacity, batchSize), events).phase == Running
    ensures
      var s := Run(NewWriter(capacity, batchSize), events + [Tick(outcome)]);
      s.accepted == Handed(s.flushed) + s.queue
  {
    hide Run, Next, Handed, Conserved, Bounded;
    var start := NewWriter(capacity, batchSize);
    RunSnoc(start, events, Tick(outcome));
    TickFlushes(Run(start, events), outcome);
    RunConserves(capacity, batchSize, events + [Tick(outcome)]);
    NothingBuffered(Run(start, events + [Tick(outcome)]));
  }

  lemma {:induction false} NothingBuffered(s: State)
    requires Conserved(s) && s.buffer == []
    ensures s.accepted == Handed(s.flushed) + s.queue
  {
    hide Handed, Committed, Written;
    assert Handed(s.flushed) + [] == Handed(s.flushed);
  }

  lemma {:induction false} RunSnoc(start: State, events: seq<Event>, e: Event)
    ensures Run(start, events + [e]) == Next(Run(start, events), e)
  {
    assert (events + [e])[..|events|] == events;
  }

  /** While the worker runs, every batch flushed is of the batch size or smaller. */
  lemma {:induction false} BatchesFit(capacity: nat, batchSize: int, events: seq<Event>)
    requires Run(NewWriter(capacity, batchSize), events).phase == Running && batchSize > 0
    ensures
      var s := Run(NewWriter(capacity, batchSize), events);
      forall i :: 0 <= i < |s.flushed| ==> 0 < |s.flushed[i].ops| <= batchSize
  {
    if events != [] {
      hide Run, Next;
      var n := |events| - 1;
      var start := NewWriter(capacity, batchSize);
      assert events == events[..n] + [events[n]];
      RunSnoc(start, events[..n], events[n]);
      RunConserves(capacity, batchSize, events[..n]);
      RunKeepsSize(capacity, batchSize, events[..n]);
      StepFits(Run(start, events[..n]), events[n]);
      BatchesFit(capacity, batchSize, events[..n]);
    }
  }

  lemma {:induction false} RunKeepsSize(capacity: nat, batchSize: int, events: seq<Event>)
    ensures Run(NewWriter(capacity, batchSize), events).batchSize == batchSize
  {
    if events != [] {
      RunKeepsSize(capacity, batchSize, events[..|events| - 1]);
    }
  }

  lemma {:induction false} StepFits(s: State, e: Event)
    requires Next(s, e).phase == Running && s.batchSize > 0
    ensures s.phase == Running
    ensures
      Bounded(s) && (forall i :: 0 <= i < |s.flushed| ==> 0 < |s.flushed[i].ops| <= s.batchSize) ==>
        forall i :: 0 <= i < |Next(s, e).flushed| ==> 0 < |Next(s, e).flushed[i].ops| <= s.batchSize
  {
    hide Rows, Commits;
  }

  // ----- what is written

  ghost predicate AllRan(b: Batch) {
    b.outcome.Ended? && forall k: nat :: k < |b.ops| ==> k !in b.outcome.failed
  }

  /** Every transaction was committed, and every statement in it ran. */
  ghost predicate AllWent(flushed: seq<Batch>) {
    forall i :: 0 <= i < |flushed| ==> Commits(flushed[i].outcome) && AllRan(flushed[i])
  }

  /** No statement failed in a transaction that was committed. */
  ghost predicate NoneSkipped(flushed: seq<Batch>) {
    forall i :: 0 <= i < |flushed| && Commits(flushed[i].outcome) ==> AllRan(flushed[i])
  }

  lemma {:induction false} RanAll(ops: seq<Op>, failed: set<nat>)
    ensures |Ran(ops, failed)| <= |ops|
    ensures (forall k: nat :: k < |ops| ==> k !in failed) ==> Ran(ops, failed) == ops
    ensures |Ran(ops, failed)| == |ops| ==> forall k: nat :: k < |ops| ==> k !in failed
  {
    if ops != [] {
      var n := |ops| - 1;
      RanAll(ops[..n], failed);
      assert ops == ops[..n] + [ops[n]];
    }
  }

  lemma {:induction false} RowsOf(b: Batch)
    requires b.ops != []
    ensures |Rows(b)| <= |b.ops|
    ensures Commits(b.outcome) && AllRan(b) ==> Rows(b) == b.ops
    ensures |Rows(b)| == |b.ops| <==> Commits(b.outcome) && AllRan(b)
    ensures !Commits(b.outcome) ==> Rows(b) == []
  {
    if Commits(b.outcome) {
      RanAll(b.ops, b.outcome.failed);
    }
  }

  lemma {:induction false} WrittenIffWent(flushed: seq<Batch>)
    requires forall i :: 0 <= i < |flushed| ==> flushed[i].ops != []
    ensures |Written(flushed)| <= Committed(flushed) <= |Handed(flushed)|
    ensures AllWent(flushed) ==> Written(flushed) == Handed(flushed)
    ensures |Written(flushed)| == |Handed(flushed)| ==> AllWent(flushed)
    ensures |Written(flushed)| == Committed(flushed) <==> NoneSkipped(flushed)
  {
    hide Rows, AllRan, Commits, AllWent, NoneSkipped, Handed, Committed, Written;
    if flushed == [] {
      NothingWent();
    } else {
      var n := |flushed| - 1;
      assert flushed == flushed[..n] + [flushed[n]];
      WrittenIffWent(flushed[..n]);
      RowsOf(flushed[n]);
      HandedSnoc(flushed[..n], flushed[n]);
      WentSnoc(flushed[..n], flushed[n]);
    }
  }

  lemma {:induction false} NothingWent()
    ensures Written([]) == [] && Handed([]) == [] && Committed([]) == 0 && AllWent([]) && NoneSkipped([])
  {
  }

  lemma {:induction false} WentSnoc(flushed: seq<Batch>, b: Batch)
    ensures AllWent(flushed + [b]) <==> AllWent(flushed) && Commits(b.outcome) && AllRan(b)
    ensures NoneSkipped(flushed + [b]) <==> NoneSkipped(flushed) && (Commits(b.outcome) ==> AllRan(b))
  {
    hide AllRan, Commits;
    var all := flushed + [b];
    assert all[|flushed|] == b;
    assert forall i :: 0 <= i < |flushed| ==> all[i] == flushed[i];
  }

  /** In every run the operations written are all those accepted exactly when every batch
      was committed, every statement in it ran, and nothing is waiting. */
  lemma {:induction false} AllWrittenIff(capacity: nat, batchSize: int, events: seq<Event>)
    ensures
      var s := Run(NewWriter(capacity, batchSize), events);
      s.written == s.accepted <==> AllWent(s.flushed) && s.buffer == [] && s.queue == []
  {
    hide Run, Handed, Written, Committed, AllWent, NoneSkipped;
    var s := Run(NewWriter(capacity, batchSize), events);
    RunConserves(capacity, batchSize, events);
    WrittenIffWent(s.flushed);
    if AllWent(s.flushed) && s.buffer == [] && s.queue == [] {
      assert Handed(s.flushed) + [] + [] == Handed(s.flushed);
    }
  }

  /** The counter of flushed operations is never below the number written, and equal to it
      exactly when no statement failed in a committed transaction. */
  lemma {:induction false} FlushedCountsWrittenIff(capacity: nat, batchSize: int, events: seq<Event>)
    ensures
      var s := Run(NewWriter(capacity, batchSize), events);
      |s.written| <= s.flushedOps && (s.flushedOps == |s.written| <==> NoneSkipped(s.flushed))
  {
    hide Run, Handed, Written, Committed, AllWent, NoneSkipped;
    RunConserves(capacity, batchSize, events);
    WrittenIffWent(Run(NewWriter(capacity, batchSize), events).flushed);
  }

  lemma {:induction false} OneFlushed(capacity: nat, batchSize: int, op: Op, outcome: Outcome)
    ensures
      var s := Run(NewWriter(capacity, batchSize), [HandOver(op, outcome), Tick(outcome)]);
      && s.accepted == [op] && s.buffer == [] && s.queue == []
      && s.flushed == [Batch([op], outcome)] && s.written == Rows(Batch([op], outcome))
      && s.flushedOps == if Commits(outcome) then 1 else 0
  {
    hide Rows, Commits;
    var start, e1, e2 := NewWriter(capacity, batchSize), [HandOver(op, outcome)], [HandOver(op, outcome), Tick(outcome)];
    assert e1[..0] == [] && e2[..1] == e1;
    assert Run(start, []) == start;
    var s := Run(start, e1);
    assert [] + [op] == [op] && [] + Rows(Batch([op], outcome)) == Rows(Batch([op], outcome));
    assert s.accepted == [op] && s.queue == [] && s.phase == Running;
  }

  /** An operation whose transaction fails was accepted and is nowhere any more. */
  lemma {:induction false} FailedBatchIsLost(capacity: nat, batchSize: int, op: Op, outcome: Outcome)
    requires !Commits(outcome)
    ensures
      var s := Run(NewWriter(capacity, batchSize), [HandOver(op, outcome), Tick(outcome)]);
      s.accepted == [op] && s.written == [] && s.buffer == [] && s.queue == []
  {
    hide Run;
    OneFlushed(capacity, batchSize, op, outcome);
  }

  /** So is one whose statement fails in a transaction that is committed, and it is counted
      as flushed. */
  lemma {:induction false} FailedStatementIsLost(capacity: nat, batchSize: int, op: Op)
    ensures
      var outcome := Ended({0}, true);
      var s := Run(NewWriter(capacity, batchSize), [HandOver(op, outcome), Tick(outcome)]);
      s.accepted == [op] && s.written == [] && s.buffer == [] && s.queue == [] && s.flushedOps == 1
  {
    hide Run;
    OneFlushed(capacity, batchSize, op, Ended({0}, true));
    assert 0 in {0} && [op][..0] == [];
    assert Ran([op], {0}) == Ran([], {0}) + [];
  }
}
