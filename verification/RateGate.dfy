/**
 The rate gate on AI signals (services/ai-agent/model_risk.py, `check_rate_limit`): two
 timestamps and a counter, proved equivalent to one fixed-window counter. The clock is
 handed in, in nanoseconds.
 */
module RateGate {

  const SECOND := 1_000_000_000
  const AI_MAX_RATE_PER_SEC := 10
  const LARGE_ORDER_THRESHOLD := 1_000_000.0

  /** The gate's counters, as the code keeps them. */
  datatype Gate = Gate(last: int, start: int, count: int)

  const NEW_GATE := Gate(0, 0, 0)

  /** The counters after a call, before the limit is looked at. */
  function Counted(g: Gate, now: int): Gate {
    if now - g.last < SECOND then
      if now - g.start < SECOND then g.(count := g.count + 1) else g.(count := 1, start := now)
    else g.(count := 1, start := now)
  }

  predicate Refused(g: Gate, now: int) {
    now - g.last < SECOND && Counted(g, now).count > AI_MAX_RATE_PER_SEC
  }

  function GateStep(g: Gate, now: int): Gate {
    if Refused(g, now) then Counted(g, now) else Counted(g, now).(last := now)
  }

  datatype Verdict = Allowed | KillSwitchActive | RateExceeded(count: int) | NeedsHuman

  class ModelRisk {
    var killSwitchActive: bool
    var lastSignalNs: int
    var signalsThisSecond: int
    var secondWindowStartNs: int

    ghost function State(): Gate
      reads this
    {
      Gate(lastSignalNs, secondWindowStartNs, signalsThisSecond)
    }

    constructor ()
      ensures State() == NEW_GATE && !killSwitchActive
    {
      killSwitchActive := false;
      lastSignalNs, signalsThisSecond, secondWindowStartNs := 0, 0, 0;
    }

    method CheckRateLimit(now: int, notional: real) returns (verdict: Verdict)
      modifies this
      ensures killSwitchActive == old(killSwitchActive)
      ensures killSwitchActive ==> verdict == KillSwitchActive && State() == old(State())
      ensures !killSwitchActive ==> State() == GateStep(old(State()), now)
      ensures !killSwitchActive ==>
                verdict == if Refused(old(State()), now) then RateExceeded(State().count)
                           else if notional > LARGE_ORDER_THRESHOLD then NeedsHuman
                           else Allowed
    {
      if killSwitchActive {
        return KillSwitchActive;
      }
      if now - lastSignalNs < SECOND {
        if now - secondWindowStartNs < SECOND {
          signalsThisSecond := signalsThisSecond + 1;
        } else {
          signalsThisSecond := 1;
          secondWindowStartNs := now;
        }
        if signalsThisSecond > AI_MAX_RATE_PER_SEC {
          return RateExceeded(signalsThisSecond);
        }
      } else {
        signalsThisSecond := 1;
        secondWindowStartNs := now;
      }
      lastSignalNs := now;
      if notional > LARGE_ORDER_THRESHOLD {
        return NeedsHuman;
      }
      return Allowed;
    }
  }

  // ----- the reference: one window, one counter

  datatype Window = Window(start: int, count: int)

  function WindowStep(w: Window, now: int): Window {
    if now - w.start < SECOND then w.(count := w.count + 1) else Window(now, 1)
  }

  predicate WindowPasses(w: Window, now: int) {
    WindowStep(w, now).count <= AI_MAX_RATE_PER_SEC
  }

  function WindowOf(g: Gate): Window {
    Window(g.start, g.count)
  }

  function RunGate(times: seq<int>): Gate {
    if times == [] then NEW_GATE else GateStep(RunGate(times[..|times| - 1]), times[|times| - 1])
  }

  function RunWindow(times: seq<int>): Window {
    if times == [] then WindowOf(NEW_GATE) else WindowStep(RunWindow(times[..|times| - 1]), times[|times| - 1])
  }

  ghost predicate InOrder(times: seq<int>) {
    && (forall i :: 0 <= i < |times| ==> 0 <= times[i])
    && (forall i, j :: 0 <= i < j < |times| ==> times[i] <= times[j])
  }

  /** One call on both counters, at a time not before the window began. Calls may come out
      of order: the clock is read before the lock is taken. */
  lemma {:induction false} StepsAgree(g: Gate, now: int)
    requires g.start <= g.last && g.start <= now
    ensures WindowOf(GateStep(g, now)) == WindowStep(WindowOf(g), now)
    ensures Refused(g, now) <==> !WindowPasses(WindowOf(g), now)
    ensures GateStep(g, now).start <= GateStep(g, now).last
  {
  }

  /** Exactly when a call puts them out of step: within a second of the window's start, but
      a second or more after the last call let through, which was therefore timed before
      the window. One case is no difference: an empty window that starts at that moment. */
  lemma {:induction false} StepsAgreeIff(g: Gate, now: int)
    ensures WindowOf(GateStep(g, now)) == WindowStep(WindowOf(g), now)
       <==> !(now - g.start < SECOND <= now - g.last) || (g.start == now && g.count == 0)
  {
    if now - g.start < SECOND <= now - g.last {
      assert WindowOf(GateStep(g, now)) == Window(now, 1);
    }
  }

  /** No call is timed before the window it falls in began. */
  ghost predicate AfterStart(times: seq<int>) {
    forall i: nat :: i < |times| ==> RunWindow(times[..i]).start <= times[i]
  }

  lemma {:induction false} WindowStartsEarlier(times: seq<int>, now: int)
    requires InOrder(times + [now])
    ensures RunWindow(times).start <= now
  {
    if times == [] {
      assert now == (times + [now])[0];
    } else {
      var n := |times| - 1;
      var init, t := times[..n], times[n];
      assert forall i :: 0 <= i < |init + [t]| ==> (init + [t])[i] == (times + [now])[i];
      assert t == (times + [now])[n] && now == (times + [now])[n + 1];
      WindowStartsEarlier(init, t);
    }
  }

  /** Calls in time order are among these. */
  lemma {:induction false} InOrderIsAfterStart(times: seq<int>)
    requires InOrder(times)
    ensures AfterStart(times)
  {
    forall i: nat | i < |times|
      ensures RunWindow(times[..i]).start <= times[i]
    {
      assert forall k :: 0 <= k <= i ==> (times[..i] + [times[i]])[k] == times[k];
      WindowStartsEarlier(times[..i], times[i]);
    }
  }

  /** The two counters go in step: after any such calls they hold the same window, and
      they let through the same next call. */
  lemma {:induction false} GateIsWindow(times: seq<int>, now: int)
    requires AfterStart(times) && RunWindow(times).start <= now
    ensures RunWindow(times) == WindowOf(RunGate(times))
    ensures RunGate(times).start <= RunGate(times).last
    ensures Refused(RunGate(times), now) <==> !WindowPasses(RunWindow(times), now)
  {
    hide GateStep, WindowStep, Refused, WindowPasses;
    if times != [] {
      var n := |times| - 1;
      var init, t := times[..n], times[n];
      assert forall i: nat :: i < n ==> init[..i] == times[..i];
      assert RunWindow(times[..n]).start <= times[n];
      GateIsWindow(init, t);
      StepsAgree(RunGate(init), t);
    }
    StepsAgree(RunGate(times), now);
  }

  /** A call timed half a second before the window began, and one a second after it: the
      gate opens a new window where the counter does not. */
  lemma {:induction false} EarlyCallSplitsThem()
    ensures
      var times := [10 * SECOND, 10 * SECOND - SECOND / 2, 10 * SECOND + 3 * SECOND / 5];
      !AfterStart(times) && RunWindow(times) != WindowOf(RunGate(times))
  {
    var a, b, c := 10 * SECOND, 10 * SECOND - SECOND / 2, 10 * SECOND + 3 * SECOND / 5;
    assert [a][..0] == [] && [a, b][..1] == [a] && [a, b, c][..2] == [a, b] && [a, b, c][..1] == [a];
    assert RunGate([a]) == Gate(a, a, 1) && RunWindow([a]) == Window(a, 1);
    assert RunGate([a, b]) == Gate(b, a, 2) && RunWindow([a, b]) == Window(a, 2);
    assert RunGate([a, b, c]) == Gate(c, c, 1) && RunWindow([a, b, c]) == Window(a, 3);
    assert RunWindow([a, b, c][..1]).start > [a, b, c][1];
  }

  // ----- rates

  /** How many of the calls, from a window on, are let through. */
  function Passed(w: Window, times: seq<int>): nat
    decreases times
  {
    if times == [] then 0
    else (if WindowPasses(w, times[0]) then 1 else 0) + Passed(WindowStep(w, times[0]), times[1..])
  }

  /** How many of the calls, from a state of the gate on, are let through. */
  function GatePassed(g: Gate, times: seq<int>): nat
    decreases times
  {
    if times == [] then 0
    else (if Refused(g, times[0]) then 0 else 1) + GatePassed(GateStep(g, times[0]), times[1..])
  }

  /** No call from a window on is timed before the window it falls in began. */
  ghost predicate NoneEarly(w: Window, times: seq<int>)
    decreases times
  {
    times != [] ==> w.start <= times[0] && NoneEarly(WindowStep(w, times[0]), times[1..])
  }

  lemma {:induction false} GatePassesAsWindow(g: Gate, times: seq<int>)
    requires g.start <= g.last && NoneEarly(WindowOf(g), times)
    ensures GatePassed(g, times) == Passed(WindowOf(g), times)
    decreases times
  {
    hide GateStep, WindowStep, Refused, WindowPasses;
    if times != [] {
      StepsAgree(g, times[0]);
      GatePassesAsWindow(GateStep(g, times[0]), times[1..]);
    }
  }

  lemma {:induction false} OrderedIsNotEarly(w: Window, times: seq<int>)
    requires forall i :: 0 <= i < |times| ==> w.start <= times[i]
    requires forall i, j :: 0 <= i < j < |times| ==> times[i] <= times[j]
    ensures NoneEarly(w, times)
    decreases times
  {
    if times != [] {
      OrderedIsNotEarly(WindowStep(w, times[0]), times[1..]);
    }
  }

  lemma {:induction false} SliceNotEarly(times: seq<int>, i: nat, j: nat)
    requires AfterStart(times) && i <= j <= |times|
    ensures NoneEarly(RunWindow(times[..i]), times[i..j])
    decreases j - i
  {
    hide WindowStep;
    if i < j {
      SliceNotEarly(times, i + 1, j);
      assert times[..i + 1][..i] == times[..i] && times[i..j][1..] == times[i + 1..j];
      assert RunWindow(times[..i + 1]) == WindowStep(RunWindow(times[..i]), times[i]);
    }
  }

  /** The calls from the i-th up to the j-th of a run. */
  lemma {:induction false} SliceAsWindow(times: seq<int>, i: nat, j: nat)
    requires AfterStart(times) && i < j <= |times|
    ensures GatePassed(RunGate(times[..i]), times[i..j]) == Passed(RunWindow(times[..i]), times[i..j])
  {
    hide RunGate, RunWindow, GatePassed;
    assert forall k: nat :: k < i ==> times[..i][..k] == times[..k];
    GateIsWindow(times[..i], times[i]);
    SliceNotEarly(times, i, j);
    GatePassesAsWindow(RunGate(times[..i]), times[i..j]);
  }

  /** What is left of a window's allowance. */
  function Left(w: Window): nat {
    if w.count < AI_MAX_RATE_PER_SEC then AI_MAX_RATE_PER_SEC - w.count else 0
  }

  function Smaller(a: nat, b: nat): nat {
    if a < b then a else b
  }

  /** Within a window, as many calls pass as its allowance has left. */
  lemma {:induction false} WindowLimit(w: Window, times: seq<int>)
    requires forall i :: 0 <= i < |times| ==> times[i] - w.start < SECOND
    ensures Passed(w, times) == Smaller(|times|, Left(w))
    decreases times
  {
    if times != [] {
      WindowLimit(WindowStep(w, times[0]), times[1..]);
    }
  }

  /** How many calls come before a moment. */
  function Before(times: seq<int>, end: int): (n: nat)
    ensures n <= |times|
  {
    if times == [] then 0 else (if times[0] < end then 1 else 0) + Before(times[1..], end)
  }

  lemma {:induction false} NoneBefore(times: seq<int>, end: int)
    requires forall i :: 0 <= i < |times| ==> times[i] >= end
    ensures Before(times, end) == 0
  {
    if times != [] {
      NoneBefore(times[1..], end);
    }
  }

  lemma {:induction false} InsideNotEarly(w: Window, times: seq<int>)
    requires NoneEarly(w, times) && forall i :: 0 <= i < |times| ==> times[i] - w.start < SECOND
    ensures forall i :: 0 <= i < |times| ==> w.start <= times[i]
    decreases times
  {
    if times != [] {
      InsideNotEarly(WindowStep(w, times[0]), times[1..]);
      assert forall i :: 0 < i < |times| ==> times[i] == times[1..][i - 1];
    }
  }

  /** Over a second that begins inside a window: the calls before its end pass as far as
      its allowance goes, those after as far as a new allowance goes. */
  lemma {:induction false} SecondFromInside(w: Window, times: seq<int>, from: int)
    requires from - w.start < SECOND
    requires NoneEarly(w, times) && forall i :: 0 <= i < |times| ==> times[i] <= from + SECOND
    ensures
      var early := Before(times, w.start + SECOND);
      Passed(w, times) == Smaller(early, Left(w)) + Smaller(|times| - early, AI_MAX_RATE_PER_SEC)
    decreases times
  {
    if times != [] {
      var t, rest := times[0], times[1..];
      if t - w.start < SECOND {
        SecondFromInside(WindowStep(w, t), rest, from);
      } else {
        InsideNotEarly(Window(t, 1), rest);
        NoneBefore(rest, w.start + SECOND);
        WindowLimit(Window(t, 1), rest);
      }
    }
  }

  /** The window a call at `first` falls in, before it is counted. */
  function Opening(w: Window, first: int): Window {
    if first - w.start < SECOND then w else Window(first, 0)
  }

  /** No call from the i-th to before the j-th is more than a second after the i-th. */
  ghost predicate WithinSecond(times: seq<int>, i: nat, j: nat) {
    i < j <= |times| && forall k :: i <= k < j ==> times[k] <= times[i] + SECOND
  }

  /** Of the calls i to j of any run, if they lie within one second, exactly these pass the
      rate check: those before the end of the window, up to what is left of its ten, and
      those after, up to ten. */
  lemma {:induction false} PassedInSecond(times: seq<int>, i: nat, j: nat)
    requires AfterStart(times) && WithinSecond(times, i, j)
    ensures
      var w := Opening(RunWindow(times[..i]), times[i]);
      var early := Before(times[i..j], w.start + SECOND);
      GatePassed(RunGate(times[..i]), times[i..j])
      == Smaller(early, Left(w)) + Smaller(j - i - early, AI_MAX_RATE_PER_SEC)
  {
    hide RunWindow, RunGate, GatePassed, Before;
    SliceAsWindow(times, i, j);
    SliceNotEarly(times, i, j);
    var before, calls := RunWindow(times[..i]), times[i..j];
    var first := calls[0];
    assert forall k :: 0 <= k < |calls| ==> calls[k] == times[i + k];
    SecondFromInside(Opening(before, first), calls, first);
    assert WindowStep(before, first) == WindowStep(Opening(before, first), first);
  }

  /** So at most twenty do. */
  lemma {:induction false} AtMostTwicePerSecond(times: seq<int>, i: nat, j: nat)
    requires AfterStart(times) && WithinSecond(times, i, j)
    ensures GatePassed(RunGate(times[..i]), times[i..j]) <= 2 * AI_MAX_RATE_PER_SEC
  {
    hide GatePassed, RunGate, Before;
    PassedInSecond(times, i, j);
    WindowSane(times[..i]);
  }

  /** The documented limit, ten in a second, is kept exactly when the calls before the end
      of the window, as far as they pass, leave room for those after. */
  lemma {:induction false} TenPerSecondIff(times: seq<int>, i: nat, j: nat)
    requires AfterStart(times) && WithinSecond(times, i, j)
    ensures
      var w := Opening(RunWindow(times[..i]), times[i]);
      var early := Before(times[i..j], w.start + SECOND);
      GatePassed(RunGate(times[..i]), times[i..j]) <= AI_MAX_RATE_PER_SEC
      <==> early == 0 || Left(w) == 0 || Smaller(early, Left(w)) + (j - i - early) <= AI_MAX_RATE_PER_SEC
  {
    hide GatePassed, RunGate, Before;
    PassedInSecond(times, i, j);
    WindowSane(times[..i]);
  }

  lemma {:induction false} WindowSane(times: seq<int>)
    ensures RunWindow(times).count >= 0
  {
    if times != [] {
      WindowSane(times[..|times| - 1]);
    }
  }

  /** Of the calls i to j of any run, at most ten pass when none after the i-th begins a
      new window. */
  lemma {:induction false} AtMostOncePerWindow(times: seq<int>, i: nat, j: nat)
    requires AfterStart(times) && i < j <= |times|
    requires forall k :: i < k < j ==> times[k] - RunWindow(times[..i + 1]).start < SECOND
    ensures GatePassed(RunGate(times[..i]), times[i..j]) <= AI_MAX_RATE_PER_SEC
  {
    hide RunGate, GatePassed;
    SliceAsWindow(times, i, j);
    var w, calls := RunWindow(times[..i]), times[i..j];
    assert times[..i + 1][..i] == times[..i];
    assert RunWindow(times[..i + 1]) == WindowStep(w, calls[0]);
    WindowSane(times[..i]);
    assert forall k :: 0 <= k < |calls[1..]| ==> calls[1..][k] == times[i + 1 + k];
    WindowLimit(WindowStep(w, calls[0]), calls[1..]);
  }

  function Repeated(t: int, n: nat): seq<int> {
    seq(n, _ => t)
  }

  /** Ten calls at once and ten more a second later: all twenty pass, from any state that
      was idle for a second. The documented limit of ten a second is not kept. */
  lemma {:induction false} TwentyPass(g: Gate, t: int)
    requires g.start <= g.last <= t - SECOND
    ensures GatePassed(g, Repeated(t, 10) + Repeated(t + SECOND, 10)) == 20
  {
    hide GatePassed;
    var w := WindowOf(g);
    OrderedIsNotEarly(w, Repeated(t, 10) + Repeated(t + SECOND, 10));
    GatePassesAsWindow(g, Repeated(t, 10) + Repeated(t + SECOND, 10));
    BurstPasses(w, t, 10, Repeated(t + SECOND, 10));
    BurstPasses(Window(t, 10), t + SECOND, 10, []);
    assert Repeated(t + SECOND, 10) + [] == Repeated(t + SECOND, 10);
  }

  /** A burst that fits the allowance passes whole. */
  lemma {:induction false} BurstPasses(w: Window, t: int, n: nat, rest: seq<int>)
    requires 0 < n <= 10
    requires t - w.start >= SECOND || w.count + n <= 10
    ensures Passed(w, Repeated(t, n) + rest)
         == n + Passed(if t - w.start >= SECOND then Window(t, n) else w.(count := w.count + n), rest)
    decreases n
  {
    var calls := Repeated(t, n) + rest;
    assert calls[0] == t;
    if n == 1 {
      assert calls[1..] == rest;
    } else {
      assert calls[1..] == Repeated(t, n - 1) + rest;
      BurstPasses(WindowStep(w, t), t, n - 1, rest);
    }
  }
}
