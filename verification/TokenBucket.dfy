/**
 The token-bucket rate limiter (services/gateway/orchestrator.go, `tokenBucket`). Times
 are nanoseconds, handed in; tokens are reals.
 */
module TokenBucket {
  import opened Basics

  datatype Bucket = Bucket(tokens: real, max: real, rate: real, last: int)

  function NewBucket(perSecond: real, now: int): Bucket {
    Bucket(perSecond, perSecond, perSecond / 1000000000.0, now)
  }

  /** The tokens that come in over `ns` nanoseconds. */
  function Accrued(rate: real, ns: int): real {
    ns as real * rate
  }

  function Level(b: Bucket, now: int): real {
    Min(b.max, b.tokens + Accrued(b.rate, now - b.last))
  }

  predicate Passes(b: Bucket, now: int) {
    Level(b, now) >= 1.0
  }

  function Step(b: Bucket, now: int): Bucket {
    b.(tokens := if Passes(b, now) then Level(b, now) - 1.0 else Level(b, now), last := now)
  }

  /** The bucket after calls at the given times. */
  function Run(b: Bucket, times: seq<int>): Bucket {
    if times == [] then b else Step(Run(b, times[..|times| - 1]), times[|times| - 1])
  }

  /** Whether the k-th of these calls is let through. */
  predicate Admitted(b: Bucket, times: seq<int>, k: nat)
    requires k < |times|
  {
    Passes(Run(b, times[..k]), times[k])
  }

  /** How many of the calls from `i` up to, not including, `j` are let through. */
  function Count(b: Bucket, times: seq<int>, i: nat, j: nat): (n: nat)
    requires i <= j <= |times|
    ensures n <= j - i
  {
    if i == j then 0 else Count(b, times, i, j - 1) + if Admitted(b, times, j - 1) then 1 else 0
  }

  class Limiter {
    const maxTokens: real
    const refillRate: real
    var tokens: real
    var lastRefill: int

    ghost function State(): Bucket
      reads this
    {
      Bucket(tokens, maxTokens, refillRate, lastRefill)
    }

    constructor (perSecond: real, now: int)
      ensures State() == NewBucket(perSecond, now)
    {
      tokens, maxTokens := perSecond, perSecond;
      refillRate := perSecond / 1000000000.0;
      lastRefill := now;
    }

    method Allow(now: int) returns (ok: bool)
      modifies this
      ensures ok == Passes(old(State()), now)
      ensures State() == Step(old(State()), now)
    {
      var elapsed := now - lastRefill;
      tokens := Min(maxTokens, tokens + Accrued(refillRate, elapsed));
      lastRefill := now;
      if tokens >= 1.0 {
        tokens := tokens - 1.0;
        return true;
      }
      return false;
    }
  }

  // ----- what every run keeps

  ghost predicate InOrder(start: int, times: seq<int>) {
    && (forall i :: 0 <= i < |times| ==> start <= times[i])
    && (forall i, j :: 0 <= i < j < |times| ==> times[i] <= times[j])
  }

  /** A bucket as it is made. */
  ghost predicate Full(b: Bucket) {
    b.tokens == b.max && b.max >= 0.0 && b.rate >= 0.0
  }

  lemma {:induction false} NewIsFull(perSecond: real, now: int)
    requires perSecond >= 0.0
    ensures Full(NewBucket(perSecond, now))
  {
  }

  lemma {:induction false} AccruedAdds(rate: real, a: int, b: int)
    ensures Accrued(rate, a + b) == Accrued(rate, a) + Accrued(rate, b)
  {
  }

  lemma {:induction false} AccruedGrows(rate: real, ns: int)
    requires rate >= 0.0 && ns >= 0
    ensures Accrued(rate, ns) >= 0.0
  {
  }

  function LastTime(b: Bucket, times: seq<int>): int {
    if times == [] then b.last else times[|times| - 1]
  }

  lemma {:induction false} RunFields(b: Bucket, times: seq<int>)
    ensures Run(b, times).max == b.max && Run(b, times).rate == b.rate
    ensures Run(b, times).last == LastTime(b, times)
  {
    if times != [] {
      RunFields(b, times[..|times| - 1]);
    }
  }

  /** Tokens stay between zero and the maximum. */
  lemma {:induction false} TokensInRange(b: Bucket, times: seq<int>)
    requires Full(b) && InOrder(b.last, times)
    ensures 0.0 <= Run(b, times).tokens <= b.max
  {
    hide Accrued;
    if times != [] {
      var n := |times| - 1;
      TokensInRange(b, times[..n]);
      RunFields(b, times[..n]);
      AccruedGrows(b.rate, times[n] - LastTime(b, times[..n]));
    }
  }

  /** What the calls since the i-th leave for one at `now`. */
  function Budget(b: Bucket, times: seq<int>, i: nat, now: int): real
    requires i < |times|
  {
    b.max + Accrued(b.rate, now - times[i]) - Count(b, times, i, |times|) as real
  }

  /** The token a call at `t` takes. */
  function Spent(b: Bucket, times: seq<int>, t: int): real {
    if Passes(Run(b, times), t) then 1.0 else 0.0
  }

  lemma {:induction false} CountSnoc(b: Bucket, times: seq<int>, now: int, i: nat, j: nat)
    requires i <= j <= |times|
    ensures Count(b, times + [now], i, j) == Count(b, times, i, j)
    decreases j
  {
    if i < j {
      CountSnoc(b, times, now, i, j - 1);
      assert (times + [now])[..j - 1] == times[..j - 1];
    }
  }

  /** The next call's budget, one call on. */
  lemma {:induction false} BudgetStep(b: Bucket, times: seq<int>, t: int, i: nat, now: int)
    requires i < |times|
    ensures Budget(b, times + [t], i, now)
         == Budget(b, times, i, t) + Accrued(b.rate, now - t) - Spent(b, times, t)
  {
    hide Accrued, Run;
    CountSnoc(b, times, t, i, |times|);
    assert (times + [t])[..|times|] == times;
    AccruedAdds(b.rate, t - times[i], now - t);
  }

  lemma {:induction false} BudgetOfLast(b: Bucket, times: seq<int>, t: int, now: int)
    ensures Budget(b, times + [t], |times|, now)
         == b.max + Accrued(b.rate, now - t) - Spent(b, times, t)
  {
    hide Accrued, Run;
    assert (times + [t])[..|times|] == times;
  }

  /** The tokens held when a call at `now` is refilled, before the cap. */
  function Holding(b: Bucket, times: seq<int>, now: int): real {
    Run(b, times).tokens + Accrued(b.rate, now - LastTime(b, times))
  }

  lemma {:induction false} HoldingStep(b: Bucket, times: seq<int>, t: int, now: int)
    ensures Holding(b, times + [t], now)
         == Min(b.max, Holding(b, times, t)) - Spent(b, times, t) + Accrued(b.rate, now - t)
  {
    hide Accrued, Run;
    RunStep(b, times, t);
  }

  lemma {:induction false} FirstHolding(b: Bucket, t: int)
    requires Full(b) && b.last <= t
    ensures Holding(b, [], t) >= b.max
  {
    hide Accrued;
    AccruedGrows(b.rate, t - b.last);
  }

  /** What the bucket holds before its cap is applied: never more than the budget from any
      earlier call, and equal to one of them. */
  lemma {:induction false} LevelIsLeastBudget(b: Bucket, times: seq<int>, now: int) returns (i: nat)
    requires Full(b) && times != [] && InOrder(b.last, times)
    ensures i < |times|
    ensures Holding(b, times, now) == Budget(b, times, i, now)
    ensures forall k :: 0 <= k < |times| ==> Holding(b, times, now) <= Budget(b, times, k, now)
  {
    hide Accrued, Run, Budget, Spent, Holding, Min;
    var n := |times| - 1;
    var init, t := times[..n], times[n];
    if n == 0 {
      FirstHolding(b, t);
      LastBudgetStep(b, times, now);
      i := 0;
    } else {
      var m := LevelIsLeastBudget(b, init, t);
      forall k: nat | k < |times|
        ensures Holding(b, times, now) <= Budget(b, times, k, now)
      {
        if k < n { EarlierBudgetStep(b, times, now, k); } else { LastBudgetStep(b, times, now); }
      }
      EarlierBudgetStep(b, times, now, m);
      LastBudgetStep(b, times, now);
      i := if Holding(b, init, t) < b.max then m else n;
    }
  }

  lemma {:induction false} LastBudgetStep(b: Bucket, times: seq<int>, now: int)
    requires times != []
    ensures
      var n := |times| - 1;
      && Holding(b, times, now) <= Budget(b, times, n, now)
      && (Holding(b, times[..n], times[n]) >= b.max ==> Holding(b, times, now) == Budget(b, times, n, now))
  {
    hide Accrued, Run, Budget, Spent, Holding;
    var n := |times| - 1;
    assert times == times[..n] + [times[n]];
    HoldingStep(b, times[..n], times[n], now);
    BudgetOfLast(b, times[..n], times[n], now);
  }

  lemma {:induction false} EarlierBudgetStep(b: Bucket, times: seq<int>, now: int, k: nat)
    requires k < |times| - 1
    requires Holding(b, times[..|times| - 1], times[|times| - 1]) <= Budget(b, times[..|times| - 1], k, times[|times| - 1])
    ensures Holding(b, times, now) <= Budget(b, times, k, now)
    ensures
      var n := |times| - 1;
      var held := Holding(b, times[..n], times[n]);
      held < b.max && held == Budget(b, times[..n], k, times[n]) ==> Holding(b, times, now) == Budget(b, times, k, now)
  {
    hide Accrued, Run, Budget, Spent, Holding;
    var n := |times| - 1;
    assert times == times[..n] + [times[n]];
    HoldingStep(b, times[..n], times[n], now);
    BudgetStep(b, times[..n], times[n], k, now);
  }

  lemma {:induction false} RunStep(b: Bucket, times: seq<int>, t: int)
    ensures Run(b, times + [t]).tokens
         == Min(b.max, Run(b, times).tokens + Accrued(b.rate, t - LastTime(b, times))) - Spent(b, times, t)
  {
    hide Accrued;
    assert (times + [t])[..|times|] == times;
    RunFields(b, times);
  }

  lemma {:induction false} RunNone(b: Bucket)
    ensures Run(b, []) == b
  {
  }

  /** Letting one more call through at `now`, after those since the i-th, keeps within the
      maximum plus what came in meanwhile. */
  predicate Conforms(b: Bucket, times: seq<int>, i: nat, now: int)
    requires i < |times|
  {
    Count(b, times, i, |times|) as real + 1.0 <= b.max + Accrued(b.rate, now - times[i])
  }

  /** A call is let through exactly when that holds from every earlier call, and one token
      fits at all: the bucket admits as much as its rate allows, and no more. */
  lemma {:induction false} AdmittedIffConforms(b: Bucket, times: seq<int>, now: int)
    requires Full(b) && InOrder(b.last, times + [now])
    ensures Passes(Run(b, times), now)
       <==> b.max >= 1.0 && forall i :: 0 <= i < |times| ==> Conforms(b, times, i, now)
  {
    hide Accrued, Run;
    RunFields(b, times);
    assert forall i :: 0 <= i < |times| ==> times[i] == (times + [now])[i];
    if times == [] {
      RunNone(b);
      assert now == (times + [now])[0];
      AccruedGrows(b.rate, now - b.last);
    } else {
      var m := LevelIsLeastBudget(b, times, now);
      forall i: nat | i < |times|
        ensures Conforms(b, times, i, now) <==> Budget(b, times, i, now) >= 1.0
      {
      }
      assert Conforms(b, times, m, now) ==> Budget(b, times, m, now) >= 1.0;
    }
  }

  /** Between any two calls of any run, at most the maximum plus rate times elapsed time
      is let through. */
  lemma {:induction false} AdmittedIsBounded(b: Bucket, times: seq<int>, i: nat, j: nat)
    requires Full(b) && InOrder(b.last, times) && i <= j < |times|
    ensures Count(b, times, i, j + 1) as real <= b.max + Accrued(b.rate, times[j] - times[i])
    decreases j
  {
    hide Accrued, Run;
    var sofar, now := times[..j], times[j];
    assert times[..j + 1] == sofar + [now];
    AccruedGrows(b.rate, now - times[i]);
    CountSlices(b, times, i, j, j);
    if Admitted(b, times, j) {
      AdmittedIffConforms(b, sofar, now);
      if i < j {
        assert Conforms(b, sofar, i, now);
      }
    } else if i < j {
      AdmittedIsBounded(b, times, i, j - 1);
      AccruedAdds(b.rate, times[j - 1] - times[i], now - times[j - 1]);
      AccruedGrows(b.rate, now - times[j - 1]);
    }
  }

  lemma {:induction false} CountSlices(b: Bucket, times: seq<int>, i: nat, j: nat, m: nat)
    requires i <= j <= m <= |times|
    ensures Count(b, times[..m], i, j) == Count(b, times, i, j)
    decreases j
  {
    if i < j {
      CountSlices(b, times, i, j - 1, m);
      assert times[..m][..j - 1] == times[..j - 1];
    }
  }

  // ----- in the terms a limiter is configured in

  function Seconds(ns: int): real {
    ns as real / 1000000000.0
  }

  lemma {:induction false} AccruesPerSecond(perSecond: real, now: int, ns: int)
    ensures Accrued(NewBucket(perSecond, now).rate, ns) == perSecond * Seconds(ns)
  {
  }

  /** A limiter of so many a second lets through, between any two calls, at most that many
      for every second between them, and once more. */
  lemma {:induction false} LimiterKeepsRate(perSecond: real, start: int, times: seq<int>, i: nat, j: nat)
    requires perSecond >= 0.0 && InOrder(start, times) && i <= j < |times|
    ensures Count(NewBucket(perSecond, start), times, i, j + 1) as real
         <= perSecond + perSecond * Seconds(times[j] - times[i])
  {
    hide Accrued, Count, Seconds;
    NewIsFull(perSecond, start);
    AdmittedIsBounded(NewBucket(perSecond, start), times, i, j);
    AccruesPerSecond(perSecond, start, times[j] - times[i]);
  }

  /** And lets a call through exactly when that allows it, from every earlier call on. */
  lemma {:induction false} LimiterAdmitsIff(perSecond: real, start: int, times: seq<int>, now: int)
    requires perSecond >= 0.0 && InOrder(start, times + [now])
    ensures Passes(Run(NewBucket(perSecond, start), times), now)
       <==> && perSecond >= 1.0
            && forall i :: 0 <= i < |times| ==>
                 Count(NewBucket(perSecond, start), times, i, |times|) as real + 1.0
                 <= perSecond + perSecond * Seconds(now - times[i])
  {
    hide Accrued, Count, Seconds, Run, Passes;
    var b := NewBucket(perSecond, start);
    NewIsFull(perSecond, start);
    AdmittedIffConforms(b, times, now);
    forall i: nat | i < |times|
      ensures Conforms(b, times, i, now) <==>
              Count(b, times, i, |times|) as real + 1.0 <= perSecond + perSecond * Seconds(now - times[i])
    {
      AccruesPerSecond(perSecond, start, now - times[i]);
    }
  }
}
