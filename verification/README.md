# Verified model of the trading gateway

A Dafny model of the algorithms and state machines at the core of the trading system: the
smart order router, the regime HMM, the EWMA covariance engine, the candle aggregator, the
FIX 4.4 codec, the kill switch, the matching-engine client, the rate limiters, the
asynchronous database writer, the order lifecycle, FIFO positions and post-trade
surveillance. `dafny verify dfyconfig.toml` checks all of it.

Code that computes is modelled by functions, code that loops or updates by methods and
classes, and protocols by state machines over their steps. Each method is proved against a
function; what the code promises is then proved about that function, over all inputs or
all runs.

Conventions:

- Floats are reals. Logarithm, square root and power are functions handed in.
- Clocks, hashes, tokens, fee tables and database outcomes are parameters.
- A step is a section under one lock, an atomic store or a database write: an operation
  that makes several of them is several steps, and others come in between.
- Iteration over a Go map, and the order `sort.Slice` gives to ties, are arbitrary.
- Automatic induction is switched off on every lemma, so each proof is the one written.

## What is proved

- **Smart order router** (`SmartOrderRouter`, `RoutingCosts`): the greedy split fills
  exactly min(quantity, depth) and no allocation of that amount costs less, fees and latency
  included, or brings in more. The proof is by linear-programming duality: any price gives a
  lower bound, and the split attains the one at its last price.
- **Regime HMM** (`Semirings`, `StatePaths`, `RegimeHmm`, `RegimeLog`): the forward and
  backward tables, filled over any semiring, equal sums over all state paths. The code's
  semiring is that of logarithms, with logaddexp for the sum; seen through `exp` its tables
  are those of probabilities, and the state predicted is the most probable one.
- **Covariance engine** (`QuadraticForms`, `CorrelationEngine`, `CovarianceSchedules`,
  `CovarianceRuns`): runs of full snapshots keep the matrix positive semidefinite; partial
  snapshots can break it, and exactly which schedules of quotes do so, for some prices, is
  proved.
- **Candle aggregator** (`Periods`, `CandleAggregator`, `CandleRollUp`): the incremental
  bars equal naive grouping, exactly when is proved; and every coarse bar is the roll-up of
  the finer ones.
- **FIX codec** (`FixText`, `FixGateway`, `FixRoundTrip`): a stream of encoded messages is
  received as it was sent.
- **Kill switch** (`KillSwitch`, `KillSwitchSteps`, `KillSwitchReset`, `KillSwitchSlots`):
  operations are several unlocked actions each, and runs are all their interleavings,
  crashes included. Exactly which overlaps and crashes must not happen is proved for
  agreement of log and live state, for recovery, for halts to survive, and for the
  two-person reset.
- **Engine client** (`EngineClient`, `EngineReplies`): under every interleaving, every reply a
  caller gets is what the engine answered when asked the text of that very call, and an
  answer there to be read reaches a caller that still waits.
- **Rate limiters** (`TokenBucket`, `RateGate`): exactly which calls pass.
- **Async writer** (`AsyncDbWriter`): what is accepted is handed to the database once and in
  order, and exactly when all of it is written is proved: a failed transaction drops its
  batch, a failed statement its operation, and what comes after the worker's exit stays
  queued.
- **Order lifecycle, positions, surveillance** (`OrderLifecycle`, `Positions`,
  `Surveillance`): ledgers and bounded histories agree with their full-history meaning,
  for surveillance up to the exact bounds on delay and traffic.

Where a promise does not hold of the code, the model keeps the code, and a lemma says
exactly when it holds:

| promise | holds exactly when | shown by | an input where it fails |
|---|---|---|---|
| the reported fill price is the volume-weighted average | at least one unit is wanted and available | `SmartOrderRouter.AverageIsVwap` | `SmartOrderRouter.HalfUnitHasNoVwap` |
| the covariance matrix stays semidefinite, whatever the prices | no snapshot quotes one of two symbols quoted together before, each not for the first time, without the other | `CovarianceRuns.EngineSafeIff` | `CovarianceSchedules.ThirdSnapshotBreaks` |
| for ticks in order of their periods, candles equal naive grouping | the first bar is not at time 0 and nothing is truncated | `CandleAggregator.CandlesAreNaiveIff` | `CandleAggregator.FirstMinuteIsDropped`, `CandleAggregator.LongGapIsTruncated`; out of order, `CandleAggregator.LateTickIsLost` |
| the FIX CheckSum sent is the standard's | the characters of the body length add up to that of `0`, modulo 256 | `FixRoundTrip.ChecksumIsStandardIff` | `FixRoundTrip.ShortChecksumsDiffer`: every body under 100000 bytes |
| the kill switch's log and live state agree when nothing is in flight | no two conflicting operations overlap | `KillSwitchSteps.AgreementIff` | `KillSwitchSlots.TripInsideReset`, `KillSwitchReset.TripInsideConfirm` |
| every restart brings back the live state: switch, note, reasons and halted slots | no two conflicting operations overlap, and no crash falls inside an operation | `KillSwitchSteps.RecoveryIff` | `KillSwitchSteps.CrashBreaks`: a crash inside any operation |
| every restart brings back every halt | no trip overlaps a confirm, or a reset of its target, and no crash falls inside a trip | `KillSwitchSlots.HaltsRestoredIff` | `KillSwitchReset.CrashInsideTrip`, `KillSwitchSlots.CrashInsideTargetTrip` |
| a system halt ends only by two admins | no system trip overlaps a confirm, and no crash falls inside a system trip | `KillSwitchReset.HaltEndsOnlyByTwoIff` | `KillSwitchReset.RestartEndsHalt`, after `TripInsideConfirm` or `CrashInsideTrip` |
| recovery gives exactly the halted slots when nothing is in flight | no two ids in use share a slot, and none is tripped and reset at a time | `KillSwitchSlots.RecoveryIsExactIff` | `KillSwitchSlots.CollisionLosesHalt`, `KillSwitchSlots.TripInsideReset` |
| for calls not timed before their window, at most ten AI signals a second | the calls before the end of the window, as far as they pass, leave room for those after; twenty can pass, never more | `RateGate.TenPerSecondIff`, `RateGate.AtMostTwicePerSecond` | `RateGate.TwentyPass` |
| all accepted operations are written | every batch was committed, every statement in it ran, and nothing is waiting | `AsyncDbWriter.AllWrittenIff` | `AsyncDbWriter.FailedBatchIsLost`, `AsyncDbWriter.FailedStatementIsLost`, `AsyncDbWriter.LateIsStranded` |
| the counter of flushed operations is the number written | no statement failed in a committed batch | `AsyncDbWriter.FlushedCountsWrittenIff` | `AsyncDbWriter.FailedStatementIsLost` |
| a recorded fill is accounted for in the average | something is then filled, or its price makes no difference | `OrderLifecycle.FillCountsIff` | `OrderLifecycle.FillToZeroIsLost` |
| an average entry price that is right stays so after every partial close | all lots were opened at that price | `Positions.AverageStaysRightIff` | `Positions.TwoPricesLoseAverage` |
| with cleanups at most d ahead, a wash verdict is that of the full history | d is under 59 minutes | `Surveillance.WashCompleteIff` | `Surveillance.LateFillMissesWash` |
| for events in time order, with cleanups at most d ahead and at most n events in the window, a momentum verdict is that of the full history | n is under ten; or n is at most 500, and d an hour less the window | `Surveillance.MomentumCompleteIff` | `Surveillance.FloodMissesMomentum`, `Surveillance.LateBurstMissesMomentum`; out of order, `Surveillance.LateEventsMissMomentum` |

Where code and comments differ, the code is followed: a comment in the regime detector
speaks of Viterbi, while `predict` takes the heaviest state of each forward row; the rate
gate is documented as ten a second; reset tokens are reported to last 15 minutes but never
expire.

## Model

| member | source | states |
|---|---|---|
| `SmartOrderRouter.Nbbo` | services/gateway/sor.go:67-85 | the bid is the highest and the ask the lowest quoted, 0 without quotes |
| `SmartOrderRouter.ScoreQuotes` | services/gateway/sor.go:115-144 | the loop keeps exactly the quotes with positive price and size, each with its fee- and latency-adjusted net price |
| `SmartOrderRouter.RankQuotes` | services/gateway/sor.go:115-156 | the ranking is a permutation of the scored quotes, best net price first; empty exactly when nothing is tradable |
| `SmartOrderRouter.NothingTradable` | services/gateway/sor.go:137-156 | no quote is scored if and only if none has a positive price and size |
| `SmartOrderRouter.FillGreedily` | services/gateway/sor.go:158-194 | every split but the last takes a venue's whole size, none exceeds it, they end when the quantity or the venues do, and the running totals are their sums |
| `SmartOrderRouter.GreedyFillsMin` | services/gateway/sor.go:158-194 | the split fills exactly min(quantity, total depth) |
| `SmartOrderRouter.WeakDuality` | services/gateway/sor.go:110-194 | for any price, every feasible allocation costs at least the dual value at that price |
| `SmartOrderRouter.DualAttained` | services/gateway/sor.go:110-194 | an allocation that takes all below a price and nothing above attains that value |
| `SmartOrderRouter.SplitIsOptimal` | services/gateway/sor.go:110-194 | no feasible allocation of the same quantity has a lower net cost (BUY) or higher net proceeds (SELL) |
| `SmartOrderRouter.RouteOrderWithSplit` | services/gateway/sor.go:96-223 | when there is no market, when the order goes to one venue, and otherwise a ranked greedy split with its reported prices and rounded improvement |
| `SmartOrderRouter.RoutingIsBest` | services/gateway/sor.go:96-223 | a returned split fills min(wanted, depth), 1 standing for a quantity not positive, at the best net total any allocation reaches |
| `RoutingCosts.NetPriceIsMoney` | services/gateway/sor.go:117-135 | the net price is money per unit: the venue's price, its taker fee on it, and its latency, 5 bps and 10 ms for a venue not listed |
| `RoutingCosts.SplitNetIsMoney` | services/gateway/sor.go:117-194 | a split's net total is its notional with the fees and latency of its parts added (BUY) or taken off (SELL) |
| `RoutingCosts.RoutingCostsLeast` | services/gateway/sor.go:96-223 | no other way to trade the same quantity costs less money, or brings in more |
| `RoutingCosts.BetterIsFirst` | services/gateway/sor.go:115-151 | a tradable quote better in price, fee or latency, and no worse in the others, is ranked before the other |
| `RoutingCosts.BuySides` | services/gateway/sor.go:108 | any spelling of BUY is a buy, and nothing else is |
| `RoutingCosts.ImprovementMeans` | services/gateway/sor.go:198-205 | the improvement reported is the gain on the mid in basis points, to half a hundredth, and 0 without a gain |
| `SmartOrderRouter.AverageIsVwap` | services/gateway/sor.go:196 | the reported average is the volume-weighted one if and only if at least one unit was wanted and available |
| `SmartOrderRouter.HalfUnitHasNoVwap` | services/gateway/sor.go:196 | half a unit of one quote at 100: the reported price is 50 |
| `SmartOrderRouter.NoImprovementUncrossed` | services/gateway/sor.go:196-205 | with an uncrossed market and one unit filled, a split reports no price improvement |
| `StatePaths.PathsToComplete` | research/ai-engine/regime_hmm.py:73-80 | every state path into (t, j) is in the list summed over |
| `StatePaths.PathsToDistinct` | research/ai-engine/regime_hmm.py:73-80 | no path is in it twice |
| `StatePaths.PathsThroughExact` | research/ai-engine/regime_hmm.py:82-89 | the paths listed through (t, j) are exactly the full-length ones passing there, each once |
| `RegimeHmm.ReduceInto` | research/ai-engine/regime_hmm.py:78 | the reduction over previous states is their weighted sum |
| `RegimeHmm.ReduceOutOf` | research/ai-engine/regime_hmm.py:87 | the reduction over next states is their weighted sum |
| `RegimeHmm.FillForwardRow` | research/ai-engine/regime_hmm.py:75-78 | one row of alpha, no other row touched |
| `RegimeHmm.FillForward` | research/ai-engine/regime_hmm.py:73-78 | alpha holds the forward recursion at every time |
| `RegimeHmm.FillBackwardRow` | research/ai-engine/regime_hmm.py:83-87 | one row of beta, no other row touched |
| `RegimeHmm.FillBackward` | research/ai-engine/regime_hmm.py:82-87 | beta holds the backward recursion at every time |
| `RegimeHmm.ForwardBackward` | research/ai-engine/regime_hmm.py:65-89 | both tables and the likelihood, the sum of the last forward row |
| `RegimeHmm.ForwardIsPathSum` | research/ai-engine/regime_hmm.py:73-80 | a forward entry is the sum, over all state paths ending there, of start, transition and emission products |
| `RegimeHmm.CompletionsMass` | research/ai-engine/regime_hmm.py:82-87 | the completions of a path weigh its mass times the backward entry at its end |
| `RegimeHmm.ForwardBackwardIsPathSum` | research/ai-engine/regime_hmm.py:73-89 | forward times backward is the mass of all full paths through that state |
| `RegimeHmm.LikelihoodAtEveryTime` | research/ai-engine/regime_hmm.py:73-89 | at every time the products of forward and backward add up to the same likelihood |
| `Semirings.RealLaws` | research/ai-engine/regime_hmm.py:73-89 | sum and product of reals satisfy the laws the tables' results rest on |
| `Semirings.LogLaws` | research/ai-engine/regime_hmm.py:73-89 | logaddexp and addition on logarithms satisfy them, for any exponential and its logarithm |
| `RegimeLog.LogMeans` | research/ai-engine/regime_hmm.py:73-89 | seen through `exp`, logaddexp adds, addition multiplies, minus infinity is 0 and 0 is 1 |
| `RegimeLog.ForwardIsProbability` | research/ai-engine/regime_hmm.py:73-78 | a forward entry of the code is the logarithm of the sum, over all state paths ending there, of the products of their probabilities |
| `RegimeLog.TablesAreProbability` | research/ai-engine/regime_hmm.py:73-89 | with the backward entry it is that of all full-length paths through the state |
| `RegimeLog.LikelihoodIsProbability` | research/ai-engine/regime_hmm.py:80 | the log-likelihood is that of all paths |
| `RegimeLog.ForwardIsReal` | research/ai-engine/regime_hmm.py:73-78 | every entry of the code's forward table stands for that of the probabilities |
| `RegimeLog.BackwardIsReal` | research/ai-engine/regime_hmm.py:82-87 | so does every entry of its backward table |
| `RegimeLog.LikelihoodIsReal` | research/ai-engine/regime_hmm.py:80 | and the likelihood |
| `RegimeLog.GammaIsShare` | research/ai-engine/regime_hmm.py:102 | exp(alpha + beta - loglik) is the share of the paths through a state in all paths |
| `RegimeLog.PredictRegimes` | research/ai-engine/regime_hmm.py:122-134 | at each time the first of the most probable states, given the observations so far |
| `RegimeHmm.PosteriorsSumToOne` | research/ai-engine/regime_hmm.py:102 | a posterior is the share of the paths through its state, and posteriors add up to one at every time |
| `RegimeHmm.ArgMax` | research/ai-engine/regime_hmm.py:134 | the first index of a maximum |
| `RegimeHmm.PredictAt` | research/ai-engine/regime_hmm.py:134 | of one row of alpha, the first state of maximal mass of the paths ending in it |
| `RegimeHmm.Predict` | research/ai-engine/regime_hmm.py:122-134 | at each time the first state of maximal mass of the paths ending in it |
| `CorrelationEngine.Engine.constructor` | research/strategy-engine/correlation_engine.py:45-48 | nothing tracked, the zero matrix |
| `CorrelationEngine.Engine.EnsureInstrument` | research/strategy-engine/correlation_engine.py:54-61 | a new symbol joins with no price and zero entries; the matrix does not change |
| `CorrelationEngine.Engine.TrackAll` | research/strategy-engine/correlation_engine.py:75-76 | all quoted symbols join, in this way and in the order quoted |
| `CorrelationEngine.EffectiveLambda` | research/strategy-engine/correlation_engine.py:79 | the decay used is the nearest between 0.5 and 0.99 |
| `CorrelationEngine.Engine.Innovations` | research/strategy-engine/correlation_engine.py:82-88 | the log-return of each quoted symbol against its prior price, 0 without a positive one |
| `CorrelationEngine.Engine.UpdateRow` | research/strategy-engine/correlation_engine.py:93-105 | one symbol's variance and covariances decay; other rows stay |
| `CorrelationEngine.Engine.ApplyRows` | research/strategy-engine/correlation_engine.py:91-105 | row by row, the matrix becomes the decayed one between quoted symbols; prices are taken over |
| `CorrelationEngine.Engine.Update` | research/strategy-engine/correlation_engine.py:63-105 | the whole new state, the order of the symbols included; a full snapshot keeps a covariance matrix one; after any calls the matrix is what their returns lead to, one step after the other |
| `CorrelationEngine.Engine.UpdateTables` | research/strategy-engine/correlation_engine.py:75-105 | the same for one call, without the history |
| `CorrelationEngine.RankOneKeepsPsd` | research/strategy-engine/correlation_engine.py:91-105 | decaying and adding an outer product of returns keeps semidefiniteness |
| `CorrelationEngine.FullSnapshotKeepsPsd` | research/strategy-engine/correlation_engine.py:91-105 | so does a snapshot of all tracked symbols, or of none |
| `CorrelationEngine.PartialSnapshotBreaksPsd` | research/strategy-engine/correlation_engine.py:91-105 | one that quotes s but not t breaks the matrix with ones at both |
| `CorrelationEngine.SnapshotSafeIff` | research/strategy-engine/correlation_engine.py:91-105 | a snapshot keeps every semidefinite matrix, reached or not, semidefinite if and only if it quotes all tracked symbols or none |
| `CorrelationEngine.RunStaysPsd` | research/strategy-engine/correlation_engine.py:54-105 | after any run of full snapshots, symbols joining at any time, the matrix is symmetric and semidefinite |
| `CorrelationEngine.EstimateIsWeightedSum` | research/strategy-engine/correlation_engine.py:91-105 | after any run an estimate is the sum of the products of returns, each weighted by one less its decay and the later decays that apply |
| `CovarianceSchedules.UncoupledStepKeepsPsd` | research/strategy-engine/correlation_engine.py:91-105 | a snapshot keeps a matrix semidefinite if no entry couples a quoted and an unquoted symbol |
| `CovarianceSchedules.UnsplitStaysPsd` | research/strategy-engine/correlation_engine.py:82-105 | along a schedule that never splits symbols that may have moved together, every matrix reached is semidefinite and couples only such symbols |
| `CovarianceSchedules.SplitBreaks` | research/strategy-engine/correlation_engine.py:82-105 | along one that does, some returns reach a matrix that is not |
| `CovarianceSchedules.ScheduleSafeIff` | research/strategy-engine/correlation_engine.py:63-105 | so a schedule of quoted sets and decays is safe for all returns, at every moment, if and only if it never splits |
| `CovarianceSchedules.ThirdSnapshotBreaks` | research/strategy-engine/correlation_engine.py:63-105 | a run from the empty engine: two symbols quoted twice, moving together, then one of them alone |
| `CovarianceSchedules.EveryReturnHasAPrice` | research/strategy-engine/correlation_engine.py:82-88 | every return is that of some price, and a first price gives none |
| `CovarianceRuns.CallsAreAdmissible` | research/strategy-engine/correlation_engine.py:63-105 | the returns of any calls, whatever the prices, are ones their schedule of quotes admits |
| `CovarianceRuns.AdmissibleHasPrices` | research/strategy-engine/correlation_engine.py:63-105 | any returns a schedule admits, at decays the clamp lets through, are those of some calls |
| `CovarianceRuns.EngineSafeIff` | research/strategy-engine/correlation_engine.py:63-105 | so calls along a schedule keep the matrix semidefinite at every moment, whatever the prices, if and only if it never splits |
| `CorrelationEngine.UpdateKeepsCovariance` | research/strategy-engine/correlation_engine.py:91-105 | one full update of a covariance matrix is one |
| `CorrelationEngine.UpdateIsStep` | research/strategy-engine/correlation_engine.py:82-105 | one more call takes the matrix of a run of calls to that of the longer run |
| `CorrelationEngine.CauchySchwarz` | research/strategy-engine/correlation_engine.py:112-124 | cov squared is at most var times var |
| `CorrelationEngine.ClipNeverEngages` | research/strategy-engine/correlation_engine.py:107-124 | the clip never changes a correlation, which lies in [-1, 1] |
| `CorrelationEngine.CorrelationMeans` | research/strategy-engine/correlation_engine.py:107-124 | a correlation times both deviations is the covariance, and squared times both variances its square |
| `CorrelationEngine.RawCovariance` | research/strategy-engine/correlation_engine.py:136-147 | the nested loops fill the array with the entries of the wanted symbols |
| `CorrelationEngine.Engine.GetCovarianceMatrix` | research/strategy-engine/correlation_engine.py:136-164 | the returned array holds the symmetrised, shrunk matrix of the wanted symbols |
| `CorrelationEngine.ReportedMeans` | research/strategy-engine/correlation_engine.py:145-160 | what is reported: the mean of both entries; with shrinkage 0.9 of it off the diagonal, and on it 0.9 of the distance from the mean variance |
| `CorrelationEngine.ReportedIsCovariance` | research/strategy-engine/correlation_engine.py:136-164 | what is reported of a covariance matrix is symmetric and semidefinite with the same trace |
| `CorrelationEngine.ShrinkageKeepsPsd` | research/strategy-engine/correlation_engine.py:149-160 | shrinkage keeps a quadratic form non-negative |
| `CorrelationEngine.ShrinkageKeepsTrace` | research/strategy-engine/correlation_engine.py:149-160 | shrinkage keeps the trace |
| `CandleAggregator.ResolutionSeconds` | services/gateway/candle_aggregator.go:38-55 | every resolution, known or not, has a positive period |
| `CandleAggregator.ResolutionsAreNamed` | services/gateway/candle_aggregator.go:38-55 | each resolution has the period its name says, a multiple of the one before |
| `CandleAggregator.GridIsRegular` | services/gateway/candle_aggregator.go:66 | bar starts never go back in time and follow one another by one period, before 1970 too |
| `CandleAggregator.BarOfTick` | services/gateway/candle_aggregator.go:66 | a bar begins at or before its ticks, before 1970 at or after them, and those less than a period either side of 1970 share one |
| `CandleAggregator.CandleAccumulator.constructor` | services/gateway/candle_aggregator.go:32-36 | no bars for any key |
| `CandleAggregator.CandleAccumulator.AppendBar` | services/gateway/candle_aggregator.go:83-88 | a bar is added to one key, the oldest dropped beyond the limit |
| `CandleAggregator.CandleAccumulator.CloseOut` | services/gateway/candle_aggregator.go:74-88 | flat bars for the missing periods, then the bar itself, truncated |
| `CandleAggregator.CloseWithIsKeepLast` | services/gateway/candle_aggregator.go:74-88 | truncating after every append is truncating once |
| `CandleAggregator.CandleAccumulator.AddToKey` | services/gateway/candle_aggregator.go:64-109 | one resolution's series after a tick, other series untouched |
| `CandleAggregator.CandleAccumulator.AddToResolutions` | services/gateway/candle_aggregator.go:62-110 | a tick reaches the six resolutions of its symbol and nothing else |
| `CandleAggregator.CandleAccumulator.AddTick` | services/gateway/candle_aggregator.go:58-111 | after any calls, over any symbols, each key holds the run of its own symbol's ticks |
| `CandleAggregator.Compact` | services/gateway/candle_aggregator.go:137-145 | the in-place pass leaves the bars whose time differs from the one before, the first from 0 |
| `CandleAggregator.ReadCandles` | services/gateway/candle_aggregator.go:123-150 | the bars of a series in some time order, deduplicated and limited |
| `CandleAggregator.CandleAccumulator.GetCandles` | services/gateway/candle_aggregator.go:115-151 | what is read is the run of the symbol's ticks so far, in some time order, deduplicated and limited |
| `CandleAggregator.RunMatchesNaive` | services/gateway/candle_aggregator.go:58-111 | for ticks in order of their periods, nothing truncated, the bars held are those of naive grouping |
| `CandleAggregator.TimeOrderSuffices` | services/gateway/candle_aggregator.go:66 | ticks in time order are in order of their periods |
| `CandleAggregator.UntruncatedCandles` | services/gateway/candle_aggregator.go:131-134 | and sorting them gives the naive candles |
| `CandleAggregator.CandlesAreNaiveIff` | services/gateway/candle_aggregator.go:58-151 | for ticks in order of their periods, reading without limit equals naive grouping with flat gaps if and only if the first bar is not at time 0 and the closed bars fit |
| `CandleAggregator.FirstMinuteIsDropped` | services/gateway/candle_aggregator.go:137-145 | a tick in the first minute of 1970 is dropped on reading |
| `CandleAggregator.LongGapIsTruncated` | services/gateway/candle_aggregator.go:74-88 | two ticks far enough apart lose bars, for any limit |
| `CandleAggregator.LateTickIsLost` | services/gateway/candle_aggregator.go:68-109 | a late tick opens its old bar again, and no candle read has all ticks of that minute |
| `CandleAggregator.LimitKeepsLatest` | services/gateway/candle_aggregator.go:146-149 | a reading with a limit is the latest part of one without |
| `CandleAggregator.LimitedAreLatestNaive` | services/gateway/candle_aggregator.go:115-151 | for ticks in order, nothing dropped, it is the latest naive candles |
| `CandleAggregator.LimitsNest` | services/gateway/candle_aggregator.go:78-88 | with a smaller limit on bars held, the closed bars are the last, as they were added, of those held with a larger one, for any ticks |
| `CandleAggregator.RunIsBounded` | services/gateway/candle_aggregator.go:78-88 | no more closed bars than the limit, whatever the ticks |
| `CandleAggregator.RunIsWellFormed` | services/gateway/candle_aggregator.go:74-109 | for ticks in any order, every bar held is on the grid with low ≤ open, close ≤ high |
| `CandleAggregator.CandlesAreWellFormed` | services/gateway/candle_aggregator.go:115-151 | for any tick order and truncation, candles read have strictly increasing aligned times and consistent prices |
| `CandleRollUp.MultiplesRefine` | services/gateway/candle_aggregator.go:38-66 | a period that is a multiple of another never splits its bars |
| `CandleRollUp.HeldBarsAreTraded` | services/gateway/candle_aggregator.go:63-110 | the bars held with volume are the traded bars, gaps left out |
| `CandleRollUp.TradedBarsRollUp` | services/gateway/candle_aggregator.go:63-110 | each traded coarse bar is the roll-up of the traded fine bars inside it, and each of those is inside exactly one |
| `CandleRollUp.ResolutionsAgree` | services/gateway/candle_aggregator.go:38-111 | so are the bars held for any two periods, one a multiple of the other: first open, last close, highest high, lowest low, summed volume, no fine bar left out or used twice |
| `FixText.ScanFormat` | services/gateway/fix_gateway.go:76-94 | every 64-bit integer is scanned back as it was printed |
| `FixText.SplitFirst` | services/gateway/fix_gateway.go:66 | splitting takes off the text before the first separator |
| `FixGateway.Checksum` | services/gateway/fix_gateway.go:102-110 | the nested loops give the character sum modulo 256 in three digits |
| `FixGateway.KeysOf` | services/gateway/fix_gateway.go:46-49 | the map's tags, each once, in any order |
| `FixGateway.AppendFields` | services/gateway/fix_gateway.go:51-53 | the pairs of the fields, in the given order |
| `FixGateway.Encode` | services/gateway/fix_gateway.go:36-61 | the text is the encoding with the tags in increasing order, the body length written over its placeholder |
| `FixGateway.Decode` | services/gateway/fix_gateway.go:63-100 | the loop over the pairs reads each in turn |
| `FixGateway.ReadFrame` | services/gateway/fix_gateway.go:312-318 | the inner loop extends the text until it holds tag 10 or the stream ends |
| `FixGateway.ReceiveLoop` | services/gateway/fix_gateway.go:293-356 | the messages delivered, up to the end of the stream or a logout, a cut-off last one included |
| `FixRoundTrip.EncodedLayout` | services/gateway/fix_gateway.go:36-61 | on the wire: BeginString, BodyLength as the length from tag 35 up to tag 10, the body, CheckSum |
| `FixRoundTrip.WireTags` | services/gateway/fix_gateway.go:36-49 | which field is written under which tag of the standard header and trailer |
| `FixRoundTrip.GarbageIsSkipped` | services/gateway/fix_gateway.go:67-74 | a pair without an equals sign is skipped, wherever it stands |
| `FixRoundTrip.SplitJoined` | services/gateway/fix_gateway.go:65-66 | splitting undoes joining |
| `FixRoundTrip.DecodeEncoded` | services/gateway/fix_gateway.go:36-100 | decoding an encoded message gives it back, with its body length |
| `FixRoundTrip.MarkerArrives` | services/gateway/fix_gateway.go:312 | one more pair completes the marker if and only if it starts with tag 10 |
| `FixRoundTrip.FrameIsMessage` | services/gateway/fix_gateway.go:295-318 | an encoded message at the head of a stream is exactly one frame |
| `FixRoundTrip.StreamIsReceived` | services/gateway/fix_gateway.go:293-356 | any list of encoded messages is received in order, up to and including the first logout |
| `FixRoundTrip.ChecksumIsStandardIff` | services/gateway/fix_gateway.go:54-58 | the checksum sent is that of FIX 4.4 if and only if the characters of the body length add up to that of the placeholder, modulo 256 |
| `FixRoundTrip.ShortChecksumsDiffer` | services/gateway/fix_gateway.go:54-58 | so never for a body under 100000 bytes |
| `KillSwitch.Manager.constructor` | services/gateway/kill_switch.go:81-92 | a new manager is in the state restored from the log |
| `KillSwitch.Manager.RestoreFromDb` | services/gateway/kill_switch.go:381-451 | the system switch and both groups are set from the log |
| `KillSwitch.RestoreGroup` | services/gateway/kill_switch.go:404-450 | the slots and reasons of the rows, in whatever order they come |
| `KillSwitch.Manager.IsSystemHalted` | services/gateway/kill_switch.go:100-102 | whether the system switch is halted |
| `KillSwitch.Manager.IsAlgoHalted` | services/gateway/kill_switch.go:105-111 | whether the slot of a non-empty id is halted |
| `KillSwitch.Manager.IsTraderHalted` | services/gateway/kill_switch.go:114-120 | the same for traders |
| `KillSwitch.Manager.IsOrderBlocked` | services/gateway/kill_switch.go:124-144 | blocked if and only if the system, a named algo or a named trader is halted; the text names the first level that applies, its id and its reason |
| `KillSwitch.Manager.TripSystem` | services/gateway/kill_switch.go:151-159 | uninterrupted, the actions one after the other: the whole state after a system trip |
| `KillSwitch.Manager.TripAlgo` | services/gateway/kill_switch.go:181-191 | uninterrupted, the actions one after the other: the whole state after an algo trip |
| `KillSwitch.Manager.TripTrader` | services/gateway/kill_switch.go:199-209 | uninterrupted, the actions one after the other: the whole state after a trader trip |
| `KillSwitch.Manager.InitiateSystemReset` | services/gateway/kill_switch.go:222-229 | the token is pending for its admin, nothing else changes |
| `KillSwitch.Manager.ConfirmSystemReset` | services/gateway/kill_switch.go:239-266 | the token is used up and the outcome; on success, uninterrupted, the running switch, its cleared note, and a row with the reason of the halt and both admins |
| `KillSwitch.Manager.ResetAlgo` | services/gateway/kill_switch.go:287-296 | uninterrupted, the actions one after the other: the whole state after an algo reset |
| `KillSwitch.Manager.ResetTrader` | services/gateway/kill_switch.go:301-310 | uninterrupted, the actions one after the other: the whole state after a trader reset |
| `KillSwitchSteps.WholeOperation` | services/gateway/kill_switch.go:151-312 | an operation whose actions nothing comes between does what the manager's method does |
| `KillSwitchSteps.ConflictMeans` | services/gateway/kill_switch.go:151-312 | exactly which operations write differently: trips and resets of one target or of the system, trips with another reason |
| `KillSwitchSteps.RunIsTracked` | services/gateway/kill_switch.go:151-451 | in every interleaving without conflicting overlaps, crashes anywhere, every live value is what the log says or what an operation in flight has written |
| `KillSwitchSteps.QuietAgrees` | services/gateway/kill_switch.go:381-451 | so with nothing in flight a restart brings back the switch, its note, all reasons and every halted slot |
| `KillSwitchSteps.OverlapBreaks` | services/gateway/kill_switch.go:151-312 | any two conflicting operations that may overlap have a run after which it does not |
| `KillSwitchSteps.AgreementIff` | services/gateway/kill_switch.go:151-451 | log and live state agree in every quiet moment of every run if and only if no two conflicting operations may overlap |
| `KillSwitchSteps.CrashBreaks` | services/gateway/kill_switch.go:151-312 | a crash inside an operation, of whatever kind, can change what a restart brings back |
| `KillSwitchSteps.RecoveryIff` | services/gateway/kill_switch.go:381-451 | every restart brings back the live state if and only if no conflicting operations overlap and no crash falls inside one |
| `KillSwitchReset.PendingIffStands` | services/gateway/kill_switch.go:222-245 | in every interleaving a token is pending if and only if its latest initiation has not been used up |
| `KillSwitchReset.ConfirmOutcomes` | services/gateway/kill_switch.go:239-253 | exactly when a confirm succeeds, fails for the same admin, or finds no initiation |
| `KillSwitchReset.OneConfirmPerInitiation` | services/gateway/kill_switch.go:239-245 | of two confirms with one token the later is turned away, unless the token was issued again in between |
| `KillSwitchReset.RowsTellOperations` | services/gateway/kill_switch.go:151-312 | in every interleaving each row of the log tells an operation that was started, with target, reason and author; a confirm's names two admins, the first with an initiation that stood |
| `KillSwitchReset.ConfirmTask` | services/gateway/kill_switch.go:239-253 | every confirm in flight answers an initiation by another admin that stood when it began |
| `KillSwitchReset.SafeHaltEndsByTwo` | services/gateway/kill_switch.go:222-284 | with no trip overlapping a confirm and no crash inside a trip, every end of a halt is an action of such a confirm |
| `KillSwitchReset.TripInsideConfirm` | services/gateway/kill_switch.go:239-266 | a trip inside a confirm leaves the system halted and RESET as its latest row |
| `KillSwitchReset.CrashInsideTrip` | services/gateway/kill_switch.go:151-165 | a crash between a trip's flag and its row leaves the same |
| `KillSwitchReset.RestartEndsHalt` | services/gateway/kill_switch.go:381-402 | after either, a restart ends the halt and no confirm did |
| `KillSwitchReset.HaltEndsOnlyByTwoIff` | services/gateway/kill_switch.go:222-284 | every halt ends by two admins, in every run, if and only if no trip overlaps a confirm and no crash falls inside a trip |
| `KillSwitchSlots.RunSlots` | services/gateway/kill_switch.go:181-312 | without trips and resets of one target at a time, in every interleaving, every halted slot is that of a target the log has tripped or a trip in flight is tripping |
| `KillSwitchSlots.HaltedIffTripped` | services/gateway/kill_switch.go:105-120 | over ids that do not collide and are not tripped and reset at a time, the order path's check says exactly whether the latest row is a trip |
| `KillSwitchSlots.HaltsIffLatestTrips` | services/gateway/kill_switch.go:105-144 | without conflicting overlaps, a target's check and the reason it gives are those of its latest row |
| `KillSwitchSlots.OrderRefusedIff` | services/gateway/kill_switch.go:122-144 | so, with nothing in flight and ids that do not collide, an order is refused if and only if the latest row of the system, its algo or its trader is a trip |
| `KillSwitchSlots.TripInsideReset` | services/gateway/kill_switch.go:287-312 | a trip inside a reset of the same target leaves it halted, and the log denies it |
| `KillSwitchSlots.CollisionLosesHalt` | services/gateway/kill_switch.go:457-465 | two ids in one slot: halting one and resetting the other loses the live halt, which the log still holds |
| `KillSwitchSlots.SlotsAreExact` | services/gateway/kill_switch.go:404-465 | over such ids, with nothing in flight, recovery gives exactly the halted slots |
| `KillSwitchSlots.RecoveryIsExactIff` | services/gateway/kill_switch.go:381-465 | it does so in every run over a set of ids if and only if no two share a slot and none is tripped and reset at a time |
| `KillSwitchSlots.SafeSlotsRestored` | services/gateway/kill_switch.go:181-312 | with no trip overlapping a reset of its target and no crash inside one, every restart brings back every halted slot |
| `KillSwitchSlots.SafeFlagRestored` | services/gateway/kill_switch.go:151-284 | with no system trip overlapping a confirm and no crash inside one, every restart brings back a system halt |
| `KillSwitchSlots.CrashInsideTargetTrip` | services/gateway/kill_switch.go:181-214 | a crash between a trip's slot and its row leaves a halt the log denies |
| `KillSwitchSlots.HaltsRestoredIff` | services/gateway/kill_switch.go:151-451 | every restart brings back every halt if and only if no trip overlaps a reset of what it trips and no crash falls inside a trip |
| `EngineClient.StepKeepsInv` | services/gateway/orchestrator.go:61-162 | every event keeps: one request outstanding, results matching answers, each command in one place |
| `EngineClient.RunKeepsInv` | services/gateway/orchestrator.go:61-162 | so every run does |
| `EngineClient.AtMostOneOutstanding` | services/gateway/orchestrator.go:83-118 | at most one request or reply is on the connection, that of the worker holding the mutex |
| `EngineClient.RepliesAreOwn` | services/gateway/orchestrator.go:83-162 | any reply a caller receives is what the engine answered to the request with that caller's id |
| `EngineClient.CommandsAreNotLost` | services/gateway/orchestrator.go:83-141 | the command of a waiting caller is still queued, or with a worker, or its reply is in the caller's channel |
| `EngineClient.AnswersStand` | services/gateway/orchestrator.go:83-118 | the engine is never asked the same request twice, so its answer stands |
| `EngineClient.DeliveredOnce` | services/gateway/orchestrator.go:116-128 | a worker's reply never blocks: the caller's one-place channel is empty |
| `EngineReplies.RunKeepsTexts` | services/gateway/orchestrator.go:83-141 | in every run each command queued, with a worker or on the connection carries the text of the call with its id |
| `EngineReplies.RepliesAnswerTheCall` | services/gateway/orchestrator.go:83-141 | so any reply a caller gets is what the engine answered when asked the text of that very call |
| `EngineReplies.AnswerReachesCaller` | services/gateway/orchestrator.go:104-137 | an answer there to be read is that to its worker's command, and read and delivered it is what the caller gets, if it still waits |
| `EngineReplies.CallGetsThrough` | services/gateway/orchestrator.go:83-141 | with a connection up and a worker idle a call can get through: the engine is asked its text, and its answer comes back |
| `EngineReplies.FirstComeFirstServed` | services/gateway/orchestrator.go:83-134 | in every run commands are taken in the order they were queued |
| `EngineReplies.TurnedAwayIff` | services/gateway/orchestrator.go:122-128 | a call is turned away at once if and only if the client is disabled or has no connection |
| `EngineReplies.TurnedAwayIsNeverSent` | services/gateway/orchestrator.go:122-128 | then the engine is never asked, whatever follows |
| `EngineReplies.ConnectDecides` | services/gateway/orchestrator.go:61-78 | after a failed connect calls are turned away, after a successful one they are not |
| `TokenBucket.Limiter.constructor` | services/gateway/orchestrator.go:973-980 | a full bucket |
| `TokenBucket.NewIsFull` | services/gateway/orchestrator.go:973-980 | for a rate that is not negative, one that every result below applies to |
| `TokenBucket.Limiter.Allow` | services/gateway/orchestrator.go:992-1004 | the refilled bucket, one token less if the call passes, and whether it does |
| `TokenBucket.TokensInRange` | services/gateway/orchestrator.go:992-1011 | tokens stay in [0, max] |
| `TokenBucket.LevelIsLeastBudget` | services/gateway/orchestrator.go:992-1011 | what the bucket holds is the least budget left from any earlier call |
| `TokenBucket.AdmittedIffConforms` | services/gateway/orchestrator.go:992-1011 | a call passes if and only if it keeps the count since every earlier call within max plus rate times elapsed |
| `TokenBucket.AdmittedIsBounded` | services/gateway/orchestrator.go:965-1011 | between any two calls at most max plus rate times elapsed pass |
| `TokenBucket.LimiterKeepsRate` | services/gateway/orchestrator.go:973-1004 | a limiter of so many a second lets through, between any two calls, at most that many for every second between them, and once more |
| `TokenBucket.LimiterAdmitsIff` | services/gateway/orchestrator.go:973-1004 | and a call if and only if that allows it from every earlier call on |
| `RateGate.ModelRisk.constructor` | services/ai-agent/model_risk.py:96-98 | zeroed counters |
| `RateGate.ModelRisk.CheckRateLimit` | services/ai-agent/model_risk.py:219-266 | the verdict and the new counters; an active kill switch changes nothing |
| `RateGate.StepsAgree` | services/ai-agent/model_risk.py:228-257 | one call, out of order or not, keeps the gate's two timestamps and one fixed window in step |
| `RateGate.StepsAgreeIff` | services/ai-agent/model_risk.py:230-257 | exactly when one call puts them out of step: within a second of the start, a second or more after the last call let through |
| `RateGate.GateIsWindow` | services/ai-agent/model_risk.py:230-257 | for calls in any order, none timed before its window began, the two-timestamp gate and one fixed-window counter hold the same window and pass the same calls |
| `RateGate.GatePassesAsWindow` | services/ai-agent/model_risk.py:230-257 | and pass equally many of any further calls |
| `RateGate.InOrderIsAfterStart` | services/ai-agent/model_risk.py:228-257 | calls in time order are none of them before their window |
| `RateGate.EarlyCallSplitsThem` | services/ai-agent/model_risk.py:228-257 | a call timed before the window began puts them out of step |
| `RateGate.WindowLimit` | services/ai-agent/model_risk.py:236-253 | within a window exactly as many pass as are left of its ten |
| `RateGate.PassedInSecond` | services/ai-agent/model_risk.py:230-257 | of calls within a second of the first, in any order but none before its window, exactly those before the end of the window pass, up to what is left of its ten, and those after, up to ten |
| `RateGate.TenPerSecondIff` | services/ai-agent/model_risk.py:219-257 | so the documented ten a second is kept if and only if the two together are at most ten |
| `RateGate.AtMostTwicePerSecond` | services/ai-agent/model_risk.py:230-257 | of such calls at most twenty pass |
| `RateGate.AtMostOncePerWindow` | services/ai-agent/model_risk.py:230-257 | at most ten, when none after the first begins a window |
| `RateGate.TwentyPass` | services/ai-agent/model_risk.py:230-257 | ten calls and ten more a second later all pass |
| `AsyncDbWriter.Writer.constructor` | services/gateway/async_db.go:40-55 | an empty, running writer |
| `AsyncDbWriter.Writer.Enqueue` | services/gateway/async_db.go:59-68 | accepted and queued if there is room, else dropped and counted |
| `AsyncDbWriter.Writer.Flush` | services/gateway/async_db.go:104-128 | a non-empty buffer becomes a batch; the statements that run are written if it commits, and all its operations counted |
| `AsyncDbWriter.Writer.Receive` | services/gateway/async_db.go:84-93 | one operation joins the buffer, flushed at the batch size |
| `AsyncDbWriter.Writer.OnTick` | services/gateway/async_db.go:95-99 | a non-empty buffer is flushed |
| `AsyncDbWriter.Writer.Shutdown` | services/gateway/async_db.go:144-145 | the context is cancelled |
| `AsyncDbWriter.Writer.OnCancelled` | services/gateway/async_db.go:79-81 | the worker turns to draining |
| `AsyncDbWriter.Writer.DrainRemaining` | services/gateway/async_db.go:130-142 | the queue joins the buffer, which is flushed |
| `AsyncDbWriter.DrainTakesAll` | services/gateway/async_db.go:130-142 | the drain loop is as many single takes as there are operations queued |
| `AsyncDbWriter.RunConserves` | services/gateway/async_db.go:59-142 | in every interleaving: accepted is flushed, then buffer, then queue, in order and once; attempts are accepted or dropped; queue and buffer stay within bounds |
| `AsyncDbWriter.TakeFlushesAtSize` | services/gateway/async_db.go:84-93 | the next queued operation joins the batch, which is flushed when that fills it and not before |
| `AsyncDbWriter.TickFlushes` | services/gateway/async_db.go:95-99 | a tick flushes whatever is in the buffer |
| `AsyncDbWriter.TickHandsOver` | services/gateway/async_db.go:84-99 | so in every run, after a tick, all that was accepted is handed over or still queued |
| `AsyncDbWriter.BatchesFit` | services/gateway/async_db.go:84-99 | while the worker runs no batch is larger than the batch size |
| `AsyncDbWriter.ExitFlushesAll` | services/gateway/async_db.go:70-142 | after the worker's exit, flush has been handed exactly what was accepted before its drain ended |
| `AsyncDbWriter.LateIsStranded` | services/gateway/async_db.go:59-81 | in every run, what is accepted after the exit stays in the queue, and is all that is in it |
| `AsyncDbWriter.AllWrittenIff` | services/gateway/async_db.go:104-142 | in every run, the operations written are all those accepted if and only if every batch was committed, every statement in it ran, and buffer and queue are empty |
| `AsyncDbWriter.FailedBatchIsLost` | services/gateway/async_db.go:104-128 | an accepted operation whose transaction fails is neither written nor held any more |
| `AsyncDbWriter.FailedStatementIsLost` | services/gateway/async_db.go:115-127 | so is one whose statement fails in a transaction that commits, and it is counted as flushed |
| `AsyncDbWriter.FlushedCountsWrittenIff` | services/gateway/async_db.go:115-127 | in every run, the counter is at least the number written, and equal to it if and only if no committed batch holds a failed statement |
| `OrderLifecycle.StateMachine.constructor` | services/gateway/order_lifecycle.go:80-85 | no orders |
| `OrderLifecycle.StateMachine.RegisterOrder` | services/gateway/order_lifecycle.go:88-100 | a new order enters in state NEW, a known id is refused |
| `OrderLifecycle.StateMachine.RestoreOrder` | services/gateway/order_lifecycle.go:106-133 | an order enters in its own state with a restore event, a known id is refused |
| `OrderLifecycle.IsValidTarget` | services/gateway/order_lifecycle.go:146-153 | the scan finds a state if and only if the transition is legal |
| `OrderLifecycle.LegalIffSource` | services/gateway/order_lifecycle.go:25-31 | the table of transitions, read from its other end |
| `OrderLifecycle.WorkedWasAccepted` | services/gateway/order_lifecycle.go:25-31 | a new order is worked, filled, expired or being cancelled only after going from PENDING to WORKING |
| `OrderLifecycle.StateMachine.Transition` | services/gateway/order_lifecycle.go:136-168 | the orders after a transition, or which of the three errors |
| `OrderLifecycle.StateMachine.RecordFill` | services/gateway/order_lifecycle.go:193-237 | quantities and average in any state, the state only if legal |
| `OrderLifecycle.FillMovesTo` | services/gateway/order_lifecycle.go:193-237 | a fill of an open order ends in FILLED if and only if it reaches the quantity, else in PARTIAL; in any other state it leaves the state |
| `OrderLifecycle.FilledIffCompleted` | services/gateway/order_lifecycle.go:193-237 | where only fills fill, an order is FILLED if and only if a fill brought it to its quantity while open |
| `OrderLifecycle.RunFilledIff` | services/gateway/order_lifecycle.go:88-237 | the same for every registered order of every run |
| `OrderLifecycle.StateMachine.Cancel` | services/gateway/order_lifecycle.go:258-260 | the transition to CANCEL_PENDING, and its result |
| `OrderLifecycle.StateMachine.ConfirmCancel` | services/gateway/order_lifecycle.go:263-265 | the transition to CANCELED, and its result |
| `OrderLifecycle.StateMachine.ApplyReplace` | services/gateway/order_lifecycle.go:283-299 | new price, quantity and leaves, nothing else |
| `OrderLifecycle.TermsAreLatest` | services/gateway/order_lifecycle.go:283-299 | price and quantity are those of the latest replace |
| `OrderLifecycle.ReplaceKeeps` | services/gateway/order_lifecycle.go:283-299 | a replace changes no state, history or fills |
| `OrderLifecycle.RunIsPerOrder` | services/gateway/order_lifecycle.go:88-299 | every order of every run is its entry with the operations on it, and only those, applied |
| `OrderLifecycle.HistoryIsChain` | services/gateway/order_lifecycle.go:136-237 | history grows by a connected chain of legal transitions ending in the current state |
| `OrderLifecycle.EntryShape` | services/gateway/order_lifecycle.go:88-133 | orders enter as NEW, or with one restore event from NEW to their state |
| `OrderLifecycle.EntryKeeps` | services/gateway/order_lifecycle.go:88-133 | an order enters as it is but for its state and what is left: NEW with all of it left, or restored to its state, NEW if it has none |
| `OrderLifecycle.RunHistory` | services/gateway/order_lifecycle.go:88-299 | the same for every order of every run |
| `OrderLifecycle.TerminalIsFinal` | services/gateway/order_lifecycle.go:25-31 | operations never change a terminal state or its history |
| `OrderLifecycle.RunTerminalIsFinal` | services/gateway/order_lifecycle.go:136-237 | in every run, terminal states are never left |
| `OrderLifecycle.LeavesStayRight` | services/gateway/order_lifecycle.go:193-299 | LeavesQty stays max(0, Qty − FilledQty) |
| `OrderLifecycle.EntryLeaves` | services/gateway/order_lifecycle.go:94-122 | which orders enter with LeavesQty right |
| `OrderLifecycle.FillCountsIff` | services/gateway/order_lifecycle.go:202-207 | a fill is accounted for in the average if and only if something is then filled or its price makes no difference |
| `OrderLifecycle.FillToZeroIsLost` | services/gateway/order_lifecycle.go:202-207 | taking back ten units at another price leaves the average, and loses the difference |
| `OrderLifecycle.AverageAccountsForFills` | services/gateway/order_lifecycle.go:202-207 | AvgFillPrice times FilledQty is the value of all fills, on top of the entry's |
| `OrderLifecycle.RunQuantities` | services/gateway/order_lifecycle.go:88-299 | in every run: filled, leaves and average of every order that entered consistent |
| `Positions.PositionManager.constructor` | services/gateway/positions.go:102-111 | no positions |
| `Positions.PositionManager.OnFill` | services/gateway/positions.go:152-179 | one more lot, total, notional and average, for SELL fills too; the side in upper case |
| `Positions.CloseLots` | services/gateway/positions.go:199-217 | the loop keeps the lots behind the closed quantity and sums what it realizes |
| `Positions.PositionManager.OnClose` | services/gateway/positions.go:190-230 | the book after a close, the position gone if nothing is left, and the P&L returned |
| `Positions.KeptQuantity` | services/gateway/positions.go:199-217 | lots stay positive and lose exactly the closed quantity, down to nothing |
| `Positions.KeptIsFifo` | services/gateway/positions.go:199-217 | the unit at any distance from the front is the one that was the closed quantity further back |
| `Positions.CostConserved` | services/gateway/positions.go:199-217 | what is realized is the proceeds less the cost that leaves the lots |
| `Positions.CloseTwice` | services/gateway/positions.go:199-217 | closing a then b keeps the same lots and realizes the same as a + b |
| `Positions.CloseInTwo` | services/gateway/positions.go:190-230 | and leaves the same book, whichever close removes the position |
| `Positions.RunIsSound` | services/gateway/positions.go:152-230 | in every run lots are positive and sum to TotalQty |
| `Positions.MoneyIsConserved` | services/gateway/positions.go:152-230 | over every run, realized is proceeds less cost of the lots no longer open, and open is bought less closed |
| `Positions.PositionShows` | services/gateway/positions.go:152-230 | in every run the profit a position shows is what its closes returned, and its side that of the fill that opened it |
| `Positions.NotionalIsCost` | services/gateway/positions.go:174-179 | after a fill the notional shown is the cost of the open lots |
| `Positions.FillKeepsAverage` | services/gateway/positions.go:174-179 | a fill keeps the average entry price that of the open lots |
| `Positions.AverageStaysRightIff` | services/gateway/positions.go:219-222 | partial closes keep it so, for every quantity, if and only if all lots were opened at that price |
| `Positions.TwoPricesLoseAverage` | services/gateway/positions.go:219-222 | lots at 100 and 200: after closing the first, the average still says 150 |
| `Surveillance.CheckWashTrade` | services/gateway/post_trade_surveillance.go:158-181 | the first fill of another order, same symbol, other side, within 60 seconds |
| `Surveillance.FirstWashMeans` | services/gateway/post_trade_surveillance.go:158-181 | a fill is named if and only if one of another order, same symbol, other side, is within sixty seconds, and it is the first |
| `Surveillance.CheckMomentumIgnition` | services/gateway/post_trade_surveillance.go:240-263 | ten or more orders of the symbol in two seconds |
| `Surveillance.BurstCountMeans` | services/gateway/post_trade_surveillance.go:246-253 | the count adds up, one for each event in the symbol less than two seconds old |
| `Surveillance.CompactInPlace` | services/gateway/post_trade_surveillance.go:328-334 | compaction over the same array keeps exactly the later trades, in order |
| `Surveillance.EvictAll` | services/gateway/post_trade_surveillance.go:327-343 | every client's history is compacted |
| `Surveillance.Engine.constructor` | services/gateway/post_trade_surveillance.go:89-99 | no history |
| `Surveillance.Engine.ProcessEvent` | services/gateway/post_trade_surveillance.go:129-151 | the histories with the event, at most 500 orders kept, and both verdicts |
| `Surveillance.Engine.CleanUp` | services/gateway/post_trade_surveillance.go:324-344 | trades an hour old are gone from both histories |
| `Surveillance.LiveFillsPruned` | services/gateway/post_trade_surveillance.go:129-151 | live fills are all fills, in order, less some no later than the cleanups' cutoff |
| `Surveillance.WashVerdictIsComplete` | services/gateway/post_trade_surveillance.go:158-181 | a wash verdict, down to the fill it names, is that of the full history, for events less than 59 minutes behind the cleanups |
| `Surveillance.BoundKeepsPruned` | services/gateway/post_trade_surveillance.go:134-137 | a trade that falls off the 500 is before the window, if no more than 500 are in it |
| `Surveillance.LiveOrdersPruned` | services/gateway/post_trade_surveillance.go:129-137 | live orders are all orders less some before the window |
| `Surveillance.MomentumVerdictIsComplete` | services/gateway/post_trade_surveillance.go:240-263 | a momentum verdict is that of the full history, for events in time order with at most 500 in the window, and cleanups that have not reached into it |
| `Surveillance.LateFillMissesWash` | services/gateway/post_trade_surveillance.go:158-181 | a cleanup 59 minutes ahead evicts a fill 60 seconds back, and the wash with it |
| `Surveillance.WashCompleteIff` | services/gateway/post_trade_surveillance.go:158-181 | wash verdicts are complete in every run with cleanups at most d ahead if and only if d is under 59 minutes |
| `Surveillance.LiveIsTail` | services/gateway/post_trade_surveillance.go:129-137 | without cleanups the history kept is the last 500 trades |
| `Surveillance.FloodMissesMomentum` | services/gateway/post_trade_surveillance.go:240-263 | 501 events in the window: the first falls off, and the verdict with it |
| `Surveillance.LateBurstMissesMomentum` | services/gateway/post_trade_surveillance.go:240-263 | a cleanup one nanosecond further ahead evicts nine of ten orders in the window |
| `Surveillance.LateEventsMissMomentum` | services/gateway/post_trade_surveillance.go:129-137 | 500 old events arriving late push nine of ten orders in the window out of the history |
| `Surveillance.FewIsNoBurst` | services/gateway/post_trade_surveillance.go:240-263 | with fewer than ten events in the window neither history shows a burst |
| `Surveillance.MomentumCompleteIff` | services/gateway/post_trade_surveillance.go:240-263 | for events in time order, momentum verdicts are complete in every run with cleanups at most d ahead and at most n events in the window if and only if n is under ten, or n is at most 500 and d an hour less the window |

## Left out

- SmartOrderRouter.RouteOrderWithSplit: says when an order goes to a single venue, not what `routeOnLiveQuotes` then returns, which is single comparisons.
- FixGateway.ReadFrame: the stop flag, which may end the inner loop early at shutdown.
- FixGateway.ReceiveLoop: the same flag, which may end the loop between messages.
- KillSwitch.Manager.TripSystem: with nothing in between its actions; every interleaving is in `KillSwitchSteps`, and so for the next five.
- KillSwitch.Manager.TripAlgo: the same.
- KillSwitch.Manager.TripTrader: the same.
- KillSwitch.Manager.ConfirmSystemReset: the same.
- KillSwitch.Manager.ResetAlgo: the same.
- KillSwitch.Manager.ResetTrader: the same.
- AsyncDbWriter.Writer.Shutdown: cancels the context; its wait for the worker is the time until the phase `ExitFlushesAll` and `LateIsStranded` are about.
- AsyncDbWriter.Writer.DrainRemaining: with nothing enqueued meanwhile; `RunConserves` and `ExitFlushesAll` cover every interleaving.
- CorrelationEngine.PartialSnapshotBreaksPsd: one semidefinite matrix, not shown to be reached; `CovarianceSchedules` is about those that are.
- The freshness of quotes: a clock.
- Floating-point rounding; the rounding of the improvement to two decimals is modelled.
- HMM `fit`, the Gaussian densities and the hmmlearn backend: emissions and transitions are given.
- RSI and other indicators, charts and market-data feeds.
- FIX sessions (logon, heartbeats, sequence gaps), which only send and log; text is ASCII, so that the checksum's runes and the length's bytes are the same characters.
- SQL: the kill-switch log is a sequence with the latest row per target, and a write to it succeeds.
- Trip times of the system switch, which recovery does not restore.
- SHA-256: slots and tokens are arbitrary.
- Timeouts as durations: in the engine client a timeout may happen at any moment its caller or worker waits.
- Eventual answers: nothing is said about progress, only about what can happen; a health check is a call with the text `health`, and its search for `ok` in the reply is not modelled.
- The closed-channel branch of the database worker, which nothing in the program reaches.
- Aliasing of order pointers: orders are values in a map, so a caller that keeps a registered pointer and writes to it is not captured.
- Bracket orders, TWAP orders, account P&L and position limits: bookkeeping in single branches.
- Layering, marking-the-close and spoofing detectors: single comparisons, or dependent on evicted fills.
- HTTP, JWT, WebSocket, encryption, dashboards, backtesters, portfolio and sentiment models.
