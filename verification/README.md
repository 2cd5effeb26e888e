# Verified model of the dynamic warm-up system

The repository warms up a cold service instance with mirrored traffic, promotes it when it has served enough of
it, and measures whether that helps. This project models its four difficult parts in Dafny 4.11 and proves what
each is for.

- **The warm-up protocol.** `Lifecycle` is the guarded state cell, `Records` what is stored in ZooKeeper. `Engine`
  is one instance as a system of interleaved steps: any number of shadow-request handlers, the mirror-watch
  goroutine with its timer, and the benchmark reset; each lock-protected call is one step and each registry update
  is two (a read, then a write conditional on the version read). `Instance` is the same engine as an object with one
  call at a time. `Mirror` is the stored mirror config with its two followers, the one-shot watch loop and the
  proxy's loop. `Promotion` puts everything together with sessions, ramp goroutines, complete handlers and the
  proxy's requests. A run is any sequence of steps; what the outside world does (whether a call gets through, what
  another instance answers, how long a pause is) is an argument of the step. `Ramp` is the coordinator as an object,
  with the exact trace and time of one ramp, and `RampThread` shows that the ramp goroutine of `Promotion` makes the
  same writes and reads.
- **The statistics kernel.** `Quantile`, `IqrFilter`, `Bootstrap`, `Summary`, `Medians`, `ShadowMetrics`, over
  `Sorting` and `Reals`. Floating point numbers are reals and the random generator is an arbitrary stream of indexes.
- **The experiment loops.** `IndependentRuns` and `OverheadRuns`, with the results and verdicts in `Results` and
  `OverheadVerdict`. Every attempt's outcome is arbitrary.
- **The load profile and its sampler.** `LoadProfile` and `Sampler`, over an arbitrary clock that goes forward.

`dafny verify dfyconfig.toml` checks the project.

## What the proofs say about the code

The code is modelled as it is. Where it falls short of what its documentation or its other parts rely on, a concrete
run shows the failure and a lemma says for all inputs when it happens:

- Past the hold deadline the coordinator marks a session as holding whether or not the target is ready, and
  completing it promotes a cold instance (`HoldDeadlinePromotesCold`); from any state a completion is safe for every
  reset-free continuation if and only if the threshold had been reached by then (`PromotionIsSafeIff`).
- A publication of Ready can lose its version to a late publication of Warming and is then never repeated
  (`ReadyPublicationCanBeLost`); whoever else is in flight, the record of an instance past Warming will show Ready if
  and only if some thread is on its way to publish it at a version still current (`ReadyIsPublishedIff`).
- A benchmark reset can race a handler that has passed its count test, or has only loaded the old counter, and leave
  an instance Ready on nothing (`ResetCanRace`). All later runs are safe if and only if no thread stands between its
  count test and its transition, or holds a counter that has reached the threshold or is about to
  (`ResetIsSafeIff`).
- A completion can be undone by a ramp still running (`CompletionCanBeUndone`); from any state it lasts if and only if
  nobody in flight is about to overwrite it (`CompletionSticksIff`).
- A completion that the instance handles before it is Ready does not make it Active (`EarlyCompletionHappens`). Wherever
  the watch stands, without a new writer and without an event of the ZooKeeper session the instance can still become
  Active if and only if the watch is not on its way to return, and has the promotion still to test or something left
  to be delivered (`EarlyCompletionActivatesIff`). A session event delivers the config once more
  (`SessionEventRedelivers`).
- The proxy reads the config and sets its watch in two calls, and sets the watch even when the read failed
  (`ProxyCanMissAnUpdate`, one run of each kind); its cache is fresh if and only if no write has come since its last
  successful read (`ProxyFreshIff`).
- The overhead verdict is documented as a comparison of P95 (docs/benchmark-methodology.md:72-78); the code compares
  the medians of what it summarizes, and with fewer than five runs a side those are medians of blocks. A run passes it
  while P95 rises from 100 to 280 (`TailIsIgnored`); the median observed is the P95 if and only if the kept values are
  level between the two ranks, and a side that is not level is enough to make the verdicts differ
  (`ObservedIsP95Iff`, `VerdictIsOnP95Iff`).
- The pacing interval is rounded down, so the steady window has room for more than SteadySec * MaxRPS samples if and
  only if MaxRPS does not divide a second (`RoomIsExactIff`), and on every profile that room can be filled
  (`FillSteady`).

That promotion does happen, on the discipline under which it is proved safe, is `PromotionHappens`.

Three more hold of every call. An engine of another role is meant to start as Active, but the transition table refuses
it and the error is dropped (`Lifecycle.Start`). A completion whose config write failed cannot be repaired by retrying:
the second call writes nothing (`Ramp.Coordinator.CompleteSession`). And the readiness hypothesis H3 passes on every
result of the dynamic scenario, which records ready runs only (`ReadinessVerdictAlwaysPasses`).

## Model

| member | source | states |
|---|---|---|
| Lifecycle.FSM.Transition | warmkit/fsm.go:24-32 | moves exactly along the table; otherwise reports the pair and leaves the state |
| Lifecycle.FSM.Force | warmkit/fsm.go:34-38 | sets any state |
| Lifecycle.TableIsTheLadder | warmkit/fsm.go:40-55 | the table is one ladder from Starting to Active, with a way out to Failed from every rung but the last |
| Lifecycle.Start | warmkit/engine.go:73-100 | an engine of another role stays in Starting, since its transition is refused and the error dropped |
| Lifecycle.SuccessesBounded | warmkit/fsm.go:24-55 | any interleaving of calls with k resets makes at most 4 + 3k successful transitions |
| Lifecycle.SuccessBoundIsReached | warmkit/fsm.go:24-55 | that bound is reached for every k |
| Lifecycle.EpochRises | warmkit/fsm.go:40-55 | between resets the visited states form one strictly rising path of valid transitions |
| Lifecycle.TerminalUntilReset | warmkit/fsm.go:40-55 | Active and Failed are left only by a reset |
| Engine.EngineSafety | warmkit/engine.go:102-152 | in every reset-free interleaving of any handlers, watch and timer, Ready or Active implies count at least ReadyAfter, and the published state is never ahead of lifecycle or count |
| Engine.EngineSafetyWithResets | warmkit/engine.go:154-164 | the same, whenever no reset is in progress, in runs with resets that start when no handler is in flight and the watch is idle, during which nothing else runs and the registry answers |
| Engine.ReadinessIsReached | warmkit/engine.go:206-216 | the other half: in every reset-free interleaving, once all requests are served and the threshold is reached, the instance is past Warming |
| Engine.StepKeepsInv | warmkit/engine.go:196-217 | each atomic step of any thread keeps the inductive invariant over all program counters and pending versioned writes |
| Engine.PublishChangesOnlyState | warmkit/registry.go:72-89 | a successful versioned write changes only the state field of the record immediately before it |
| Engine.RunsKeepIdentity | warmkit/registry.go:72-89 | address, role and start time published at registration survive every disciplined run |
| Engine.RunsGrow | warmkit/engine.go:196-217 | without resets the count and the lifecycle never lose ground |
| Engine.ShadowRequestAlone | warmkit/engine.go:206-216 | an uninterrupted shadow request counts itself once and becomes Ready exactly when the count including itself reaches the threshold |
| Engine.WarmupTakesReadyAfterRequests | warmkit/engine.go:206-216 | from a fresh start readiness comes with request number ReadyAfter and not before, and the registry agrees after every request |
| Engine.AloneInTheSystem | warmkit/engine.go:206-216 | a handler alone in the step system reaches what the sequential reading computes |
| Engine.ConfigurationAlone | warmkit/engine.go:137-152 | the outcome of one config from any state, with the order of the three tests |
| Engine.TimeoutAlone | warmkit/engine.go:126-132 | the tick, acted on without interference, fails every instance that is neither Ready nor Active and changes no other |
| Engine.TimerRunsUntilReady | warmkit/engine.go:122-132 | in every reset-free run the timer is stopped, or its tick used up, only when the instance is past Warming or the timeout is being acted on |
| Engine.ReadyStopsTheTimer | warmkit/engine.go:123-125 | a config handled in Ready leaves no timer running |
| Engine.StoppedTimerIsSilent | warmkit/engine.go:111-126 | once out of use the timer never ticks again |
| Engine.WarmupCanAlwaysEnd | warmkit/engine.go:114-134 | from every point of every reset-free run at which the instance is Registered or Warming and its watch has not returned, watch and timer alone can end the warm-up, and with the threshold unreached fail it |
| Engine.ResetIsSafeIff | warmkit/engine.go:154-164 | a reset keeps every later reset-free run safe if and only if no thread has passed the count test without having made its transition, and none holds a counter that has reached the threshold or will once those about to record in it have done so |
| Engine.RunsKeepLoadsKnown | warmkit/engine.go:212-213 | in every run, with any resets at any time, whoever holds a replaced counter holds one of those there are |
| Engine.ResetCanRace | warmkit/engine.go:213-214 | two overlapping requests lead, from the start, to a reset after which some run is Ready below the threshold, once with a handler past its count test and once with one that has only loaded the counter |
| Engine.StoppedWatchNeverActivates | warmkit/engine.go:126-135 | after the watch goroutine has returned, no request and no reset makes the instance Active |
| Engine.ReadyIsPublishedIff | warmkit/registry.go:74-88 | whoever else is in flight: once the instance is past Warming and its record does not show Ready, some later reset-free run shows it if and only if some thread is on its way to publish Ready at a version still current |
| Engine.RunsAreLate | warmkit/registry.go:74-88 | every disciplined run past Warming whose record does not show Ready meets that lemma's hypothesis |
| Engine.ReadyPublicationCanBeLost | warmkit/engine.go:206-216 | two overlapping requests lead to a Ready instance whose record says Warming and shows Ready in no later reset-free run |
| Instance.Instance.ShadowMiddleware | warmkit/engine.go:196-218 | the method reaches what the step system computes for a handler alone, for every pair of answers of the registry; a pass-through or refused request changes nothing |
| Instance.Instance.HandleMirrorConfig | warmkit/engine.go:137-152 | the method reaches what the step system computes for the watch goroutine alone, for every combination of answers of the registry |
| Instance.Instance.OnTimeout | warmkit/engine.go:126-132 | the timer branch ends the watch exactly when the instance is neither Ready nor Active |
| Instance.Instance.ResetBenchmark | warmkit/engine.go:154-164 | replaces the counter, forces Registered and publishes it; does nothing for another role |
| Instance.Instance.UpdateInstanceState | warmkit/registry.go:72-89 | replaces the state field and raises the version, or leaves the record |
| Instance.ServeFresh | warmkit/engine.go:196-218 | the object driven through n shadow GETs is Ready exactly from the threshold on, and the record agrees |
| Mirror.NoLostFinalUpdate | warmkit/registry.go:91-124 | over every interleaving with writers, delivered versions never decrease and were stored, and whenever the loop waits on an unfired watch the last delivered config is the stored one |
| Mirror.WatchCatchesUp | warmkit/registry.go:91-124 | from every reachable state seven steps without a write bring the loop to rest with the stored config received |
| Mirror.ProxyFreshIff | cmd/mirror-proxy/main.go:115-140 | after every schedule, outside the gap between read and assignment, the proxy's cache is the stored config if and only if no write has come since its last successful read |
| Mirror.SleepingProxyKeepsCache | cmd/mirror-proxy/main.go:129-138 | asleep on an unfired watch, it keeps that cache, fresh or not, until a new write or an event of the session |
| Mirror.SleepEndsWithAWrite | cmd/mirror-proxy/main.go:123-138 | after a write, or an event of the session, a sleeping proxy takes one round to the newest config |
| Mirror.ProxyCanMissAnUpdate | cmd/mirror-proxy/main.go:123-129 | the second of two writes is missed for good when it falls between read and watch, and the first one when the read before the watch failed |
| Promotion.PromotionSafety | cmd/warmup-coordinator/main.go:203-258 | in every disciplined run of the whole system, whenever the proxy sends a client's request to an address that only this instance has, the instance's shadow count is at least ReadyAfter |
| Promotion.PromotionHappens | cmd/warmup-coordinator/main.go:181-260 | for every threshold, every list of steps and every pair of instances, some disciplined run from the start completes the session, makes the instance Active and forwards a client's request to it |
| Promotion.PromotionIsReached | cmd/warmup-coordinator/main.go:181-249 | and one leads to the hypothesis of CompletionConverges |
| Promotion.StepKeepsInv | cmd/warmup-coordinator/main.go:181-303 | each step of ramps, complete handlers, watch, proxy and engine keeps the whole-system invariant |
| Promotion.ReadyReadIsProof | cmd/warmup-coordinator/main.go:271-282 | a positive readiness read of the instance proves that it is warm for the rest of the run |
| Promotion.ReadyIsSeen | cmd/warmup-coordinator/main.go:271-282 | a read that gets through sees the instance ready if and only if its record says Ready or Active |
| Promotion.CompletionSticks | cmd/warmup-coordinator/main.go:231-260 | with no writer left, a completed session stays completed and its config stays stored, in every continuation |
| Promotion.CompletionConverges | benchmark/internal/experiment/experiment.go:113-127 | complete after holding is final, with mirroring disabled and the target active, and once the watch has drained the instance is Active or Failed |
| Promotion.DrainingIsPossible | warmkit/registry.go:102-120 | from every state some continuation of the watch alone drains it |
| Promotion.CompletionSticksIff | cmd/warmup-coordinator/main.go:221-256 | from any state, completion lasts in every continuation without a new writer if and only if the session's own ramp has ended, every other ramp has made its last write, and whoever is completing writes the same config |
| Promotion.CompletionCanBeUndone | cmd/warmup-coordinator/main.go:231-258 | a run from the start in which complete is called on a session whose ramp still runs, and a continuation that undoes it |
| Promotion.PromotionIsSafeIff | cmd/warmup-coordinator/main.go:246-258 | from any state, a completing write is safe for every reset-free continuation if and only if the threshold had been reached by then |
| Promotion.HoldDeadlinePromotesCold | cmd/warmup-coordinator/main.go:208-227 | a run in which the deadline passes leads to a client's request being forwarded to an instance with shadow count zero |
| Promotion.EarlyCompletionActivatesIff | warmkit/engine.go:144-151 | after a promotion that came before the instance was Active, for every position of the watch: some continuation without a writer or session event makes it Active if and only if the watch is not on its way to return, and has the promotion still to test or something left to be delivered |
| Promotion.SessionEventRedelivers | warmkit/registry.go:116-120 | after a session event it can become Active if and only if the watch is not on its way to return |
| Promotion.UnservedIsMissed | warmkit/engine.go:144-147 | every promotion of an instance that has served nothing can end drained, beyond any continuation that would make it Active |
| Promotion.EarlyCompletionHappens | cmd/warmup-coordinator/main.go:208-256 | a run from the start that ends there |
| Promotion.EarlyCompletionNeverActivates | warmkit/engine.go:144-151 | with nothing left to deliver and the promotion no longer held by the watch, an instance that is not Active, whatever its state, never becomes Active without a writer or session event |
| Promotion.ClientsGoToTheActive | cmd/mirror-proxy/main.go:190-201 | a client's request goes to the address of the active instance and nowhere without one, whatever else is registered or configured |
| Promotion.CopiesGoToTheTarget | cmd/mirror-proxy/main.go:203-208 | a copy of a routed GET goes where a client would go if the target were active, for exactly the draws below the ratio |
| Promotion.RoutingOfSessionConfigs | cmd/mirror-proxy/main.go:184-211 | while a session ramps, clients go to its active instance and copies to its target; once completed, clients go to the target and no copies are made |
| Promotion.ArrivalTakesTheCache | cmd/mirror-proxy/main.go:184-188 | a request is routed by what the proxy holds when it arrives, fresh or not |
| Promotion.RequestKeepsItsSnapshot | cmd/mirror-proxy/main.go:184-201 | no later write, read or registration changes where a request in flight goes |
| Promotion.DeletedStaysDeleted | cmd/warmup-coordinator/main.go:223-227 | a session deleted while its ramp runs is not entered again by anything that follows |
| Ramp.Coordinator.RunRamp | cmd/warmup-coordinator/main.go:181-229 | for every interval, readiness answer and pause: the exact trace of writes with their ids and ratios, the end time and the new session table; the first ready answer ends the steps or the hold, no hold write comes after the deadline, and the session is holding only after a ready answer or past the deadline |
| RampThread.GoroutineFollowsRamp | cmd/warmup-coordinator/main.go:181-228 | for all answers and pauses the goroutine of the step system, left to itself, ends with exactly the trace and the reads of that method, and remembers a ready read exactly when there was one |
| Ramp.RampIsDetermined | cmd/warmup-coordinator/main.go:192-219 | the answers and pauses determine how many steps and hold writes there are |
| Ramp.RampEndsInTime | cmd/warmup-coordinator/main.go:190-219 | with pauses of at most P it ends within the longer of steps * P and holdMax + P |
| Ramp.RatiosAscend | cmd/warmup-coordinator/main.go:182-221 | the trace is 0, the steps taken in their order, and full ratios; it stays in [0, 1] and never falls when the configured steps do not |
| Ramp.Coordinator.CreateSession | cmd/warmup-coordinator/main.go:162-172 | a running session is entered, the others stay |
| Ramp.Coordinator.CompleteSession | cmd/warmup-coordinator/main.go:231-269 | promotes once; unknown and completed sessions change nothing and write nothing, even after a failed first write |
| Ramp.Coordinator.DeleteSession | cmd/warmup-coordinator/main.go:297-303 | removes exactly that session and writes no config |
| Sorting.ExchangeSort | warmkit/fsm.go:110-116 | in place: a sorted permutation, equal to the ascending arrangement of the input |
| Sorting.SortedIsUnique | benchmark/internal/stats/stats.go:50 | order and multiset determine the sequence, so any correct sort gives the same result |
| Quantile.QuantileIsTheInterpolant | benchmark/internal/stats/stats.go:150-165 | the quantile is the only function of the rank that takes the data at whole ranks and is affine between them |
| Quantile.PercentileMonotone | benchmark/internal/stats/stats.go:150-165 | it does not fall in p, across segment boundaries |
| Quantile.PercentileGrowsInData | benchmark/internal/stats/stats.go:150-165 | raising samples point by point lowers no quantile |
| Quantile.PercentileBounded | benchmark/internal/stats/stats.go:150-165 | it lies between the first and the last element |
| Quantile.PercentilesAgreeIff | benchmark/internal/stats/stats.go:150-165 | two quantiles are equal if and only if the order statistics around the lower and the higher rank are |
| IqrFilter.FilterIQRIndexed | benchmark/internal/stats/stats.go:110-147 | the reported indexes are distinct and exactly the positions outside the fence; kept values and values at those indexes together are the input as a multiset |
| IqrFilter.OutlierIsFar | benchmark/internal/stats/stats.go:128-141 | with five samples or more, outliers are those further outside the quartiles than one and a half times their distance |
| IqrFilter.FilterSurvival | benchmark/internal/stats/stats.go:128-146 | for n >= 5 every order statistic between the quartile ranks survives, so the fallback for an empty result is unreachable |
| IqrFilter.FilterMaps | benchmark/internal/stats/stats.go:128-141 | in another unit the same samples are kept and the same positions reported |
| IqrFilter.SplitFilteredRuns | scripts/benchmark-figures/fig02_tfirst_runs.py:14-24 | the script's loop yields the listed and the unlisted runs in its own unit |
| IqrFilter.SplitRecoversFilter | scripts/benchmark-figures/fig02_tfirst_runs.py:14-24 | on the indexes that the Go filter reports the script recovers the filtered multiset |
| Bootstrap.BootstrapCI | benchmark/internal/stats/stats.go:185-210 | the loops compute the interval between the two order statistics of the resampled values |
| Bootstrap.BatchesAreTheStream | benchmark/internal/stats/stats.go:189-198 | laid end to end the batches are the data at the successive draws, each draw used once |
| Bootstrap.ResamplingIsFree | benchmark/internal/stats/stats.go:189-198 | every family of choices with repetition is drawn by some stream |
| Bootstrap.MeanIsWeighted | benchmark/internal/stats/stats.go:169-175 | the mean of one sample is the sample, and that of two together their means weighted by their sizes |
| Bootstrap.IndexesExistIff | benchmark/internal/stats/stats.go:200-208 | the clamps leave both indexes in range if and only if the level is above -1 |
| Bootstrap.IndexesInRange | benchmark/internal/stats/stats.go:200-208 | for a level in (0, 1] both indexes are in range without the clamps and in order, leave out equally many ranks at both ends, and have between them at least level * iterations and fewer than two more |
| Bootstrap.IndexesOrderedIff | benchmark/internal/stats/stats.go:200-202 | with level 0 admitted, the bounds are in order if and only if the level is positive or the iterations are odd |
| Bootstrap.IntervalCovers | benchmark/internal/stats/stats.go:199-209 | the bounds are resampled statistics, in order, with at least level * iterations of them between |
| Bootstrap.IntervalWithinData | benchmark/internal/stats/stats.go:169-209 | for the mean and the percentile statistics both bounds lie within the data |
| Bootstrap.IntervalMaps | benchmark/internal/stats/stats.go:185-210 | with the same draws the interval of converted data is the converted interval |
| Summary.SummarizeFilteredWithSeed | benchmark/internal/stats/stats.go:44-84 | the loops compute the summary of the ascending sample, or the empty one |
| Summary.SquaresOfReported | benchmark/internal/stats/stats.go:61-67 | the two squares in it are those of the standard error and of the coefficient of variation that the program reports |
| Summary.VarianceIsMeanOfSquares | benchmark/internal/stats/stats.go:56-61 | the variance is the mean of the squares less the square of the mean |
| Summary.SummaryCovers | benchmark/internal/stats/stats.go:68-69 | of the 2000 resampled means at least 1900 lie in the mean's interval, of the 2000 resampled medians at least 1900 in the median's |
| Summary.CvPassIff | benchmark/internal/stats/stats.go:87-101 | the verdict passes if and only if at least five samples were kept and the coefficient of variation in percent is at most the threshold |
| Summary.SummaryIsOrdered | benchmark/internal/stats/stats.go:68-83 | P50 is at most P95, both intervals are in order, and mean, percentiles and all four bounds lie within the data |
| Summary.SquaresDecide | benchmark/internal/stats/stats.go:62-67 | comparing squares decides exactly the comparison of the coefficient of variation with its threshold |
| Summary.PipelineScales | benchmark/internal/stats/stats.go:44-147 | multiplying all samples by c > 0 multiplies mean, percentiles and every bound by c and leaves outliers, counts, CV and its verdict |
| Results.BuildResult | benchmark/internal/experiment/experiment.go:424-443 | both summaries are those of their own filtered values, and the verdict depends on the values alone, not on the draws |
| Results.BuildOverheadResult | benchmark/internal/experiment/experiment.go:445-471 | with fewer than five records the block values stand in for the run values, in summary, values and verdict alike; the block summary is that of the blocks |
| Results.EvaluateHypotheses | benchmark/internal/experiment/experiment.go:536-563 | the four notes; H3 passes if and only if every run was ready |
| Results.HypothesesAreRatios | benchmark/internal/experiment/experiment.go:538-553 | H1 asks for a speed-up of at least two over the cold start, H2 and its interval form for a slow-down of at most two |
| Results.OverheadIsRelative | benchmark/internal/experiment/experiment.go:512-529 | the overhead passes if and only if the observed figure grows by at most five percent |
| Results.ThresholdsAreSeparate | benchmark/internal/profile/manifest.go:317-328 | each scenario has a CV threshold of its own, the overhead experiment the common one |
| Results.ResultRescales | benchmark/internal/experiment/experiment.go:424-443 | results built from samples multiplied by c > 0 are the same results in another unit, with the same verdict |
| Results.VerdictsHaveNoUnit | benchmark/internal/experiment/experiment.go:536-553 | then H1, H2, H2_CI and H3 stay |
| Results.OverheadHasNoUnit | benchmark/internal/experiment/experiment.go:512-529 | then the overhead verdict stays |
| Results.ResultIsOrdered | benchmark/internal/experiment/experiment.go:424-443 | in every built result P50 is at most P95 and all statistics lie within the data |
| ShadowMetrics.ShadowMetrics.Record | warmkit/fsm.go:79-87 | the window is exactly the last min(count, maxKeep) latencies ever recorded |
| ShadowMetrics.ShadowMetrics.P95Ns | warmkit/fsm.go:95-104 | the order statistic at floor(0.95 * (len - 1)) of that window, 0 when it is empty; the window is not touched |
| ShadowMetrics.PercentileDuration | warmkit/fsm.go:106-122 | sorts its argument in place and returns the order statistic at the truncated rank |
| ShadowMetrics.WindowForgets | warmkit/fsm.go:83-86 | after maxKeep further latencies the window no longer depends on what came before |
| Medians.BlockMedians | benchmark/internal/loadgen/blocks.go:7-29 | for every block size: ceil(n / size) entries, each the interpolated median of its block |
| Medians.BlocksCover | benchmark/internal/loadgen/blocks.go:12-17 | the blocks cover the samples in order, each once |
| Medians.BlockLengths | benchmark/internal/loadgen/blocks.go:12-17 | every block but the last is full |
| Medians.MedianInt64 | benchmark/internal/report/report.go:183-196 | an element of the input, the order statistic at n / 2; 0 for no values |
| Medians.UpperMedianAgreesIff | benchmark/internal/report/report.go:183-196 | it is never below the interpolated median, and equal to it if and only if the sample is odd or its middle two agree |
| Medians.TruncatedPercentileAgreesIff | warmkit/fsm.go:117-121 | the truncated percentile is at most the interpolated one and at most one order statistic below it; equal if and only if the rank is whole or its two neighbours agree |
| LoadProfile.CurveIsTrapezoid | scripts/benchmark-figures/fig07_load_profile.py:13-24 | on the ramps the curve times the ramp's seconds is MaxRPS times the seconds since the low end, in between it is MaxRPS, outside nothing |
| LoadProfile.RateFollowsRamps | benchmark/internal/loadgen/profile.go:47-66 | where it is not raised, the rate is within 1/2 of those straight lines |
| LoadProfile.RateFollowsCurve | benchmark/internal/loadgen/profile.go:39-67 | at every time the rate lies in [0, MaxRPS] and differs from the continuous curve by at most 1/2, except exactly where it is raised to one, where the gap is below 1 |
| LoadProfile.RateIsRoundedCurve | scripts/benchmark-figures/fig07_load_profile.py:13-24 | the rate is the rounding of the script's curve, except where it is raised to one |
| LoadProfile.RateIsUnimodal | benchmark/internal/loadgen/profile.go:39-67 | it never falls before the end of steady and never rises after its start |
| LoadProfile.SteadyIsMaximal | benchmark/internal/loadgen/profile.go:20-36 | in the steady window the rate is the maximum, and the phase names the same window |
| LoadProfile.IdleIff | benchmark/internal/loadgen/profile.go:39-67 | the rate is zero exactly outside the profile, at the first instant of a ramp-up and in the last half request of a ramp-down |
| Sampler.CollectRTTPhased | benchmark/internal/loadgen/loadgen.go:68-123 | over any clock, responses and failures: ends, at the first iteration that must end it, with exactly the samples of those before |
| Sampler.SamplesAreLatencies | benchmark/internal/loadgen/loadgen.go:113-117 | the samples are the response times of the requests sent, the steady ones those of the steady phase; none is missing |
| Sampler.PausesAreKept | benchmark/internal/loadgen/loadgen.go:88-121 | an iteration without request is followed by 50 ms, one with a request by the share of a second that its rate allows, short of it by less than a nanosecond |
| Sampler.SteadyIsSlice | benchmark/internal/loadgen/loadgen.go:113-117 | the steady samples are one contiguous segment of all samples |
| Sampler.SteadyIsAtMaximumRate | benchmark/internal/loadgen/loadgen.go:88-117 | each was taken while the target rate was the maximum |
| Sampler.SteadyCount | benchmark/internal/loadgen/loadgen.go:101-121 | there are at most ceil(SteadySec * 10^9 / floor(10^9 / MaxRPS)) of them |
| Sampler.FillSteady | benchmark/internal/loadgen/loadgen.go:101-121 | that bound is reached on every profile, ramps and all: against instant responses the sampler returns that many steady samples |
| Sampler.MetronomeFills | benchmark/internal/loadgen/loadgen.go:101-121 | the number of steady samples after every tick of that clock |
| Sampler.RoomIsExactIff | benchmark/internal/loadgen/loadgen.go:101 | it equals SteadySec * MaxRPS if and only if MaxRPS divides a second, and exceeds it otherwise |
| IndependentRuns.RunIndependent | benchmark/internal/experiment/experiment.go:341-422 | for every world: aborts only on a fatal attempt before there was enough, reports no valid runs only when there were none, and otherwise returns the shortest sufficient prefix of what all permitted attempts would have measured |
| IndependentRuns.RecordsAreOrdered | benchmark/internal/experiment/experiment.go:374-405 | records are numbered from one in strictly increasing attempts, each valid for its scenario and equal to what its attempt measured |
| IndependentRuns.MeasuredIff | benchmark/internal/experiment/validate.go:55-66 | control runs count on a cold index, reference runs on a warm one, dynamic runs on a warm one of a ready instance, whenever the probe succeeds |
| IndependentRuns.MeasuredIsRecorded | benchmark/internal/experiment/experiment.go:369-405 | every attempt that measures is recorded |
| IndependentRuns.RunIsFirstPassingPrefix | benchmark/internal/experiment/experiment.go:353-416 | for every verdict on records, stopping at the first sufficient attempt gives that shortest prefix |
| IndependentRuns.FirstEnoughIsUnique | benchmark/internal/experiment/experiment.go:353-416 | there is only one such prefix |
| IndependentRuns.QuotaIsKept | benchmark/internal/experiment/experiment.go:345-348 | at most MaxRuns records with adaptivity and Runs without; no proper prefix of at least Runs passed CV; a run that fails CV goes on to MaxRuns or to the last measurement |
| IndependentRuns.ReadinessVerdictAlwaysPasses | benchmark/internal/experiment/validate.go:55-66 | H3 passes on every result of the dynamic scenario |
| IndependentRuns.StoppingHasNoUnit | benchmark/internal/experiment/experiment.go:409-413 | measuring in another unit stops after the same records |
| OverheadRuns.RunOverhead | benchmark/internal/experiment/experiment.go:204-272 | for every world: returns at the first complete pair of collections, with both quotas kept and every second attempt numbered on each side, and fails only on a failed attempt; the break and the statements after the loop are unreachable |
| OverheadRuns.PickHasRoom | benchmark/internal/experiment/experiment.go:167-189 | a side is picked exactly while one has room, and the one picked has |
| OverheadRuns.PickAlternates | benchmark/internal/experiment/experiment.go:167-189 | with off = ceil((k - 1) / 2) and on = floor((k - 1) / 2) before attempt k the preferred side has room, so the fallback is never taken |
| OverheadRuns.SidesAlternate | benchmark/internal/experiment/experiment.go:231-249 | each side's records are numbered from one and hold every second attempt, the off side the odd ones |
| OverheadRuns.CollectionKeepsSamples | benchmark/internal/experiment/experiment.go:239-249 | a side holds the records and figures of its attempts in order, and the blocks and latencies of each in one piece |
| OverheadRuns.QuotasAreKept | benchmark/internal/experiment/experiment.go:251-265 | for every verdict on a side and all samples, at return both sides have H4Runs, differ by at most one, keep the quota, and either both pass CV, or adaptivity is off, or both are at the maximum; and whenever both had H4Runs before, adaptivity was on and a side had failed CV |
| OverheadRuns.RunOverheadAttempt | benchmark/internal/experiment/experiment.go:286-339 | an attempt yields the block medians and their P95, and fails exactly when config or warm-up fails or the steady window is empty |
| OverheadRuns.SampleIsP95 | benchmark/internal/experiment/experiment.go:318-338 | a run's figure lies between the order statistics around the 95% rank of its blocks; its record holds that figure and the median, cut off to integers |
| OverheadRuns.StoppingHasNoUnit | benchmark/internal/experiment/experiment.go:191-199 | measuring in another unit does not change whether a side passes |
| OverheadVerdict.ObservedIsP95Iff | benchmark/internal/experiment/experiment.go:524-529 | what the verdict observes of a result is at most its P95, and equal to it if and only if the kept values are level from the median rank to the 95% rank |
| OverheadVerdict.VerdictIsOnP95Iff | benchmark/internal/experiment/experiment.go:512-517 | the verdict agrees with the comparison of P95 against every level side if and only if the result is level itself |
| OverheadVerdict.VerdictIgnoresTheTail | docs/benchmark-methodology.md:72-78 | on latencies 100, 100, 100 against 100, 100, 300 the verdict passes and the comparison of P95 does not |
| OverheadVerdict.TailIsIgnored | benchmark/internal/experiment/experiment.go:204-272 | the loop returns such a pair |

## Left out

- Real threads: the interleavings of `Engine`, `Mirror` and `Promotion` are modelled on values, one datatype for the
  whole state; the classes in `Lifecycle`, `Instance`, `Ramp` and `ShadowMetrics` cover the same code one call at a time.
  The mutexes themselves are not modelled: a lock-protected call is one step.
- Engine.ResetIsSafeIff: the reset's two assignments, of the counter and of the lifecycle, follow each other there without
  another thread in between.
- Engine.EngineSafetyWithResets: the published state is proved safe only under the discipline named in its row; a reset
  that races other threads, or whose publication fails, leaves a record that says too much.
- Instance.Instance.ResetBenchmark: one call at a time; its interleavings are those of the reset steps in `Engine`.
- Ramp.Coordinator.RunRamp: time passes only with the sleeps, at least the interval and never nothing; every other
  operation takes no time. Whether a write got through is ignored there as in the code, so `written` lists what was
  handed to ZooKeeper.
- Engine.EngineSafety: published Active implies that the lifecycle is Active, published Ready only that it is Ready,
  Active or Failed; a lifecycle ahead of the record is normal, since the publication follows the transition.
- HTTP servers and clients, JSON, logging, signals, ZooKeeper connections, sessions and expiry; an update is a read and
  a conditional write that either get through or not.
- The in-memory registry, a test double that drops updates when its buffer is full.
- Environment configuration; its checked ranges are preconditions (Runs >= 5, MaxRuns >= Runs, H4Runs >= 1, H4MaxRuns
  >= H4Runs). Non-negative phases of the load profile are assumed; the ramp-down and the overhead steady phase are not
  checked there.
- Context cancellation and Stop, except in the sampler, where a cancelled tick ends the loop.
- The update stamp of a mirror config, and session ids taken from the clock: ids are assumed distinct.
- Integer widths: the sum of two latencies in a block median and the counters are unbounded integers here.
- Rounding of floating point numbers, not-a-number values and the concrete random stream.
- Summary.SummarizeFilteredWithSeed: no square roots; the coefficient of variation and the standard error are kept as
  their squares.
- A negative window size of the shadow metrics, with which recording panics.
- Sampler.CollectRTTPhased: the clock advances with every iteration. Its progress log is left out, and so is
  `RunPhased`, the same loop without samples.
- Results.BuildResult: without display name, description and the reason given with the verdict.
- Results.BuildOverheadResult: without display name, description, the reason given with the verdict and the hypothesis
  note.
- OverheadVerdict.VerdictIsOnP95Iff: the level opponents range over real latencies; between two figures that are closer
  than a nanosecond no run of integer latencies need lie.
- Bootstrap.BootstrapCI: for data, at least one iteration and a level above -1; otherwise the program stops with an
  index out of range.
- OverheadRuns.RunOverhead: without the baseline config that is written before returning, whose error is dropped.
- Progress display, report writing, plots, the deprecated wrappers and the command line.
- The workload and the memory-mapped store of the loaded service.
