# A verified model of the HTTP circuit breaker

The breaker wraps outgoing HTTP calls with a closed/open/half-open circuit, a
semaphore, a token bucket, a global Retry-After gate, retries with backoff, and
metrics of constant size. What it promises spans these parts and any number of
concurrent calls, so the model is one state machine over all of them, built from
parts that are proved on their own.

## How it is organised

- `Errors`: error trees, their classification, and the verdict a call reports.
- `Breaker`, `Probing`, `BreakerStates`: the circuit as a function per critical
  section; the circuit with the calls it admitted, its invariants, and its
  refinement of a specification without counters or generation numbers; the
  mutable object.
- `Bucket`, `RateBound`, `RateRule`, `BucketOps`, `TokenBuckets`: how the bucket
  is sized, the least bound on tokens per window, the rule for hard limits read as
  one about tokens, the shared bucket with its refiller and `Stop`, and the mutable
  object.
- `Wheels`, `Rings`, `EndpointStates`, `Ledger`, `Accounts`, `MetricsStores`: the
  circular structures, the live counters, the store as a value, what every
  recorded event settles, and the store of live objects.
- `Gate`, `Backoff`: the Retry-After arithmetic and the compare-and-swap maximum,
  and the wait before a retry, on 64-bit words.
- `Settings`, `Options`: what a breaker is made of; every breaker that can be asked
  for satisfies what the rest presupposes.
- `DoCalls`, `CallInvs`, `Effects`, `Circuit`: one call of `Do` as a step machine,
  what holds of each call, and the interleaving of any number of calls with the
  refiller, `Stop` and the clock.
- `Guarantees`, `Progress`: results about every reachable state; what can hold a
  call up.
- `Chronicle`, `Retrying`, `Asking`, `Reporting`: the story of a call read off a run,
  and what has to come of it: the result, another attempt, a pause, the report.
- `Tallies`, `Books`: which events are counted where and what a key holds of them,
  and that the books of a run are exactly what its stories call for.
- `Requests`, `Barrages`, `RequestRule`: how many requests a window can see, and the
  rule for hard limits as it is meant.
- `Draining`, `Releasing`, `Stopping`: what `Stop` does to the calls that wait, and
  when `ErrStopped` comes although tokens remain.
- `Sending`, `Pausing`, `Exempting`, `Slipping`, `Sleeping`: who gets past the gate,
  which sends can still precede a deadline, and how long a call waits.
- `Runs`, `Steering`, `Witnesses`: runs that show what can happen; `Steering` puts
  together runs of many calls.
- `Registry`: the manager and the all-or-nothing configuration, over any sequence
  of its calls.
- `Sets`, `Arith`: counting, machine words and integer arithmetic.

In `Circuit` the environment chooses transport results, panics, cancellations,
waiting times, refill ticks, `Stop` and the passing of time. The time that an
admission brings along was read before the lock, so it may be older than the
clock. Times are nanoseconds.

Assumptions, each stated where it is used: the clock does not run backwards and
its seconds are positive; for the bounds on tokens and requests and for what can
come in time (`RateBound.Timed`), refill ticks are handled at least one interval
apart and the batch of a tick takes no time.

## Where the code and its documentation differ

The model follows the code.

- `maxRequests + burst <= L` is said to be safe in every sliding window
  (pkg/options.go:84-87). The bucket limits tokens, and a call may hold its token
  for as long as it likes before it sends: the metrics lock, the caller's `GetBody`
  and the scheduler come in between (pkg/circuitbreaker.go:290-319). Counting
  requests, a window sees at most the capacity, a batch per interval and one request
  per slot of the semaphore; that bound is reached, and without a semaphore there is
  none (`RequestRule.SharpRequestBound`). The rule holds of exactly the
  configurations of `RequestRule.KeepsRequestRule` and of those that never send
  (`RequestRule.RequestRuleIff`). While the interval is not coarsened and the burst
  is up to the cap of 10^6, that is none: one more than `maxRequests + burst` and the
  semaphore is what can be relied on, for `maxRequests` up to the interval
  (`RequestRule.FineTickNeedsMore`). The configuration recommended for 200 requests
  a minute can send 201 and one more per slot
  (`RequestRule.RecommendedConfigurationSends`); with the coarse tick 2499 per second
  with a burst of 100 comply with at most 19 slots (`RequestRule.CoarseTickCanComply`).
- Counting tokens the rule is safe for exactly the configurations of
  `RateRule.KeepsRule` (`RateRule.HardLimitRule`). While the interval is not
  coarsened, the remainder of the window divided by `maxRequests` must be at most
  the interval times what the cap takes from the burst: for bursts up to the cap,
  `maxRequests` must divide the window in nanoseconds. With the coarse tick, the
  batches of one window must be at most `maxRequests` plus what the cap takes from
  the burst. The recommended configuration can pass 201 tokens
  (`RateRule.RecommendedConfigurationExceeds`), 2500 per second with a burst of 100
  can pass 2620 (`RateRule.CoarseTickExceeds`).
- A 429 or 503 is said to pause all calls, new ones and retries
  (pkg/options.go:100-104, pkg/circuitbreaker.go:433-436). An attempt that has
  already passed the gate and has a token, or can get one in time, is exempt, and
  nothing else is (`Pausing.GateIsHonoured`, `Exempting.ExemptIff`). This happens in
  exactly the breakers that send at all and let more than one call in at a time
  (`Slipping.LetsSlipIff`, with the run).
- Without a rate limit the wait for the gate is said to be bounded by
  `retryAfterMax` (pkg/circuitbreaker.go:451-452). It is, from the last time the gate
  was armed (`Sleeping.GateWaitEnds`). But another call can pass an opened gate first
  and arm it again, any number of times (`Sleeping.LongWait`): counted from the start
  of the wait, the bound holds of exactly the breakers with one slot, of those that
  never send, and of those whose maximum leaves no room in 64 bits for a later
  deadline (`Sleeping.WaitIsBoundedIff`).
- `ErrStopped` is said to mean that no tokens remain (pkg/errors.go:5-7,
  pkg/circuitbreaker.go:193-195). The wait for the gate returns it while tokens
  remain, in every breaker with a gate and a bucket that sends at all
  (`Stopping.GateTurnsAwayIff`); so does the wait for a token, with or without a gate,
  when more tokens were put than taken since the call found the bucket empty
  (`Stopping.BucketTurnsAwayIff`, `Stopping.LeftWhenTurnedAway`). Once `Stop` has
  returned, a token wait that begins afterwards is turned away only from an empty
  bucket (`Draining.TurnedAwayFromEmpty`).
- Saturation is said to keep a huge header from disarming the gate
  (pkg/circuitbreaker.go:414-417). The gate holds the deadline, not the delay, in
  64 bits: a deadline arms it exactly when it fits (`Pausing.DeadlineHeldIff`).
  Every pause asked for until some time arms the gate exactly when that time and
  the maximum together fit 64 bits (`Pausing.HoldsAllIff`); with a maximum of
  2^63 - 1 ns, `Retry-After: 9999999999` arms nothing (`Gate.EndlessPauseIsLost`).
- The limit of 1026 keys per host is said to include the synthetic keys
  (pkg/circuitbreaker.go:18-20). There are 1027 as soon as 1026 different paths
  have been seen (`Ledger.KeyCount`, `Ledger.TooManyKeys`).
- A cancellation anywhere in the error is said to be neutral (pkg/state.go:74-77).
  For an error tree with joins this fails exactly when the tree also holds a
  deadline and the call saw a transport error (`Errors.CancelIsNeutralIff`); the
  first attempt can do so (`Witnesses.CancelledCallCounts`). For errors of the
  caller's `GetBody` the exception is the same (`Errors.LocalErrorIsNeutralIff`,
  `Witnesses.LocalFailureCounts`).
- The doubling loop is said to be safe from wrap-around (pkg/options.go:150-152).
  It is for every maximum up to 2^62 + 1 ns and for none above
  (`Backoff.CappedIsIdealIff`). With jitter the upper end of the range is excluded
  (`Backoff.WaitRange`).
- With a negative retry limit a call fails as exhausted, and counts against the
  downstream, without an attempt; no other call does (`Guarantees.UnsentFailureIff`,
  `Witnesses.UnsentFailureHappens`).

## Model

| member | source | states |
|---|---|---|
| Probing.NextInv | pkg/state.go:147-227 | every admission and report, in any interleaving, keeps: the probe counter is the number of probes in flight in half-open, no generation has more than maxProbes in flight, generations last at least openFor, the failure counter is the run of failures since the last success or close, and the circuit is closed exactly while that run is under the threshold |
| Probing.ProbeBudget | pkg/state.go:151-185 | over the life of the breaker at most maxProbes probes per full openFor elapsed, plus one per slot handed back by a neutral report |
| Probing.SameAnswers | pkg/state.go:187-227 | no sequence of calls can tell the breaker from a specification in which only non-probes and the probes of the latest half-open period have a say; reports of older probes are stuttering steps |
| Probing.KnockRefines | pkg/state.go:147-174 | an admission decides as the specification does, including the expiry of a period whose probes hang |
| Probing.AnswerRefines | pkg/state.go:190-227 | a report moves the circuit as the specification does |
| Probing.StaleAnswerRefines | pkg/state.go:194-196 | the report of a probe of an older generation is a stuttering step |
| Breaker.Sanitise | pkg/state.go:131-142 | parameters come out valid, valid ones are left alone, and each one out of range becomes its documented minimum whatever the others are |
| Breaker.OpenIsSilent | pkg/state.go:151-155 | while open and until openFor has passed no sequence of admissions and reports changes anything or admits anybody |
| Breaker.NeverWedges | pkg/state.go:158-174 | in every state, one openFor after the later of opening and half-open start a call is admitted, even if no probe ever reports |
| Breaker.ReportMovesIff | pkg/state.go:187-227 | exactly when a report opens the circuit, closes it, counts a failure, forgets the failures or hands a slot back, and that all other reports leave everything as it is |
| Breaker.RefusedIff | pkg/state.go:147-174 | exactly when a call is refused, and that a refusal changes nothing |
| BreakerStates.BreakerState.constructor | pkg/state.go:131-142 | the fresh object is valid and sanitised |
| BreakerStates.BreakerState.Allow | pkg/state.go:147-174 | the object takes the admission step of its history and answers as the specification, with a time that may be old |
| BreakerStates.BreakerState.Report | pkg/state.go:190-227 | the object takes the report step of its history and of the specification, and the ticket is spent |
| Errors.IsIff | pkg/state.go:90-101 | errors.Is finds a sentinel exactly when it is a node of the error tree |
| Errors.AsIff | pkg/state.go:93-98 | errors.As finds a wrapper exactly when some node of the tree is one |
| Errors.LinearCancelIsNeutral | pkg/state.go:72-105 | a cancelled chain is neutral whatever wraps it and whatever happened before |
| Errors.CancelIsNeutralIff | pkg/circuitbreaker.go:252-259 | exactly when an error tree holding a cancellation is neutral |
| Errors.JoinedCancelCanFail | pkg/circuitbreaker.go:252-259 | a cancellation that the transport joins with a deadline is counted as a failure |
| Errors.LocalErrorIsNeutralIff | pkg/state.go:93-96 | exactly when a failure to rewind the body is neutral |
| Errors.LocalErrorCanFail | pkg/circuitbreaker.go:252-259 | a rewind that runs out of time after a transport error is counted as a failure |
| Errors.TransportVerdict | pkg/state.go:97-100 | for every error tree a transport error is a failure exactly when nobody cancelled and no error is local, or when the call is out of time after a transport error |
| Errors.ExhaustionCountsAsItsCause | pkg/errors.go:13-16 | exhausting the retries counts as its last error alone would |
| Bucket.SizeOfEveryBucket | pkg/circuitbreaker.go:101-138 | for all parameters, in numbers: when there is a bucket, its capacity with and without a burst, exactly when its tick is coarse, and its interval and batch in both cases |
| RateBound.FreshBucketLetsOut | pkg/circuitbreaker.go:112-146 | without a burst a fresh bucket lets exactly min(maxRequests, 1 000 000) tokens out before its first tick: no legal history more, and one that many |
| Bucket.CoarseTickKeepsTheRate | pkg/circuitbreaker.go:121-136 | with the coarse tick the at-least-one guard never fires and the nominal rate is met within 2 percent |
| RateBound.WindowBound | pkg/circuitbreaker.go:161-177 | tokens taken in any half-open window are, for ticks an interval apart, at most capacity plus a batch per interval started in it |
| RateBound.BoundIsReached | pkg/circuitbreaker.go:161-177 | for every plan and window some legal history meets that bound |
| RateRule.SharpBound | pkg/circuitbreaker.go:112-139 | a bound on tokens is safe for a plan exactly from that number on |
| RateRule.HardLimitRule | pkg/circuitbreaker.go:112-139 | tokens only: no window sees more than maxRequests + burst tokens taken if and only if rounding and cap, or the batches of the coarse tick, meet a stated condition on maxRequests, window and burst |
| RateRule.DivisibilityRule | pkg/circuitbreaker.go:119-121 | tokens only: short of the cap and of the coarse tick that condition is divisibility, and one more token suffices while maxRequests is at most the interval |
| RateRule.RecommendedConfigurationExceeds | pkg/circuitbreaker.go:112-121 | 199 per 60 s with burst 1 can pass 201 tokens and never more |
| RateRule.CoarseTickExceeds | pkg/circuitbreaker.go:123-137 | 2500 per second with burst 100 divides the window and yet passes 20 tokens more than the rule, and no more |
| RateRule.CappedBurstComplies | pkg/circuitbreaker.go:116-118 | 7 per 60 s with burst 2 000 000 keeps the rule about tokens without dividing the window |
| RateRule.CoarseTickRule | pkg/circuitbreaker.go:123-137 | the least safe bound on tokens with the coarse tick, and its distance from the nominal rate |
| BucketOps.DoIsSound | pkg/circuitbreaker.go:150-180 | ticks, single puts, early stop at a full bucket, takes, stop and the refiller's return keep the bucket equal to its legal history |
| BucketOps.Conservation | pkg/circuitbreaker.go:141-178 | capacity plus tokens put equals tokens held plus tokens taken, within bounds |
| BucketOps.DrainBound | pkg/circuitbreaker.go:501-541 | after Stop has returned only the tokens left then are taken |
| TokenBuckets.Size | pkg/circuitbreaker.go:101-137 | the step-by-step sizing computes the plan: one exactly with both rates positive, with the burst or else maxRequests as capacity, up to a million |
| TokenBuckets.TokenBucket.constructor | pkg/circuitbreaker.go:101-146 | the bucket exists exactly with both rate parameters and starts full |
| TokenBuckets.TokenBucket.Refill | pkg/circuitbreaker.go:165-177 | whenever the tick comes and whoever takes tokens between two passes, one tick adds a batch, or less only when it fills the bucket, and keeps the history legal; the ticks stay spaced exactly if they were and this one keeps its distance |
| TokenBuckets.TokenBucket.TryTake | pkg/circuitbreaker.go:523-529 | takes a token exactly when there is one, in the middle of a batch and after Stop, too |
| TokenBuckets.TokenBucket.Stop | pkg/circuitbreaker.go:501-510 | returns once the refiller has, which may handle some more ticks first while others take tokens; every token is accounted for, and stopping again changes nothing |
| TokenBuckets.TokenBucket.Guarantee | pkg/circuitbreaker.go:161-177 | the window bound on tokens holds of the object as long as the ticks keep their distance |
| Rings.FloatRing.Add | pkg/metrics_state.go:31-39 | the ring holds the latest 20 of all samples and its total is their sum |
| Rings.FloatRing.Mean | pkg/metrics_state.go:41-47 | the mean is the average of the samples held, 0 without any |
| Rings.FloatRing.Slice | pkg/metrics_state.go:51-58 | the latest samples, oldest first |
| Rings.TimeRing.Add | pkg/metrics_state.go:66-69 | the ring holds the latest 20 instants |
| Rings.TimeRing.Slice | pkg/metrics_state.go:71-78 | the latest instants, oldest first |
| Rings.LatestSum | pkg/metrics_state.go:31-39 | subtracting the sample pushed out keeps the sum of those held |
| Wheels.AdvancedShows | pkg/metrics_state.go:87-104 | clearing a gap, or all buckets, keeps the wheel a picture of the last 600 seconds of its log |
| Wheels.RecordedShows | pkg/metrics_state.go:106-118 | every event joins the log, on time, late or too old to be held |
| Wheels.ReadingIsExact | pkg/metrics_state.go:120-130 | asked at or after its last second, for a window of at most 600 s, the wheel returns the number of logged events |
| Wheels.ExactIff | pkg/metrics_state.go:120-130 | asked earlier, a query is exact for every log exactly when its oldest second is still on the wheel |
| Wheels.TakenOverIsCountedTwice | pkg/metrics_state.go:120-130 | the log for which every other query fails |
| Wheels.BucketWheel.Advance | pkg/metrics_state.go:87-104 | the loop over the gap clears what the value says |
| Wheels.BucketWheel.Record | pkg/metrics_state.go:106-118 | the object logs the event and moves to the recorded value |
| Wheels.BucketWheel.CountLast | pkg/metrics_state.go:120-130 | the loop adds up the reading: the exact count when the clock is not behind, what it is otherwise |
| EndpointStates.FamilyState.Record | pkg/metrics_state.go:143-155 | rings, wheel, mean and window counts move to the recorded value, with exact counts when the clock is not behind |
| EndpointStates.EndpointState.Apply | pkg/circuitbreaker.go:585-617 | the five record functions move counter, rings, wheel, mean and window counts of their family and nothing else |
| Ledger.RouteIsStable | pkg/circuitbreaker.go:632-662 | an event settles its path and a settled path keeps its key for ever |
| Ledger.KeyCount | pkg/circuitbreaker.go:646-662 | how many keys a host has after any history; at most 1027 |
| Ledger.TooManyKeys | pkg/circuitbreaker.go:18-20 | the history of 1026 events, one for each of 1026 paths, after which a host has 1027 keys |
| Ledger.RootIsAlwaysSum | pkg/circuitbreaker.go:624-666 | in every reachable store the aggregate is the sum over the other keys, for every additive measure |
| Ledger.CountersAreSums | pkg/circuitbreaker.go:664-665 | in particular for each counter |
| Ledger.WheelsAlwaysShow | pkg/metrics_state.go:143-155 | in every reachable store every wheel shows the log of its key and none is ahead of the clock |
| Ledger.ReadingsAreSums | pkg/circuitbreaker.go:664-665 | what the wheel of the aggregate returns is the sum of what the wheels of the endpoints return, at every second that none of them has passed, whenever each was last advanced |
| Ledger.CountersMatchLogs | pkg/circuitbreaker.go:585-617 | every counter is the number of events of its family |
| Tallies.WhereEventsCount | pkg/circuitbreaker.go:632-662 | in every history an event counts under its own path, spelled apart from the synthetic keys, if that was among the first 1025 different ones of its host, and under ::other if not |
| Tallies.CountersAndSamples | pkg/circuitbreaker.go:585-666 | in every history each counter of each key is the number of events of its kind that count there, and each family holds their starts and durations in order and the mean of the latest |
| Accounts.RecordKeepsInv | pkg/circuitbreaker.go:279-363 | at every key attempts and cancellations minus outcomes equal the calls that still owe an outcome minus the failures not explained |
| MetricsStores.HostTable.Update | pkg/circuitbreaker.go:632-665 | on live states: the branches for one host move exactly the state of the routed key and the aggregate |
| MetricsStores.MetricsStore.UpdateMetrics | pkg/circuitbreaker.go:624-666 | every host and key has a live state of its own, and their values are always what the history of events makes of an empty store |
| MetricsStores.MetricsStore.Guarantees | pkg/circuitbreaker.go:619-666 | the aggregates of the live store add up, wheels included, and the keys stay few |
| Gate.ArmedDelay | pkg/circuitbreaker.go:404-431 | for every 64-bit number of seconds the delay is the capped unbounded product, for every date the capped time until then, 0 once it has passed; never negative, never past the maximum |
| Gate.CoversIff | pkg/circuitbreaker.go:437-441 | the word stored covers a deadline exactly when the deadline fits 64 bits |
| Gate.EndlessPauseIsLost | pkg/circuitbreaker.go:437-441 | a header, a maximum and a clock that leave the gate unarmed |
| Gate.AtomicMax | pkg/circuitbreaker.go:437-445 | on words, each run of the compare-and-swap loop acts as one atomic maximum when it finishes, and the gate never goes down |
| Gate.GateIsMaximum | pkg/circuitbreaker.go:437-445 | in any interleaving a finished run is covered exactly when its deadline fits, all finished leave the maximum of the words, and failed swaps are bounded by the swaps of others |
| Backoff.Sanitise | pkg/options.go:68-78 | parameters come out with 0 < base <= max: 100 ms for a base that makes no sense, the base for a smaller maximum |
| Backoff.BackoffFor | pkg/options.go:153-168 | the doubling loop on words, with cap and jitter |
| Backoff.CappedIsIdealIff | pkg/options.go:150-163 | the wait is min(max, base * 2^attempt) for all bases and attempts exactly when max <= 2^62 + 1 |
| Backoff.WaitRange | pkg/options.go:153-168 | exactly which waits are possible: half a second without exponential backoff; the ideal, and with jitter from half of it, rounded down, to short of twice that half |
| Options.BuiltIsValid | pkg/options.go:130-148 | whatever parameters and options are given, the breaker built satisfies what all the results about calls presuppose |
| Options.OptionsTakeEffect | pkg/options.go:38-128 | in every list of options the last one of each kind sets its field to the value asked for, or to the documented one if that makes no sense |
| Options.WithoutOptions | pkg/options.go:130-148 | without an option of a kind: no circuit, no failures by status, half a second between attempts, a bucket of maxRequests, no gate |
| Options.LastOfItsKindWins | pkg/options.go:38-128 | of two options of one kind the later one counts, options of different kinds commute |
| Options.NeighboursMaySwap | pkg/options.go:130-148 | the order of options of different kinds does not matter, for the bucket in particular |
| Options.Build | pkg/options.go:133-148 | the loop over the options, with the bucket sized after it |
| CallInvs.StepInv | pkg/circuitbreaker.go:197-397 | every step of Do keeps the invariants of the call: attempts, bodies, tokens, slot, account, spacing, result and report |
| Effects.StepFollows | pkg/circuitbreaker.go:237-271 | what a call holds changes only by the effect of its step on the shared parts |
| Circuit.NextInv | pkg/circuitbreaker.go:197-397 | every event of the whole system keeps all invariants and the ties between calls and shared parts |
| Circuit.ReachableInv | pkg/circuitbreaker.go:197-397 | they hold in every reachable state |
| Guarantees.PartsTakeTheirOwnSteps | pkg/circuitbreaker.go:239-260 | an event of the system is one step of the breaker protocol and of the bucket or leaves them, and moves the gate by the maximum with the deadline it offers, if any |
| Progress.GoesOnIff | pkg/circuitbreaker.go:235-397 | a call that is not done can go on, uncancelled, exactly when it does not wait for a slot with all taken, a token with none there, the gate while closed, or the end of its backoff |
| Retrying.LastWordDecides | pkg/circuitbreaker.go:279-396 | in every run every call is where the last thing said to it demands: the result it returns, or that it goes on |
| Retrying.OverForGood | pkg/circuitbreaker.go:239-271 | once out of its loop a call keeps its result and sends no more, in any continuation |
| Retrying.JudgementDecides | pkg/circuitbreaker.go:362-396 | in every run: an error judged not retryable, or of a body that cannot be sent again, is returned as it is and nothing more is sent; one judged retryable is retried while attempts are left and reported as exhaustion after the last |
| Retrying.RetryIsRecordedNext | pkg/circuitbreaker.go:384-390 | the next step of a call that is to retry can only record the retry and begin the wait |
| Retrying.WaitEndsOnTime | pkg/circuitbreaker.go:346-356 | in every run a wait ends exactly one backoff after it began, or at the deadline asked for if that is later |
| Retrying.ExhaustionLaw | pkg/circuitbreaker.go:374-396 | in every run a call reports exhaustion exactly when its body can be sent again and every attempt permitted ended in an error judged retryable or a response that asked for a pause, the last one in such an error, which it unwraps to |
| Asking.ResponseDecides | pkg/circuitbreaker.go:319-360 | in every run a recorded response goes to the gate exactly when it is a 429 or 503 with a readable header and the gate is on, with the pause that the header asks for, and is returned for good otherwise |
| Asking.ArmingDecides | pkg/circuitbreaker.go:332-359 | in every run the gate is raised to the time of arming plus that pause; the call then retries, not before it, if an attempt is left and its body can be sent again, and returns the response for good if not |
| Asking.PastDateIsHarmless | pkg/circuitbreaker.go:423-429 | a response whose date has passed never moves the gate beyond the clock of its arming |
| Reporting.ResponseReport | pkg/state.go:84-88 | every call that ends with a response reports a failure exactly when its status reaches a positive limit, and a success otherwise |
| Reporting.EveryReportIsFair | pkg/circuitbreaker.go:245-260 | in every run, for every way a call can end, what it reports |
| Reporting.ReportsMoveTheCircuit | pkg/circuitbreaker.go:252-259 | a call moves the circuit by the verdict on its result, at the clock of its report |
| Reporting.ResponsesMoveTheCircuit | pkg/state.go:190-227 | in a closed circuit a good response leaves no failure counted, and a bad one is the next failure and opens the circuit exactly at the threshold |
| Reporting.RefusedIffAtEntry | pkg/circuitbreaker.go:239-244 | in every run exactly when a call is refused, by the time at which it came |
| Books.RunIsBooked | pkg/circuitbreaker.go:279-363 | in every run the events of the store are exactly the entries that the stories of the calls call for: kind, host, path ("/" for none), start of the attempt and time |
| Books.CountersOfRun | pkg/circuitbreaker.go:279-386 | in every run, under every key: successes are the recorded responses under the failure limit; failures are those at or above it, transport errors, failed rewinds and failed waits for permission; and attempts, retries and cancellations are counted one by one |
| Guarantees.ProbeAccounting | pkg/state.go:147-227 | probe counter, per-generation limit and long-run budget in terms of the calls of the system |
| Guarantees.ReportsOnce | pkg/circuitbreaker.go:239-261 | an admitted call holds a live ticket until it is done, reports once, and the report is the verdict on its result |
| Guarantees.RefusalTouchesNothing | pkg/circuitbreaker.go:235-244 | a call refused by the open circuit leaves semaphore, bucket, gate and metrics as they were |
| Guarantees.SlotAccounting | pkg/circuitbreaker.go:263-271 | occupancy is the number of calls between acquire and exit, on every path, and never above the limit |
| Guarantees.TokenAccounting | pkg/circuitbreaker.go:290-302 | tokens are conserved and each recorded attempt took exactly one |
| Guarantees.RateAccounting | pkg/circuitbreaker.go:161-177 | the window bound on tokens for the running system |
| Requests.SentWithinTaken | pkg/circuitbreaker.go:290-319 | in any window of any run no more requests are sent than tokens are taken, plus one per slot of the semaphore |
| Requests.RequestBound | pkg/options.go:80-91 | with spaced ticks no window sees more requests than capacity, batches and slots together |
| Barrages.MostAreSent | pkg/circuitbreaker.go:290-319 | for every configuration with a bucket and a semaphore that sends, and every window, a run whose requests meet that bound |
| Barrages.AnyNumberIsSent | pkg/circuitbreaker.go:290-319 | without a semaphore, for every number a run that sends so many requests at one moment |
| RequestRule.SharpRequestBound | pkg/options.go:80-91 | a bound on the requests of a window is safe exactly when there is a semaphore and the bound is at least that number |
| RequestRule.RequestRuleIff | pkg/options.go:84-87 | for every configuration with a bucket, no sliding window sees more than maxRequests + burst requests if and only if nothing is ever sent or maxRequests, window, burst and maxConcurrent meet a stated condition |
| RequestRule.FineTickNeedsMore | pkg/options.go:84-87 | without the coarse tick and the cap the documented rule never holds of a breaker that sends; adding the slots and one makes it safe while maxRequests is at most the interval |
| RequestRule.RecommendedConfigurationSends | pkg/options.go:85-87 | the least safe bound for 199 per 60 s with burst 1: 201 and the slots, and none without a semaphore |
| RequestRule.NoBoundWithoutSemaphore | pkg/options.go:84-87 | a built configuration whose tokens keep the rule and whose requests keep no bound |
| RequestRule.CoarseTickCanComply | pkg/circuitbreaker.go:123-137 | 2499 per second with burst 100 keeps the rule about requests with 1 to 19 slots and with no other number |
| Guarantees.CounterConservation | pkg/circuitbreaker.go:279-363 | for every key and the aggregate: total + cancellations + unexplained failures = successes + failures + unanswered attempts |
| Guarantees.WhoIsUnsettled | pkg/circuitbreaker.go:283-332 | unanswered attempts are under way or panicked; unexplained failures are about to be explained or due to Stop |
| Guarantees.MetricsAccounting | pkg/circuitbreaker.go:619-666 | counters and wheel readings of the aggregates of the running system add up |
| Guarantees.WheelsBehindTheClock | pkg/metrics_state.go:143-155 | no wheel of the running system is ahead of the clock, so every later second may be asked for |
| Guarantees.StoreIsLive | pkg/circuitbreaker.go:585-617 | the metrics of the system are the value of the live store after the same records, each of which meets what that store asks of its callers |
| Guarantees.FailureIsEvidence | pkg/circuitbreaker.go:245-260 | a reported failure means the call was sent, unless the retry limit is negative; a panic always fails; a bare deadline fails exactly after a transport error |
| Guarantees.UnsentFailureIff | pkg/circuitbreaker.go:279-396 | a call that ended unsent is counted as a failure exactly when the retry limit is negative and the empty loop was reached |
| Guarantees.RetryLaw | pkg/circuitbreaker.go:303-316 | at most MaxRetries + 1 sends, only replayable bodies twice, always the original bytes, and never a missing GetBody |
| Guarantees.ExhaustionLaw | pkg/circuitbreaker.go:374-396 | exhaustion is returned exactly when the call remembers an end for every permitted attempt, and unwraps to the last transport error |
| Guarantees.SpacingLaw | pkg/circuitbreaker.go:340-391 | consecutive attempts are at least the backoff apart and not before the deadline the server asked for |
| Draining.DrainAfterStop | pkg/circuitbreaker.go:497-541 | in every run after Stop returned only the remaining tokens are taken |
| Draining.StopOnlyWhenFoundEmpty | pkg/circuitbreaker.go:512-541 | a call that ErrStopped turned away from the token wait had, in that attempt, found the bucket empty at a moment of its history when it was; without a gate no other wait ends so |
| Draining.TurnedAwayFromEmpty | pkg/circuitbreaker.go:497-541 | once Stop has returned, a wait that begins afterwards and is turned away leaves the bucket empty |
| Draining.EmptyForGood | pkg/circuitbreaker.go:497-541 | and from then on nobody ever gets a token |
| Releasing.StopReleasesEverybody | pkg/circuitbreaker.go:447-541 | when Stop has returned and the bucket is empty: in every run, whatever the others do, a call waiting for the gate or a token that is not cancelled is out with ErrStopped after a bounded number of its own steps, the bound being fixed by the calls that may still arm the gate; until then it always has a step to take |
| Stopping.GateTurnsAwayIff | pkg/circuitbreaker.go:453-471 | the gate wait can return ErrStopped while tokens remain exactly in the breakers with a gate and a bucket that send at all |
| Stopping.BucketTurnsAwayIff | pkg/circuitbreaker.go:532-540 | the token wait can return ErrStopped while tokens remain exactly in the breakers with a bucket that send at all |
| Stopping.LeftWhenTurnedAway | pkg/circuitbreaker.go:523-540 | the tokens that remain then are those put and not taken since the call found the bucket empty |
| Pausing.GateAccounting | pkg/circuitbreaker.go:332-338 | the gate never goes down, fits 64 bits, and is at most the maximum ahead of the clock |
| Pausing.DeadlineHeldIff | pkg/circuitbreaker.go:332-338 | a response that asks for a pause has armed the gate exactly when its deadline fits 64 bits |
| Pausing.HoldsAllIff | pkg/options.go:100-117 | every pause asked for until a time arms the gate if and only if that time and the configured maximum together fit 64 bits (or nothing is ever sent) |
| Pausing.GateIsHonoured | pkg/circuitbreaker.go:453-471 | once the gate stands at a deadline, no call, old or new, first attempt or retry, reaches the transport before it in any continuation, except by an attempt already past its gate load |
| Exempting.ExemptIff | pkg/circuitbreaker.go:279-300 | for every call, exactly which of its sends can still precede the deadline in some continuation: in all of the run, before and after, the ticks keep their distance |
| Slipping.LetsSlipIff | pkg/circuitbreaker.go:332-338 | some send can precede a deadline that the gate already holds, by a run from the start, exactly in the breakers that send at all and have more than one slot or no semaphore |
| Sleeping.GateWaitEnds | pkg/circuitbreaker.go:446-471 | from one maximum after the last arming on, no call falls asleep at the gate and every sleeper can wake up and pass |
| Sleeping.LongWait | pkg/circuitbreaker.go:446-471 | without a rate limit and with two slots, for every n, a call that waits for the gate longer than n times the maximum |
| Sleeping.WaitIsBoundedIff | pkg/circuitbreaker.go:451-452 | without a rate limit, every sleep at the gate ends within one maximum of the start of the wait exactly in breakers with one slot, without attempts, or with a maximum at the end of the 64 bits |
| Witnesses.UnsentFailureHappens | pkg/circuitbreaker.go:279-396 | every configuration with a circuit and a negative retry limit has a run that fails against the downstream without an attempt |
| Witnesses.CancelledCallCounts | pkg/circuitbreaker.go:245-260 | in every configuration with a circuit some reachable call that was cancelled is reported as a failure |
| Witnesses.LocalFailureCounts | pkg/circuitbreaker.go:307-315 | in every configuration with a circuit and retries some reachable call that failed to rewind its own body is reported as a failure |
| Registry.NamesKeepInstances | pkg/manager.go:52-129 | over any sequence of create, strict create, configure and remove the two maps stay paired and a name keeps its instance and parameters until it is removed |
| Registry.AcceptedIff | pkg/spec.go:67-85 | specifications are accepted exactly when none diverges and every one that mentions a rate gets a bucket |
| Registry.NewNamesGetWhatIsAskedFor | pkg/manager.go:52-100 | a free name is registered with the parameters and options asked for |
| Registry.RemovalIsFinal | pkg/manager.go:114-129 | after its removal a name never gets the same instance again |
| Registry.ConfigureIsIdempotent | pkg/spec.go:37-52 | accepted specifications are accepted again after any calls that spare their names, and lead to the same instances |
| Registry.Manager.NewCircuitBreaker | pkg/manager.go:52-69 | the object takes the step of its history; a name keeps its instance |
| Registry.Manager.NewCircuitBreakerStrict | pkg/manager.go:76-100 | divergent parameters are refused and change nothing |
| Registry.Manager.Remove | pkg/manager.go:117-129 | both maps lose the name and the instance is stopped |
| Registry.Manager.Configure | pkg/spec.go:53-104 | all or nothing: fails exactly when some specification does not fit, and then changes nothing; otherwise the result is determined whatever the order of names |
| Registry.Manager.CreateMissing | pkg/spec.go:88-103 | existing instances stay, without a second application of options, and missing ones are created with the parameters and options specified |

## Left out

- RateBound.WindowBound: assumes spaced ticks and instantaneous batches, as Go's ticker may deliver a late tick close to the next one.
- DoCalls.Step: the clock is read once where the code reads it twice without a step of another call mattering in between (waiting time and start of the wait); a call may read and use the gate or the clock arbitrarily late.
- Circuit.AccountsAfter: the end of an attempt is the moment of its record; the code reads it just before the metrics lock. Only mean durations depend on it.
- Releasing.StopReleasesEverybody: a call that still waits for a slot of the semaphore is covered only once it has one.
- Errors.Is: error types with their own `Is`, `As` or `Unwrap` beyond the tree shape; the package's own sentinel comparison for exhausted retries.
- Gate.Parse: trimming, integer and HTTP-date syntax; the header comes as an integer or a date difference that fits 64 bits.
- Bucket.MakePlan: overflow of the window in nanoseconds for window lengths of centuries, and floating-point rounding (reals are used).
- Registry.Manager.Configure: error texts and the type check of the manager; names are visited in any order instead of sorted.
- The transport, `http.Client`, bodies as streams beyond how much of them was consumed, draining and closing of responses.
- `WithDefaultTimeout` and `cancelOnClose`: they only add another deadline.
- Which errors are retryable: the policy's answer is chosen by the environment.
- `Metrics()` and `snapshot`: copying of fields; JSON names.
- `List`, `StopAll`, `GetCircuitBreaker`, `State`, `String`, the root aliases, `cmd/` and `internal/`: forwarding or demonstration.
- Wrap-around of the generation number, of the 32-bit buckets and of the counters.
