# Service-health monitor of aws-java-sdk-resiliency, in Dafny

This project models the health monitor of the library. The library's request handler sees every attempt the AWS SDK
makes. It counts attempts and failed attempts in two five-minute sliding windows. After each attempt it decides
whether the service is HEALTHY or UNHEALTHY, and it records that decision in a tracker that other code can read.

- `clock.dfy` (module `Clock`): instants are whole seconds. `Duration.between(a, b).toMinutes()` is modelled by
  `ElapsedMinutes`, which truncates toward zero the way Java's division does.
- `counter.dfy` (module `Counter`): `SlidingWindowCounter`. The class keeps the fields `count` and `lastEvent`,
  which is the instant the window opened. `Window`, `PastPeriod`, `Reported` and `Incremented` give its state and
  operations as values. The lemmas say when the window expires, how `increment` relates to `getCountPerInterval`,
  and what a run of increments returns.
- `health.dfy` (module `Health`): `ServiceHealthTracker`. It is a two-state machine with the instant of its last
  effective change. `Transition` is the value-level setter. `Replay` and `Flips` describe sequences of setter calls.
- `monitor.dfy` (module `Monitor`): `ServiceHealthRequestHandler`. `Attempt` is the value-level `afterAttempt`.
  `AfterAttempt` mutates the two counters it owns and the tracker it shares. The lemmas cover the decision rule,
  its boundaries and the unit-test scenarios.

Every class method is proved against its value-level function (`ensures State() == Incremented(old(State()), …)`).
The properties are proved about those functions. `now` is a parameter wherever the source reads the clock.

The constructor's Javadoc (`ServiceHealthRequestHandler.java:35`) calls `errorRateThreshold` a percentage between
0 and 1. The constructor (`:39-45`) checks neither that value nor `minRequests`, and the model follows the code. In
the same way, `SlidingWindowCounter` accepts any interval (`SlidingWindowCounter.java:19-23`). With a negative
interval, every `increment` made at or after the window's start finds the window expired, so the counter never
returns more than 1. The handler always passes 5.

## Model

| member | source | states |
|---|---|---|
| `Clock.WholeMinutes` | src/main/java/com/hanegraaff/resiliency/metrics/SlidingWindowCounter.java:64 | minutes from seconds truncate toward zero: for non-negative input `0 <= m*60 <= s < m*60+60`, for negative input `m*60-60 < s <= m*60 <= 0` |
| `Clock.ElapsedMinutesExceed` | src/main/java/com/hanegraaff/resiliency/metrics/SlidingWindowCounter.java:63-65 | more than `m` truncated minutes have elapsed iff at least `(m+1)*60` seconds have |
| `Counter.ExpiryBoundary` | src/main/java/com/hanegraaff/resiliency/metrics/SlidingWindowCounter.java:63-65 | the window expires iff `now - start >= (intervalMin+1)` minutes; exactly `intervalMin` minutes plus up to 59 seconds is still inside (strict `>`) |
| `Counter.IncrementIsReadPlusOne` | src/main/java/com/hanegraaff/resiliency/metrics/SlidingWindowCounter.java:29-50 | `increment` returns one more than `getCountPerInterval` reports at that instant; it keeps a live window's start and restarts an expired window at `now` with count 1, whatever the old count |
| `Counter.ReadAfterIncrement` | src/main/java/com/hanegraaff/resiliency/metrics/SlidingWindowCounter.java:29-50 | right after `increment`, `getCountPerInterval` at the same instant returns the value `increment` returned |
| `Counter.IncrementKeepsCountPositive` | src/main/java/com/hanegraaff/resiliency/metrics/SlidingWindowCounter.java:21-37 | from a non-negative count, `increment` returns at least 1 and `getCountPerInterval` never reports a negative count |
| `Counter.NegativeIntervalAlwaysRestarts` | src/main/java/com/hanegraaff/resiliency/metrics/SlidingWindowCounter.java:19-37 | with a negative interval, which the constructor accepts, every increment at or after the window start restarts the window at count 1, and a read there reports 0 |
| `Counter.IncrementsWithinWindow` | src/test/java/com/hanegraaff/resiliency/metrics/SlidingWindowCounterTest.java:16-24 | n increments inside the window opened at `t0` return `c+1 … c+n` (1 … n for a fresh counter) and leave the state `Window(c+n, t0)` |
| `Counter.RolloverAfterGap` | src/test/java/com/hanegraaff/resiliency/metrics/SlidingWindowCounterTest.java:27-39 | three increments return 1, 2, 3; at any instant six or more minutes later (the test uses a date centuries on) the counter reads 0 and the next increment returns 1, not 4 |
| `Counter.SlidingWindowCounter.constructor` | src/main/java/com/hanegraaff/resiliency/metrics/SlidingWindowCounter.java:19-23 | a new counter has count 0, its window opens at construction time, and it keeps the given interval |
| `Counter.SlidingWindowCounter.Increment` | src/main/java/com/hanegraaff/resiliency/metrics/SlidingWindowCounter.java:29-37 | the new state is `Incremented(old state)`; the result is the new count, at least 1; `count >= 0` is preserved |
| `Counter.SlidingWindowCounter.GetCountPerInterval` | src/main/java/com/hanegraaff/resiliency/metrics/SlidingWindowCounter.java:44-50 | returns 0 for an expired window and `count` otherwise; the result lies in `0..count`; no field changes (no `modifies`) |
| `Health.TransitionIdempotent` | src/main/java/com/hanegraaff/resiliency/health/ServiceHealthTracker.java:26-41 | after either setter the state is the requested one; repeating the call at any instant changes nothing; a request for the current state is a no-op |
| `Health.TimestampMovesIffStateFlips` | src/main/java/com/hanegraaff/resiliency/health/ServiceHealthTracker.java:26-41 | a flip stamps the tracker with `now`; when `now` differs from the old stamp, the stamp moves iff the state flips |
| `Health.RepeatedRequestsChangeNothing` | src/main/java/com/hanegraaff/resiliency/health/ServiceHealthTracker.java:27-37 | any sequence of calls that all ask for the current state leaves state and timestamp unchanged |
| `Health.ReplayEndsInLastRequest` | src/main/java/com/hanegraaff/resiliency/health/ServiceHealthTracker.java:26-41 | after any non-empty sequence of setter calls the state is the one the last call asked for |
| `Health.ReplayTimestampIsLastFlip` | src/main/java/com/hanegraaff/resiliency/health/ServiceHealthTracker.java:26-41 | across any sequence of calls the timestamp is the instant of the last call that flipped the state, or the original one if none did; the state differs from the start iff it flipped an odd number of times |
| `Health.ReplayConcat` | src/main/java/com/hanegraaff/resiliency/health/ServiceHealthTracker.java:26-41 | replaying the concatenation of two call sequences equals replaying the first and then the second from where it ended |
| `Health.TrackerScenario` | src/test/java/com/hanegraaff/resiliency/health/ServiceHealthTrackerTest.java:13-38 | in one run: four `setHealthy` calls leave a new tracker HEALTHY with its creation stamp; `setUnhealthy` at another instant makes it UNHEALTHY stamped with that instant; three more `setUnhealthy` calls leave it `UNHEALTHY` with that same stamp |
| `Health.ServiceHealthTracker.constructor` | src/main/java/com/hanegraaff/resiliency/health/ServiceHealthTracker.java:18-21 | a new tracker is HEALTHY, stamped with its creation time |
| `Health.ServiceHealthTracker.SetUnhealthy` | src/main/java/com/hanegraaff/resiliency/health/ServiceHealthTracker.java:26-31 | the new state is `Transition(old state, Unhealthy, now)` |
| `Health.ServiceHealthTracker.SetHealthy` | src/main/java/com/hanegraaff/resiliency/health/ServiceHealthTracker.java:36-41 | the new state is `Transition(old state, Healthy, now)` |
| `Health.ServiceHealthTracker.GetHealthState` | src/main/java/com/hanegraaff/resiliency/health/ServiceHealthTracker.java:47-49 | returns the current health and modifies nothing |
| `Health.ServiceHealthTracker.GetLastStateChange` | src/main/java/com/hanegraaff/resiliency/health/ServiceHealthTracker.java:55-57 | returns the instant of the last effective change and modifies nothing |
| `Monitor.BreachCrossMultiplied` | src/main/java/com/hanegraaff/resiliency/handlers/ServiceHealthRequestHandler.java:74-76 | since `evtCnt >= 1`, the rate test `errCnt/evtCnt > threshold` equals `errCnt > threshold * evtCnt` |
| `Monitor.Attempt` | src/main/java/com/hanegraaff/resiliency/handlers/ServiceHealthRequestHandler.java:54-84 | every attempt leaves the event count at least 1, so the rate's division is defined |
| `Monitor.AttemptCounts` | src/main/java/com/hanegraaff/resiliency/handlers/ServiceHealthRequestHandler.java:56-63 | the event counter is incremented exactly once per attempt; the error counter is incremented iff the attempt failed, and after a success its state is unchanged |
| `Monitor.AttemptDecision` | src/main/java/com/hanegraaff/resiliency/handlers/ServiceHealthRequestHandler.java:74-83 | afterwards the tracker is UNHEALTHY iff `evtCnt > minRequests` and `errCnt/evtCnt > threshold`, where both counts are defined from what the counters reported before the attempt; otherwise it is HEALTHY; the prior health plays no part; the stamp moves only on a flip |
| `Monitor.FewAttemptsStayHealthy` | src/main/java/com/hanegraaff/resiliency/handlers/ServiceHealthRequestHandler.java:76-82 | while `evtCnt <= minRequests` the tracker ends HEALTHY, failed attempt or not |
| `Monitor.FailuresWithinOneWindow` | src/main/java/com/hanegraaff/resiliency/handlers/ServiceHealthRequestHandler.java:54-84 | failures inside one window raise both counts together (rate 1); the tracker ends UNHEALTHY iff the count exceeds `minRequests` and the threshold is below 1 |
| `Monitor.RepeatedFailuresTurnUnhealthy` | src/test/java/com/hanegraaff/resiliency/handlers/ServiceHealthRequestHandlerTest.java:48-63 | threshold 0, `minRequests` 1: failures in one window leave the tracker HEALTHY after attempt 1 and UNHEALTHY from attempt 2 on, so five failures leave it UNHEALTHY |
| `Monitor.SuccessesStayHealthy` | src/main/java/com/hanegraaff/resiliency/handlers/ServiceHealthRequestHandler.java:57-83 | with an empty error count and a non-negative threshold, any run of successes at any instants leaves the error counter unchanged and the tracker HEALTHY |
| `Monitor.FiveSuccessesStayHealthy` | src/test/java/com/hanegraaff/resiliency/handlers/ServiceHealthRequestHandlerTest.java:31-45 | threshold 0, `minRequests` 5: five successes leave a new handler's tracker HEALTHY |
| `Monitor.RateCanExceedOne` | src/main/java/com/hanegraaff/resiliency/handlers/ServiceHealthRequestHandler.java:40-63 | the two windows restart independently, so a reachable run ends with 1 event against 3 errors and breaches even a threshold of 1 |
| `Monitor.ServiceHealthRequestHandler.constructor` | src/main/java/com/hanegraaff/resiliency/handlers/ServiceHealthRequestHandler.java:39-45 | two fresh, distinct, empty five-minute counters; threshold and `minRequests` stored unvalidated; the shared tracker is kept by reference and not touched |
| `Monitor.ServiceHealthRequestHandler.AfterAttempt` | src/main/java/com/hanegraaff/resiliency/handlers/ServiceHealthRequestHandler.java:54-84 | the counters and the tracker end in `Attempt(old state, configuration, failed, now)`; the counters stay distinct and valid |

## Left out

- Logging: the two `log.warn` messages and their `String.format` text are not modelled. They are diagnostic output and do not affect the health decision.
- Attempt metadata: the service name and endpoint host come from plain getters on the SDK's `HandlerAfterAttemptContext` (`ServiceHealthRequestHandler.java:59-60`). The operation name and exception class come from `getClass().getSimpleName()` (`:65-66`). The model reduces the context to a boolean `failed`, which means "the context carries an exception".
- Null metadata: the model assumes the context's request, endpoint and original request are non-null, as the SDK supplies them. If one of them is null, the source throws a `NullPointerException` after updating a counter (`:56` or `:63`) and before it decides the health (`:76-83`). `Monitor.Attempt` always completes.
- Concurrency: the atomicity of `AtomicInteger` and the unsynchronised `lastEvent` and tracker fields are not modelled. Only sequential calls are modelled.
- Wall clock: `LocalDateTime.now()` becomes a `now` parameter in whole seconds, and sub-second precision is not modelled. The source reads the clock in these places:
  - once in each counter's constructor (`SlidingWindowCounter.java:22`);
  - once in the tracker's constructor (`ServiceHealthTracker.java:20`);
  - once or twice in `increment`;
  - once in `getCountPerInterval`;
  - once in a setter that flips the state.
  
  Every one of those reads becomes the single `now` of the call. The handler's constructor opens both counters at one `now`, where the source reads the clock once per counter (`ServiceHealthRequestHandler.java:40-41`). `afterAttempt` passes the same `now` to the counters and the tracker.
- `Health.TrackerScenario`: the tracker test's `assertNotEquals` (`ServiceHealthTrackerTest.java:29`) holds only if `LocalDateTime.now()` has moved on between the constructor and `setUnhealthy`. The lemma's `requires u != t0` records that assumption of the test.
- `Counter.SlidingWindowCounter.Increment`: does not model the 32-bit wrap-around of `AtomicInteger`, which needs more than 2^31-1 events in one window. The count is an unbounded integer, so `count >= 0` holds without qualification.
- `Monitor.AttemptDecision`: compares the error rate as an exact rational, not with IEEE `double` rounding. A NaN threshold, which would make every comparison false, has no `real` counterpart.
- `Health.HealthState` has the two values the code uses, HEALTHY and UNHEALTHY (`ServiceHealthTracker.java:19, 27, 37`).
- The fault injectors (`ProgrammableExceptionRequestHandler`, `NetworkDelayRequestHandler`) are left out because they are randomised and sleep. `ConfigurationBuilder` is left out because it only builds SDK presets. The demo programs are left out because they make live network calls.
