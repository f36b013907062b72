/** The request handler that re-evaluates a service's health after every attempt. */
module Monitor {
  import opened Clock
  import opened Counter
  import opened Health

  /** `metricInterval`: both of the handler's counters use five-minute windows. */
  const MetricInterval: int := 5

  /** The handler's fixed configuration, as passed to its constructor and never validated. */
  datatype Config = Config(errorRateThreshold: real, minRequests: int)

  /** The error rate of an attempt: errors over attempts counted in their windows (exact, not IEEE). */
  function ErrorRate(errCnt: int, evtCnt: int): real
    requires evtCnt > 0
  {
    errCnt as real / evtCnt as real
  }

  /** The handler's health condition: more than `minRequests` attempts and an error rate above the threshold. */
  predicate Breach(evtCnt: int, errCnt: int, cfg: Config)
    requires evtCnt > 0
  {
    evtCnt > cfg.minRequests && ErrorRate(errCnt, evtCnt) > cfg.errorRateThreshold
  }

  /** The rate test is the cross-multiplied comparison `errCnt > threshold * evtCnt`, because `evtCnt >= 1`. */
  lemma BreachCrossMultiplied(evtCnt: int, errCnt: int, cfg: Config)
    requires evtCnt > 0
    ensures Breach(evtCnt, errCnt, cfg) <==>
      evtCnt > cfg.minRequests && errCnt as real > cfg.errorRateThreshold * evtCnt as real
  {
    var e := evtCnt as real;
    assert ErrorRate(errCnt, evtCnt) * e == errCnt as real;
    if ErrorRate(errCnt, evtCnt) > cfg.errorRateThreshold {
      assert ErrorRate(errCnt, evtCnt) * e > cfg.errorRateThreshold * e;
    } else {
      assert ErrorRate(errCnt, evtCnt) * e <= cfg.errorRateThreshold * e;
    }
  }

  /** Equal error and attempt counts give a rate of exactly 1. */
  lemma RateOfEqualCounts(n: int)
    requires n > 0
    ensures ErrorRate(n, n) == 1.0
  {
    var e := n as real;
    assert e / e * e == 1.0 * e;
  }

  /** What the handler acts on: its two counters and the tracker it writes to. */
  datatype Observed = Observed(events: Window, errors: Window, status: Status)

  /** `afterAttempt` for an attempt that `failed` or not, at `now`. */
  function Attempt(m: Observed, cfg: Config, failed: bool, now: int): (r: Observed)
    requires m.events.count >= 0
    ensures r.events.count >= 1
  {
    var events := Incremented(m.events, MetricInterval, now);
    var errCnt := if failed then Incremented(m.errors, MetricInterval, now).count
                  else Reported(m.errors, MetricInterval, now);
    var errors := if failed then Incremented(m.errors, MetricInterval, now) else m.errors;
    var target := if Breach(events.count, errCnt, cfg) then Unhealthy else Healthy;
    Observed(events, errors, Transition(m.status, target, now))
  }

  /** One attempt reported to the handler: whether it failed and when it completed. */
  datatype AttemptEvent = AttemptEvent(failed: bool, at: int)

  /** The handler's state after `afterAttempt` has run for each of `attempts` in turn. */
  function Run(m: Observed, cfg: Config, attempts: seq<AttemptEvent>): (r: Observed)
    requires m.events.count >= 0
    ensures r.events.count >= 0
    decreases |attempts|
  {
    if attempts == [] then m
    else Run(Attempt(m, cfg, attempts[0].failed, attempts[0].at), cfg, attempts[1..])
  }

  /** Every attempt is counted exactly once; a failed one is also counted as an error, while after a
      success the error counter is only read and keeps its state. */
  lemma AttemptCounts(m: Observed, cfg: Config, failed: bool, now: int)
    requires m.events.count >= 0
    ensures Attempt(m, cfg, failed, now).events == Incremented(m.events, MetricInterval, now)
    ensures Attempt(m, cfg, failed, now).events.count == Reported(m.events, MetricInterval, now) + 1
    ensures !failed ==> Attempt(m, cfg, failed, now).errors == m.errors
    ensures failed ==> Attempt(m, cfg, failed, now).errors == Incremented(m.errors, MetricInterval, now)
    ensures failed ==> Attempt(m, cfg, failed, now).errors.count == Reported(m.errors, MetricInterval, now) + 1
  {
    IncrementIsReadPlusOne(m.events, MetricInterval, now);
    IncrementIsReadPlusOne(m.errors, MetricInterval, now);
  }

  /** After an attempt the tracker is unhealthy if and only if the attempts counted so far, this one
      included, exceed `minRequests` and their error rate exceeds the threshold; otherwise it is
      healthy. The previous health plays no part, and the timestamp moves only on a flip. */
  lemma AttemptDecision(m: Observed, cfg: Config, failed: bool, now: int)
    requires m.events.count >= 0
    ensures var evtCnt := Reported(m.events, MetricInterval, now) + 1;
      var errCnt := Reported(m.errors, MetricInterval, now) + (if failed then 1 else 0);
      evtCnt >= 1 &&
      (Attempt(m, cfg, failed, now).status.health == Unhealthy <==> Breach(evtCnt, errCnt, cfg))
    ensures Attempt(m, cfg, failed, now).status
      == Transition(m.status, Attempt(m, cfg, failed, now).status.health, now)
  {
    IncrementIsReadPlusOne(m.events, MetricInterval, now);
    IncrementIsReadPlusOne(m.errors, MetricInterval, now);
  }

  /** While no more than `minRequests` attempts are counted, the tracker ends healthy whatever failed. */
  lemma FewAttemptsStayHealthy(m: Observed, cfg: Config, failed: bool, now: int)
    requires m.events.count >= 0
    requires Reported(m.events, MetricInterval, now) + 1 <= cfg.minRequests
    ensures Attempt(m, cfg, failed, now).status.health == Healthy
  {
    AttemptDecision(m, cfg, failed, now);
  }

  /** Failing attempts that all fall inside the windows both counters opened at `t0` push both counts
      up together, so the error rate is 1: the tracker ends unhealthy exactly when more than
      `minRequests` attempts are counted and the threshold is below 1. */
  lemma {:induction false} FailuresWithinOneWindow(c: int, t0: int, s: Status, cfg: Config, attempts: seq<AttemptEvent>)
    requires c >= 0 && attempts != []
    requires forall k :: 0 <= k < |attempts| ==> attempts[k].failed
    requires forall k :: 0 <= k < |attempts| ==> attempts[k].at - t0 < (MetricInterval + 1) * SecondsPerMinute
    ensures var r := Run(Observed(Window(c, t0), Window(c, t0), s), cfg, attempts);
      var n := c + |attempts|;
      r.events == Window(n, t0) && r.errors == Window(n, t0) &&
      r.status.health == (if n > cfg.minRequests && cfg.errorRateThreshold < 1.0 then Unhealthy else Healthy)
    decreases |attempts|
  {
    var m := Observed(Window(c, t0), Window(c, t0), s);
    var a := attempts[0];
    ExpiryBoundary(Window(c, t0), MetricInterval, a.at);
    var next := Attempt(m, cfg, a.failed, a.at);
    assert next.events == Window(c + 1, t0) && next.errors == Window(c + 1, t0);
    RateOfEqualCounts(c + 1);
    if |attempts| > 1 {
      FailuresWithinOneWindow(c + 1, t0, next.status, cfg, attempts[1..]);
    }
  }

  /** The handler's unit test for a failing service: with threshold 0 and `minRequests` 1, failing
      attempts inside one window leave a new handler's tracker healthy after the first attempt and
      unhealthy from the second on, so five of them leave it unhealthy. */
  lemma RepeatedFailuresTurnUnhealthy(t0: int, s: Status, attempts: seq<AttemptEvent>)
    requires attempts != []
    requires forall k :: 0 <= k < |attempts| ==> attempts[k].failed
    requires forall k :: 0 <= k < |attempts| ==> attempts[k].at - t0 < (MetricInterval + 1) * SecondsPerMinute
    ensures Run(Observed(Window(0, t0), Window(0, t0), s), Config(0.0, 1), attempts).status.health
      == (if |attempts| >= 2 then Unhealthy else Healthy)
  {
    FailuresWithinOneWindow(0, t0, s, Config(0.0, 1), attempts);
  }

  /** Successful attempts never count an error: starting with an empty error count and a
      non-negative threshold, the tracker ends healthy after any run of successes, at any instants. */
  lemma {:induction false} SuccessesStayHealthy(m: Observed, cfg: Config, attempts: seq<AttemptEvent>)
    requires m.events.count >= 0 && m.errors.count == 0 && cfg.errorRateThreshold >= 0.0
    requires attempts != []
    requires forall k :: 0 <= k < |attempts| ==> !attempts[k].failed
    ensures Run(m, cfg, attempts).errors == m.errors
    ensures Run(m, cfg, attempts).status.health == Healthy
    decreases |attempts|
  {
    var a := attempts[0];
    var next := Attempt(m, cfg, a.failed, a.at);
    assert Reported(m.errors, MetricInterval, a.at) == 0;
    assert ErrorRate(0, next.events.count) == 0.0;
    if |attempts| > 1 {
      SuccessesStayHealthy(next, cfg, attempts[1..]);
    }
  }

  /** The handler's unit test for a healthy service: with threshold 0 and `minRequests` 5, five
      successful attempts leave a new handler's tracker healthy. */
  lemma FiveSuccessesStayHealthy(t0: int, s: Status, times: seq<int>)
    requires |times| == 5
    ensures var attempts := seq(5, k requires 0 <= k < 5 => AttemptEvent(false, times[k]));
      Run(Observed(Window(0, t0), Window(0, t0), s), Config(0.0, 5), attempts).status.health == Healthy
  {
    var attempts := seq(5, k requires 0 <= k < 5 => AttemptEvent(false, times[k]));
    SuccessesStayHealthy(Observed(Window(0, t0), Window(0, t0), s), Config(0.0, 5), attempts);
  }

  /** The two windows drift apart: the event window restarts on any attempt, the error window only on a
      failure. A success six minutes after creation, two failures a second later and a failure six
      minutes after that leave one event against three errors, so even a threshold of 1 is exceeded. */
  lemma RateCanExceedOne(t0: int, s: Status)
    ensures var attempts := [AttemptEvent(false, t0 + 360), AttemptEvent(true, t0 + 361),
                             AttemptEvent(true, t0 + 361), AttemptEvent(true, t0 + 720)];
      var r := Run(Observed(Window(0, t0), Window(0, t0), s), Config(1.0, 0), attempts);
      r.events == Window(1, t0 + 720) && r.errors == Window(3, t0 + 361) && r.status.health == Unhealthy
  {
    var cfg := Config(1.0, 0);
    var m0 := Observed(Window(0, t0), Window(0, t0), s);
    ExpiryBoundary(Window(0, t0), MetricInterval, t0 + 360);
    var m1 := Attempt(m0, cfg, false, t0 + 360);
    assert m1.events == Window(1, t0 + 360) && m1.errors == Window(0, t0);
    ExpiryBoundary(Window(1, t0 + 360), MetricInterval, t0 + 361);
    ExpiryBoundary(Window(0, t0), MetricInterval, t0 + 361);
    var m2 := Attempt(m1, cfg, true, t0 + 361);
    assert m2.events == Window(2, t0 + 360) && m2.errors == Window(1, t0 + 361);
    ExpiryBoundary(Window(2, t0 + 360), MetricInterval, t0 + 361);
    ExpiryBoundary(Window(1, t0 + 361), MetricInterval, t0 + 361);
    var m3 := Attempt(m2, cfg, true, t0 + 361);
    assert m3.events == Window(3, t0 + 360) && m3.errors == Window(2, t0 + 361);
    ExpiryBoundary(Window(3, t0 + 360), MetricInterval, t0 + 720);
    ExpiryBoundary(Window(2, t0 + 361), MetricInterval, t0 + 720);
    var m4 := Attempt(m3, cfg, true, t0 + 720);
    assert m4.events == Window(1, t0 + 720) && m4.errors == Window(3, t0 + 361);
    assert ErrorRate(3, 1) == 3.0;
    var attempts := [AttemptEvent(false, t0 + 360), AttemptEvent(true, t0 + 361),
                     AttemptEvent(true, t0 + 361), AttemptEvent(true, t0 + 720)];
    assert Run(m3, cfg, attempts[3..]) == m4;
    assert Run(m2, cfg, attempts[2..]) == m4;
    assert Run(m1, cfg, attempts[1..]) == m4;
  }

  /** `ServiceHealthRequestHandler`: counts attempts and errors and drives a shared tracker. */
  class ServiceHealthRequestHandler {
    const eventCount: SlidingWindowCounter
    const errorCount: SlidingWindowCounter
    const errorRateThreshold: real
    const minRequests: int
    const serviceHealthTracker: ServiceHealthTracker

    /** Two distinct valid counters, both over `MetricInterval` minutes. */
    ghost predicate Valid()
      reads this, eventCount, errorCount
    {
      eventCount != errorCount && eventCount.Valid() && errorCount.Valid()
      && eventCount.intervalMin == MetricInterval && errorCount.intervalMin == MetricInterval
    }

    /** The configuration the handler was built with. */
    function Configuration(): Config
      reads this
    {
      Config(errorRateThreshold, minRequests)
    }

    /** The handler's counters and its tracker, as a value. */
    function Observation(): Observed
      reads this, eventCount, errorCount, serviceHealthTracker
    {
      Observed(eventCount.State(), errorCount.State(), serviceHealthTracker.State())
    }

    /** Two new, empty counters opened at `now`; the tracker is shared, not copied, and is left as it is. */
    constructor (errorRateThreshold: real, minRequests: int, serviceHealthTracker: ServiceHealthTracker, now: int)
      ensures Valid() && fresh(eventCount) && fresh(errorCount)
      ensures eventCount.State() == Window(0, now) && errorCount.State() == Window(0, now)
      ensures Configuration() == Config(errorRateThreshold, minRequests)
      ensures this.serviceHealthTracker == serviceHealthTracker
    {
      this.eventCount := new SlidingWindowCounter(MetricInterval, now);
      this.errorCount := new SlidingWindowCounter(MetricInterval, now);
      this.errorRateThreshold := errorRateThreshold;
      this.minRequests := minRequests;
      this.serviceHealthTracker := serviceHealthTracker;
    }

    /** `afterAttempt` for an attempt that `failed` or not, completed at `now`. */
    method AfterAttempt(failed: bool, now: int)
      requires Valid()
      modifies eventCount, errorCount, serviceHealthTracker
      ensures Valid()
      ensures Observation() == Attempt(old(Observation()), Configuration(), failed, now)
    {
      var evtCnt := eventCount.Increment(now);
      var errCnt := errorCount.GetCountPerInterval(now);
      if failed {
        errCnt := errorCount.Increment(now);
      }
      if evtCnt > minRequests && ErrorRate(errCnt, evtCnt) > errorRateThreshold {
        serviceHealthTracker.SetUnhealthy(now);
      } else {
        serviceHealthTracker.SetHealthy(now);
      }
    }
  }
}
