/** An event counter whose time window is reset lazily, on the first access after it expires. */
module Counter {
  import opened Clock

  /** A counter's state: the tally and the instant its current window opened (the field `lastEvent`). */
  datatype Window = Window(count: int, start: int)

  /** `pastPeriod`: more than `intervalMin` whole minutes, truncated, have passed since the window opened. */
  predicate PastPeriod(w: Window, intervalMin: int, now: int)
  {
    ElapsedMinutes(w.start, now) > intervalMin
  }

  /** What `getCountPerInterval` reports at `now`: an expired window reads as empty. */
  function Reported(w: Window, intervalMin: int, now: int): int
  {
    if PastPeriod(w, intervalMin, now) then 0 else w.count
  }

  /** The state after `increment` at `now`: an expired window restarts at `now` holding this one event. */
  function Incremented(w: Window, intervalMin: int, now: int): Window
  {
    if PastPeriod(w, intervalMin, now) then Window(1, now) else Window(w.count + 1, w.start)
  }

  /** The values `increment` returns when called at each instant of `times` in turn, starting from `w`. */
  function Returns(w: Window, intervalMin: int, times: seq<int>): (r: seq<int>)
    ensures |r| == |times|
    decreases |times|
  {
    if times == [] then []
    else
      var next := Incremented(w, intervalMin, times[0]);
      [next.count] + Returns(next, intervalMin, times[1..])
  }

  /** The state after `increment` has been called at each instant of `times` in turn. */
  function AfterAll(w: Window, intervalMin: int, times: seq<int>): Window
    decreases |times|
  {
    if times == [] then w else AfterAll(Incremented(w, intervalMin, times[0]), intervalMin, times[1..])
  }

  /** The window rolls over at `start + (intervalMin + 1)` minutes and not before: an elapsed time of
      exactly `intervalMin` minutes, or anything short of one more full minute, is still inside it. */
  lemma ExpiryBoundary(w: Window, intervalMin: int, now: int)
    requires intervalMin >= 0
    ensures PastPeriod(w, intervalMin, now) <==> now - w.start >= (intervalMin + 1) * SecondsPerMinute
    ensures !PastPeriod(w, intervalMin, w.start + intervalMin * SecondsPerMinute + SecondsPerMinute - 1)
    ensures PastPeriod(w, intervalMin, w.start + (intervalMin + 1) * SecondsPerMinute)
  {
    ElapsedMinutesExceed(w.start, now, intervalMin);
    ElapsedMinutesExceed(w.start, w.start + intervalMin * SecondsPerMinute + SecondsPerMinute - 1, intervalMin);
    ElapsedMinutesExceed(w.start, w.start + (intervalMin + 1) * SecondsPerMinute, intervalMin);
  }

  /** `increment` returns one more than `getCountPerInterval` would have reported at the same instant,
      keeps the window when it is live and restarts it at `now` when it has expired, whatever the count. */
  lemma IncrementIsReadPlusOne(w: Window, intervalMin: int, now: int)
    ensures Incremented(w, intervalMin, now).count == Reported(w, intervalMin, now) + 1
    ensures PastPeriod(w, intervalMin, now) ==> Incremented(w, intervalMin, now) == Window(1, now)
    ensures !PastPeriod(w, intervalMin, now) ==> Incremented(w, intervalMin, now).start == w.start
  {
  }

  /** Right after an `increment`, `getCountPerInterval` at the same instant reads the value it returned. */
  lemma ReadAfterIncrement(w: Window, intervalMin: int, now: int)
    requires intervalMin >= 0
    ensures Reported(Incremented(w, intervalMin, now), intervalMin, now) == Incremented(w, intervalMin, now).count
  {
    if PastPeriod(w, intervalMin, now) {
      ElapsedMinutesExceed(now, now, intervalMin);
    }
  }

  /** A non-negative count stays non-negative, and every `increment` returns at least 1. */
  lemma IncrementKeepsCountPositive(w: Window, intervalMin: int, now: int)
    requires w.count >= 0
    ensures Incremented(w, intervalMin, now).count >= 1
    ensures Reported(w, intervalMin, now) >= 0
  {
  }

  /** The constructor accepts any interval: with a negative one, every `increment` at or after the
      window's start finds the window expired, so the counter never returns more than 1. */
  lemma NegativeIntervalAlwaysRestarts(w: Window, intervalMin: int, now: int)
    requires intervalMin < 0 && now >= w.start
    ensures Incremented(w, intervalMin, now) == Window(1, now)
    ensures Reported(w, intervalMin, now) == 0
  {
    assert ElapsedMinutes(w.start, now) >= 0;
  }

  /** Increments at instants all inside the window opened at `t0` return `c + 1`, `c + 2`, ...
      and leave the window where it was; from a fresh counter (`c == 0`) they return 1, 2, ..., n. */
  lemma {:induction false} IncrementsWithinWindow(c: int, t0: int, intervalMin: int, times: seq<int>)
    requires intervalMin >= 0
    requires forall k :: 0 <= k < |times| ==> times[k] - t0 < (intervalMin + 1) * SecondsPerMinute
    ensures forall k :: 0 <= k < |times| ==> Returns(Window(c, t0), intervalMin, times)[k] == c + k + 1
    ensures AfterAll(Window(c, t0), intervalMin, times) == Window(c + |times|, t0)
    decreases |times|
  {
    if times != [] {
      ExpiryBoundary(Window(c, t0), intervalMin, times[0]);
      assert Incremented(Window(c, t0), intervalMin, times[0]) == Window(c + 1, t0);
      IncrementsWithinWindow(c + 1, t0, intervalMin, times[1..]);
      var r := Returns(Window(c, t0), intervalMin, times);
      assert r == [c + 1] + Returns(Window(c + 1, t0), intervalMin, times[1..]);
      forall k | 0 <= k < |times|
        ensures r[k] == c + k + 1
      {
        if k > 0 {
          assert r[k] == Returns(Window(c + 1, t0), intervalMin, times[1..])[k - 1];
        }
      }
    }
  }

  /** Three increments at `t0` on a fresh five-minute counter return 1, 2, 3; at any instant six or
      more minutes later the counter reads 0, and an increment there returns 1, not 4. */
  lemma RolloverAfterGap(t0: int, later: int)
    requires later - t0 >= 6 * SecondsPerMinute
    ensures Returns(Window(0, t0), 5, [t0, t0, t0]) == [1, 2, 3]
    ensures Reported(AfterAll(Window(0, t0), 5, [t0, t0, t0]), 5, later) == 0
    ensures Returns(Window(0, t0), 5, [t0, t0, t0, later]) == [1, 2, 3, 1]
  {
    IncrementsWithinWindow(0, t0, 5, [t0, t0, t0]);
    ExpiryBoundary(Window(3, t0), 5, later);
    assert Returns(Window(3, t0), 5, [later]) == [1];
    assert Returns(Window(2, t0), 5, [t0, later]) == [3, 1];
    assert Returns(Window(1, t0), 5, [t0, t0, later]) == [2, 3, 1];
  }

  /** `SlidingWindowCounter`: a tally of events in a window of `intervalMin` minutes. */
  class SlidingWindowCounter {
    var count: int
    var lastEvent: int
    const intervalMin: int

    /** The count never goes negative. */
    ghost predicate Valid()
      reads this
    {
      count >= 0
    }

    /** The fields as a value. */
    function State(): Window
      reads this
    {
      Window(count, lastEvent)
    }

    /** A new counter is empty and its window opens at construction time. */
    constructor (intervalMin: int, now: int)
      ensures Valid()
      ensures State() == Window(0, now) && this.intervalMin == intervalMin
    {
      this.intervalMin := intervalMin;
      count := 0;
      lastEvent := now;
    }

    /** `increment`: counts one event at `now` and returns the new count. */
    method Increment(now: int) returns (c: int)
      requires Valid()
      modifies this
      ensures Valid()
      ensures State() == Incremented(old(State()), intervalMin, now)
      ensures c == count && c >= 1
    {
      if PastPeriod(State(), intervalMin, now) {
        lastEvent := now;
        count := 1;
        c := count;
      } else {
        count := count + 1;
        c := count;
      }
    }

    /** `getCountPerInterval`: the count of the live window at `now`, 0 if it has expired; changes nothing. */
    method GetCountPerInterval(now: int) returns (c: int)
      requires Valid()
      ensures c == Reported(State(), intervalMin, now)
      ensures 0 <= c <= count
      ensures c == count <==> count == 0 || !PastPeriod(State(), intervalMin, now)
    {
      if PastPeriod(State(), intervalMin, now) {
        return 0;
      }
      c := count;
    }
  }
}
