/** A two-state health flag with the instant of its last effective change. */
module Health {

  /** `ServiceHealthState`. */
  datatype HealthState = Healthy | Unhealthy

  /** A tracker's state: the current health and the instant it was last changed. */
  datatype Status = Status(health: HealthState, lastStateChange: int)

  /** `setHealthy` (target `Healthy`) and `setUnhealthy` (target `Unhealthy`) at `now`:
      asking for the current state is a no-op; otherwise the state flips and is stamped with `now`. */
  function Transition(s: Status, target: HealthState, now: int): Status
  {
    if s.health == target then s else Status(target, now)
  }

  /** One call to a setter: the requested state and the instant of the call. */
  datatype SetCall = SetCall(target: HealthState, at: int)

  /** The tracker after the calls in `calls`, in order. */
  function Replay(s: Status, calls: seq<SetCall>): Status
    decreases |calls|
  {
    if calls == [] then s else Replay(Transition(s, calls[0].target, calls[0].at), calls[1..])
  }

  /** The instants of the calls in `calls` that actually flipped the state, in order. */
  function Flips(s: Status, calls: seq<SetCall>): seq<int>
    decreases |calls|
  {
    if calls == [] then []
    else
      (if calls[0].target != s.health then [calls[0].at] else [])
        + Flips(Transition(s, calls[0].target, calls[0].at), calls[1..])
  }

  /** Either setter leaves the requested state behind, and repeating it at any later instant changes
      neither the state nor the timestamp; a request for the current state changes nothing at all. */
  lemma TransitionIdempotent(s: Status, target: HealthState, now: int, later: int)
    ensures Transition(s, target, now).health == target
    ensures Transition(Transition(s, target, now), target, later) == Transition(s, target, now)
    ensures s.health == target ==> Transition(s, target, now) == s
  {
  }

  /** A flip stamps the tracker with the instant of the call; when the clock has moved since the last
      change, the timestamp moves if and only if the state flips. */
  lemma TimestampMovesIffStateFlips(s: Status, target: HealthState, now: int)
    ensures Transition(s, target, now).health != s.health ==> Transition(s, target, now).lastStateChange == now
    ensures now != s.lastStateChange ==>
      (Transition(s, target, now).lastStateChange != s.lastStateChange <==> Transition(s, target, now).health != s.health)
  {
  }

  /** After any non-empty sequence of setter calls the state is the one the last call asked for. */
  lemma {:induction false} ReplayEndsInLastRequest(s: Status, calls: seq<SetCall>)
    requires calls != []
    ensures Replay(s, calls).health == calls[|calls| - 1].target
    decreases |calls|
  {
    if |calls| > 1 {
      ReplayEndsInLastRequest(Transition(s, calls[0].target, calls[0].at), calls[1..]);
    }
  }

  /** Across any sequence of setter calls the timestamp is that of the last call that flipped the state,
      or is unchanged when none did; and the state differs from where it started if and only if it
      flipped an odd number of times. */
  lemma {:induction false} ReplayTimestampIsLastFlip(s: Status, calls: seq<SetCall>)
    ensures var f := Flips(s, calls);
      Replay(s, calls).lastStateChange == (if f == [] then s.lastStateChange else f[|f| - 1])
    ensures Flips(s, calls) == [] ==> Replay(s, calls) == s
    ensures Replay(s, calls).health != s.health <==> |Flips(s, calls)| % 2 == 1
    decreases |calls|
  {
    if calls != [] {
      var next := Transition(s, calls[0].target, calls[0].at);
      ReplayTimestampIsLastFlip(next, calls[1..]);
      var rest := Flips(next, calls[1..]);
      if calls[0].target != s.health {
        assert Flips(s, calls) == [calls[0].at] + rest;
      } else {
        assert Flips(s, calls) == rest;
      }
    }
  }

  /** Any number of calls that all ask for the current state change nothing, at whatever instants. */
  lemma {:induction false} RepeatedRequestsChangeNothing(s: Status, calls: seq<SetCall>)
    requires forall k :: 0 <= k < |calls| ==> calls[k].target == s.health
    ensures Replay(s, calls) == s
    ensures Flips(s, calls) == []
    decreases |calls|
  {
    if calls != [] {
      assert Transition(s, calls[0].target, calls[0].at) == s;
      RepeatedRequestsChangeNothing(s, calls[1..]);
    }
  }

  /** Replaying two sequences of calls one after the other is replaying their concatenation. */
  lemma {:induction false} ReplayConcat(s: Status, a: seq<SetCall>, b: seq<SetCall>)
    ensures Replay(s, a + b) == Replay(Replay(s, a), b)
    decreases |a|
  {
    if a != [] {
      assert (a + b)[1..] == a[1..] + b;
      ReplayConcat(Transition(s, a[0].target, a[0].at), a[1..], b);
    } else {
      assert a + b == b;
    }
  }

  /** The tracker's unit test as one run: four `setHealthy` calls on a new tracker keep it healthy with
      its creation timestamp; a `setUnhealthy` at another instant makes it unhealthy and moves the
      timestamp there; three more `setUnhealthy` calls keep both. */
  lemma TrackerScenario(t0: int, t1: int, t2: int, t3: int, t4: int, u: int, v1: int, v2: int, v3: int)
    requires u != t0
    ensures var healthy4 := [SetCall(Healthy, t1), SetCall(Healthy, t2), SetCall(Healthy, t3), SetCall(Healthy, t4)];
      Replay(Status(Healthy, t0), healthy4) == Status(Healthy, t0)
    ensures var healthy4 := [SetCall(Healthy, t1), SetCall(Healthy, t2), SetCall(Healthy, t3), SetCall(Healthy, t4)];
      var r := Replay(Status(Healthy, t0), healthy4 + [SetCall(Unhealthy, u)]);
      r == Status(Unhealthy, u) && r.lastStateChange != t0
    ensures var healthy4 := [SetCall(Healthy, t1), SetCall(Healthy, t2), SetCall(Healthy, t3), SetCall(Healthy, t4)];
      var unhealthy3 := [SetCall(Unhealthy, v1), SetCall(Unhealthy, v2), SetCall(Unhealthy, v3)];
      Replay(Status(Healthy, t0), healthy4 + [SetCall(Unhealthy, u)] + unhealthy3) == Status(Unhealthy, u)
  {
    var s0 := Status(Healthy, t0);
    var healthy4 := [SetCall(Healthy, t1), SetCall(Healthy, t2), SetCall(Healthy, t3), SetCall(Healthy, t4)];
    var unhealthy3 := [SetCall(Unhealthy, v1), SetCall(Unhealthy, v2), SetCall(Unhealthy, v3)];
    RepeatedRequestsChangeNothing(s0, healthy4);
    ReplayConcat(s0, healthy4, [SetCall(Unhealthy, u)]);
    assert Replay(s0, [SetCall(Unhealthy, u)]) == Status(Unhealthy, u);
    ReplayConcat(s0, healthy4 + [SetCall(Unhealthy, u)], unhealthy3);
    RepeatedRequestsChangeNothing(Status(Unhealthy, u), unhealthy3);
  }

  /** `ServiceHealthTracker`: the health flag shared with the handler that drives it. */
  class ServiceHealthTracker {
    var healthState: HealthState
    var lastStateChange: int

    /** The fields as a value. */
    function State(): Status
      reads this
    {
      Status(healthState, lastStateChange)
    }

    /** A new tracker is healthy, stamped with its creation time. */
    constructor (now: int)
      ensures State() == Status(Healthy, now)
    {
      healthState := Healthy;
      lastStateChange := now;
    }

    /** `setUnhealthy` at `now`. */
    method SetUnhealthy(now: int)
      modifies this
      ensures State() == Transition(old(State()), Unhealthy, now)
    {
      if healthState == Unhealthy {
        return;
      }
      healthState := Unhealthy;
      lastStateChange := now;
    }

    /** `setHealthy` at `now`. */
    method SetHealthy(now: int)
      modifies this
      ensures State() == Transition(old(State()), Healthy, now)
    {
      if healthState == Healthy {
        return;
      }
      healthState := Healthy;
      lastStateChange := now;
    }

    /** `getHealthState`: reads the current state and changes nothing. */
    method GetHealthState() returns (h: HealthState)
      ensures h == State().health
    {
      h := healthState;
    }

    /** `getLastStateChange`: reads the instant of the last effective change and changes nothing. */
    method GetLastStateChange() returns (t: int)
      ensures t == State().lastStateChange
    {
      t := lastStateChange;
    }
  }
}
