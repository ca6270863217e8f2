/** Sequences of events fed to the hunt one after another, and what they
    achieve: the invariant holds all along, progress only grows between
    restarts, and a finished hunt has passed through every checkpoint in
    route order, each time from inside its zone. */
module Runs {

  import opened Optional
  import opened Geo
  import opened Hunt

  /** The state after handling `events` in order, starting from `s`. */
  function Run(route: seq<Checkpoint>, distance: Distance, s: State, events: seq<Event>): (r: State)
    requires Inv(route, distance, s)
    ensures Inv(route, distance, r)
    ensures s.started ==> r.started
    decreases |events|
  {
    if events == [] then s
    else Run(route, distance, Step(route, distance, s, events[0]), events[1..])
  }

  /** Every state reached from the initial one, whatever the events. */
  ghost predicate Reachable(route: seq<Checkpoint>, distance: Distance, s: State)
    requires |route| > 0
  {
    assert Inv(route, distance, Initial);
    exists events :: Run(route, distance, Initial, events) == s
  }

  /** In every reachable state the current index lies inside the route, so
      the route reads of the position callback and of the in-progress screen
      are safe; and the arrived button is only shown after a fix inside the
      current checkpoint's zone. */
  lemma ReachableIsSafe(route: seq<Checkpoint>, distance: Distance, s: State)
    requires |route| > 0
    requires Reachable(route, distance, s)
    ensures s.currentCheckpoint < |route|
    ensures View(route, s).InProgress? ==> View(route, s).target == route[s.currentCheckpoint]
    ensures AdvanceEnabled(s) ==> s.position.Some? && Within(distance, s.position.value, route[s.currentCheckpoint])
  {
  }

  /** An accepted press of the arrived button: the checkpoint it was
      pressed at and the last fix at that moment. */
  datatype Arrival = Arrival(index: nat, fix: Option<Position>)

  /** The arrivals accepted while handling `events` from `s`, in order. */
  function Arrivals(route: seq<Checkpoint>, distance: Distance, s: State, events: seq<Event>): seq<Arrival>
    requires Inv(route, distance, s)
    decreases |events|
  {
    if events == [] then []
    else
      var here := if Accepted(s, events[0]) then [Arrival(s.currentCheckpoint, s.position)] else [];
      here + Arrivals(route, distance, Step(route, distance, s, events[0]), events[1..])
  }

  /** No restart between the first event and the last. */
  predicate NoRestart(events: seq<Event>)
  {
    forall i :: 0 <= i < |events| ==> events[i] != Click(Replay)
  }

  /** A list without restarts starts with something other than a restart,
      and what follows its first event has no restart either. */
  lemma NoRestartTail(events: seq<Event>)
    requires events != [] && NoRestart(events)
    ensures events[0] != Click(Replay) && NoRestart(events[1..])
  {
  }

  /** Every accepted arrival, restarts or not, was at a checkpoint of the
      route and followed a fix within that checkpoint's radius. */
  lemma {:induction false} ArrivalsWereInZone(route: seq<Checkpoint>, distance: Distance, s: State, events: seq<Event>)
    requires Inv(route, distance, s)
    ensures forall a :: a in Arrivals(route, distance, s, events) ==>
      a.index < |route| && a.fix.Some? && Within(distance, a.fix.value, route[a.index])
    decreases |events|
  {
    if events != [] {
      ArrivalsWereInZone(route, distance, Step(route, distance, s, events[0]), events[1..]);
    }
  }

  /** Handling two lists of events one after the other is handling their
      concatenation, and the arrivals of the two parts add up. */
  lemma {:induction false} RunAppend(route: seq<Checkpoint>, distance: Distance, s: State, a: seq<Event>, b: seq<Event>)
    requires Inv(route, distance, s)
    ensures Run(route, distance, s, a + b) == Run(route, distance, Run(route, distance, s, a), b)
    ensures Arrivals(route, distance, s, a + b) ==
      Arrivals(route, distance, s, a) + Arrivals(route, distance, Run(route, distance, s, a), b)
    decreases |a|
  {
    if a != [] {
      var t := Step(route, distance, s, a[0]);
      assert (a + b)[0] == a[0];
      assert (a + b)[1..] == a[1..] + b;
      RunAppend(route, distance, t, a[1..], b);
    } else {
      assert a + b == b;
    }
  }

  /** Between restarts the current checkpoint never goes back, and a
      finished hunt stays finished. */
  lemma {:induction false} RunMonotone(route: seq<Checkpoint>, distance: Distance, s: State, events: seq<Event>)
    requires Inv(route, distance, s)
    requires NoRestart(events)
    ensures s.currentCheckpoint <= Run(route, distance, s, events).currentCheckpoint
    ensures s.finished ==> Run(route, distance, s, events).finished
    decreases |events|
  {
    if events != [] {
      var t := Step(route, distance, s, events[0]);
      NoRestartTail(events);
      RunMonotone(route, distance, t, events[1..]);
    }
  }

  /** Between restarts each accepted arrival raises the progress by exactly
      one and nothing else changes it, so the arrivals are at consecutive
      checkpoints, starting from the progress of the first state. */
  lemma {:induction false} RunProgress(route: seq<Checkpoint>, distance: Distance, s: State, events: seq<Event>)
    requires Inv(route, distance, s)
    requires NoRestart(events)
    ensures Progress(Run(route, distance, s, events)) == Progress(s) + |Arrivals(route, distance, s, events)|
    ensures forall i :: 0 <= i < |Arrivals(route, distance, s, events)| ==>
      Arrivals(route, distance, s, events)[i].index == Progress(s) + i
    decreases |events|
  {
    if events != [] {
      var t := Step(route, distance, s, events[0]);
      NoRestartTail(events);
      RunProgress(route, distance, t, events[1..]);
      var here := if Accepted(s, events[0]) then [Arrival(s.currentCheckpoint, s.position)] else [];
      var rest := Arrivals(route, distance, t, events[1..]);
      assert Arrivals(route, distance, s, events) == here + rest;
      if Accepted(s, events[0]) {
        assert Progress(t) == Progress(s) + 1;
        assert Progress(s) == s.currentCheckpoint;
      } else {
        assert Progress(t) == Progress(s);
      }
    }
  }

  /** A hunt at the first checkpoint and not finished, whether or not it
      is started yet, ends finished after a run without restarts exactly
      when the run accepted one arrival per checkpoint; those arrivals visit
      the checkpoints one by one in route order, each from inside its zone. */
  lemma FinishVisitsEveryCheckpoint(route: seq<Checkpoint>, distance: Distance, s: State, events: seq<Event>)
    requires Inv(route, distance, s)
    requires !s.finished && s.currentCheckpoint == 0
    requires NoRestart(events)
    ensures Run(route, distance, s, events).finished <==> |Arrivals(route, distance, s, events)| == |route|
    ensures Run(route, distance, s, events).finished ==>
      forall k :: 0 <= k < |route| ==>
        && Arrivals(route, distance, s, events)[k].index == k
        && Arrivals(route, distance, s, events)[k].fix.Some?
        && Within(distance, Arrivals(route, distance, s, events)[k].fix.value, route[k])
  {
    var r := Run(route, distance, s, events);
    var arrivals := Arrivals(route, distance, s, events);
    RunProgress(route, distance, s, events);
    ArrivalsWereInZone(route, distance, s, events);
    assert Progress(s) == 0;
    if r.finished {
      forall k | 0 <= k < |route|
        ensures arrivals[k].index == k && arrivals[k].fix.Some? && Within(distance, arrivals[k].fix.value, route[k])
      {
        assert arrivals[k] in arrivals;
      }
    }
  }

  /** A replay pressed on the finish screen, after any history, gives the
      restarted state. */
  lemma ReplayAfterFinish(route: seq<Checkpoint>, distance: Distance, s: State, before: seq<Event>)
    requires Inv(route, distance, s)
    requires Run(route, distance, s, before).finished
    ensures Run(route, distance, s, before + [Click(Replay)]) == Restart(Run(route, distance, s, before))
  {
    RunAppend(route, distance, s, before, [Click(Replay)]);
    assert [Click(Replay)][1..] == [];
  }

  /** A replay from a finished hunt starts a fresh hunt at the first
      checkpoint: the session is finished again after further events
      without restarts exactly when those events accepted one arrival per
      checkpoint (in route order, by `FinishVisitsEveryCheckpoint` applied
      to the restarted state). With `RunAppend` and `ReplayAfterFinish` this
      applies after any earlier history. */
  lemma FinishAfterReplay(route: seq<Checkpoint>, distance: Distance, done: State, after: seq<Event>)
    requires Inv(route, distance, done) && done.finished
    requires NoRestart(after)
    ensures Run(route, distance, done, [Click(Replay)] + after).finished <==>
      |Arrivals(route, distance, Restart(done), after)| == |route|
  {
    assert ([Click(Replay)] + after)[0] == Click(Replay);
    assert ([Click(Replay)] + after)[1..] == after;
    FinishVisitsEveryCheckpoint(route, distance, Restart(done), after);
  }
}
