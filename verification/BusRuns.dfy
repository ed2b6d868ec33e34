/** The promises the event bus makes to its callers, over every interleaving of the steps. */
module BusRuns {
  import opened BusModel
  import opened BusProofs

  ghost predicate Reachable(s: Trace) {
    exists capacity, steps :: IsRun(Init(capacity), steps) && s == Execute(Init(capacity), steps)
  }

  lemma ReachableOk(s: Trace)
    requires Reachable(s)
    ensures BusOk(s)
  {
    hide BusOk;
    var capacity, steps :| IsRun(Init(capacity), steps) && s == Execute(Init(capacity), steps);
    InitOk(capacity);
    RunKeepsBusOk(Init(capacity), steps);
  }

  /** The telemetry of every reachable state adds up, and the bounds on the queue depth hold. */
  lemma TelemetryAddsUp(s: Trace)
    requires Reachable(s)
    ensures var c := s.bus.core;
            && c.counters.accepted == c.counters.dispatched + InDispatch(s.bus.disp) + |c.queue| + c.counters.coalesces
            && Sum(c.counters.acceptedByKind) == c.counters.accepted == Sum(c.counters.acceptedBySource)
            && Sum(c.counters.droppedByKind) == c.counters.drops
            && |c.queue| <= c.counters.highWater <= c.capacity
            && (c.stopped ==> c.queue == [])
  {
    ReachableOk(s);
  }

  /** Delivery follows acceptance order; only replaceable events are lost, and only to a later one with the same key. */
  lemma NothingEssentialIsLost(s: Trace)
    requires Reachable(s)
    ensures var h := s.delivered + s.bus.core.queue;
            && (forall i, j :: 0 <= i < j < |h| ==> h[i].sequence < h[j].sequence)
            && Essential(h) == Essential(s.accepted)
            && (forall e :: e in s.accepted ==> IsCovered(h, e))
  {
    ReachableOk(s);
  }

  // ---------- Unsubscribing ----------

  lemma StepNeverReactivates(s: Trace, step: Step, id: nat)
    requires BusOk(s) && Enabled(s.bus, step) && id in s.bus.subs && !s.bus.subs[id].active
    ensures id in Next(s, step).bus.subs && !Next(s, step).bus.subs[id].active
    ensures s.released <= Next(s, step).released
  {
    hide Publish, Matches, CoreOk, LogOk;
  }

  lemma {:induction false} RunNeverReactivates(s: Trace, steps: seq<Step>, id: nat)
    requires BusOk(s) && IsRun(s, steps) && id in s.bus.subs && !s.bus.subs[id].active
    ensures var u := Execute(s, steps);
            id in u.bus.subs && !u.bus.subs[id].active && s.released <= u.released && BusOk(u)
    decreases |steps|
  {
    if steps != [] {
      hide BusOk, Next, Enabled;
      StepKeepsBusOk(s, steps[0]);
      StepNeverReactivates(s, steps[0], id);
      RunNeverReactivates(Next(s, steps[0]), steps[1..], id);
    }
  }

  /** Once a subscriber is deactivated, from whichever thread, none of its callbacks starts any more. */
  lemma DeactivatedNeverStarts(s: Trace, t: Thread, after: seq<Step>)
    requires Reachable(s) && Enabled(s.bus, UnsubDeactivate(t)) && IsRun(Next(s, UnsubDeactivate(t)), after)
    ensures var b := Execute(Next(s, UnsubDeactivate(t)), after).bus;
            Enabled(b, BeginCall) ==> Target(b) != PcOf(s.bus, t).id
  {
    hide BusOk, Execute, IsRun;
    ReachableOk(s);
    var u := Next(s, UnsubDeactivate(t));
    StepKeepsBusOk(s, UnsubDeactivate(t));
    RunNeverReactivates(u, after, PcOf(s.bus, t).id);
  }

  lemma {:induction false} RunKeepsReleased(s: Trace, steps: seq<Step>)
    requires BusOk(s) && IsRun(s, steps)
    ensures BusOk(Execute(s, steps)) && s.released <= Execute(s, steps).released
    decreases |steps|
  {
    if steps != [] {
      hide BusOk, Enabled;
      StepKeepsBusOk(s, steps[0]);
      assert s.released <= Next(s, steps[0]).released;
      hide Next;
      RunKeepsReleased(Next(s, steps[0]), steps[1..]);
    }
  }

  /** Every call made through a handle that still holds its id finds the registration. */
  lemma HandleFindsRegistration(s: Trace, t: Thread)
    requires Reachable(s) && Enabled(s.bus, UnsubFind(t)) && PcOf(s.bus, t).id != 0
    ensures var id := PcOf(s.bus, t).id;
            && id in s.bus.registered
            && PcOf(Next(s, UnsubFind(t)).bus, t) == UnsubFound(id) && id !in Next(s, UnsubFind(t)).bus.registered
  {
    ReachableOk(s);
    hide CoreOk, LogOk, InFlightOk, ThreadsOk, ReleasedOk;
  }

  /**
   * Once `unsubscribe` of a handle that held an id has returned, whichever way it went, the callback is not running and
   * its subscriber is inactive, then and in every later state; the one exception is a return from inside the callback.
   */
  lemma ReleasedForGood(s: Trace, id: nat, after: seq<Step>)
    requires Reachable(s) && id in s.released && IsRun(s, after)
    ensures var b := Execute(s, after).bus;
            !CallRunning(b, id) && id in b.subs && !b.subs[id].active && (Enabled(b, BeginCall) ==> Target(b) != id)
  {
    ReachableOk(s);
    hide BusOk;
    RunKeepsReleased(s, after);
    assert id in Execute(s, after).released;
    ReleasedMeans(Execute(s, after), id);
  }

  lemma ReleasedMeans(s: Trace, id: nat)
    requires BusOk(s) && id in s.released
    ensures !CallRunning(s.bus, id) && id in s.bus.subs && !s.bus.subs[id].active && (Enabled(s.bus, BeginCall) ==> Target(s.bus) != id)
  {
    hide CoreOk, LogOk, HandlesOk, InFlightOk, ThreadsOk;
  }

  /** The ways a call can return: without an id, after waiting, or from inside the callback it ends. */
  lemma ReturnsAre(s: Trace, step: Step, t: Thread)
    requires Reachable(s) && Enabled(s.bus, step)
    requires PcOf(s.bus, t).UnsubCalling? || PcOf(s.bus, t).UnsubFound? || PcOf(s.bus, t).UnsubWaiting?
    requires PcOf(Next(s, step).bus, t) == Idle
    ensures var id := PcOf(s.bus, t).id;
            id == 0 || id in Next(s, step).released || (t == DISPATCHER && CallRunning(s.bus, id))
  {
    ReachableOk(s);
    hide CoreOk, LogOk, RegistryOk, ReleasedOk, Publish, Matches;
  }

  /** A thread that found the registration cannot leave `unsubscribe` in any other way, except from inside the callback. */
  lemma DeactivateWaitsUnlessExecuting(s: Trace, t: Thread)
    requires Reachable(s) && Enabled(s.bus, UnsubDeactivate(t))
    ensures var id := PcOf(s.bus, t).id;
            PcOf(Next(s, UnsubDeactivate(t)).bus, t) ==
            if t == DISPATCHER && CallRunning(s.bus, id) then Idle else UnsubWaiting(id)
  {
    ReachableOk(s);
  }

  /** A callback that unsubscribes anyone never waits: no deadlock of the dispatcher with itself. */
  lemma DispatcherNeverWaits(s: Trace)
    requires Reachable(s) && PcOf(s.bus, DISPATCHER).UnsubWaiting?
    ensures Enabled(s.bus, UnsubReturn(DISPATCHER))
  {
    ReachableOk(s);
  }

  lemma StartReachable(capacity: nat)
    ensures Reachable(Init(capacity))
  {
    assert IsRun(Init(capacity), []) && Execute(Init(capacity), []) == Init(capacity);
  }

  lemma Extend(s: Trace, step: Step) returns (u: Trace)
    requires Reachable(s) && Enabled(s.bus, step)
    ensures Reachable(u) && u == Next(s, step)
  {
    hide Next, Enabled;
    u := Next(s, step);
    var capacity, steps :| IsRun(Init(capacity), steps) && s == Execute(Init(capacity), steps);
    OneMoreStep(Init(capacity), steps, step);
  }

  lemma {:induction false} OneMoreStep(s: Trace, steps: seq<Step>, step: Step)
    requires IsRun(s, steps) && Enabled(Execute(s, steps).bus, step)
    ensures IsRun(s, steps + [step]) && Execute(s, steps + [step]) == Next(Execute(s, steps), step)
    decreases |steps|
  {
    hide Next, Enabled;
    if steps == [] {
      assert [step][1..] == [];
      assert IsRun(Next(s, step), []);
      assert steps + [step] == [step];
    } else {
      OneMoreStep(Next(s, steps[0]), steps[1..], step);
      assert (steps + [step])[1..] == steps[1..] + [step];
    }
  }

  // ---------- Stopping ----------

  /** When a `stop` call that joined or awaited the join returns, everything accepted has been dealt with. */
  lemma StopDrains(s: Trace, t: Thread)
    requires Reachable(s) && (Enabled(s.bus, StopJoin(t)) || Enabled(s.bus, StopWaited(t)))
    ensures s.bus.core.queue == [] && s.bus.core.counters.accepted == s.bus.core.counters.dispatched + s.bus.core.counters.coalesces
    ensures Essential(s.delivered) == Essential(s.accepted)
    ensures forall e :: !Publish(s.bus.core, e).1.accepted
  {
    ReachableOk(s);
    assert s.delivered + [] == s.delivered;
  }

  /** After the stop signal nothing is accepted any more. */
  lemma StopClosesIntake(s: Trace, t: Thread, after: seq<Step>)
    requires Reachable(s) && s.bus.core.started && Enabled(s.bus, StopSignal(t)) && IsRun(Next(s, StopSignal(t)), after)
    ensures Execute(Next(s, StopSignal(t)), after).accepted == s.accepted
  {
    ReachableOk(s);
    hide Publish, CountersOk, Conserved, DepthOk, LogOk, SubsOk;
    assert Next(s, StopSignal(t)).bus.core.stopping;
    IntakeStaysClosed(Next(s, StopSignal(t)), after);
  }

  lemma {:induction false} IntakeStaysClosed(s: Trace, steps: seq<Step>)
    requires IsRun(s, steps) && s.bus.core.stopping
    ensures Execute(s, steps).accepted == s.accepted
    decreases |steps|
  {
    if steps != [] {
      hide Dropped, Enqueued, Coalesced, FirstCoalescing;
      assert Next(s, steps[0]).accepted == s.accepted && Next(s, steps[0]).bus.core.stopping by { ClosedStep(s, steps[0]); }
      hide Next, Enabled;
      IntakeStaysClosed(Next(s, steps[0]), steps[1..]);
    }
  }

  lemma ClosedStep(s: Trace, step: Step)
    requires s.bus.core.stopping && Enabled(s.bus, step)
    ensures Next(s, step).accepted == s.accepted && Next(s, step).bus.core.stopping
  {
  }
}
