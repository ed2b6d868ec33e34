/** What every reachable state of the event bus satisfies. */
module BusProofs {
  import opened Entities
  import opened BusModel

  // ---------- Counting ----------

  function Sum(s: seq<nat>): nat {
    if s == [] then 0 else s[0] + Sum(s[1..])
  }

  lemma {:induction false} BumpAddsOne(s: seq<nat>, i: nat)
    requires i < |s|
    ensures |Bump(s, i)| == |s| && Sum(Bump(s, i)) == Sum(s) + 1
  {
    if i > 0 {
      BumpAddsOne(s[1..], i - 1);
      assert Bump(s, i)[1..] == Bump(s[1..], i - 1);
    } else {
      assert Bump(s, i)[1..] == s[1..];
    }
  }

  lemma {:induction false} SumOfZeros(n: nat)
    ensures Sum(seq(n, _ => 0)) == 0
  {
    if n > 0 {
      SumOfZeros(n - 1);
      assert seq(n, _ => 0)[1..] == seq(n - 1, _ => 0);
    }
  }

  function InDispatch(d: Dispatcher): nat {
    if d.Popped? || d.Delivering? then 1 else 0
  }

  predicate CountersOk(n: Counters) {
    && |n.acceptedByKind| == KINDS && |n.droppedByKind| == KINDS && |n.acceptedBySource| == SOURCES
    && Sum(n.acceptedByKind) == n.accepted && Sum(n.acceptedBySource) == n.accepted
    && Sum(n.droppedByKind) == n.drops
  }

  /** Every accepted event is dispatched, in dispatch, queued or was coalesced away. */
  predicate Conserved(c: Core, d: Dispatcher) {
    c.counters.accepted == c.counters.dispatched + InDispatch(d) + |c.queue| + c.counters.coalesces
  }

  predicate DepthOk(c: Core) {
    |c.queue| <= c.counters.highWater <= c.capacity
  }

  predicate FlagsOk(c: Core, d: Dispatcher) {
    && (d.NotStarted? <==> !c.started) && (c.stopping ==> c.started) && (c.stopped <==> d == Exited)
    && (d == Leaving || d == Exited ==> c.stopping && c.queue == [])
    && (c.joined ==> d == Exited)
  }

  predicate CoreOk(c: Core, d: Dispatcher) {
    CountersOk(c.counters) && Conserved(c, d) && DepthOk(c) && FlagsOk(c, d)
  }

  lemma DroppedOk(c: Core, d: Dispatcher, e: Event)
    requires CoreOk(c, d)
    ensures CoreOk(Dropped(c, e), d)
  {
    BumpAddsOne(c.counters.droppedByKind, KindIndex(e.kind));
  }

  lemma EnqueuedOk(c: Core, d: Dispatcher, e: Event)
    requires CoreOk(c, d) && Accepting(c) && |c.queue| < c.capacity
    ensures CoreOk(Enqueued(c, e), d)
  {
    BumpAddsOne(c.counters.acceptedByKind, KindIndex(e.kind));
    BumpAddsOne(c.counters.acceptedBySource, SourceIndex(e.source));
    hide Sum, KindIndex, SourceIndex, Bump;
  }

  lemma PublishKeepsCore(c: Core, d: Dispatcher, e: Event)
    requires CoreOk(c, d)
    ensures CoreOk(Publish(c, e).0, d)
  {
    hide CountersOk, Enqueued, Dropped;
    DroppedOk(c, d, e);
    if Accepting(c) {
      if |c.queue| < c.capacity {
        EnqueuedOk(c, d, e);
      } else {
        var i := FirstCoalescing(c.queue, e);
        if i < |c.queue| {
          assert CountersOk(Coalesced(c, i).counters) by { CoalescedCounters(c, i); }
          EnqueuedOk(Coalesced(c, i), d, e);
        }
      }
    }
  }

  lemma CoalescedCounters(c: Core, i: nat)
    requires CountersOk(c.counters) && i < |c.queue|
    ensures CountersOk(Coalesced(c, i).counters)
  {
  }

  // ---------- The history of events ----------

  predicate Ascending(s: seq<Event>, bound: nat) {
    && (forall i, j :: 0 <= i < j < |s| ==> s[i].sequence < s[j].sequence)
    && (forall i :: 0 <= i < |s| ==> s[i].sequence < bound)
  }

  /** The events that nothing may replace, in order. */
  function Essential(s: seq<Event>): seq<Event> {
    if s == [] then []
    else Essential(s[..|s| - 1]) + if Replaceable(s[|s| - 1]) then [] else [s[|s| - 1]]
  }

  predicate Supersedes(x: Event, e: Event) {
    x == e || (Replaceable(e) && Coalesces(x, e) && e.sequence < x.sequence)
  }

  predicate IsCovered(h: seq<Event>, e: Event) {
    exists x :: x in h && Supersedes(x, e)
  }

  /** `h` is what was handed out followed by what is still queued. */
  predicate HistoryOk(accepted: seq<Event>, h: seq<Event>, next: nat) {
    && Ascending(accepted, next) && Ascending(h, next)
    && Essential(accepted) == Essential(h)
    && (forall e :: e in h ==> e in accepted)
    && AllCovered(accepted, h)
  }

  predicate AllCovered(accepted: seq<Event>, h: seq<Event>) {
    forall e :: e in accepted ==> IsCovered(h, e)
  }

  lemma EssentialSnoc(s: seq<Event>, e: Event)
    ensures Essential(s + [e]) == Essential(s) + if Replaceable(e) then [] else [e]
  {
    assert (s + [e])[..|s + [e]| - 1] == s;
  }

  lemma {:induction false} EssentialDrop(a: seq<Event>, x: Event, b: seq<Event>)
    requires Replaceable(x)
    ensures Essential(a + [x] + b) == Essential(a + b)
  {
    if b == [] {
      EssentialSnoc(a, x);
      assert a + [x] + b == a + [x] && a + b == a;
    } else {
      var c, y := b[..|b| - 1], b[|b| - 1];
      EssentialDrop(a, x, c);
      EssentialSnoc(a + [x] + c, y);
      EssentialSnoc(a + c, y);
      assert a + [x] + b == a + [x] + c + [y] && a + b == a + c + [y];
    }
  }

  lemma AscendingSnoc(s: seq<Event>, e: Event, next: nat)
    requires Ascending(s, next) && e.sequence == next
    ensures Ascending(s + [e], next + 1)
  {
  }

  lemma AscendingDrop(a: seq<Event>, x: Event, b: seq<Event>, next: nat)
    requires Ascending(a + [x] + b, next)
    ensures Ascending(a + b, next)
  {
    var s := a + [x] + b;
    forall i | 0 <= i < |a + b|
      ensures (a + b)[i] == s[if i < |a| then i else i + 1]
    {
    }
  }

  lemma CoverAppend(accepted: seq<Event>, h: seq<Event>, e: Event)
    requires AllCovered(accepted, h)
    ensures AllCovered(accepted + [e], h + [e])
  {
    forall y | y in accepted + [e]
      ensures IsCovered(h + [e], y)
    {
      if y in accepted {
        assert IsCovered(h, y);
        var x :| x in h && Supersedes(x, y);
        assert x in h + [e];
      } else {
        assert e in h + [e] && Supersedes(e, y);
      }
    }
  }

  lemma HistoryAppend(accepted: seq<Event>, h: seq<Event>, e: Event, next: nat)
    requires HistoryOk(accepted, h, next) && e.sequence == next
    ensures HistoryOk(accepted + [e], h + [e], next + 1)
  {
    hide Ascending, Essential, AllCovered;
    AscendingSnoc(accepted, e, next);
    AscendingSnoc(h, e, next);
    EssentialSnoc(accepted, e);
    EssentialSnoc(h, e);
    CoverAppend(accepted, h, e);
  }

  /** Whatever the removed event stood for, the event that replaces it stands for. */
  lemma CoverCoalesce(accepted: seq<Event>, a: seq<Event>, x: Event, b: seq<Event>, e: Event)
    requires AllCovered(accepted, a + [x] + b)
    requires Replaceable(e) && Coalesces(x, e) && x.sequence < e.sequence
    ensures AllCovered(accepted + [e], a + b + [e])
  {
    forall y | y in accepted + [e]
      ensures IsCovered(a + b + [e], y)
    {
      assert e in a + b + [e];
      if y in accepted {
        assert IsCovered(a + [x] + b, y);
        var z :| z in a + [x] + b && Supersedes(z, y);
        if z == x {
          assert Supersedes(e, y);
        } else {
          assert z in a + b + [e];
        }
      } else {
        assert Supersedes(e, y);
      }
    }
  }

  lemma DroppedMembers(accepted: seq<Event>, a: seq<Event>, x: Event, b: seq<Event>, e: Event)
    requires forall y :: y in a + [x] + b ==> y in accepted
    ensures forall y :: y in a + b + [e] ==> y in accepted + [e]
  {
    forall y | y in a + b + [e]
      ensures y in accepted + [e]
    {
      if y in a || y in b { assert y in a + [x] + b; }
    }
  }

  lemma HistoryCoalesce(accepted: seq<Event>, a: seq<Event>, x: Event, b: seq<Event>, e: Event, next: nat)
    requires HistoryOk(accepted, a + [x] + b, next) && e.sequence == next && Replaceable(e) && Coalesces(x, e)
    ensures HistoryOk(accepted + [e], a + b + [e], next + 1)
  {
    assert x.sequence < next by {
      assert (a + [x] + b)[|a|] == x;
    }
    hide Ascending, Essential, AllCovered;
    AscendingDrop(a, x, b, next);
    AscendingSnoc(accepted, e, next);
    AscendingSnoc(a + b, e, next);
    EssentialDrop(a, x, b);
    EssentialSnoc(accepted, e);
    EssentialSnoc(a + b, e);
    DroppedMembers(accepted, a, x, b, e);
    CoverCoalesce(accepted, a, x, b, e);
  }

  predicate LogOk(s: Trace) {
    && HistoryOk(s.accepted, s.delivered + s.bus.core.queue, s.bus.core.nextSequence)
    && |s.accepted| == s.bus.core.counters.accepted
    && |s.delivered| == s.bus.core.counters.dispatched + InDispatch(s.bus.disp)
    && (InDispatch(s.bus.disp) == 1 ==> s.delivered != [] && s.bus.disp.event == s.delivered[|s.delivered| - 1])
  }

  lemma PublishKeepsLog(s: Trace, e: Event)
    requires LogOk(s)
    ensures LogOk(Next(s, PublishEvent(e)))
  {
    hide HistoryOk;
    var c, d := s.bus.core, s.delivered;
    var e' := e.(sequence := c.nextSequence);
    if Accepting(c) {
      var i := FirstCoalescing(c.queue, e);
      if |c.queue| != c.capacity {
        HistoryAppend(s.accepted, d + c.queue, e', c.nextSequence);
        assert d + c.queue + [e'] == d + (c.queue + [e']);
      } else if Replaceable(e) && i < |c.queue| {
        var a, x, b := d + c.queue[..i], c.queue[i], c.queue[i + 1..];
        assert d + c.queue == a + [x] + b;
        HistoryCoalesce(s.accepted, a, x, b, e', c.nextSequence);
        assert a + b + [e'] == d + (c.queue[..i] + c.queue[i + 1..] + [e']);
      }
    }
  }

  lemma StepKeepsLog(s: Trace, step: Step)
    requires LogOk(s) && Enabled(s.bus, step) && FlagsOk(s.bus.core, s.bus.disp)
    ensures LogOk(Next(s, step))
  {
    hide HistoryOk;
    if step.PublishEvent? {
      PublishKeepsLog(s, step.event);
    } else if step.Pop? {
      var q := s.bus.core.queue;
      assert s.delivered + [q[0]] + q[1..] == s.delivered + q;
    }
  }

  lemma StepKeepsCore(s: Trace, step: Step)
    requires CoreOk(s.bus.core, s.bus.disp) && Enabled(s.bus, step)
    ensures CoreOk(Next(s, step).bus.core, Next(s, step).bus.disp)
  {
    hide CountersOk;
    if step.PublishEvent? {
      PublishKeepsCore(s.bus.core, s.bus.disp, step.event);
      hide CoreOk, Publish;
    } else {
      assert CountersOk(Next(s, step).bus.core.counters) by { OtherCounters(s, step); }
    }
  }

  lemma OtherCounters(s: Trace, step: Step)
    requires CountersOk(s.bus.core.counters) && Enabled(s.bus, step) && !step.PublishEvent?
    ensures CountersOk(Next(s, step).bus.core.counters)
  {
    hide Sum, CountersOk, Publish, Matches;
    var (n, m) := (s.bus.core.counters, Next(s, step).bus.core.counters);
    assert m == n.(dispatched := m.dispatched, failures := m.failures);
    SameTallies(n, m);
  }

  lemma SameTallies(n: Counters, m: Counters)
    requires CountersOk(n) && m == n.(dispatched := m.dispatched, failures := m.failures)
    ensures CountersOk(m)
  {
    hide Sum;
  }

  // ---------- Subscribers ----------

  predicate RegistryOk(b: Bus) {
    && b.nextSub > 0
    && (forall id :: id in b.subs ==> 0 < id < b.nextSub)
    && (forall id :: id in b.registered ==> id in b.subs && b.subs[id].active)
  }

  /** A subscriber's own record says exactly whether its callback is running. */
  predicate InFlightOk(b: Bus) {
    && (b.disp.Delivering? ==>
          && b.disp.at <= |b.disp.targets| && (b.disp.phase != Ready ==> b.disp.at < |b.disp.targets|)
          && (forall id :: id in b.disp.targets ==> id in b.subs))
    && (forall id :: id in b.subs ==>
          && b.subs[id].inFlight == (if CallRunning(b, id) then 1 else 0)
          && b.subs[id].executing == (if CallRunning(b, id) then Some(DISPATCHER) else None))
  }

  predicate ThreadsOk(b: Bus) {
    && (PcOf(b, DISPATCHER) != Idle ==> b.disp.Delivering? && b.disp.phase == Running)
    && (forall t :: t in b.pcs && b.pcs[t].UnsubFound? ==> b.pcs[t].id in b.subs && b.pcs[t].id !in b.registered)
    && (forall t :: t in b.pcs && b.pcs[t].UnsubWaiting? ==>
          && b.pcs[t].id in b.subs && !b.subs[b.pcs[t].id].active
          && (t == DISPATCHER ==> !CallRunning(b, b.pcs[t].id)))
  }

  predicate ReleasedOk(b: Bus, released: set<nat>) {
    forall id :: id in released ==> id in b.subs && !b.subs[id].active && !CallRunning(b, id)
  }

  /** An id is held by a handle, or by one call that took it from its handle, until its registration is erased. */
  predicate HandlesOk(b: Bus) {
    && (forall id :: id in b.handles ==> id in b.registered && id != 0)
    && (forall t :: t in b.pcs && b.pcs[t].UnsubCalling? && b.pcs[t].id != 0 ==>
          b.pcs[t].id in b.registered && b.pcs[t].id !in b.handles)
    && (forall t, u :: t in b.pcs && u in b.pcs && b.pcs[t].UnsubCalling? && b.pcs[t] == b.pcs[u] && b.pcs[t].id != 0 ==> t == u)
  }

  predicate SubsOk(s: Trace) {
    HandlesOk(s.bus) && RegistryOk(s.bus) && InFlightOk(s.bus) && ThreadsOk(s.bus) && ReleasedOk(s.bus, s.released)
  }

  lemma StepKeepsRegistry(s: Trace, step: Step)
    requires RegistryOk(s.bus) && ThreadsOk(s.bus) && Enabled(s.bus, step)
    ensures RegistryOk(Next(s, step).bus)
  {
    hide Publish, Matches;
  }

  lemma StepKeepsHandles(s: Trace, step: Step)
    requires HandlesOk(s.bus) && RegistryOk(s.bus) && Enabled(s.bus, step)
    ensures HandlesOk(Next(s, step).bus)
  {
    hide Publish, Matches;
  }

  /** Nothing about a call changes while dispatcher position and call records stay. */
  lemma SameCalls(b: Bus, c: Bus)
    requires InFlightOk(b) && c.disp == b.disp && b.subs.Keys <= c.subs.Keys
    requires forall id :: id in b.subs ==> c.subs[id].inFlight == b.subs[id].inFlight && c.subs[id].executing == b.subs[id].executing
    requires forall id :: id in c.subs && id !in b.subs ==> c.subs[id].inFlight == 0 && c.subs[id].executing == None
    ensures InFlightOk(c)
  {
    assert forall id :: CallRunning(b, id) ==> id in b.disp.targets;
    assert forall id :: CallRunning(c, id) == CallRunning(b, id);
  }

  lemma StepKeepsInFlight(s: Trace, step: Step)
    requires FlagsOk(s.bus.core, s.bus.disp) && RegistryOk(s.bus) && InFlightOk(s.bus) && Enabled(s.bus, step)
    ensures InFlightOk(Next(s, step).bus)
  {
    hide Publish, Matches;
    match step {
      case PublishEvent(_) => SameCalls(s.bus, Next(s, step).bus);
      case Subscribe(_) => SameCalls(s.bus, Next(s, step).bus);
      case UnsubTake(_, _) => SameCalls(s.bus, Next(s, step).bus);
      case UnsubFind(_) => SameCalls(s.bus, Next(s, step).bus);
      case UnsubDeactivate(_) => SameCalls(s.bus, Next(s, step).bus);
      case UnsubReturn(_) => SameCalls(s.bus, Next(s, step).bus);
      case StopSignal(_) => SameCalls(s.bus, Next(s, step).bus);
      case StopJoin(_) => SameCalls(s.bus, Next(s, step).bus);
      case StopWaited(_) => SameCalls(s.bus, Next(s, step).bus);
      case _ => DispatchKeepsInFlight(s, step);
    }
  }

  /** The steps of the dispatcher itself. */
  lemma DispatchKeepsInFlight(s: Trace, step: Step)
    requires FlagsOk(s.bus.core, s.bus.disp) && InFlightOk(s.bus) && Enabled(s.bus, step)
    requires Next(s, step).bus.pcs == s.bus.pcs && !step.PublishEvent? && !step.Subscribe?
    ensures InFlightOk(Next(s, step).bus)
  {
    hide Publish, Matches;
    assert forall id :: CallRunning(s.bus, id) ==> id in s.bus.disp.targets;
  }

  /** A step on behalf of a calling thread moves that thread only. */
  predicate CallerStep(step: Step) {
    || step.UnsubTake? || step.UnsubFind? || step.UnsubDeactivate? || step.UnsubReturn?
    || step.StopSignal? || step.StopJoin? || step.StopWaited?
  }

  lemma CallerKeepsThreads(s: Trace, step: Step)
    requires FlagsOk(s.bus.core, s.bus.disp) && CallerStep(step)
    requires RegistryOk(s.bus) && InFlightOk(s.bus) && ThreadsOk(s.bus) && Enabled(s.bus, step)
    ensures ThreadsOk(Next(s, step).bus)
  {
    hide Publish, Matches;
  }

  lemma OthersKeepThreads(s: Trace, step: Step)
    requires FlagsOk(s.bus.core, s.bus.disp) && !CallerStep(step)
    requires RegistryOk(s.bus) && InFlightOk(s.bus) && ThreadsOk(s.bus) && Enabled(s.bus, step)
    ensures ThreadsOk(Next(s, step).bus)
  {
    hide Publish, Matches;
    assert Next(s, step).bus.pcs == s.bus.pcs;
  }

  lemma StepKeepsThreads(s: Trace, step: Step)
    requires FlagsOk(s.bus.core, s.bus.disp)
    requires RegistryOk(s.bus) && InFlightOk(s.bus) && ThreadsOk(s.bus) && Enabled(s.bus, step)
    ensures ThreadsOk(Next(s, step).bus)
  {
    hide Next, Enabled, ThreadsOk, InFlightOk, RegistryOk, FlagsOk;
    if CallerStep(step) { CallerKeepsThreads(s, step); } else { OthersKeepThreads(s, step); }
  }

  lemma StepKeepsReleased(s: Trace, step: Step)
    requires SubsOk(s) && Enabled(s.bus, step)
    ensures ReleasedOk(Next(s, step).bus, Next(s, step).released)
  {
    hide Publish, Matches;
  }

  // ---------- Every reachable state ----------

  predicate BusOk(s: Trace) {
    CoreOk(s.bus.core, s.bus.disp) && LogOk(s) && SubsOk(s)
  }

  lemma InitOk(capacity: nat)
    ensures BusOk(Init(capacity))
  {
    SumOfZeros(KINDS);
    SumOfZeros(SOURCES);
  }

  lemma StepKeepsBusOk(s: Trace, step: Step)
    requires BusOk(s) && Enabled(s.bus, step)
    ensures BusOk(Next(s, step))
  {
    hide CountersOk, Conserved, DepthOk, FlagsOk, LogOk, HandlesOk, RegistryOk, InFlightOk, ThreadsOk, ReleasedOk, Next, Enabled;
    StepKeepsCore(s, step);
    StepKeepsLog(s, step);
    StepKeepsHandles(s, step);
    StepKeepsRegistry(s, step);
    StepKeepsInFlight(s, step);
    StepKeepsThreads(s, step);
    StepKeepsReleased(s, step);
  }

  lemma {:induction false} RunKeepsBusOk(s: Trace, steps: seq<Step>)
    requires BusOk(s) && IsRun(s, steps)
    ensures BusOk(Execute(s, steps))
    decreases |steps|
  {
    hide BusOk, Next, Enabled;
    if steps != [] {
      StepKeepsBusOk(s, steps[0]);
      RunKeepsBusOk(Next(s, steps[0]), steps[1..]);
    }
  }
}
