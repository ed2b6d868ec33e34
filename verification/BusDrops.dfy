/** What the drop counters say about the publications that were attempted. */
module BusDrops {
  import opened Entities
  import opened BusModel
  import opened BusProofs
  import opened BusRuns

  /** The payloads of one kind, in order. */
  function Payloads(s: seq<Event>, kind: EventKind): seq<int> {
    if s == [] then []
    else Payloads(s[..|s| - 1], kind) + if s[|s| - 1].kind == kind then [s[|s| - 1].payload] else []
  }

  function Drops(c: Core, kind: EventKind): nat {
    if KindIndex(kind) < |c.counters.droppedByKind| then c.counters.droppedByKind[KindIndex(kind)] else 0
  }

  /** The counter of a kind is the number of its publications that were refused. */
  predicate CountsDrops(s: Trace, kind: EventKind) {
    && |Payloads(s.attempted, kind)| == |Payloads(s.accepted, kind)| + Drops(s.bus.core, kind)
    && (Drops(s.bus.core, kind) == 0 ==> Payloads(s.attempted, kind) == Payloads(s.accepted, kind))
  }

  lemma PayloadsSnoc(s: seq<Event>, e: Event, kind: EventKind)
    ensures Payloads(s + [e], kind) == Payloads(s, kind) + if e.kind == kind then [e.payload] else []
  {
    assert (s + [e])[..|s + [e]| - 1] == s;
  }

  lemma KindIndexInjective(a: EventKind, b: EventKind)
    ensures KindIndex(a) == KindIndex(b) ==> a == b
  {
  }

  lemma BumpDrops(c: Core, e: Event, kind: EventKind)
    requires |c.counters.droppedByKind| == KINDS
    ensures Drops(Dropped(c, e), kind) == Drops(c, kind) + if e.kind == kind then 1 else 0
  {
    KindIndexInjective(e.kind, kind);
    hide KindIndex;
  }

  lemma PublishDrops(c: Core, e: Event, kind: EventKind)
    requires |c.counters.droppedByKind| == KINDS
    ensures var (u, r) := Publish(c, e);
            Drops(u, kind) == Drops(c, kind) + if !r.accepted && e.kind == kind then 1 else 0
  {
    BumpDrops(c, e, kind);
    hide KindIndex, SourceIndex, Bump;
  }

  lemma PublishCounts(s: Trace, e: Event, kind: EventKind)
    requires |s.bus.core.counters.droppedByKind| == KINDS && CountsDrops(s, kind)
    ensures CountsDrops(Next(s, PublishEvent(e)), kind)
  {
    hide Payloads, Publish, Drops;
    var (u, r) := Publish(s.bus.core, e);
    PublishDrops(s.bus.core, e, kind);
    PayloadsSnoc(s.attempted, e, kind);
    PayloadsSnoc(s.accepted, e.(sequence := r.sequence), kind);
  }

  lemma OthersDropNothing(s: Trace, step: Step)
    requires Enabled(s.bus, step) && !step.PublishEvent?
    ensures var u := Next(s, step);
            && u.attempted == s.attempted && u.accepted == s.accepted
            && u.bus.core.counters.droppedByKind == s.bus.core.counters.droppedByKind
  {
    hide Publish, Matches;
  }

  lemma StepCounts(s: Trace, step: Step, kind: EventKind)
    requires |s.bus.core.counters.droppedByKind| == KINDS && CountsDrops(s, kind) && Enabled(s.bus, step)
    ensures CountsDrops(Next(s, step), kind)
  {
    hide Payloads, KindIndex, Next, Enabled;
    if step.PublishEvent? { PublishCounts(s, step.event, kind); } else { OthersDropNothing(s, step); }
  }

  lemma {:induction false} RunCounts(s: Trace, steps: seq<Step>, kind: EventKind)
    requires BusOk(s) && CountsDrops(s, kind) && IsRun(s, steps)
    ensures CountsDrops(Execute(s, steps), kind)
    decreases |steps|
  {
    if steps != [] {
      StepKeepsBusOk(s, steps[0]);
      StepCounts(s, steps[0], kind);
      hide BusOk, Next, Enabled, CountsDrops;
      RunCounts(Next(s, steps[0]), steps[1..], kind);
    }
  }

  lemma ReachableCounts(s: Trace, kind: EventKind)
    requires Reachable(s)
    ensures CountsDrops(s, kind)
  {
    var capacity, steps :| IsRun(Init(capacity), steps) && s == Execute(Init(capacity), steps);
    InitOk(capacity);
    assert CountsDrops(Init(capacity), kind);
    hide BusOk, CountsDrops;
    RunCounts(Init(capacity), steps, kind);
  }

  lemma {:induction false} EssentialKeepsPayloads(s: seq<Event>, kind: EventKind)
    requires kind !in {ProbeRttMetric, TcpLossMetric, TrafficMetric, WifiRssiMetric}
    ensures Payloads(Essential(s), kind) == Payloads(s, kind)
  {
    if s != [] {
      var (init, last) := (s[..|s| - 1], s[|s| - 1]);
      EssentialKeepsPayloads(init, kind);
      if Replaceable(last) {
        assert Essential(s) == Essential(init) + [] == Essential(init);
      } else {
        PayloadsSnoc(Essential(init), last, kind);
      }
    }
  }

  /**
   * Once the bus has drained, everything of a kind that may not be replaced was delivered as it was published, nothing
   * missing and in order, exactly when the drop counter of that kind is zero.
   */
  lemma AllDeliveredIff(s: Trace, kind: EventKind)
    requires Reachable(s) && s.bus.core.queue == []
    requires kind !in {ProbeRttMetric, TcpLossMetric, TrafficMetric, WifiRssiMetric}
    ensures Payloads(s.delivered, kind) == Payloads(s.attempted, kind) <==> Drops(s.bus.core, kind) == 0
  {
    hide Payloads, Essential, Reachable, Drops;
    ReachableCounts(s, kind);
    NothingEssentialIsLost(s);
    assert s.delivered + s.bus.core.queue == s.delivered;
    EssentialKeepsPayloads(s.delivered, kind);
    EssentialKeepsPayloads(s.accepted, kind);
  }

  /** As many are missing as were refused. */
  lemma RefusedAreMissing(s: Trace, kind: EventKind)
    requires Reachable(s) && s.bus.core.queue == []
    requires kind !in {ProbeRttMetric, TcpLossMetric, TrafficMetric, WifiRssiMetric}
    ensures |Payloads(s.attempted, kind)| == |Payloads(s.delivered, kind)| + Drops(s.bus.core, kind)
  {
    hide Payloads, Essential, Reachable, Drops;
    ReachableCounts(s, kind);
    NothingEssentialIsLost(s);
    assert s.delivered + s.bus.core.queue == s.delivered;
    EssentialKeepsPayloads(s.delivered, kind);
    EssentialKeepsPayloads(s.accepted, kind);
  }
}
