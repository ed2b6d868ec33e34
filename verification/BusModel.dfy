/** The event bus as a transition system: one step for each block the source runs under a mutex. */
module BusModel {
  import opened Entities

  /** `payload` is opaque to the bus. */
  datatype Event = Event(sequence: nat, kind: EventKind, source: EventSource, netns: NetnsId, interface: Option<nat>,
                         socket: Option<SocketId>, payload: int)

  predicate Replaceable(e: Event) {
    e.kind in {ProbeRttMetric, TcpLossMetric, TrafficMetric, WifiRssiMetric}
  }

  datatype Key = Key(kind: EventKind, source: EventSource, netns: NetnsId, interface: Option<nat>,
                     socket: Option<SocketId>)

  function CoalescingKey(e: Event): Key {
    Key(e.kind, e.source, e.netns, e.interface, e.socket)
  }

  const KINDS: nat := 18
  const SOURCES: nat := 13

  function KindIndex(k: EventKind): (i: nat)
    ensures i < KINDS
  {
    match k
    case LinkObservation => 0 case AddressObservation => 1 case RouteObservation => 2 case InterfaceObservation => 3
    case UplinkObservation => 4 case ProbeRttMetric => 5 case TcpLossMetric => 6 case TrafficMetric => 7
    case WifiRssiMetric => 8 case CollectorHealth => 9 case SocketObservation => 10 case TcpInfoObservation => 11
    case TcpIntervalMetric => 12 case SocketRouteObservation => 13 case IncidentObservation => 14
    case RootCauseHypothesisObservation => 15 case ProbeObservation => 16 case WifiObservation => 17
  }

  function SourceIndex(s: EventSource): (i: nat)
    ensures i < SOURCES
  {
    match s
    case NetlinkCollector => 0 case V1InterfaceSnapshot => 1 case V1UplinkMonitor => 2 case V1RttMonitor => 3
    case V1TcpLossMonitor => 4 case V1TrafficMonitor => 5 case V1WifiMonitor => 6 case Runtime => 7
    case SocketTracker => 8 case IncidentEngine => 9 case RootCauseEngine => 10 case ActiveProbe => 11
    case WifiCollector => 12
  }

  // ---------- The state under the queue mutex ----------

  datatype Counters = Counters(
    highWater: nat, accepted: nat, dispatched: nat, drops: nat, coalesces: nat, failures: nat,
    acceptedByKind: seq<nat>, droppedByKind: seq<nat>, acceptedBySource: seq<nat>)

  datatype Core = Core(
    capacity: nat, queue: seq<Event>, nextSequence: nat, counters: Counters,
    started: bool, stopping: bool, stopped: bool, joinClaimed: bool, joined: bool)

  datatype PublishResult = PublishResult(accepted: bool, coalesced: bool, sequence: nat)

  function Bump(s: seq<nat>, i: nat): seq<nat> {
    if i < |s| then s[i := s[i] + 1] else s
  }

  predicate Coalesces(queued: Event, e: Event) {
    Replaceable(queued) && CoalescingKey(queued) == CoalescingKey(e)
  }

  /** The place of the first queued event that `e` may replace, or the length of the queue. */
  function FirstCoalescing(q: seq<Event>, e: Event): (i: nat)
    ensures i <= |q|
    ensures i < |q| ==> Coalesces(q[i], e)
    ensures forall j :: 0 <= j < i ==> !Coalesces(q[j], e)
  {
    if q == [] then 0 else if Coalesces(q[0], e) then 0 else 1 + FirstCoalescing(q[1..], e)
  }

  function Dropped(c: Core, e: Event): Core {
    c.(counters := c.counters.(drops := c.counters.drops + 1,
                               droppedByKind := Bump(c.counters.droppedByKind, KindIndex(e.kind))))
  }

  function Enqueued(c: Core, e: Event): Core {
    var q := c.queue + [e.(sequence := c.nextSequence)];
    var n := c.counters;
    c.(queue := q, nextSequence := c.nextSequence + 1,
       counters := n.(accepted := n.accepted + 1,
                      acceptedByKind := Bump(n.acceptedByKind, KindIndex(e.kind)),
                      acceptedBySource := Bump(n.acceptedBySource, SourceIndex(e.source)),
                      highWater := if n.highWater < |q| then |q| else n.highWater))
  }

  function Coalesced(c: Core, i: nat): Core
    requires i < |c.queue|
  {
    c.(queue := c.queue[..i] + c.queue[i + 1..], counters := c.counters.(coalesces := c.counters.coalesces + 1))
  }

  predicate Accepting(c: Core) {
    c.started && !c.stopping && !c.stopped
  }

  function Publish(c: Core, e: Event): (Core, PublishResult) {
    if !Accepting(c) then (Dropped(c, e), PublishResult(false, false, 0))
    else if |c.queue| != c.capacity then (Enqueued(c, e), PublishResult(true, false, c.nextSequence))
    else
      var i := FirstCoalescing(c.queue, e);
      if Replaceable(e) && i < |c.queue| then (Enqueued(Coalesced(c, i), e), PublishResult(true, true, c.nextSequence))
      else (Dropped(c, e), PublishResult(false, false, 0))
  }

  function Fresh(capacity: nat): Core {
    Core(capacity, [], 1,
         Counters(0, 0, 0, 0, 0, 0, seq(KINDS, _ => 0), seq(KINDS, _ => 0), seq(SOURCES, _ => 0)),
         false, false, false, false, false)
  }

  // ---------- Subscribers, the dispatcher and the calling threads ----------

  datatype Filter = Filter(kind: Option<EventKind>, source: Option<EventSource>, netns: Option<NetnsId>)

  predicate Matches(f: Filter, e: Event) {
    && (f.kind.Some? ==> f.kind.value == e.kind)
    && (f.source.Some? ==> f.source.value == e.source)
    && (f.netns.Some? ==> f.netns.value == e.netns)
  }

  type Thread = nat

  const DISPATCHER: Thread := 0

  datatype Subscriber = Subscriber(filter: Filter, active: bool, inFlight: nat, executing: Option<Thread>)

  datatype Phase = Ready | Running | Returned

  datatype Dispatcher =
    | NotStarted
    | Waiting
    | Popped(event: Event)
    | Delivering(event: Event, targets: seq<nat>, at: nat, phase: Phase)
    | Leaving
    | Exited

  /** Where a thread stands inside `unsubscribe` or `stop`. */
  datatype Pc = Idle | UnsubCalling(id: nat) | UnsubFound(id: nat) | UnsubWaiting(id: nat) | Joining | AwaitingJoined

  /**
   * `handles` are the ids held by a subscription handle. A handle can be moved but not copied, so an id has one holder
   * at most; a handle that was moved from or has unsubscribed holds zero.
   */
  datatype Bus = Bus(core: Core, subs: map<nat, Subscriber>, registered: set<nat>, handles: set<nat>, nextSub: nat,
                     disp: Dispatcher, pcs: map<Thread, Pc>)

  function PcOf(b: Bus, t: Thread): Pc {
    if t in b.pcs then b.pcs[t] else Idle
  }

  predicate CallRunning(b: Bus, id: nat) {
    b.disp.Delivering? && b.disp.phase != Ready && b.disp.at < |b.disp.targets| && b.disp.targets[b.disp.at] == id
  }

  /** The dispatcher runs client code only inside a callback. */
  predicate MayAct(b: Bus, t: Thread) {
    PcOf(b, t) == Idle && (t == DISPATCHER ==> b.disp.Delivering? && b.disp.phase == Running)
  }

  /**
   * The bus together with every publication attempted, those accepted, those handed to the dispatcher, and the ids whose
   * `unsubscribe` has returned other than from inside the callback itself.
   */
  datatype Trace = Trace(bus: Bus, attempted: seq<Event>, accepted: seq<Event>, delivered: seq<Event>, released: set<nat>)

  datatype Step =
    | Start
    | PublishEvent(event: Event)
    | Subscribe(filter: Filter)
    | UnsubTake(thread: Thread, id: nat)
    | UnsubFind(thread: Thread)
    | UnsubDeactivate(thread: Thread)
    | UnsubReturn(thread: Thread)
    | StopSignal(thread: Thread)
    | StopJoin(thread: Thread)
    | StopWaited(thread: Thread)
    | Pop
    | Collect(targets: seq<nat>)
    | SkipCall
    | BeginCall
    | EndCallback(failed: bool)
    | LeaveCall
    | FinishEvent
    | BreakLoop
    | MarkStopped

  /** The subscribers whose filter matches, in the registry's order. */
  predicate AreTargets(b: Bus, e: Event, targets: seq<nat>) {
    && (forall i, j :: 0 <= i < j < |targets| ==> targets[i] < targets[j])
    && (forall id :: id in targets ==> id in b.registered && id in b.subs && Matches(b.subs[id].filter, e))
    && (forall id :: id in b.registered && id in b.subs && Matches(b.subs[id].filter, e) ==> id in targets)
  }

  predicate AtCall(b: Bus, phase: Phase) {
    && b.disp.Delivering? && b.disp.phase == phase && b.disp.at < |b.disp.targets|
    && b.disp.targets[b.disp.at] in b.subs
  }

  predicate Enabled(b: Bus, step: Step) {
    match step
    case Start => true
    case PublishEvent(_) => true
    case Subscribe(_) => true
    case UnsubTake(t, id) => MayAct(b, t) && (id == 0 || id in b.handles)
    case UnsubFind(t) => PcOf(b, t).UnsubCalling?
    case UnsubDeactivate(t) => PcOf(b, t).UnsubFound? && PcOf(b, t).id in b.subs
    case UnsubReturn(t) => PcOf(b, t).UnsubWaiting? && PcOf(b, t).id in b.subs && b.subs[PcOf(b, t).id].inFlight == 0
    case StopSignal(t) => MayAct(b, t)
    case StopJoin(t) => PcOf(b, t) == Joining && b.disp == Exited
    case StopWaited(t) => PcOf(b, t) == AwaitingJoined && b.core.joined
    case Pop => b.disp == Waiting && b.core.queue != []
    case Collect(targets) => b.disp.Popped? && AreTargets(b, b.disp.event, targets)
    case SkipCall => AtCall(b, Ready) && !b.subs[b.disp.targets[b.disp.at]].active
    case BeginCall => AtCall(b, Ready) && b.subs[b.disp.targets[b.disp.at]].active
    case EndCallback(_) => AtCall(b, Running) && PcOf(b, DISPATCHER) == Idle
    case LeaveCall => AtCall(b, Returned) && b.subs[b.disp.targets[b.disp.at]].inFlight > 0
    case FinishEvent => b.disp.Delivering? && b.disp.phase == Ready && b.disp.at == |b.disp.targets|
    case BreakLoop => b.disp == Waiting && b.core.queue == [] && b.core.stopping
    case MarkStopped => b.disp == Leaving
  }

  function Target(b: Bus): nat
    requires b.disp.Delivering? && b.disp.at < |b.disp.targets|
  {
    b.disp.targets[b.disp.at]
  }

  function SetPc(b: Bus, t: Thread, pc: Pc): Bus {
    b.(pcs := b.pcs[t := pc])
  }

  function Stopping(b: Bus, t: Thread): Bus {
    if !b.core.started || b.core.joined then b
    else
      var b1 := b.(core := b.core.(stopping := true));
      if t == DISPATCHER then b1
      else if b.core.joinClaimed then SetPc(b1, t, AwaitingJoined)
      else SetPc(b1.(core := b1.core.(joinClaimed := true)), t, Joining)
  }

  function NextBus(b: Bus, step: Step): Bus
    requires Enabled(b, step)
  {
    match step
    case Start =>
      if b.core.started || b.core.stopped then b else b.(core := b.core.(started := true), disp := Waiting)
    case PublishEvent(e) => b.(core := Publish(b.core, e).0)
    case Subscribe(f) =>
      b.(subs := b.subs[b.nextSub := Subscriber(f, true, 0, None)], registered := b.registered + {b.nextSub},
         handles := b.handles + {b.nextSub}, nextSub := b.nextSub + 1)
    case UnsubTake(t, id) => SetPc(b.(handles := b.handles - {id}), t, UnsubCalling(id))
    case UnsubFind(t) =>
      var id := PcOf(b, t).id;
      if id == 0 || id !in b.registered then SetPc(b, t, Idle)
      else SetPc(b.(registered := b.registered - {id}), t, UnsubFound(id))
    case UnsubDeactivate(t) =>
      var id := PcOf(b, t).id;
      var b1 := b.(subs := b.subs[id := b.subs[id].(active := false)]);
      SetPc(b1, t, if b.subs[id].executing == Some(t) then Idle else UnsubWaiting(id))
    case UnsubReturn(t) => SetPc(b, t, Idle)
    case StopSignal(t) => Stopping(b, t)
    case StopJoin(t) => SetPc(b.(core := b.core.(joined := true)), t, Idle)
    case StopWaited(t) => SetPc(b, t, Idle)
    case Pop => b.(core := b.core.(queue := b.core.queue[1..]), disp := Popped(b.core.queue[0]))
    case Collect(targets) => b.(disp := Delivering(b.disp.event, targets, 0, Ready))
    case SkipCall => b.(disp := b.disp.(at := b.disp.at + 1))
    case BeginCall =>
      var s := b.subs[Target(b)];
      b.(subs := b.subs[Target(b) := s.(inFlight := s.inFlight + 1, executing := Some(DISPATCHER))],
         disp := b.disp.(phase := Running))
    case EndCallback(failed) =>
      b.(core := b.core.(counters := b.core.counters.(failures := b.core.counters.failures + (if failed then 1 else 0))),
         disp := b.disp.(phase := Returned))
    case LeaveCall =>
      var s := b.subs[Target(b)];
      b.(subs := b.subs[Target(b) := s.(inFlight := s.inFlight - 1, executing := None)],
         disp := b.disp.(phase := Ready, at := b.disp.at + 1))
    case FinishEvent =>
      b.(core := b.core.(counters := b.core.counters.(dispatched := b.core.counters.dispatched + 1)), disp := Waiting)
    case BreakLoop => b.(disp := Leaving)
    case MarkStopped => b.(core := b.core.(stopped := true), disp := Exited)
  }

  function Next(s: Trace, step: Step): Trace
    requires Enabled(s.bus, step)
  {
    var b := NextBus(s.bus, step);
    match step
    case PublishEvent(e) =>
      var r := Publish(s.bus.core, e).1;
      s.(bus := b, attempted := s.attempted + [e],
         accepted := if r.accepted then s.accepted + [e.(sequence := r.sequence)] else s.accepted)
    case Pop => s.(bus := b, delivered := s.delivered + [s.bus.core.queue[0]])
    case UnsubFind(t) =>
      var id := PcOf(s.bus, t).id;
      s.(bus := b, released := if id != 0 && id !in s.bus.registered then s.released + {id} else s.released)
    case UnsubReturn(t) => s.(bus := b, released := s.released + {PcOf(s.bus, t).id})
    case _ => s.(bus := b)
  }

  function InitBus(capacity: nat): Bus {
    Bus(Fresh(capacity), map[], {}, {}, 1, NotStarted, map[])
  }

  function Init(capacity: nat): Trace {
    Trace(InitBus(capacity), [], [], [], {})
  }

  predicate IsRun(s: Trace, steps: seq<Step>)
    decreases |steps|
  {
    steps == [] || (Enabled(s.bus, steps[0]) && IsRun(Next(s, steps[0]), steps[1..]))
  }

  function Execute(s: Trace, steps: seq<Step>): Trace
    requires IsRun(s, steps)
    decreases |steps|
  {
    if steps == [] then s else Execute(Next(s, steps[0]), steps[1..])
  }
}
