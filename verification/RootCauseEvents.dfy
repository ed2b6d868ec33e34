/** What an event does to the root-cause engine: the caches it changes, and the reconciliation it triggers. */
module RootCauseEvents {
  import opened Entities
  import opened IdOrder
  import opened KeyOrder
  import opened RootCauseModel
  import opened Reconciliation
  import opened WifiHysteresis
  import Incidents = IncidentProofs
  import I = IncidentModel

  /** A route event is filed under its socket, an uplink event under the namespace of its header. */
  datatype Input =
    | IncidentInput(source: EventSource, observedAt: int, incident: I.Incident)
    | RouteInput(socket: SocketId, route: RouteEvent)
    | UplinkInput(netns: NetnsId, uplink: UplinkEvent)
    | ProbeInput(probe: ProbeEvent)
    | WifiInput(wifi: WifiEvent)
    | OtherInput

  datatype Caches = Caches(
    incidents: map<nat, I.Incident>, routes: map<SocketId, RouteEvent>, uplinks: map<NetnsId, UplinkEvent>,
    probes: map<NetnsId, ProbeCache>, wifi: map<WifiKey, WifiEntry>)

  function FactsOf(c: Caches, clock: int, p: Policy): Facts {
    Facts(p, clock, c.incidents, c.routes, c.uplinks, c.probes, c.wifi)
  }

  predicate WifiLess(a: WifiKey, b: WifiKey) {
    if a.netns != b.netns then NetnsLess(a.netns, b.netns) else a.ifindex < b.ifindex
  }

  lemma WifiOrder()
    ensures TotalOrder(WifiLess)
  {
  }

  // ---------- Probes ----------

  predicate IsNewer(e: ProbeEvent, current: ProbeEvent) {
    e.monotonicAt > current.monotonicAt || (e.monotonicAt == current.monotonicAt && e.sequence >= current.sequence)
  }

  function ProbesAt(probes: map<NetnsId, ProbeCache>, netns: NetnsId): ProbeCache {
    if netns in probes then probes[netns] else ProbeCache(None, None)
  }

  function Held(c: ProbeCache, kind: TargetKind): Option<ProbeEvent> {
    if kind == ToGateway then c.gateway else c.remote
  }

  function Hold(c: ProbeCache, e: ProbeEvent): ProbeCache {
    if e.target.kind == ToGateway then c.(gateway := Some(e)) else c.(remote := Some(e))
  }

  // ---------- Wi-Fi observations ----------

  predicate Measured(e: WifiEvent) {
    && (e.signalAverage.Some? || e.signal.Some?) && e.capability == WifiAvailable && e.link == LinkAssociated
  }

  function Reading(e: WifiEvent): int
    requires Measured(e)
  {
    if e.signalAverage.Some? then e.signalAverage.value else e.signal.value
  }

  function CategoryOf(previous: Option<WifiEntry>, e: WifiEvent, p: Policy): Signal {
    if !Measured(e) then NoSignal
    else NextCategory(if previous.Some? then previous.value.category else NoSignal, Reading(e), p)
  }

  predicate IsOlder(e: WifiEvent, previous: WifiEvent) {
    e.monotonicAt < previous.monotonicAt || (e.monotonicAt == previous.monotonicAt && e.eventId <= previous.eventId)
  }

  function EntryAt(wifi: map<WifiKey, WifiEntry>, e: WifiEvent): Option<WifiEntry> {
    if e.ifindex.Some? && WifiKey(e.netns, e.ifindex.value) in wifi
    then Some(wifi[WifiKey(e.netns, e.ifindex.value)]) else None
  }

  // ---------- What an event changes ----------

  /** Events of another kind or from another source are not for this engine, and neither are pending incidents. */
  predicate Consumed(e: Input) {
    match e
    case IncidentInput(source, _, i) => source == IncidentEngine && i.state != I.Pending
    case RouteInput(_, r) => r.header.source == SocketTracker
    case UplinkInput(_, u) => u.header.source == NetlinkCollector
    case ProbeInput(q) => q.header.source == ActiveProbe
    case WifiInput(w) => w.header.source == WifiCollector
    case OtherInput => false
  }

  /** An earlier report that comes late is consumed without effect. */
  predicate Late(c: Caches, e: Input) {
    match e
    case ProbeInput(q) =>
      var current := Held(ProbesAt(c.probes, q.netns), q.target.kind);
      current.Some? && !IsNewer(q, current.value)
    case WifiInput(w) =>
      var current := EntryAt(c.wifi, w);
      current.Some? && IsOlder(w, current.value.event)
    case _ => false
  }

  predicate Triggers(c: Caches, e: Input) {
    Consumed(e) && !Late(c, e)
  }

  ghost function WithWifi(wifi: map<WifiKey, WifiEntry>, w: WifiEvent, p: Policy): map<WifiKey, WifiEntry> {
    WifiOrder();
    if w.ifindex.None? then map k | k in wifi && k.netns != w.netns :: wifi[k]
    else
      Trimmed(wifi[WifiKey(w.netns, w.ifindex.value) := WifiEntry(w, CategoryOf(EntryAt(wifi, w), w, p))],
              2 * p.maxActive, WifiLess)
  }

  ghost function Absorb(c: Caches, e: Input, p: Policy): Caches {
    NumberOrder();
    SocketOrder();
    NetnsOrder();
    match e
    case IncidentInput(_, _, i) =>
      c.(incidents := Trimmed(Incidents.Mirror(c.incidents, i), 2 * p.maxActive, NumberLess))
    case RouteInput(s, r) => c.(routes := Trimmed(c.routes[s := r], 2 * p.maxActive, IdLess))
    case UplinkInput(n, u) => c.(uplinks := Trimmed(c.uplinks[n := u], p.maxActive, NetnsLess))
    case ProbeInput(q) =>
      c.(probes := Trimmed(c.probes[q.netns := Hold(ProbesAt(c.probes, q.netns), q)], p.maxActive, NetnsLess))
    case WifiInput(w) => c.(wifi := WithWifi(c.wifi, w, p))
    case OtherInput => c
  }

  function ObservedAt(e: Input): int {
    match e
    case IncidentInput(_, at, _) => at
    case RouteInput(_, r) => r.header.observedAt
    case UplinkInput(_, u) => u.header.observedAt
    case ProbeInput(q) => q.header.observedAt
    case WifiInput(w) => w.header.observedAt
    case OtherInput => 0
  }

  // ---------- One event ----------

  datatype State = State(caches: Caches, live: Registry)

  /** What came in, the clock when the candidates were built, the orders of both passes, and what was emitted. */
  datatype Turn = Turn(event: Input, clock: int, order: seq<CauseKey>, gone: seq<CauseKey>, out: seq<Hypothesis>)

  ghost predicate Reconciles(s: State, t: Turn, p: Policy) {
    Triggers(s.caches, t.event) && Typed(Absorb(s.caches, t.event, p).incidents)
  }

  ghost function Desired(s: State, t: Turn, p: Policy): map<CauseKey, Hypothesis> {
    Candidates(FactsOf(Absorb(s.caches, t.event, p), t.clock, p))
  }

  /** Candidates that cannot be built leave the hypotheses alone, but not the caches. */
  ghost predicate StepTo(s: State, t: Turn, u: State, p: Policy) {
    && u.caches == (if Triggers(s.caches, t.event) then Absorb(s.caches, t.event, p) else s.caches)
    && if Reconciles(s, t, p)
       then Visits(s.live, Desired(s, t, p), t.order, t.gone)
            && (u.live, t.out) == Reconcile(s.live, Desired(s, t, p), t.order, t.gone, ObservedAt(t.event), p)
       else u.live == s.live && t.out == []
  }
}
