/** What the root-cause engine knows, and what it concludes from it: candidates as a function of cached facts. */
module RootCauseModel {
  import opened BoundedList
  import opened Entities
  import I = IncidentModel

  // ---------- Facts ----------

  datatype Policy = Policy(
    maxResolved: nat, maxEvidence: nat, maxActive: nat, probeFreshness: int, wifiFreshness: int,
    gatewayRttHigh: nat, remoteRttHigh: nat,
    weak: int, veryWeak: int, weakRecover: int, veryWeakRecover: int, bitrateLow: nat)

  predicate PolicyOk(p: Policy) {
    && p.maxResolved > 0 && p.maxEvidence > 0 && p.maxActive > 0 && p.probeFreshness > 0 && p.wifiFreshness > 0
    && p.gatewayRttHigh > 0 && p.remoteRttHigh > 0 && p.bitrateLow > 0
    && p.veryWeak < p.weak < p.weakRecover && p.veryWeak < p.veryWeakRecover < p.weakRecover
  }

  /** The part of an event header that evidence copies. */
  datatype Header = Header(kind: EventKind, source: EventSource, observedAt: int, monotonicAt: int, validity: Validity)

  datatype Gateway = Gateway(family: nat, address: Address)

  datatype RouteEvent = RouteEvent(
    header: Header, netns: NetnsId, status: RouteStatus, authoritative: bool, generation: nat,
    selected: Option<nat>, gateway: Option<Gateway>)

  datatype UplinkEvent = UplinkEvent(header: Header, ifindex: Option<nat>, selected: bool, methods: nat)

  datatype TargetKind = ToGateway | ToRemote

  datatype Target = Target(kind: TargetKind, netns: NetnsId, address: Gateway, ifindex: Option<nat>)

  datatype ProbeStatus = Success | Timeout | Unreachable | TransportDown | NoTarget | InvalidReply | ProbeError

  datatype ProbeEvent = ProbeEvent(
    header: Header, target: Target, netns: NetnsId, monotonicAt: int, sequence: nat, status: ProbeStatus,
    rtt: Option<nat>, validity: Validity)

  datatype ProbeCache = ProbeCache(gateway: Option<ProbeEvent>, remote: Option<ProbeEvent>)

  datatype LinkState = LinkUnknown | LinkNotWifi | LinkNotAssociated | LinkAssociated

  datatype WifiCapability =
    | WifiAvailable | NotWifi | NotAssociatedCapability | Unsupported | PermissionDenied | WifiTransportDown | WifiError
    | NoWifiTarget

  datatype WifiEvent = WifiEvent(
    header: Header, eventId: nat, netns: NetnsId, ifindex: Option<nat>, generation: nat, link: LinkState,
    capability: WifiCapability, iftype: Option<nat>, signal: Option<int>, signalAverage: Option<int>,
    txBitrate: Option<nat>, monotonicAt: int, validity: Validity)

  datatype Signal = NoSignal | Normal | Weak | VeryWeak

  datatype WifiEntry = WifiEntry(event: WifiEvent, category: Signal)

  datatype WifiKey = WifiKey(netns: NetnsId, ifindex: nat)

  /** Everything cached, with one reading of the monotonic clock. */
  datatype Facts = Facts(
    policy: Policy, now: int, incidents: map<nat, I.Incident>, routes: map<SocketId, RouteEvent>,
    uplinks: map<NetnsId, UplinkEvent>, probes: map<NetnsId, ProbeCache>, wifi: map<WifiKey, WifiEntry>)

  // ---------- Evidence ----------

  datatype Role = Supporting | Contradicting | Missing

  datatype Capability = Observed | NotObserved | NotImplemented

  datatype Kind =
    | NoUsableUplink | NoModeledRouteKind | RouteConflict | RttIncident | RetransmissionIncident
    | ModeledRoute | UsableUplink | PolicyRoutingUnknown | TopologyUnknown
    | GatewayUnknown | GatewayReachable | GatewayHighRtt | GatewayTimeout
    | RemoteUnknown | RemoteReachable | RemoteHighRtt | RemoteTimeout | ProbeStaleKind
    | NoEndpointProbe | NoHopEvidence | NoGatewayHealth
    | Associated | NotAssociated | SignalNormal | SignalWeak | SignalVeryWeak | BitrateLow
    | WifiUnknown | WifiStaleKind | WifiMismatchKind

  /** The provenance texts of the source, one constructor each; incident evidence carries the incident's condition. */
  datatype Provenance =
    | OfIncident(condition: I.Condition)
    | NoProbe(target: TargetKind) | OtherGateway | OldProbe(target: TargetKind) | UnusableSuccess | UnusableTimeout
    | FreshSuccess(target: TargetKind) | FreshTimeout(target: TargetKind) | NotASuccess(status: ProbeStatus)
    | NoRouteInterface | NoUplinkInterface | NoWifi | OldWifi | OlderGeneration | UnusableWifi | NotAStation | NotAWifiLink
    | FreshAssociation | NoAssociationClaim | FreshAssociationFailure | NoFailureClaim | NoCapability
    | RulesNotModeled | RouteContradicts | ReachableIsContext | DegradedIsContext | RouteSupports | RouteMissing
    | UplinkSupports | UplinkMissing | SignalIsNormal | SignalIsWeak | SignalIsVeryWeak | BitrateIsLow
    | AssociationPresent | HealthNotObserved | UplinkRestored | RemoteNotSpecific | HopsNotImplemented
    | AssociationBeyondGateway | SignalBeyondGateway

  datatype Clue = Clue(
    incident: Option<nat>, eventKind: EventKind, source: EventSource, scope: Scope, observedAt: int, monotonicAt: int,
    role: Role, kind: Kind, value: Option<I.EvidenceValue>, unit: I.EvidenceUnit, validity: Validity,
    capability: Capability, provenance: Provenance)

  function Add(list: seq<Clue>, c: Clue, bound: nat): seq<Clue> {
    if c in list then list else MakeRoom(list, c, bound)
  }

  function AddAll(list: seq<Clue>, more: seq<Clue>, bound: nat): seq<Clue> {
    if more == [] then list else Add(AddAll(list, more[..|more| - 1], bound), more[|more| - 1], bound)
  }

  function Of(h: Header, scope: Scope, role: Role, kind: Kind, capability: Capability, why: Provenance): Clue {
    Clue(None, h.kind, h.source, scope, h.observedAt, h.monotonicAt, role, kind, None, I.NoUnit, h.validity, capability, why)
  }

  function OfProbe(p: ProbeEvent, scope: Scope, role: Role, kind: Kind, capability: Capability, why: Provenance): Clue {
    var c := Of(p.header, scope, role, kind, capability, why);
    if p.rtt.Some? then c.(value := Some(I.Amount(p.rtt.value)), unit := I.Microseconds) else c
  }

  function OfIncidentNow(i: I.Incident, kind: Kind): Clue {
    var last := if i.evidence == [] then None else Some(i.evidence[|i.evidence| - 1]);
    Clue(Some(i.id), IncidentObservation, IncidentEngine, i.scope, i.updatedAt, i.updatedMonotonic, Supporting, kind,
         if last.Some? then last.value.value else None, if last.Some? then last.value.unit else I.NoUnit,
         i.validity, Observed, OfIncident(i.condition))
  }

  // ---------- Reading the caches ----------

  datatype Meaning = Unknown | Outdated | Reachable | HighRtt | TimedOut

  datatype ProbeFact = ProbeFact(event: Option<ProbeEvent>, meaning: Meaning, capability: Capability, why: Provenance)

  predicate SameGateway(t: Target, r: RouteEvent) {
    && t.kind == ToGateway && t.netns == r.netns && r.gateway.Some? && r.selected.Some? && t.ifindex.Some?
    && t.address == r.gateway.value && t.ifindex == r.selected
  }

  function CachedProbe(f: Facts, netns: NetnsId, kind: TargetKind): Option<ProbeEvent> {
    if netns !in f.probes then None else if kind == ToGateway then f.probes[netns].gateway else f.probes[netns].remote
  }

  predicate Fresh(at: int, now: int, window: int) {
    at <= now && now - at <= window
  }

  function ReadProbe(f: Facts, kind: TargetKind, e: ProbeEvent): ProbeFact {
    if !Fresh(e.monotonicAt, f.now, f.policy.probeFreshness) then ProbeFact(Some(e), Outdated, NotObserved, OldProbe(kind))
    else if e.status == Success && !UsableValidity(e.validity) then ProbeFact(Some(e), Unknown, NotObserved, UnusableSuccess)
    else if e.status == Timeout && !UsableValidity(e.validity) then ProbeFact(Some(e), Unknown, NotObserved, UnusableTimeout)
    else if e.status == Success then
      var limit := if kind == ToGateway then f.policy.gatewayRttHigh else f.policy.remoteRttHigh;
      ProbeFact(Some(e), if e.rtt.Some? && e.rtt.value >= limit then HighRtt else Reachable, Observed, FreshSuccess(kind))
    else if e.status == Timeout then ProbeFact(Some(e), TimedOut, Observed, FreshTimeout(kind))
    else ProbeFact(Some(e), Unknown, NotObserved, NotASuccess(e.status))
  }

  function ClassifyProbe(f: Facts, netns: NetnsId, kind: TargetKind, route: Option<RouteEvent>): ProbeFact {
    var cached := CachedProbe(f, netns, kind);
    if cached.None? then ProbeFact(None, Unknown, NotObserved, NoProbe(kind))
    else if kind == ToGateway && (route.None? || !SameGateway(cached.value.target, route.value)) then
      ProbeFact(cached, Unknown, NotObserved, OtherGateway)
    else ReadProbe(f, kind, cached.value)
  }

  datatype WifiMeaning = WifiMissing | WifiStale | WifiMismatch | NotApplicable | IsAssociated | IsNotAssociated

  datatype WifiFact = WifiFact(entry: Option<WifiEntry>, meaning: WifiMeaning, why: Provenance)

  const STATION := 2

  function CurrentInterface(f: Facts, netns: NetnsId, route: Option<RouteEvent>): Option<nat> {
    if route.Some? then
      if route.value.status != RouteAvailable || !route.value.authoritative then None else route.value.selected
    else if netns !in f.uplinks || !UsableValidity(f.uplinks[netns].header.validity) then None
    else if !f.uplinks[netns].selected then None
    else f.uplinks[netns].ifindex
  }

  function ReadWifi(e: WifiEntry): WifiFact {
    match e.event.capability
    case NotWifi => WifiFact(Some(e), NotApplicable, NotAWifiLink)
    case WifiAvailable =>
      if e.event.link == LinkAssociated then WifiFact(Some(e), IsAssociated, FreshAssociation)
      else WifiFact(Some(e), WifiMissing, NoAssociationClaim)
    case NotAssociatedCapability =>
      if e.event.link == LinkNotAssociated || e.event.link == LinkUnknown
      then WifiFact(Some(e), IsNotAssociated, FreshAssociationFailure)
      else WifiFact(Some(e), WifiMissing, NoFailureClaim)
    case _ => WifiFact(Some(e), WifiMissing, NoCapability)
  }

  function ClassifyWifi(f: Facts, netns: NetnsId, route: Option<RouteEvent>): WifiFact {
    var selected := CurrentInterface(f, netns, route);
    if selected.None? then WifiFact(None, WifiMissing, if route.Some? then NoRouteInterface else NoUplinkInterface)
    else if WifiKey(netns, selected.value) !in f.wifi then WifiFact(None, WifiMissing, NoWifi)
    else
      var e := f.wifi[WifiKey(netns, selected.value)];
      var generation := if route.Some? then route.value.generation else 0;
      if !Fresh(e.event.monotonicAt, f.now, f.policy.wifiFreshness) then WifiFact(Some(e), WifiStale, OldWifi)
      else if generation != 0 && e.event.generation != 0 && generation != e.event.generation then
        WifiFact(Some(e), WifiMismatch, OlderGeneration)
      else if !UsableValidity(e.event.validity) then WifiFact(Some(e), WifiMissing, UnusableWifi)
      else if e.event.iftype.Some? && e.event.iftype.value != STATION then WifiFact(Some(e), NotApplicable, NotAStation)
      else ReadWifi(e)
  }

  // ---------- Hypotheses ----------

  datatype CauseType =
    | UplinkAvailabilityProblem | LocalRoutingProblem | NetworkPathDegradation | RemoteOrUpstreamDegradation
    | LocalLinkSuspected | InsufficientEvidence

  datatype Level = Low | Medium | High

  datatype Reason =
    | ActiveUplinkUnavailable | AuthoritativeNoRoute | RouteEvidenceConflict | TcpPathDegradation
    | PathContextUnavailable | ProbeContextUnavailable | WifiNotAssociatedReason | WeakWifiAndGateway | BeyondGateway

  datatype CauseKey = CauseKey(typ: CauseType, scope: Scope)

  /** The id of the source is the key together with the occurrence number. */
  datatype Hypothesis = Hypothesis(
    occurrence: nat, typ: CauseType, scope: Scope, active: bool, level: Level, openedAt: int, updatedAt: int,
    resolvedAt: Option<int>, supporting: seq<Clue>, contradicting: seq<Clue>, missing: seq<Clue>, reason: Reason)

  function NewHypothesis(k: CauseKey, level: Level, openedAt: int, updatedAt: int, reason: Reason): Hypothesis {
    Hypothesis(0, k.typ, k.scope, true, level, openedAt, updatedAt, None, [], [], [], reason)
  }

  function Max(a: int, b: int): int {
    if a < b then b else a
  }

  function MaxLevel(a: Level, b: Level): Level {
    if a == High || b == High then High else if a == Medium || b == Medium then Medium else Low
  }

  function Lowered(l: Level): Level {
    if l == High then Medium else Low
  }

  // ---------- Incidents open candidates ----------

  function CauseOf(t: I.IncidentType): CauseType {
    match t
    case UplinkDown => UplinkAvailabilityProblem
    case NoRoute => LocalRoutingProblem
    case SocketRouteConflict => LocalRoutingProblem
    case HighTcpRtt => NetworkPathDegradation
    case ElevatedTcpRetransmission => NetworkPathDegradation
  }

  function OpeningReason(t: I.IncidentType): Reason {
    match t
    case UplinkDown => ActiveUplinkUnavailable
    case NoRoute => AuthoritativeNoRoute
    case SocketRouteConflict => RouteEvidenceConflict
    case _ => TcpPathDegradation
  }

  function OpeningLevel(t: I.IncidentType): Level {
    match t case UplinkDown => High case NoRoute => High case SocketRouteConflict => Medium case _ => Low
  }

  function KindOfIncident(t: I.IncidentType): Kind {
    match t
    case UplinkDown => NoUsableUplink
    case NoRoute => NoModeledRouteKind
    case SocketRouteConflict => RouteConflict
    case HighTcpRtt => RttIncident
    case ElevatedTcpRetransmission => RetransmissionIncident
  }

  function KeyFor(i: I.Incident): CauseKey {
    CauseKey(CauseOf(i.typ), i.scope)
  }

  function Admit(m: map<CauseKey, Hypothesis>, i: I.Incident, bound: nat): map<CauseKey, Hypothesis> {
    var k := KeyFor(i);
    var h := if k in m then m[k] else NewHypothesis(k, Low, i.openedAt, i.openedAt, OpeningReason(i.typ));
    m[k := h.(level := MaxLevel(h.level, OpeningLevel(i.typ)), updatedAt := Max(h.updatedAt, i.updatedAt),
              supporting := Add(h.supporting, OfIncidentNow(i, KindOfIncident(i.typ)), bound))]
  }

  /** The incidents with an id below `n`, in the order of their ids. */
  function Admitted(incidents: map<nat, I.Incident>, n: nat, bound: nat): map<CauseKey, Hypothesis> {
    if n == 0 then map[]
    else
      var m := Admitted(incidents, n - 1, bound);
      if n - 1 in incidents then Admit(m, incidents[n - 1], bound) else m
  }

  predicate Mentions(list: seq<Clue>, kind: Kind) {
    exists i :: 0 <= i < |list| && list[i].kind == kind
  }

  predicate BothTcp(list: seq<Clue>) {
    Mentions(list, RttIncident) && Mentions(list, RetransmissionIncident)
  }

  /** A second, independent TCP incident upgrades the path rule. */
  function Upgraded(k: CauseKey, h: Hypothesis): Hypothesis {
    if k.typ == NetworkPathDegradation && BothTcp(h.supporting) then h.(level := Medium) else h
  }

  // ---------- Context for routing problems ----------

  function Synthetic(kind: EventKind, source: EventSource): Header {
    Header(kind, source, 0, 0, Unavailable)
  }

  predicate RouteUsable(r: RouteEvent) {
    r.status == RouteAvailable && r.authoritative && UsableValidity(r.header.validity)
  }

  function RouteOf(f: Facts, s: SocketId): Option<RouteEvent> {
    if s in f.routes then Some(f.routes[s]) else None
  }

  function GatewayOf(f: Facts, s: SocketId): ProbeFact {
    ClassifyProbe(f, s.netns, ToGateway, RouteOf(f, s))
  }

  function RemoteOf(f: Facts, s: SocketId): ProbeFact {
    ClassifyProbe(f, s.netns, ToRemote, RouteOf(f, s))
  }

  function WifiOf(f: Facts, s: SocketId): WifiFact {
    ClassifyWifi(f, s.netns, RouteOf(f, s))
  }

  predicate GatewayDegraded(g: ProbeFact) {
    g.meaning == HighRtt || g.meaning == TimedOut
  }

  function GatewayDegradation(g: ProbeFact, scope: Scope, why: Provenance): seq<Clue> {
    if g.event.None? || !GatewayDegraded(g) then []
    else [OfProbe(g.event.value, scope, Supporting, if g.meaning == HighRtt then GatewayHighRtt else GatewayTimeout, Observed, why)]
  }

  function WithRouteContext(f: Facts, s: SocketId, h: Hypothesis): Hypothesis {
    var (scope, bound) := (SocketScope(s), f.policy.maxEvidence);
    var known := h.(missing := Add(h.missing, Of(Synthetic(SocketRouteObservation, SocketTracker), scope, Missing,
                                                 PolicyRoutingUnknown, NotImplemented, RulesNotModeled), bound));
    var route := RouteOf(f, s);
    if route.None? then known
    else
      var against := if RouteUsable(route.value)
        then [Of(route.value.header, scope, Contradicting, ModeledRoute, Observed, RouteContradicts)] else [];
      var g := GatewayOf(f, s);
      var reached := if g.event.Some? && g.meaning == Reachable
        then [OfProbe(g.event.value, scope, Contradicting, GatewayReachable, Observed, ReachableIsContext)] else [];
      known.(level := if RouteUsable(route.value) then Lowered(h.level) else h.level,
             contradicting := AddAll(h.contradicting, against + reached, bound),
             supporting := AddAll(h.supporting, GatewayDegradation(g, scope, DegradedIsContext), bound))
  }

  // ---------- Context for path problems ----------

  predicate RouteKnown(f: Facts, s: SocketId) {
    s in f.routes && RouteUsable(f.routes[s])
  }

  predicate UplinkKnown(f: Facts, netns: NetnsId) {
    && netns in f.uplinks && f.uplinks[netns].selected && f.uplinks[netns].methods != 0
    && UsableValidity(f.uplinks[netns].header.validity)
  }

  function NoProbeEvent(netns: NetnsId, kind: TargetKind): ProbeEvent {
    ProbeEvent(Synthetic(ProbeObservation, ActiveProbe),
               Target(kind, netns, Gateway(0, seq(16, _ => 0 as bv8)), None), netns, 0, 0, NoTarget, None, Unavailable)
  }

  /** One probe contributes to exactly one of the three lists. */
  function ProbeClue(g: ProbeFact, s: SocketId, kind: TargetKind): Clue {
    var e := if g.event.Some? then g.event.value else NoProbeEvent(s.netns, kind);
    var scope := SocketScope(s);
    match g.meaning
    case Reachable =>
      if kind == ToGateway then OfProbe(e, scope, Supporting, GatewayReachable, g.capability, g.why)
      else OfProbe(e, scope, Contradicting, RemoteReachable, g.capability, g.why)
    case HighRtt =>
      OfProbe(e, scope, Supporting, if kind == ToGateway then GatewayHighRtt else RemoteHighRtt, g.capability, g.why)
    case TimedOut =>
      OfProbe(e, scope, Supporting, if kind == ToGateway then GatewayTimeout else RemoteTimeout, g.capability, g.why)
    case Outdated => OfProbe(e, scope, Missing, ProbeStaleKind, NotObserved, g.why)
    case Unknown =>
      OfProbe(e, scope, Missing, if kind == ToGateway then GatewayUnknown else RemoteUnknown, g.capability, g.why)
  }

  function Only(role: Role, c: Clue): seq<Clue> {
    if c.role == role then [c] else []
  }

  predicate WifiConclusive(w: WifiFact) {
    w.entry.Some? && (w.meaning == IsAssociated || w.meaning == IsNotAssociated)
  }

  function OfWifi(e: WifiEntry, scope: Scope, kind: Kind, why: Provenance): Clue {
    Of(e.event.header, scope, Supporting, kind, Observed, why)
  }

  function SignalClues(e: WifiEntry, scope: Scope): seq<Clue> {
    match e.category
    case NoSignal => []
    case Normal => [OfWifi(e, scope, SignalNormal, SignalIsNormal)]
    case Weak => [OfWifi(e, scope, SignalWeak, SignalIsWeak)]
    case VeryWeak => [OfWifi(e, scope, SignalVeryWeak, SignalIsVeryWeak)]
  }

  function BitrateClues(f: Facts, e: WifiEntry, scope: Scope): seq<Clue> {
    if e.event.txBitrate.Some? && e.event.txBitrate.value < f.policy.bitrateLow
    then [OfWifi(e, scope, BitrateLow, BitrateIsLow)] else []
  }

  function WifiSupport(f: Facts, w: WifiFact, scope: Scope): seq<Clue> {
    if !WifiConclusive(w) then []
    else
      var e := w.entry.value;
      if w.meaning == IsNotAssociated then [OfWifi(e, scope, NotAssociated, w.why)]
      else [OfWifi(e, scope, Associated, w.why)] + SignalClues(e, scope) + BitrateClues(f, e, scope)
  }

  function WifiGap(w: WifiFact, scope: Scope): seq<Clue> {
    if WifiConclusive(w) then []
    else if w.entry.Some? then
      var kind := match w.meaning case WifiStale => WifiStaleKind case WifiMismatch => WifiMismatchKind case _ => WifiUnknown;
      [Of(w.entry.value.event.header, scope, Missing, kind, NotObserved, w.why)]
    else [Of(Synthetic(WifiObservation, WifiCollector), scope, Missing, WifiUnknown, NotObserved, w.why)]
  }

  function NoRouteClue(s: SocketId): Clue {
    Of(Synthetic(SocketRouteObservation, SocketTracker), SocketScope(s), Missing, TopologyUnknown, NotObserved, RouteMissing)
  }

  function PathSupport(f: Facts, s: SocketId): seq<Clue> {
    var scope := SocketScope(s);
    (if RouteKnown(f, s) then [Of(f.routes[s].header, scope, Supporting, ModeledRoute, Observed, RouteSupports)] else [])
    + (if UplinkKnown(f, s.netns)
       then [Of(f.uplinks[s.netns].header, scope, Supporting, UsableUplink, Observed, UplinkSupports)] else [])
    + Only(Supporting, ProbeClue(GatewayOf(f, s), s, ToGateway)) + Only(Supporting, ProbeClue(RemoteOf(f, s), s, ToRemote))
    + WifiSupport(f, WifiOf(f, s), scope)
  }

  function PathGaps(f: Facts, s: SocketId): seq<Clue> {
    var scope := SocketScope(s);
    (if RouteKnown(f, s) then [] else [NoRouteClue(s)])
    + (if UplinkKnown(f, s.netns) then []
       else [Of(Synthetic(UplinkObservation, NetlinkCollector), scope, Missing, TopologyUnknown, NotObserved, UplinkMissing)])
    + Only(Missing, ProbeClue(GatewayOf(f, s), s, ToGateway)) + Only(Missing, ProbeClue(RemoteOf(f, s), s, ToRemote))
    + WifiGap(WifiOf(f, s), scope)
  }

  function PathLevel(level: Level, gateway: Meaning, remote: Meaning, both: bool): Level {
    var l := if level == Low && (gateway == HighRtt || remote == HighRtt) then Medium else level;
    if gateway == Reachable && (remote == HighRtt || remote == TimedOut) then
      if l == Low then Medium else if l == Medium && remote == HighRtt && both then High else l
    else l
  }

  function WithPathContext(f: Facts, s: SocketId, h: Hypothesis): Hypothesis {
    var bound := f.policy.maxEvidence;
    var supporting := AddAll(h.supporting, PathSupport(f, s), bound);
    h.(supporting := supporting,
       contradicting := AddAll(h.contradicting, Only(Contradicting, ProbeClue(RemoteOf(f, s), s, ToRemote)), bound),
       missing := AddAll(h.missing, PathGaps(f, s), bound),
       level := PathLevel(h.level, GatewayOf(f, s).meaning, RemoteOf(f, s).meaning, BothTcp(supporting)))
  }

  // ---------- Derived candidates ----------

  predicate IsTcp(c: Clue) {
    c.kind == RttIncident || c.kind == RetransmissionIncident
  }

  predicate IsProbeGap(c: Clue) {
    c.kind == GatewayUnknown || c.kind == RemoteUnknown || c.kind == ProbeStaleKind
  }

  function Filter(list: seq<Clue>, p: Clue -> bool): seq<Clue> {
    if list == [] then []
    else Filter(list[..|list| - 1], p) + (if p(list[|list| - 1]) then [list[|list| - 1]] else [])
  }

  predicate WifiIsVeryWeak(w: WifiFact) {
    w.entry.Some? && w.meaning == IsAssociated && w.entry.value.category == VeryWeak
  }

  predicate WifiIsWeak(w: WifiFact) {
    w.entry.Some? && w.meaning == IsAssociated && (w.entry.value.category == Weak || w.entry.value.category == VeryWeak)
  }

  predicate LocalSuspected(f: Facts, s: SocketId) {
    var w := WifiOf(f, s);
    w.meaning == IsNotAssociated || (WifiIsWeak(w) && GatewayDegraded(GatewayOf(f, s)))
  }

  function LocalWifiClues(w: WifiFact, scope: Scope): seq<Clue> {
    if w.entry.None? then []
    else if w.meaning == IsNotAssociated then [OfWifi(w.entry.value, scope, NotAssociated, w.why)]
    else [OfWifi(w.entry.value, scope, if WifiIsVeryWeak(w) then SignalVeryWeak else SignalWeak, w.why),
          OfWifi(w.entry.value, scope, Associated, AssociationPresent)]
  }

  /** From a path candidate that already has its context. */
  function LocalLink(f: Facts, s: SocketId, h: Hypothesis): Hypothesis {
    var (scope, bound, w, g) := (SocketScope(s), f.policy.maxEvidence, WifiOf(f, s), GatewayOf(f, s));
    var away := w.meaning == IsNotAssociated;
    var level := if away || WifiIsVeryWeak(w) || h.level != Low then Medium else Low;
    NewHypothesis(CauseKey(LocalLinkSuspected, scope), level, h.openedAt, h.updatedAt,
                  if away then WifiNotAssociatedReason else WeakWifiAndGateway)
    .(supporting := AddAll([], Filter(h.supporting, IsTcp) + LocalWifiClues(w, scope) + GatewayDegradation(g, scope, g.why), bound),
      missing := Add([], Of(Synthetic(ProbeObservation, ActiveProbe), scope, Missing, NoGatewayHealth, NotImplemented,
                            HealthNotObserved), bound))
  }

  predicate UsableMeaning(m: Meaning) {
    m == Reachable || m == HighRtt || m == TimedOut
  }

  predicate ProbesInsufficient(f: Facts, s: SocketId) {
    && RouteKnown(f, s) && UplinkKnown(f, s.netns) && !LocalSuspected(f, s)
    && (!UsableMeaning(GatewayOf(f, s).meaning) || !UsableMeaning(RemoteOf(f, s).meaning))
  }

  function Insufficient(f: Facts, s: SocketId, h: Hypothesis, reason: Reason, supporting: seq<Clue>, gaps: seq<Clue>): Hypothesis {
    NewHypothesis(CauseKey(InsufficientEvidence, SocketScope(s)), Low, h.openedAt, h.updatedAt, reason)
    .(supporting := AddAll([], supporting, f.policy.maxEvidence), missing := AddAll([], gaps, f.policy.maxEvidence))
  }

  /** `h` is the path candidate before its context was added. */
  function NoRouteContext(f: Facts, s: SocketId, h: Hypothesis): Hypothesis {
    Insufficient(f, s, h, PathContextUnavailable, h.supporting,
                 Filter(Add(h.missing, NoRouteClue(s), f.policy.maxEvidence), (c: Clue) => c.kind == TopologyUnknown))
  }

  function NoProbeContext(f: Facts, s: SocketId, h: Hypothesis): Hypothesis {
    Insufficient(f, s, h, ProbeContextUnavailable, Filter(h.supporting, IsTcp), Filter(h.missing, IsProbeGap))
  }

  predicate BeyondTheGateway(f: Facts, s: SocketId) {
    && RouteKnown(f, s)
    && s.netns in f.uplinks && f.uplinks[s.netns].selected && UsableValidity(f.uplinks[s.netns].header.validity)
    && GatewayOf(f, s).meaning == Reachable && (RemoteOf(f, s).meaning == HighRtt || RemoteOf(f, s).meaning == TimedOut)
    && WifiOf(f, s).meaning != IsNotAssociated && !WifiIsVeryWeak(WifiOf(f, s))
  }

  function RemoteWifiClues(w: WifiFact, scope: Scope): seq<Clue> {
    if w.entry.None? || w.meaning != IsAssociated then []
    else [OfWifi(w.entry.value, scope, Associated, AssociationBeyondGateway)]
         + (if w.entry.value.category == Normal then [OfWifi(w.entry.value, scope, SignalNormal, SignalBeyondGateway)] else [])
  }

  function Remote(f: Facts, s: SocketId, h: Hypothesis): Hypothesis {
    var (scope, bound) := (SocketScope(s), f.policy.maxEvidence);
    var none := NoProbeEvent(s.netns, ToRemote);
    NewHypothesis(CauseKey(RemoteOrUpstreamDegradation, scope), Medium, h.openedAt, h.updatedAt, BeyondGateway)
    .(supporting := AddAll([], h.supporting + RemoteWifiClues(WifiOf(f, s), scope), bound),
      missing := AddAll([], [OfProbe(none, scope, Missing, NoEndpointProbe, NotImplemented, RemoteNotSpecific),
                             OfProbe(none, scope, Missing, NoHopEvidence, NotImplemented, HopsNotImplemented)], bound))
  }

  // ---------- The uplink ----------

  function WithUplinkContext(f: Facts, netns: NetnsId, h: Hypothesis): Hypothesis {
    if netns in f.uplinks && f.uplinks[netns].selected && UsableValidity(f.uplinks[netns].header.validity) then
      h.(contradicting := Add(h.contradicting, Of(f.uplinks[netns].header, NetnsScope(netns), Contradicting, UsableUplink,
                                                  Observed, UplinkRestored), f.policy.maxEvidence),
         level := Lowered(h.level))
    else h
  }

  // ---------- All candidates, key by key ----------

  function PathKey(scope: Scope): CauseKey {
    CauseKey(NetworkPathDegradation, scope)
  }

  /** The candidate for one key, given what the incidents opened. */
  function CandidateAt(f: Facts, m: map<CauseKey, Hypothesis>, k: CauseKey): Option<Hypothesis> {
    match k.typ
    case UplinkAvailabilityProblem =>
      if k !in m then None
      else Some(if k.scope.NetnsScope? then WithUplinkContext(f, k.scope.netns, m[k]) else m[k])
    case LocalRoutingProblem =>
      if k !in m then None
      else Some(if k.scope.SocketScope? then WithRouteContext(f, k.scope.socket, m[k]) else m[k])
    case _ =>
      if PathKey(k.scope) !in m then None
      else if !k.scope.SocketScope? then
        if k.typ == NetworkPathDegradation then Some(Upgraded(PathKey(k.scope), m[PathKey(k.scope)])) else None
      else PathFamilyAt(f, k.scope.socket, Upgraded(PathKey(k.scope), m[PathKey(k.scope)]), k.typ)
  }

  /** A path candidate and what is derived from it. */
  function PathFamilyAt(f: Facts, s: SocketId, base: Hypothesis, typ: CauseType): Option<Hypothesis> {
    var path := WithPathContext(f, s, base);
    match typ
    case NetworkPathDegradation => Some(path)
    case LocalLinkSuspected => if LocalSuspected(f, s) then Some(LocalLink(f, s, path)) else None
    case InsufficientEvidence =>
      if !RouteKnown(f, s) then Some(NoRouteContext(f, s, base))
      else if ProbesInsufficient(f, s) then Some(NoProbeContext(f, s, path))
      else None
    case RemoteOrUpstreamDegradation => if BeyondTheGateway(f, s) then Some(Remote(f, s, path)) else None
    case _ => None
  }

  /** What the incidents open, whatever the rest of the facts. */
  ghost function Openings(f: Facts): map<CauseKey, Hypothesis> {
    Admitted(f.incidents, Above(f.incidents.Keys), f.policy.maxEvidence)
  }

  /** The source reads these scopes without checking which kind they are. */
  predicate ScopeFits(k: CauseKey) {
    && (k.typ == LocalRoutingProblem ==> k.scope.SocketScope?)
    && (k.typ == UplinkAvailabilityProblem ==> k.scope.NetnsScope?)
  }

  predicate Typed(incidents: map<nat, I.Incident>) {
    forall id :: id in incidents ==> ScopeFits(KeyFor(incidents[id]))
  }

  const DERIVED: set<CauseType> := {RemoteOrUpstreamDegradation, LocalLinkSuspected, InsufficientEvidence}

  ghost function PossibleKeys(m: map<CauseKey, Hypothesis>): set<CauseKey> {
    m.Keys + (set k, t | k in m && t in DERIVED :: CauseKey(t, k.scope))
  }

  ghost function Candidates(f: Facts): map<CauseKey, Hypothesis> {
    map k | k in PossibleKeys(Openings(f)) && CandidateAt(f, Openings(f), k).Some? :: CandidateAt(f, Openings(f), k).value
  }

  /** Some number larger than every member. */
  ghost function Above(ids: set<nat>): (n: nat)
    ensures forall x :: x in ids ==> x < n
  {
    if ids == {} then 0
    else
      var x :| x in ids;
      var n := Above(ids - {x});
      assert forall y :: y in ids ==> y == x || y in ids - {x};
      if x < n then n else x + 1
  }
}
