/** The incident engine: a hysteresis machine per key, socket-generation superseding, and the events it emits. */
module IncidentModel {
  import opened Entities
  import opened IdOrder
  import opened BoundedList

  datatype IncidentType = HighTcpRtt | ElevatedTcpRetransmission | NoRoute | UplinkDown | SocketRouteConflict

  datatype IncidentState = Pending | Active | Resolved

  datatype Completeness = Complete | Incomplete | Absent

  datatype Confidence = Unknown | Moderate | High

  /** The condition texts of the source, one constructor each. */
  datatype Condition =
    | RttUnavailable | RttHigh | RttRecovered | RttInBand
    | RatioUnavailable | TooFewSegments | RatioHigh | RatioRecovered | RatioInBand
    | RouteInsufficient | RouteMissing | RoutePresent
    | RoutingInsufficient | InterfaceConflict | InterfaceAgrees
    | UplinkUnknown | UplinkSelected | UplinkMissing
    | GenerationSuperseded | LifecycleClosed

  datatype EvidenceValue = Amount(count: nat) | Ratio(ratio: real)

  datatype EvidenceUnit = NoUnit | Microseconds | Fraction | Count

  datatype Evidence = Evidence(
    kind: EventKind, source: EventSource, scope: Scope, observedAt: int, monotonicAt: int,
    value: Option<EvidenceValue>, unit: EvidenceUnit, validity: Validity, condition: Condition)

  datatype Incident = Incident(
    id: nat, typ: IncidentType, scope: Scope, state: IncidentState, confidence: Confidence,
    openedAt: int, openedMonotonic: int, updatedAt: int, updatedMonotonic: int,
    resolvedAt: Option<(int, int)>, evidence: seq<Evidence>, condition: Condition,
    resolution: Option<Condition>, validity: Validity, completeness: Completeness)

  datatype Key = Key(typ: IncidentType, scope: Scope)

  /** The source's `active` flag is `incident.Some?` here. */
  datatype Record = Record(netns: NetnsId, bad: nat, good: nat, incident: Option<Incident>)

  datatype Policy = Policy(
    rttActivation: nat, rttRecovery: nat, ratioActivation: real, ratioRecovery: real, minSegments: nat,
    activation: nat, recovery: nat, maxResolved: nat, maxEvidence: nat, maxRecords: nat)

  predicate PolicyOk(p: Policy) {
    && p.rttRecovery < p.rttActivation && 0.0 <= p.ratioRecovery < p.ratioActivation
    && p.activation > 0 && p.recovery > 0 && p.maxResolved > 0 && p.maxEvidence > 0 && p.maxRecords > 0
  }

  datatype Engine = Engine(
    policy: Policy, records: map<Key, Record>, authoritative: set<SocketId>, resolved: seq<Incident>, nextId: nat)

  datatype Evaluation = Bad | Good | Neutral | NoVerdict

  // ---------- One record ----------

  predicate Equivalent(a: Evidence, b: Evidence) {
    a.(observedAt := b.observedAt, monotonicAt := b.monotonicAt) == b
  }

  predicate Repeats(evidence: seq<Evidence>, e: Evidence) {
    evidence != [] && Equivalent(evidence[|evidence| - 1], e)
  }

  function Append(evidence: seq<Evidence>, e: Evidence, bound: nat): seq<Evidence> {
    if Repeats(evidence, e) then evidence else MakeRoom(evidence, e, bound)
  }

  function ConfidenceOf(c: Completeness): Confidence {
    match c case Complete => High case Incomplete => Moderate case Absent => Unknown
  }

  function ValidityOf(c: Completeness): Validity {
    if c == Complete then Valid else Validity.Partial
  }

  function Opened(id: nat, key: Key, e: Evidence, c: Completeness, p: Policy): Incident {
    Incident(id, key.typ, key.scope, Active, ConfidenceOf(c), e.observedAt, e.monotonicAt, e.observedAt, e.monotonicAt,
             None, Append([], e, p.maxEvidence), e.condition, None, ValidityOf(c), c)
  }

  function Updated(i: Incident, e: Evidence, c: Completeness, p: Policy): Incident {
    i.(evidence := Append(i.evidence, e, p.maxEvidence), updatedAt := e.observedAt, updatedMonotonic := e.monotonicAt,
       completeness := c, confidence := ConfidenceOf(c), validity := ValidityOf(c))
  }

  function Closed(i: Incident, at: int, monotonic: int, why: Condition): Incident {
    i.(state := Resolved, updatedAt := at, updatedMonotonic := monotonic, resolvedAt := Some((at, monotonic)),
       resolution := Some(why))
  }

  /** What an evaluation does to one record, which may be absent before or after. */
  datatype Outcome = Outcome(record: Option<Record>, emitted: Option<Incident>, isNew: bool := false)

  function OnGood(r: Record, e: Evidence, p: Policy): Outcome {
    if r.incident.None? then Outcome(None, None)
    else if r.good + 1 < p.recovery then Outcome(Some(r.(bad := 0, good := r.good + 1)), None)
    else
      var last := r.incident.value.(evidence := Append(r.incident.value.evidence, e, p.maxEvidence));
      Outcome(None, Some(Closed(last, e.observedAt, e.monotonicAt, e.condition)))
  }

  function OnBad(r: Record, key: Key, e: Evidence, c: Completeness, p: Policy, nextId: nat): Outcome {
    if r.incident.None? then
      if r.bad + 1 < p.activation then Outcome(Some(r.(bad := r.bad + 1, good := 0)), None)
      else
        var i := Opened(nextId, key, e, c, p);
        Outcome(Some(r.(bad := r.bad + 1, good := 0, incident := Some(i))), Some(i), true)
    else
      var bad := if r.bad + 1 < p.activation then r.bad + 1 else p.activation;
      if Repeats(r.incident.value.evidence, e) then Outcome(Some(r.(bad := bad, good := 0)), None)
      else
        var i := Updated(r.incident.value, e, c, p);
        Outcome(Some(r.(bad := bad, good := 0, incident := Some(i))), Some(i))
  }

  function Judge(r: Option<Record>, key: Key, netns: NetnsId, v: Evaluation, e: Evidence, c: Completeness, p: Policy,
                 nextId: nat): Outcome
  {
    match v
    case NoVerdict => Outcome(r, None)
    case Neutral =>
      if r.Some? && r.value.incident.Some? then Outcome(Some(r.value.(good := 0)), None) else Outcome(None, None)
    case Good => if r.None? then Outcome(None, None) else OnGood(r.value, e, p)
    case Bad =>
      var before := if r.Some? then r.value.(netns := netns) else Record(netns, 0, 0, None);
      OnBad(before, key, e, c, p, nextId)
  }

  // ---------- The table ----------

  function RecordAt(e: Engine, k: Key): Option<Record> {
    if k in e.records then Some(e.records[k]) else None
  }

  function Put(e: Engine, k: Key, o: Outcome): Engine {
    e.(records := if o.record.Some? then e.records[k := o.record.value] else e.records - {k},
       resolved := if o.emitted.Some? && o.record.None?
                   then KeepLast(e.resolved + [o.emitted.value], e.policy.maxResolved) else e.resolved,
       nextId := if o.isNew then e.nextId + 1 else e.nextId)
  }

  function Emissions(o: Outcome): seq<Incident> {
    if o.emitted.Some? then [o.emitted.value] else []
  }

  /** A new key is not tracked while the table is full. */
  predicate Refused(e: Engine, k: Key, v: Evaluation) {
    v == Bad && k !in e.records && |e.records| >= e.policy.maxRecords
  }

  function Evaluate(e: Engine, k: Key, netns: NetnsId, v: Evaluation, ev: Evidence, c: Completeness)
    : (Engine, seq<Incident>)
  {
    if Refused(e, k, v) then (e, [])
    else
      var o := Judge(RecordAt(e, k), k, netns, v, ev, c, e.policy, e.nextId);
      (Put(e, k, o), Emissions(o))
  }

  /** Drop the record of one key: silently while pending, with a resolution once active. */
  function Discard(e: Engine, k: Key, at: int, monotonic: int, why: Condition): (Engine, seq<Incident>) {
    if k !in e.records then (e, [])
    else
      var i := e.records[k].incident;
      var o := Outcome(None, if i.Some? then Some(Closed(i.value, at, monotonic, why)) else None);
      (Put(e, k, o), Emissions(o))
  }

  /** In the order of the key type, which is the order in which the record map holds one socket's records. */
  const TYPES: seq<IncidentType> := [HighTcpRtt, ElevatedTcpRetransmission, NoRoute, UplinkDown, SocketRouteConflict]

  function DiscardTypes(e: Engine, id: SocketId, n: nat, at: int, monotonic: int, why: Condition): (Engine, seq<Incident>)
    requires n <= |TYPES|
  {
    if n == 0 then (e, [])
    else
      var (e1, out1) := DiscardTypes(e, id, n - 1, at, monotonic, why);
      var (e2, out2) := Discard(e1, Key(TYPES[n - 1], SocketScope(id)), at, monotonic, why);
      (e2, out1 + out2)
  }

  function ResolveSocket(e: Engine, id: SocketId, at: int, monotonic: int, why: Condition): (Engine, seq<Incident>) {
    DiscardTypes(e, id, |TYPES|, at, monotonic, why)
  }

  function Retire(e: Engine, id: SocketId, at: int, monotonic: int, why: Condition): (Engine, seq<Incident>) {
    ResolveSocket(e.(authoritative := e.authoritative - {id}), id, at, monotonic, why)
  }

  function OtherGenerations(e: Engine, current: SocketId): set<SocketId> {
    if current.cookie.None? then {}
    else set id | id in e.authoritative && id != current && id.netns == current.netns && id.cookie == current.cookie
  }

  ghost function RetireAll(e: Engine, ids: seq<SocketId>, at: int, monotonic: int): (Engine, seq<Incident>)
    decreases |ids|
  {
    if ids == [] then (e, [])
    else
      var (e1, out1) := Retire(e, ids[0], at, monotonic, GenerationSuperseded);
      var (e2, out2) := RetireAll(e1, ids[1..], at, monotonic);
      (e2, out1 + out2)
  }

  ghost function Supersede(e: Engine, current: SocketId, at: int, monotonic: int): (Engine, seq<Incident>) {
    RetireAll(e, InOrder(OtherGenerations(e, current)), at, monotonic)
  }

  // ---------- Events ----------

  datatype Payload =
    | SocketSeen(id: SocketId, present: bool, closed: bool, validity: Validity)
    | TcpInfoSeen(id: SocketId, netns: NetnsId, validity: Validity, rtt: Option<nat>)
    | TcpIntervalSeen(id: SocketId, validity: Validity, ratio: Option<real>, segments: Option<nat>, counterReset: bool)
    | RouteSeen(id: SocketId, netns: NetnsId, status: RouteStatus, reasons: set<RouteReason>, diagIfindex: Option<nat>)
    | UplinkSeen(selected: bool)
    | OtherPayload

  datatype Event = Event(source: EventSource, validity: Validity, observedAt: int, monotonicAt: int, netns: NetnsId,
                         payload: Payload)

  function KindOf(p: Payload): EventKind {
    match p
    case SocketSeen(_, _, _, _) => SocketObservation
    case TcpInfoSeen(_, _, _, _) => TcpInfoObservation
    case TcpIntervalSeen(_, _, _, _, _) => TcpIntervalMetric
    case RouteSeen(_, _, _, _, _) => SocketRouteObservation
    case UplinkSeen(_) => UplinkObservation
    case OtherPayload => CollectorHealth
  }

  function MakeEvidence(ev: Event, scope: Scope, value: Option<EvidenceValue>, unit: EvidenceUnit, validity: Validity,
                        why: Condition): Evidence
  {
    Evidence(KindOf(ev.payload), ev.source, scope, ev.observedAt, ev.monotonicAt, value, unit, validity, why)
  }

  predicate RttAvailable(ev: Event)
    requires ev.payload.TcpInfoSeen?
  {
    ev.validity == Valid && ev.payload.validity == Valid && ev.payload.rtt.Some?
  }

  function JudgeRtt(ev: Event, p: Policy): (Evaluation, Condition)
    requires ev.payload.TcpInfoSeen?
  {
    if !RttAvailable(ev) then (NoVerdict, RttUnavailable)
    else if ev.payload.rtt.value >= p.rttActivation then (Bad, RttHigh)
    else if ev.payload.rtt.value <= p.rttRecovery then (Good, RttRecovered)
    else (Neutral, RttInBand)
  }

  predicate EnoughSegments(ev: Event, p: Policy)
    requires ev.payload.TcpIntervalSeen?
  {
    p.minSegments == 0 || (ev.payload.segments.Some? && ev.payload.segments.value >= p.minSegments)
  }

  predicate RatioAvailable(ev: Event, p: Policy)
    requires ev.payload.TcpIntervalSeen?
  {
    && ev.validity == Valid && ev.payload.validity == Valid && ev.payload.ratio.Some?
    && EnoughSegments(ev, p) && !ev.payload.counterReset
  }

  function JudgeRatio(ev: Event, p: Policy): (Evaluation, Condition)
    requires ev.payload.TcpIntervalSeen?
  {
    if !RatioAvailable(ev, p) then (NoVerdict, if EnoughSegments(ev, p) then RatioUnavailable else TooFewSegments)
    else if ev.payload.ratio.value >= p.ratioActivation then (Bad, RatioHigh)
    else if ev.payload.ratio.value <= p.ratioRecovery then (Good, RatioRecovered)
    else (Neutral, RatioInBand)
  }

  /** The model is complete and still holds no route for this destination. */
  predicate ExplicitlyMissing(status: RouteStatus, reasons: set<RouteReason>) {
    && status == RouteUnavailable && NoModeledRoute in reasons
    && TopologyNonAuthoritative !in reasons && TopologyPartial !in reasons && TopologyDegraded !in reasons
  }

  predicate Conflicting(status: RouteStatus, reasons: set<RouteReason>) {
    DiagIfindexConflicts in reasons && (status == RoutePartial || status == RouteAmbiguous)
  }

  function JudgeRoute(known: bool, ev: Event): (Evaluation, Condition)
    requires ev.payload.RouteSeen?
  {
    if known && ExplicitlyMissing(ev.payload.status, ev.payload.reasons) then (Bad, RouteMissing)
    else if known && ev.payload.status == RouteAvailable then (Good, RoutePresent)
    else (NoVerdict, RouteInsufficient)
  }

  function JudgeConflict(known: bool, ev: Event): (Evaluation, Condition)
    requires ev.payload.RouteSeen?
  {
    if known && Conflicting(ev.payload.status, ev.payload.reasons) then (Bad, InterfaceConflict)
    else if known && ev.payload.status == RouteAvailable then (Good, InterfaceAgrees)
    else (NoVerdict, RoutingInsufficient)
  }

  function JudgeUplink(ev: Event): (Evaluation, Condition)
    requires ev.payload.UplinkSeen?
  {
    if ev.payload.selected && UsableValidity(ev.validity) then (Good, UplinkSelected)
    else if !ev.payload.selected && (ev.validity == Unavailable || ev.validity == Valid) then (Bad, UplinkMissing)
    else (NoVerdict, UplinkUnknown)
  }

  ghost function OnSocket(e: Engine, ev: Event): (Engine, seq<Incident>)
    requires ev.payload.SocketSeen?
  {
    var s := ev.payload;
    if s.present && !s.closed && ev.validity == Valid && s.validity == Valid then
      var (e1, out) := Supersede(e, s.id, ev.observedAt, ev.monotonicAt);
      (e1.(authoritative := e1.authoritative + {s.id}), out)
    else if !s.present || s.closed then Retire(e, s.id, ev.observedAt, ev.monotonicAt, LifecycleClosed)
    else (e, [])
  }

  ghost function OnTcpInfo(e: Engine, ev: Event): (Engine, seq<Incident>)
    requires ev.payload.TcpInfoSeen?
  {
    var (e1, out1) := Supersede(e, ev.payload.id, ev.observedAt, ev.monotonicAt);
    var (v, why) := JudgeRtt(ev, e.policy);
    var ok := RttAvailable(ev);
    var scope := SocketScope(ev.payload.id);
    var evidence := MakeEvidence(ev, scope, if ok then Some(Amount(ev.payload.rtt.value)) else None, Microseconds,
                                 if ok then Valid else ev.validity, why);
    var (e2, out2) := Evaluate(e1, Key(HighTcpRtt, scope), ev.payload.netns, v, evidence, if ok then Complete else Absent);
    (e2, out1 + out2)
  }

  ghost function OnTcpInterval(e: Engine, ev: Event): (Engine, seq<Incident>)
    requires ev.payload.TcpIntervalSeen?
  {
    var (e1, out1) := Supersede(e, ev.payload.id, ev.observedAt, ev.monotonicAt);
    var (v, why) := JudgeRatio(ev, e.policy);
    var ok := RatioAvailable(ev, e.policy);
    var scope := SocketScope(ev.payload.id);
    var value := if ev.payload.ratio.Some? then Some(Ratio(ev.payload.ratio.value)) else None;
    var evidence := MakeEvidence(ev, scope, value, Fraction, if ok then Valid else ev.validity, why);
    var (e2, out2) := Evaluate(e1, Key(ElevatedTcpRetransmission, scope), ev.payload.id.netns, v, evidence,
                               if ok then Complete else Absent);
    (e2, out1 + out2)
  }

  function OnRoute(e: Engine, ev: Event): (Engine, seq<Incident>)
    requires ev.payload.RouteSeen?
  {
    var known := ev.payload.id in e.authoritative;
    var scope := SocketScope(ev.payload.id);
    var (v1, why1) := JudgeRoute(known, ev);
    var (e1, out1) := Evaluate(e, Key(NoRoute, scope), ev.payload.netns, v1,
                               MakeEvidence(ev, scope, None, NoUnit, ev.validity, why1), if v1 == Bad then Complete else Absent);
    var (v2, why2) := JudgeConflict(known, ev);
    var diag := if ev.payload.diagIfindex.Some? && ev.payload.diagIfindex.value != 0
                then Some(Amount(ev.payload.diagIfindex.value)) else None;
    var (e2, out2) := Evaluate(e1, Key(SocketRouteConflict, scope), ev.payload.netns, v2,
                               MakeEvidence(ev, scope, diag, Count, ev.validity, why2),
                               if v2 == Bad then Incomplete else Absent);
    (e2, out1 + out2)
  }

  function OnUplink(e: Engine, ev: Event): (Engine, seq<Incident>)
    requires ev.payload.UplinkSeen?
  {
    var (v, why) := JudgeUplink(ev);
    var scope := NetnsScope(ev.netns);
    Evaluate(e, Key(UplinkDown, scope), ev.netns, v, MakeEvidence(ev, scope, None, NoUnit, ev.validity, why),
             if v == NoVerdict then Absent else Complete)
  }

  predicate Consumed(ev: Event) {
    match ev.payload
    case UplinkSeen(_) => ev.source == NetlinkCollector
    case OtherPayload => false
    case _ => ev.source == SocketTracker
  }

  ghost function Process(e: Engine, ev: Event): (Engine, seq<Incident>) {
    if !Consumed(ev) then (e, [])
    else match ev.payload
      case SocketSeen(_, _, _, _) => OnSocket(e, ev)
      case TcpInfoSeen(_, _, _, _) => OnTcpInfo(e, ev)
      case TcpIntervalSeen(_, _, _, _, _) => OnTcpInterval(e, ev)
      case RouteSeen(_, _, _, _, _) => OnRoute(e, ev)
      case UplinkSeen(_) => OnUplink(e, ev)
      case OtherPayload => (e, [])
  }

  function InitEngine(p: Policy): Engine {
    Engine(p, map[], {}, [], 1)
  }
}
