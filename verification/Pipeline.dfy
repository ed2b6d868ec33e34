/** What the components guarantee each other: topology, attribution, incidents, bus and root causes. */
module Pipeline {
  import opened Entities
  import Incidents = IncidentProofs
  import I = IncidentModel
  import R = RootCauseModel
  import Rules = RootCauseRules
  import Confidence = RootCauseConfidence
  import E = RootCauseEvents
  import H = RootCauseHistory
  import K = KeyOrder
  import Bus = BusModel
  import BusDrops
  import BusRuns
  import A = Attribution
  import AttributionProofs
  import T = TopologyModel
  import U = UplinkPolicy

  // ---------- From attribution to incidents ----------

  /** A route event that reports an attribution. */
  predicate Reports(ev: I.Event, q: A.Query, c: A.Context) {
    ev.payload.RouteSeen? && ev.payload.status == c.status && ev.payload.reasons == c.reasons
    && ev.payload.netns == q.tuple.netns
  }

  /**
   * What counts against a socket: it is known to exist, and a topology of its namespace that is neither partial nor marked
   * degraded holds no route for its peer, or no best route forwards through the interface the kernel named.
   */
  lemma RouteCountsAsMissingIff(t: T.Topology, q: A.Query, less: U.IdentityOrder, c: A.Context, known: bool, ev: I.Event)
    requires A.Attributes(t, q, less, c) && Reports(ev, q, c)
    ensures I.JudgeRoute(known, ev).0 == I.Bad <==>
            known && A.Trusted(t, q) && !t.partial && !t.degraded && A.NothingApplies(t, q.tuple.remote)
    ensures I.JudgeConflict(known, ev).0 == I.Bad <==>
            && known && A.Trusted(t, q) && !A.NothingApplies(t, q.tuple.remote)
            && A.Diagnosed(q) != 0 && !AttributionProofs.ForwardsTo(t, q.tuple.remote, A.Diagnosed(q))
    ensures !(I.JudgeRoute(known, ev).0 == I.Bad && I.JudgeConflict(known, ev).0 == I.Bad)
  {
    AttributionProofs.MissingRouteIff(t, q, less, c);
    AttributionProofs.ConflictIff(t, q, less, c);
    hide A.Attributes, A.NothingApplies, AttributionProofs.ForwardsTo;
  }

  // ---------- From incidents to root causes ----------

  /** The mirror of the root-cause engine after a sequence of incident events, with its size trim. */
  ghost function MirrorOf(log: seq<I.Incident>, bound: nat): map<nat, I.Incident> {
    K.NumberOrder();
    if log == [] then map[]
    else K.Trimmed(Incidents.Mirror(MirrorOf(log[..|log| - 1], bound), log[|log| - 1]), bound, K.NumberLess)
  }

  /** The trim never changes an entry; it can only leave some out. */
  lemma {:induction false} MirrorIsPartOfFold(log: seq<I.Incident>, bound: nat)
    ensures K.Submap(MirrorOf(log, bound), Incidents.Fold(log))
  {
    if log != [] {
      MirrorIsPartOfFold(log[..|log| - 1], bound);
      K.NumberOrder();
      K.TrimmedHoldsLast(Incidents.Mirror(MirrorOf(log[..|log| - 1], bound), log[|log| - 1]), bound, K.NumberLess);
      hide K.TotalOrder;
    }
  }

  lemma {:induction false} UntrimmedMirrorIsFold(log: seq<I.Incident>, bound: nat)
    requires forall n :: 0 <= n <= |log| ==> |Incidents.Fold(log[..n])| <= bound
    ensures MirrorOf(log, bound) == Incidents.Fold(log)
  {
    if log != [] {
      var init := log[..|log| - 1];
      assert forall n :: 0 <= n <= |init| ==> init[..n] == log[..n];
      UntrimmedMirrorIsFold(init, bound);
      assert log[..|log|] == log;
      K.NumberOrder();
      K.TrimmedHoldsLast(Incidents.Fold(log), bound, K.NumberLess);
      hide K.TotalOrder;
    }
  }

  /** What the engine emits has scopes of the right kind and never two incidents about the same thing. */
  lemma MirrorIsWellFormed(records: map<I.Key, I.Record>, authoritative: set<SocketId>, m: map<nat, I.Incident>, part: map<nat, I.Incident>)
    requires Incidents.Mirrors(m, records) && Incidents.KeysOk(records, authoritative) && K.Submap(part, m)
    ensures R.Typed(part) && Confidence.UniqueIncidents(part)
    ensures forall id :: id in part && (part[id].typ == I.NoRoute || part[id].typ == I.SocketRouteConflict) ==>
              part[id].scope.SocketScope? && part[id].scope.socket in authoritative
  {
    forall id | id in part
      ensures R.ScopeFits(R.KeyFor(part[id])) && part[id].id == id
    {
      assert Incidents.KeyTyped(Incidents.KeyOf(m[id]));
    }
    forall a, b | a in part && b in part && Confidence.Alike(part[a], part[b])
      ensures a == b
    {
      assert Incidents.KeyOf(m[a]) == Incidents.KeyOf(m[b]);
    }
  }

  /**
   * For every sequence of events, building candidates from the incidents the engine emitted never fails, rates a path
   * high under exactly the stated condition, and blames routing only for sockets the incident engine knows to exist.
   */
  lemma PipelineIsSound(p: I.Policy, events: seq<I.Event>, bound: nat, f: R.Facts, s: SocketId)
    requires I.PolicyOk(p) && R.PolicyOk(f.policy)
    requires f.incidents == MirrorOf(Incidents.Run(I.InitEngine(p), events).1, bound)
    ensures R.Typed(f.incidents)
    ensures var r := R.CandidateAt(f, R.Openings(f), R.PathKey(SocketScope(s)));
            r.Some? && r.value.level == R.High <==>
              && Rules.HasIncident(f, I.HighTcpRtt, SocketScope(s))
              && Rules.HasIncident(f, I.ElevatedTcpRetransmission, SocketScope(s))
              && R.GatewayOf(f, s).meaning == R.Reachable && R.RemoteOf(f, s).meaning == R.HighRtt
              && 2 + |R.PathSupport(f, s)| <= f.policy.maxEvidence
    ensures R.CauseKey(R.LocalRoutingProblem, SocketScope(s)) in R.Openings(f) ==>
              s in Incidents.Run(I.InitEngine(p), events).0.authoritative
  {
    hide Incidents.Run, R.CandidateAt, R.PathSupport, Confidence.UniqueIncidents, R.Typed, R.Openings, R.GatewayOf, R.RemoteOf,
         Rules.HasIncident, MirrorOf, K.Submap, Incidents.Mirrors, Incidents.KeysOk, Incidents.Fold;
    var (u, log) := Incidents.Run(I.InitEngine(p), events);
    Incidents.FoldedEmissionsAreActiveIncidents(p, events);
    Incidents.RouteRecordsBelongToKnownSockets(p, events);
    MirrorIsPartOfFold(log, bound);
    MirrorIsWellFormed(u.records, u.authoritative, Incidents.Fold(log), f.incidents);
    Confidence.PathIsHighIff(f, s);
    RoutingIsBlamedByIncident(f, s);
  }

  lemma RoutingIsBlamedByIncident(f: R.Facts, s: SocketId)
    ensures R.CauseKey(R.LocalRoutingProblem, SocketScope(s)) in R.Openings(f) ==>
              exists id :: id in f.incidents && f.incidents[id].scope == SocketScope(s)
                           && (f.incidents[id].typ == I.NoRoute || f.incidents[id].typ == I.SocketRouteConflict)
  {
    var k := R.CauseKey(R.LocalRoutingProblem, SocketScope(s));
    Rules.OpenedByIncidents(f.incidents, R.Above(f.incidents.Keys), f.policy.maxEvidence, k);
    hide R.Admitted;
    if k in R.Openings(f) {
      var id :| 0 <= id < R.Above(f.incidents.Keys) && id in f.incidents && R.KeyFor(f.incidents[id]) == k;
      assert f.incidents[id].scope == SocketScope(s);
    }
  }

  /** The incidents the root-cause engine was given. */
  function IncidentInputs(turns: seq<E.Turn>): seq<I.Incident> {
    if turns == [] then []
    else
      var (init, e) := (IncidentInputs(turns[..|turns| - 1]), turns[|turns| - 1].event);
      if e.IncidentInput? && e.source == IncidentEngine then init + [e.incident] else init
  }

  lemma MirrorSnoc(log: seq<I.Incident>, i: I.Incident, bound: nat)
    ensures K.TotalOrder(K.NumberLess)
    ensures MirrorOf(log + [i], bound) == K.Trimmed(Incidents.Mirror(MirrorOf(log, bound), i), bound, K.NumberLess)
    ensures i.state == I.Pending ==> MirrorOf(log + [i], bound) == MirrorOf(log, bound)
  {
    K.NumberOrder();
    hide K.TotalOrder;
    assert (log + [i])[..|log + [i]| - 1] == log;
    if log == [] {
      K.TrimmedHoldsLast(MirrorOf(log, bound), bound, K.NumberLess);
    } else {
      K.TrimmedHoldsLast(Incidents.Mirror(MirrorOf(log[..|log| - 1], bound), log[|log| - 1]), bound, K.NumberLess);
      K.TrimmedHoldsLast(MirrorOf(log, bound), bound, K.NumberLess);
    }
  }

  /** Whatever else happens in between, the cached incidents are the mirror of the incidents given. */
  lemma {:induction false} CachedIncidentsAreTheMirror(states: seq<E.State>, turns: seq<E.Turn>, p: R.Policy, n: nat)
    requires H.History(states, turns, p) && n <= |turns|
    ensures states[n].caches.incidents == MirrorOf(IncidentInputs(turns[..n]), 2 * p.maxActive)
  {
    hide E.StepTo, MirrorOf;
    if n == 0 {
      NothingMirrored(2 * p.maxActive);
    } else {
      CachedIncidentsAreTheMirror(states, turns, p, n - 1);
      assert turns[..n][..n - 1] == turns[..n - 1];
      CachedStep(states[n - 1], turns[n - 1], states[n], p, IncidentInputs(turns[..n - 1]));
    }
  }

  lemma NothingMirrored(bound: nat)
    ensures MirrorOf([], bound) == map[]
  {
  }

  lemma CachedStep(s: E.State, t: E.Turn, u: E.State, p: R.Policy, log: seq<I.Incident>)
    requires E.StepTo(s, t, u, p) && s.caches.incidents == MirrorOf(log, 2 * p.maxActive)
    ensures u.caches.incidents ==
            MirrorOf(if t.event.IncidentInput? && t.event.source == IncidentEngine then log + [t.event.incident] else log,
                     2 * p.maxActive)
  {
    hide MirrorOf, K.Trimmed, K.TotalOrder, E.Reconciles, E.WithWifi, E.Held, E.ProbesAt, E.EntryAt;
    if t.event.IncidentInput? { MirrorSnoc(log, t.event.incident, 2 * p.maxActive); }
  }

  /**
   * Once the root-cause engine has been given all the incident engine emitted, whatever else it was given, its candidates
   * can be built, and every hypothesis it holds is about something the incident engine holds an active incident for.
   */
  lemma EveryHypothesisHasAnIncident(ip: I.Policy, events: seq<I.Event>, states: seq<E.State>, turns: seq<E.Turn>,
                                     p: R.Policy, n: nat, k: R.CauseKey)
    requires I.PolicyOk(ip) && R.PolicyOk(p) && H.History(states, turns, p) && n <= |turns|
    requires IncidentInputs(turns[..n]) == Incidents.Run(I.InitEngine(ip), events).1
    ensures R.Typed(states[n].caches.incidents)
    ensures k in states[n].live.active ==> IsAbout(Incidents.Run(I.InitEngine(ip), events).0, k.scope)
  {
    assert n < |states|;
    hide Incidents.Run, R.Typed, H.History, MirrorOf, K.Submap, Incidents.Mirrors, Incidents.KeysOk, Incidents.Fold, I.PolicyOk,
         R.PolicyOk, IsAbout, Confidence.UniqueIncidents;
    var (u, log) := Incidents.Run(I.InitEngine(ip), events);
    var m := states[n].caches.incidents;
    CachedIncidentsAreTheMirror(states, turns, p, n);
    Incidents.FoldedEmissionsAreActiveIncidents(ip, events);
    Incidents.RouteRecordsBelongToKnownSockets(ip, events);
    MirrorIsPartOfFold(log, 2 * p.maxActive);
    MirrorIsWellFormed(u.records, u.authoritative, Incidents.Fold(log), m);
    if k in states[n].live.active {
      H.HypothesesHaveIncidents(states, turns, p, n, k);
      var id :| id in m && m[id].scope == k.scope;
      MirroredIsActive(u, Incidents.Fold(log), m, id);
    }
  }

  predicate IsAbout(e: I.Engine, scope: Scope) {
    exists k :: k in e.records && k.scope == scope && e.records[k].incident.Some?
  }

  lemma MirroredIsActive(e: I.Engine, m: map<nat, I.Incident>, part: map<nat, I.Incident>, id: nat)
    requires Incidents.Mirrors(m, e.records) && K.Submap(part, m) && id in part
    ensures IsAbout(e, part[id].scope)
  {
    assert Incidents.KeyOf(m[id]) in e.records;
  }

  // ---------- Through the bus ----------

  /** The incidents among bus events; `read` gives the content an event's payload stands for. */
  function IncidentsIn(events: seq<Bus.Event>, read: int -> I.Incident): seq<I.Incident> {
    Decoded(BusDrops.Payloads(events, IncidentObservation), read)
  }

  function Decoded(payloads: seq<int>, read: int -> I.Incident): seq<I.Incident> {
    seq(|payloads|, i requires 0 <= i < |payloads| => read(payloads[i]))
  }

  /**
   * Once the bus has drained and has refused no incident, a consumer that folds the incidents delivered to it holds
   * exactly the active incidents of the engine that published them, whatever else was published, coalesced or dropped.
   */
  lemma DeliveredIncidentsFold(p: I.Policy, events: seq<I.Event>, s: Bus.Trace, read: int -> I.Incident)
    requires I.PolicyOk(p) && BusRuns.Reachable(s) && s.bus.core.queue == []
    requires IncidentsIn(s.attempted, read) == Incidents.Run(I.InitEngine(p), events).1
    requires BusDrops.Drops(s.bus.core, IncidentObservation) == 0
    ensures Incidents.Mirrors(Incidents.Fold(IncidentsIn(s.delivered, read)), Incidents.Run(I.InitEngine(p), events).0.records)
  {
    hide Incidents.Run, Incidents.Mirrors, Incidents.Fold, BusDrops.Payloads, BusRuns.Reachable, BusDrops.Drops;
    Incidents.FoldedEmissionsAreActiveIncidents(p, events);
    BusDrops.AllDeliveredIff(s, IncidentObservation);
  }

  /** The delivered incidents are the emitted ones, all and in order, exactly when the bus refused none. */
  lemma DeliveredAreEmittedIff(s: Bus.Trace, read: int -> I.Incident)
    requires BusRuns.Reachable(s) && s.bus.core.queue == []
    ensures IncidentsIn(s.delivered, read) == IncidentsIn(s.attempted, read) <==>
            BusDrops.Drops(s.bus.core, IncidentObservation) == 0
  {
    hide BusDrops.Payloads, BusRuns.Reachable, BusDrops.Drops;
    BusDrops.AllDeliveredIff(s, IncidentObservation);
    BusDrops.RefusedAreMissing(s, IncidentObservation);
    var (x, y) := (IncidentsIn(s.delivered, read), IncidentsIn(s.attempted, read));
    assert |x| == |BusDrops.Payloads(s.delivered, IncidentObservation)|;
    assert |y| == |BusDrops.Payloads(s.attempted, IncidentObservation)|;
  }

  /** The last emission about an incident, if it leaves the incident active. */
  function LastWord(log: seq<I.Incident>, id: nat): Option<I.Incident> {
    if log == [] then None
    else
      var last := log[|log| - 1];
      if last.id == id && last.state != I.Pending then if last.state == I.Active then Some(last) else None
      else LastWord(log[..|log| - 1], id)
  }

  lemma {:induction false} FoldIsLastWord(log: seq<I.Incident>, id: nat)
    ensures LastWord(log, id) == if id in Incidents.Fold(log) then Some(Incidents.Fold(log)[id]) else None
  {
    if log != [] { FoldIsLastWord(log[..|log| - 1], id); }
  }

  lemma MirrorsUnique(m: map<nat, I.Incident>, n: map<nat, I.Incident>, records: map<I.Key, I.Record>)
    requires Incidents.Mirrors(m, records) && Incidents.Mirrors(n, records)
    ensures m == n
  {
    assert forall id :: id in m ==> id in n && n[id] == m[id];
    assert forall id :: id in n ==> id in m && m[id] == n[id];
  }

  /**
   * In general the consumer agrees with the engine exactly when, for every incident, the last emission delivered and
   * the last emission made say the same.
   */
  lemma ConsumerAgreesIff(p: I.Policy, events: seq<I.Event>, delivered: seq<I.Incident>)
    requires I.PolicyOk(p)
    ensures var (u, log) := Incidents.Run(I.InitEngine(p), events);
            Incidents.Mirrors(Incidents.Fold(delivered), u.records) <==> SameLastWords(delivered, log)
  {
    hide Incidents.Run, Incidents.Fold, SameLastWords;
    var (u, log) := Incidents.Run(I.InitEngine(p), events);
    Incidents.FoldedEmissionsAreActiveIncidents(p, events);
    SameFoldIff(delivered, log);
    if Incidents.Mirrors(Incidents.Fold(delivered), u.records) {
      MirrorsUnique(Incidents.Fold(delivered), Incidents.Fold(log), u.records);
    }
  }

  /** On every incident the two logs end on the same word. */
  ghost predicate SameLastWords(a: seq<I.Incident>, b: seq<I.Incident>) {
    forall id :: LastWord(a, id) == LastWord(b, id)
  }

  lemma SameFoldIff(a: seq<I.Incident>, b: seq<I.Incident>)
    ensures Incidents.Fold(a) == Incidents.Fold(b) <==> SameLastWords(a, b)
  {
    hide Incidents.Fold, LastWord;
    forall id
      ensures LastWord(a, id) == if id in Incidents.Fold(a) then Some(Incidents.Fold(a)[id]) else None
      ensures LastWord(b, id) == if id in Incidents.Fold(b) then Some(Incidents.Fold(b)[id]) else None
    {
      FoldIsLastWord(a, id);
      FoldIsLastWord(b, id);
    }
    var (m, n) := (Incidents.Fold(a), Incidents.Fold(b));
    if SameLastWords(a, b) {
      forall id
        ensures (id in m <==> id in n) && (id in m ==> m[id] == n[id])
      {
        assert LastWord(a, id) == LastWord(b, id);
      }
    }
  }

  // ---------- A refused resolution ----------

  const NETNS := NetnsId(1, 1)

  function QuickPolicy(): I.Policy {
    I.Policy(2, 1, 1.0, 0.5, 0, 1, 1, 1, 1, 1)
  }

  function UplinkReport(selected: bool): I.Event {
    I.Event(NetlinkCollector, Valid, 0, 0, NETNS, I.UplinkSeen(selected))
  }

  function IncidentEvent(payload: int): Bus.Event {
    Bus.Event(0, IncidentObservation, IncidentEngine, NETNS, None, None, payload)
  }

  const UPLINK := I.Key(I.UplinkDown, NetnsScope(NETNS))

  lemma UplinkGoesDown()
    ensures var (e, out) := I.Process(I.InitEngine(QuickPolicy()), UplinkReport(false));
            && |out| == 1 && out[0].state == I.Active && out[0].id == 1 && e.policy == QuickPolicy()
            && e.records.Keys == {UPLINK} && e.records[UPLINK].incident == Some(out[0]) && e.records[UPLINK].good == 0
  {
  }

  lemma UplinkComesBack(e: I.Engine, i: I.Incident)
    requires e.policy == QuickPolicy() && e.records.Keys == {UPLINK} && e.records[UPLINK].incident == Some(i)
    requires e.records[UPLINK].good == 0
    ensures var (u, out) := I.Process(e, UplinkReport(true));
            u.records == map[] && |out| == 1 && out[0].state == I.Resolved && out[0].id == i.id
  {
    hide I.Append;
  }

  /** An uplink that goes away and comes back: one incident, opened and resolved. */
  lemma UplinkFlap()
    ensures var (u, log) := Incidents.Run(I.InitEngine(QuickPolicy()), [UplinkReport(false), UplinkReport(true)]);
            && u.records == map[] && |log| == 2 && log[0].id == log[1].id == 1
            && log[0].state == I.Active && log[1].state == I.Resolved
  {
    UplinkGoesDown();
    hide I.Process, QuickPolicy, UplinkReport, I.InitEngine;
    var (down, up, e0) := (UplinkReport(false), UplinkReport(true), I.InitEngine(QuickPolicy()));
    var (e1, out1) := I.Process(e0, down);
    UplinkComesBack(e1, out1[0]);
    var (e2, out2) := I.Process(e1, up);
    assert [down, up][..1] == [down] && [down][..0] == [];
    assert Incidents.Run(e0, []) == (e0, []);
    assert Incidents.Run(e0, [down]) == (e1, [] + out1);
    assert Incidents.Run(e0, [down, up]) == (e2, [] + out1 + out2);
  }

  /** With room for one event, a resolution published right after the incident is refused. */
  lemma FullQueueRun() returns (s: Bus.Trace)
    ensures BusRuns.Reachable(s) && s.bus.core.queue == []
    ensures s.attempted == [IncidentEvent(0), IncidentEvent(1)] && s.delivered == [IncidentEvent(0).(sequence := 1)]
  {
    hide BusRuns.Reachable, Bus.KindIndex, Bus.SourceIndex;
    BusRuns.StartReachable(1);
    s := BusRuns.Extend(Bus.Init(1), Bus.Start);
    s := BusRuns.Extend(s, Bus.PublishEvent(IncidentEvent(0)));
    assert s.bus.core.queue == [IncidentEvent(0).(sequence := 1)];
    s := BusRuns.Extend(s, Bus.PublishEvent(IncidentEvent(1)));
    assert s.bus.core.queue == [IncidentEvent(0).(sequence := 1)];
    s := BusRuns.Extend(s, Bus.Pop);
  }

  /** The consumer then holds on to an incident that is long resolved. */
  lemma RefusedResolutionLingers() returns (s: Bus.Trace, read: int -> I.Incident)
    ensures BusRuns.Reachable(s) && s.bus.core.queue == []
    ensures var (u, log) := Incidents.Run(I.InitEngine(QuickPolicy()), [UplinkReport(false), UplinkReport(true)]);
            && IncidentsIn(s.attempted, read) == log
            && !Incidents.Mirrors(Incidents.Fold(IncidentsIn(s.delivered, read)), u.records)
  {
    UplinkFlap();
    hide Incidents.Run;
    var (u, log) := Incidents.Run(I.InitEngine(QuickPolicy()), [UplinkReport(false), UplinkReport(true)]);
    read := (n: int) => if n == 0 then log[0] else log[1];
    s := FullQueueRun();
    assert [IncidentEvent(0), IncidentEvent(1)][..1] == [IncidentEvent(0)];
    assert BusDrops.Payloads(s.attempted, IncidentObservation) == [0, 1];
    assert BusDrops.Payloads(s.delivered, IncidentObservation) == [0];
    assert IncidentsIn(s.attempted, read) == log && IncidentsIn(s.delivered, read) == [log[0]];
    assert [log[0]][..0] == [];
    assert Incidents.Fold([]) == map[];
    assert Incidents.Fold([log[0]]) == map[log[0].id := log[0]];
    assert 1 in Incidents.Fold([log[0]]);
  }
}
