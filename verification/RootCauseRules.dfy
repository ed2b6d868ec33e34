/** What every candidate satisfies, whatever is cached. */
module RootCauseRules {
  import opened Entities
  import opened IdOrder
  import opened RootCauseModel
  import I = IncidentModel

  // ---------- Evidence lists ----------

  predicate HasIncident(f: Facts, t: I.IncidentType, scope: Scope) {
    exists id :: id in f.incidents && f.incidents[id].typ == t && f.incidents[id].scope == scope
  }

  predicate HasScope(f: Facts, scope: Scope) {
    exists id :: id in f.incidents && f.incidents[id].scope == scope
  }

  predicate ClueOk(f: Facts, scope: Scope, role: Role, c: Clue) {
    && c.role == role && c.scope == scope
    && (role == Missing ==> c.capability != Observed)
    && (c.kind == RttIncident ==> HasIncident(f, I.HighTcpRtt, scope))
    && (c.kind == RetransmissionIncident ==> HasIncident(f, I.ElevatedTcpRetransmission, scope))
  }

  predicate CluesOk(f: Facts, scope: Scope, role: Role, list: seq<Clue>) {
    forall c :: c in list ==> ClueOk(f, scope, role, c)
  }

  predicate ListOk(f: Facts, scope: Scope, role: Role, list: seq<Clue>) {
    |list| <= f.policy.maxEvidence && NoRepeats(list) && CluesOk(f, scope, role, list)
  }

  predicate HypothesisOk(f: Facts, k: CauseKey, h: Hypothesis) {
    && h.typ == k.typ && h.scope == k.scope && HasScope(f, k.scope)
    && ListOk(f, k.scope, Supporting, h.supporting)
    && ListOk(f, k.scope, Contradicting, h.contradicting)
    && ListOk(f, k.scope, Missing, h.missing)
  }

  lemma AddKeepsDistinct(list: seq<Clue>, c: Clue, bound: nat)
    requires NoRepeats(list)
    ensures NoRepeats(Add(list, c, bound))
  {
  }

  lemma AddOk(f: Facts, scope: Scope, role: Role, list: seq<Clue>, c: Clue)
    requires f.policy.maxEvidence > 0 && ListOk(f, scope, role, list) && ClueOk(f, scope, role, c)
    ensures ListOk(f, scope, role, Add(list, c, f.policy.maxEvidence))
  {
    hide ClueOk, NoRepeats;
    AddKeepsDistinct(list, c, f.policy.maxEvidence);
  }

  lemma {:induction false} AddAllOk(f: Facts, scope: Scope, role: Role, list: seq<Clue>, more: seq<Clue>)
    requires f.policy.maxEvidence > 0 && ListOk(f, scope, role, list) && CluesOk(f, scope, role, more)
    ensures ListOk(f, scope, role, AddAll(list, more, f.policy.maxEvidence))
  {
    hide ListOk, ClueOk, Add;
    if more != [] {
      AddAllOk(f, scope, role, list, more[..|more| - 1]);
      AddOk(f, scope, role, AddAll(list, more[..|more| - 1], f.policy.maxEvidence), more[|more| - 1]);
    }
  }

  lemma {:induction false} FilterOk(f: Facts, scope: Scope, role: Role, list: seq<Clue>, p: Clue -> bool)
    requires CluesOk(f, scope, role, list)
    ensures CluesOk(f, scope, role, Filter(list, p))
  {
    hide ClueOk;
    if list != [] { FilterOk(f, scope, role, list[..|list| - 1], p); }
  }

  lemma ConcatOk(f: Facts, scope: Scope, role: Role, a: seq<Clue>, b: seq<Clue>)
    requires CluesOk(f, scope, role, a) && CluesOk(f, scope, role, b)
    ensures CluesOk(f, scope, role, a + b)
  {
  }

  // ---------- Openings ----------

  predicate OpeningsOk(f: Facts, m: map<CauseKey, Hypothesis>) {
    forall k :: k in m ==>
      HypothesisOk(f, k, m[k]) && (k.typ == NetworkPathDegradation ==> m[k].level == Low) && m[k].missing == []
  }

  lemma AdmitOk(f: Facts, m: map<CauseKey, Hypothesis>, id: nat)
    requires f.policy.maxEvidence > 0 && id in f.incidents && OpeningsOk(f, m)
    ensures OpeningsOk(f, Admit(m, f.incidents[id], f.policy.maxEvidence))
  {
    var i := f.incidents[id];
    var k := KeyFor(i);
    var c := OfIncidentNow(i, KindOfIncident(i.typ));
    assert HasIncident(f, i.typ, i.scope) && HasScope(f, i.scope);
    assert ClueOk(f, i.scope, Supporting, c);
    hide ClueOk, Add, OfIncidentNow;
    AddOk(f, i.scope, Supporting, if k in m then m[k].supporting else [], c);
    hide ListOk, HasScope, HasIncident;
    assert ListOk(f, i.scope, Contradicting, []) && ListOk(f, i.scope, Missing, []) by { EmptyOk(f, i.scope); }
  }

  lemma EmptyOk(f: Facts, scope: Scope)
    ensures forall role :: ListOk(f, scope, role, [])
  {
  }

  lemma {:induction false} AdmittedOk(f: Facts, n: nat)
    requires f.policy.maxEvidence > 0
    ensures OpeningsOk(f, Admitted(f.incidents, n, f.policy.maxEvidence))
  {
    hide OpeningsOk, Admit;
    if n == 0 {
      assert OpeningsOk(f, map[]) by { NothingOpened(f); }
    } else {
      AdmittedOk(f, n - 1);
      if n - 1 in f.incidents { AdmitOk(f, Admitted(f.incidents, n - 1, f.policy.maxEvidence), n - 1); }
    }
  }

  lemma NothingOpened(f: Facts)
    ensures OpeningsOk(f, map[])
  {
  }

  /** A candidate is opened exactly by the incidents of its kind and scope. */
  lemma {:induction false} OpenedByIncidents(incidents: map<nat, I.Incident>, n: nat, bound: nat, k: CauseKey)
    ensures k in Admitted(incidents, n, bound) <==> exists id :: 0 <= id < n && id in incidents && KeyFor(incidents[id]) == k
  {
    if n > 0 {
      OpenedByIncidents(incidents, n - 1, bound, k);
    }
  }

  // ---------- Context ----------

  lemma RouteContextOk(f: Facts, s: SocketId, h: Hypothesis)
    requires f.policy.maxEvidence > 0
    requires HypothesisOk(f, CauseKey(LocalRoutingProblem, SocketScope(s)), h)
    ensures HypothesisOk(f, CauseKey(LocalRoutingProblem, SocketScope(s)), WithRouteContext(f, s, h))
  {
    hide ListOk, Add, AddAll, HasScope, HasIncident, RouteUsable, ClassifyProbe;
    var scope := SocketScope(s);
    AddOk(f, scope, Missing, h.missing, Of(Synthetic(SocketRouteObservation, SocketTracker), scope, Missing,
                                           PolicyRoutingUnknown, NotImplemented, RulesNotModeled));
    var route := RouteOf(f, s);
    if route.Some? {
      var against := if RouteUsable(route.value)
        then [Of(route.value.header, scope, Contradicting, ModeledRoute, Observed, RouteContradicts)] else [];
      var g := GatewayOf(f, s);
      var reached := if g.event.Some? && g.meaning == Reachable
        then [OfProbe(g.event.value, scope, Contradicting, GatewayReachable, Observed, ReachableIsContext)] else [];
      AddAllOk(f, scope, Contradicting, h.contradicting, against + reached);
      AddAllOk(f, scope, Supporting, h.supporting, GatewayDegradation(g, scope, DegradedIsContext));
    }
  }

  lemma ProbeUnknownIsUnobserved(f: Facts, netns: NetnsId, kind: TargetKind, route: Option<RouteEvent>)
    ensures var g := ClassifyProbe(f, netns, kind, route);
            && (g.meaning == Unknown || g.meaning == Outdated ==> g.capability == NotObserved)
            && (UsableMeaning(g.meaning) ==> g.capability == Observed && g.event.Some?)
  {
  }

  lemma ProbeClueOk(f: Facts, s: SocketId, kind: TargetKind, role: Role)
    ensures var g := ClassifyProbe(f, s.netns, kind, RouteOf(f, s));
            CluesOk(f, SocketScope(s), role, Only(role, ProbeClue(g, s, kind)))
  {
    ProbeUnknownIsUnobserved(f, s.netns, kind, RouteOf(f, s));
    hide ClassifyProbe, HasIncident;
  }

  lemma WifiCluesOk(f: Facts, w: WifiFact, scope: Scope)
    ensures CluesOk(f, scope, Supporting, WifiSupport(f, w, scope)) && CluesOk(f, scope, Missing, WifiGap(w, scope))
    ensures CluesOk(f, scope, Supporting, LocalWifiClues(w, scope)) && CluesOk(f, scope, Supporting, RemoteWifiClues(w, scope))
  {
    hide HasIncident;
  }

  lemma PathSupportOk(f: Facts, s: SocketId)
    ensures CluesOk(f, SocketScope(s), Supporting, PathSupport(f, s))
  {
    ProbeClueOk(f, s, ToGateway, Supporting);
    ProbeClueOk(f, s, ToRemote, Supporting);
    WifiCluesOk(f, WifiOf(f, s), SocketScope(s));
    hide HasIncident, ClassifyProbe, ClassifyWifi, Only, WifiSupport, ProbeClue, RouteKnown, UplinkKnown;
  }

  lemma PathGapsOk(f: Facts, s: SocketId)
    ensures CluesOk(f, SocketScope(s), Missing, PathGaps(f, s))
  {
    ProbeClueOk(f, s, ToGateway, Missing);
    ProbeClueOk(f, s, ToRemote, Missing);
    WifiCluesOk(f, WifiOf(f, s), SocketScope(s));
    hide HasIncident, ClassifyProbe, ClassifyWifi, Only, WifiGap, ProbeClue, RouteKnown, UplinkKnown;
  }

  lemma PathContextOk(f: Facts, s: SocketId, h: Hypothesis)
    requires f.policy.maxEvidence > 0 && HypothesisOk(f, PathKey(SocketScope(s)), h)
    ensures HypothesisOk(f, PathKey(SocketScope(s)), WithPathContext(f, s, h))
  {
    hide ListOk, AddAll, HasScope, PathSupport, PathGaps, ClassifyProbe, Only, ProbeClue, PathLevel, BothTcp, CluesOk;
    var scope := SocketScope(s);
    PathSupportOk(f, s);
    PathGapsOk(f, s);
    ProbeClueOk(f, s, ToRemote, Contradicting);
    AddAllOk(f, scope, Supporting, h.supporting, PathSupport(f, s));
    AddAllOk(f, scope, Missing, h.missing, PathGaps(f, s));
    AddAllOk(f, scope, Contradicting, h.contradicting, Only(Contradicting, ProbeClue(RemoteOf(f, s), s, ToRemote)));
  }

  lemma DerivedOk(f: Facts, k: CauseKey, h: Hypothesis, supporting: seq<Clue>, missing: seq<Clue>, level: Level, reason: Reason)
    requires f.policy.maxEvidence > 0 && HasScope(f, k.scope)
    requires CluesOk(f, k.scope, Supporting, supporting) && CluesOk(f, k.scope, Missing, missing)
    ensures HypothesisOk(f, k, NewHypothesis(k, level, h.openedAt, h.updatedAt, reason)
                               .(supporting := AddAll([], supporting, f.policy.maxEvidence),
                                 missing := AddAll([], missing, f.policy.maxEvidence)))
  {
    EmptyOk(f, k.scope);
    hide ListOk, AddAll, CluesOk, HasScope;
    AddAllOk(f, k.scope, Supporting, [], supporting);
    AddAllOk(f, k.scope, Missing, [], missing);
  }

  lemma AddOne(list: seq<Clue>, c: Clue, bound: nat)
    ensures AddAll(list, [c], bound) == Add(list, c, bound)
  {
    assert AddAll(list, [], bound) == list;
    assert [c][..0] == [];
  }

  lemma LocalLinkOk(f: Facts, s: SocketId, h: Hypothesis)
    requires f.policy.maxEvidence > 0 && HypothesisOk(f, PathKey(SocketScope(s)), h)
    ensures HypothesisOk(f, CauseKey(LocalLinkSuspected, SocketScope(s)), LocalLink(f, s, h))
  {
    var (scope, w, g) := (SocketScope(s), WifiOf(f, s), GatewayOf(f, s));
    var c := Of(Synthetic(ProbeObservation, ActiveProbe), scope, Missing, NoGatewayHealth, NotImplemented, HealthNotObserved);
    assert CluesOk(f, scope, Missing, [c]) && CluesOk(f, scope, Supporting, GatewayDegradation(g, scope, g.why)) by {
      hide HasIncident, ClassifyProbe;
    }
    FilterOk(f, scope, Supporting, h.supporting, IsTcp);
    WifiCluesOk(f, w, scope);
    hide CluesOk, ListOk, AddAll, Add, Filter, LocalWifiClues, GatewayDegradation, ClassifyProbe, ClassifyWifi, HasScope, IsTcp;
    ConcatOk(f, scope, Supporting, Filter(h.supporting, IsTcp), LocalWifiClues(w, scope));
    ConcatOk(f, scope, Supporting, Filter(h.supporting, IsTcp) + LocalWifiClues(w, scope), GatewayDegradation(g, scope, g.why));
    AddOne([], c, f.policy.maxEvidence);
    DerivedOk(f, CauseKey(LocalLinkSuspected, scope), h,
              Filter(h.supporting, IsTcp) + LocalWifiClues(w, scope) + GatewayDegradation(g, scope, g.why), [c],
              LocalLink(f, s, h).level, LocalLink(f, s, h).reason);
  }

  lemma NoRouteContextOk(f: Facts, s: SocketId, h: Hypothesis)
    requires f.policy.maxEvidence > 0 && HypothesisOk(f, PathKey(SocketScope(s)), h)
    ensures HypothesisOk(f, CauseKey(InsufficientEvidence, SocketScope(s)), NoRouteContext(f, s, h))
  {
    var scope := SocketScope(s);
    hide HasIncident, HasScope;
    AddOk(f, scope, Missing, h.missing, NoRouteClue(s));
    hide Add, AddAll, NoRepeats, ClueOk;
    var p := (c: Clue) => c.kind == TopologyUnknown;
    var gaps := Add(h.missing, NoRouteClue(s), f.policy.maxEvidence);
    FilterOk(f, scope, Missing, gaps, p);
    hide CluesOk, Filter;
    DerivedOk(f, CauseKey(InsufficientEvidence, scope), h, h.supporting, Filter(gaps, p), Low, PathContextUnavailable);
  }

  lemma NoProbeContextOk(f: Facts, s: SocketId, h: Hypothesis)
    requires f.policy.maxEvidence > 0 && HypothesisOk(f, PathKey(SocketScope(s)), h)
    ensures HypothesisOk(f, CauseKey(InsufficientEvidence, SocketScope(s)), NoProbeContext(f, s, h))
  {
    var scope := SocketScope(s);
    FilterOk(f, scope, Supporting, h.supporting, IsTcp);
    FilterOk(f, scope, Missing, h.missing, IsProbeGap);
    hide CluesOk, ListOk, AddAll, Filter, HasScope, IsTcp, IsProbeGap;
    DerivedOk(f, CauseKey(InsufficientEvidence, scope), h, Filter(h.supporting, IsTcp), Filter(h.missing, IsProbeGap), Low,
              ProbeContextUnavailable);
  }

  lemma RemoteOk(f: Facts, s: SocketId, h: Hypothesis)
    requires f.policy.maxEvidence > 0 && HypothesisOk(f, PathKey(SocketScope(s)), h)
    ensures HypothesisOk(f, CauseKey(RemoteOrUpstreamDegradation, SocketScope(s)), Remote(f, s, h))
  {
    var (scope, w) := (SocketScope(s), WifiOf(f, s));
    WifiCluesOk(f, w, scope);
    var none := NoProbeEvent(s.netns, ToRemote);
    var gaps := [OfProbe(none, scope, Missing, NoEndpointProbe, NotImplemented, RemoteNotSpecific),
                 OfProbe(none, scope, Missing, NoHopEvidence, NotImplemented, HopsNotImplemented)];
    assert CluesOk(f, scope, Missing, gaps) by { hide HasIncident; }
    hide CluesOk, AddAll, RemoteWifiClues, ClassifyWifi, HasScope, OfProbe, NoRepeats, NoProbeEvent;
    ConcatOk(f, scope, Supporting, h.supporting, RemoteWifiClues(w, scope));
    DerivedOk(f, CauseKey(RemoteOrUpstreamDegradation, scope), h, h.supporting + RemoteWifiClues(w, scope), gaps, Medium,
              BeyondGateway);
  }

  lemma UplinkContextOk(f: Facts, netns: NetnsId, h: Hypothesis)
    requires f.policy.maxEvidence > 0 && HypothesisOk(f, CauseKey(UplinkAvailabilityProblem, NetnsScope(netns)), h)
    ensures HypothesisOk(f, CauseKey(UplinkAvailabilityProblem, NetnsScope(netns)), WithUplinkContext(f, netns, h))
  {
    hide ListOk, Add, HasScope, HasIncident;
    if netns in f.uplinks {
      AddOk(f, NetnsScope(netns), Contradicting, h.contradicting,
            Of(f.uplinks[netns].header, NetnsScope(netns), Contradicting, UsableUplink, Observed, UplinkRestored));
    }
  }

  // ---------- The rules ----------

  lemma PathFamilyOk(f: Facts, s: SocketId, base: Hypothesis, typ: CauseType)
    requires f.policy.maxEvidence > 0 && HypothesisOk(f, PathKey(SocketScope(s)), base)
    ensures var r := PathFamilyAt(f, s, base, typ); r.Some? ==> HypothesisOk(f, CauseKey(typ, SocketScope(s)), r.value)
  {
    hide HypothesisOk, WithPathContext, LocalLink, NoRouteContext, NoProbeContext, Remote, LocalSuspected, RouteKnown,
         ProbesInsufficient, BeyondTheGateway;
    PathContextOk(f, s, base);
    var path := WithPathContext(f, s, base);
    match typ {
      case LocalLinkSuspected => LocalLinkOk(f, s, path);
      case InsufficientEvidence => NoRouteContextOk(f, s, base); NoProbeContextOk(f, s, path);
      case RemoteOrUpstreamDegradation => RemoteOk(f, s, path);
      case _ =>
    }
  }

  /**
   * Every candidate is about an active incident's scope, and its three evidence lists are bounded, free of repetitions
   * and hold only evidence of their own role; missing evidence is never presented as observed.
   */
  lemma CandidatesAreSound(f: Facts, k: CauseKey)
    requires PolicyOk(f.policy)
    ensures var r := CandidateAt(f, Openings(f), k); r.Some? ==> HypothesisOk(f, k, r.value)
  {
    var m := Openings(f);
    AdmittedOk(f, Above(f.incidents.Keys));
    assert k in m ==> HypothesisOk(f, k, m[k]);
    assert PathKey(k.scope) in m ==> HypothesisOk(f, PathKey(k.scope), Upgraded(PathKey(k.scope), m[PathKey(k.scope)])) by {
      hide ListOk, HasScope, Mentions;
    }
    hide HypothesisOk, OpeningsOk, PathFamilyAt, WithRouteContext, WithUplinkContext, Upgraded, Openings;
    if k.typ == UplinkAvailabilityProblem {
      if k in m && k.scope.NetnsScope? { UplinkContextOk(f, k.scope.netns, m[k]); }
    } else if k.typ == LocalRoutingProblem {
      if k in m && k.scope.SocketScope? { RouteContextOk(f, k.scope.socket, m[k]); }
    } else if PathKey(k.scope) in m && k.scope.SocketScope? {
      PathFamilyOk(f, k.scope.socket, Upgraded(PathKey(k.scope), m[PathKey(k.scope)]), k.typ);
    }
  }

  /** Blaming the remote side excludes both blaming the local link and having too little evidence. */
  lemma RemoteExcludesLocalAndInsufficient(f: Facts, scope: Scope)
    requires CandidateAt(f, Openings(f), CauseKey(RemoteOrUpstreamDegradation, scope)).Some?
    ensures CandidateAt(f, Openings(f), CauseKey(LocalLinkSuspected, scope)).None?
    ensures CandidateAt(f, Openings(f), CauseKey(InsufficientEvidence, scope)).None?
  {
    hide Openings, ClassifyProbe, ClassifyWifi, WithPathContext, Upgraded;
  }

  lemma LocalLinkIsNeverHigh(f: Facts, scope: Scope)
    ensures var r := CandidateAt(f, Openings(f), CauseKey(LocalLinkSuspected, scope)); r.Some? ==> r.value.level != High
  {
    hide Openings, ClassifyProbe, ClassifyWifi, WithPathContext, Upgraded;
  }

  // ---------- What counts as an observation ----------

  /** The cached probe was made towards what the facts now say is the target. */
  predicate OnTarget(f: Facts, s: SocketId, kind: TargetKind, e: ProbeEvent) {
    kind == ToGateway ==> RouteOf(f, s).Some? && SameGateway(e.target, RouteOf(f, s).value)
  }

  /** A probe counts exactly when it is cached, on target, fresh, usable and answered or timed out. */
  lemma ProbeCountsIff(f: Facts, s: SocketId, kind: TargetKind)
    ensures var g := ClassifyProbe(f, s.netns, kind, RouteOf(f, s));
            var cached := CachedProbe(f, s.netns, kind);
            && (UsableMeaning(g.meaning) <==>
                  && cached.Some? && OnTarget(f, s, kind, cached.value) && UsableValidity(cached.value.validity)
                  && Fresh(cached.value.monotonicAt, f.now, f.policy.probeFreshness)
                  && (cached.value.status == Success || cached.value.status == Timeout))
            && (g.meaning == TimedOut ==> cached.value.status == Timeout)
            && (g.meaning == HighRtt ==>
                  cached.value.rtt.Some?
                  && cached.value.rtt.value >= if kind == ToGateway then f.policy.gatewayRttHigh else f.policy.remoteRttHigh)
            && (g.meaning == Reachable && cached.value.rtt.Some? ==>
                  cached.value.rtt.value < if kind == ToGateway then f.policy.gatewayRttHigh else f.policy.remoteRttHigh)
  {
    hide SameGateway;
  }

  /** A Wi-Fi conclusion is only ever drawn from a fresh, usable observation of the interface in use, of its generation. */
  lemma WifiCountsOnlyIf(f: Facts, s: SocketId)
    ensures var w := WifiOf(f, s);
            w.meaning == IsAssociated || w.meaning == IsNotAssociated ==>
              var i := CurrentInterface(f, s.netns, RouteOf(f, s));
              && i.Some? && WifiKey(s.netns, i.value) in f.wifi && w.entry == Some(f.wifi[WifiKey(s.netns, i.value)])
              && var e := w.entry.value.event;
                 && Fresh(e.monotonicAt, f.now, f.policy.wifiFreshness) && UsableValidity(e.validity)
                 && (e.iftype.None? || e.iftype.value == STATION)
                 && (RouteOf(f, s).Some? && RouteOf(f, s).value.generation != 0 && e.generation != 0 ==>
                       RouteOf(f, s).value.generation == e.generation)
                 && (w.meaning == IsAssociated <==> e.capability == WifiAvailable && e.link == LinkAssociated)
  {
  }
}
