/** When exactly a path hypothesis is rated high. */
module RootCauseConfidence {
  import opened BoundedList
  import opened Entities
  import opened IdOrder
  import opened RootCauseModel
  import opened RootCauseRules
  import I = IncidentModel

  // ---------- What a bounded list keeps ----------

  lemma {:induction false} AddAllKeeps(s: seq<Clue>, bound: nat)
    requires bound > 0 && NoRepeats(s)
    ensures AddAll([], s, bound) == FirstAndLatest(s, bound)
  {
    if s != [] {
      var (init, last) := (s[..|s| - 1], s[|s| - 1]);
      assert NoRepeats(init) && last !in init;
      hide MakeRoom, FirstAndLatest, NoRepeats;
      AddAllKeeps(init, bound);
      KeptWasOffered(init, bound);
      MakeRoomKeeps(init, last, bound);
      assert init + [last] == s;
    }
  }

  lemma {:induction false} AddAllConcat(list: seq<Clue>, a: seq<Clue>, b: seq<Clue>, bound: nat)
    ensures AddAll(AddAll(list, a, bound), b, bound) == AddAll(list, a + b, bound)
  {
    hide Add;
    if b == [] {
      assert a + b == a;
    } else {
      AddAllConcat(list, a, b[..|b| - 1], bound);
      assert (a + b)[..|a + b| - 1] == a + b[..|b| - 1];
    }
  }

  // ---------- The incidents of one path ----------

  function TcpClues(incidents: map<nat, I.Incident>, scope: Scope, n: nat): seq<Clue> {
    if n == 0 then []
    else
      var rest := TcpClues(incidents, scope, n - 1);
      if n - 1 in incidents && KeyFor(incidents[n - 1]) == PathKey(scope)
      then rest + [OfIncidentNow(incidents[n - 1], KindOfIncident(incidents[n - 1].typ))] else rest
  }

  lemma {:induction false} PathSupportedByTcp(incidents: map<nat, I.Incident>, scope: Scope, n: nat, bound: nat)
    ensures var m := Admitted(incidents, n, bound);
            if PathKey(scope) in m then m[PathKey(scope)].supporting == AddAll([], TcpClues(incidents, scope, n), bound)
            else TcpClues(incidents, scope, n) == []
  {
    hide Add, OfIncidentNow, CauseOf, KindOfIncident;
    if n > 0 {
      PathSupportedByTcp(incidents, scope, n - 1, bound);
      var rest := TcpClues(incidents, scope, n - 1);
      if n - 1 in incidents {
        var c := OfIncidentNow(incidents[n - 1], KindOfIncident(incidents[n - 1].typ));
        assert (rest + [c])[..|rest + [c]| - 1] == rest;
      }
    }
  }

  predicate Alike(a: I.Incident, b: I.Incident) {
    a.typ == b.typ && a.scope == b.scope
  }

  /** No two incidents are about the same thing. */
  predicate UniqueIncidents(incidents: map<nat, I.Incident>) {
    forall a, b :: a in incidents && b in incidents && Alike(incidents[a], incidents[b]) ==> a == b
  }

  predicate KindsDistinct(s: seq<Clue>) {
    forall i, j :: 0 <= i < j < |s| ==> s[i].kind != s[j].kind
  }

  predicate OpenBelow(incidents: map<nat, I.Incident>, t: I.IncidentType, scope: Scope, n: nat) {
    exists id :: 0 <= id < n && id in incidents && incidents[id].typ == t && incidents[id].scope == scope
  }

  lemma {:induction false} TcpCluesNameIncidents(incidents: map<nat, I.Incident>, scope: Scope, n: nat)
    requires UniqueIncidents(incidents)
    ensures var s := TcpClues(incidents, scope, n);
            && (Mentions(s, RttIncident) <==> OpenBelow(incidents, I.HighTcpRtt, scope, n))
            && (Mentions(s, RetransmissionIncident) <==> OpenBelow(incidents, I.ElevatedTcpRetransmission, scope, n))
            && AllTcp(s) && KindsDistinct(s)
  {
    if n > 0 {
      TcpCluesNameIncidents(incidents, scope, n - 1);
      var rest := TcpClues(incidents, scope, n - 1);
      if n - 1 in incidents && KeyFor(incidents[n - 1]) == PathKey(scope) {
        var i := incidents[n - 1];
        var c := OfIncidentNow(i, KindOfIncident(i.typ));
        assert c.kind == KindOfIncident(i.typ);
        hide OfIncidentNow, KindsDistinct, Mentions;
        assert !OpenBelow(incidents, i.typ, scope, n - 1) by {
          assert forall id :: id in incidents && Alike(incidents[id], i) ==> id == n - 1;
        }
        MentionsSnoc(rest, c, RttIncident);
        MentionsSnoc(rest, c, RetransmissionIncident);
        DistinctSnoc(rest, c);
        OneMore(incidents, scope, n, I.HighTcpRtt);
        OneMore(incidents, scope, n, I.ElevatedTcpRetransmission);
      } else {
        OneMore(incidents, scope, n, I.HighTcpRtt);
        OneMore(incidents, scope, n, I.ElevatedTcpRetransmission);
      }
    }
  }

  lemma OneMore(incidents: map<nat, I.Incident>, scope: Scope, n: nat, t: I.IncidentType)
    requires n > 0
    ensures OpenBelow(incidents, t, scope, n) <==>
            OpenBelow(incidents, t, scope, n - 1)
            || (n - 1 in incidents && incidents[n - 1].typ == t && incidents[n - 1].scope == scope)
  {
  }

  lemma MentionsSnoc(s: seq<Clue>, c: Clue, kind: Kind)
    ensures Mentions(s + [c], kind) <==> Mentions(s, kind) || c.kind == kind
  {
    assert (s + [c])[|s|] == c;
    if Mentions(s, kind) {
      var i :| 0 <= i < |s| && s[i].kind == kind;
      assert (s + [c])[i].kind == kind;
    }
  }

  lemma DistinctSnoc(s: seq<Clue>, c: Clue)
    requires KindsDistinct(s) && !Mentions(s, c.kind)
    ensures KindsDistinct(s + [c])
  {
  }

  // ---------- The context of one path ----------

  function Rank(k: Kind): nat {
    match k
    case RttIncident => 0 case RetransmissionIncident => 0
    case ModeledRoute => 1
    case UsableUplink => 2
    case GatewayReachable => 3 case GatewayHighRtt => 3 case GatewayTimeout => 3
    case RemoteReachable => 4 case RemoteHighRtt => 4 case RemoteTimeout => 4
    case Associated => 5 case NotAssociated => 5
    case SignalNormal => 6 case SignalWeak => 6 case SignalVeryWeak => 6
    case BitrateLow => 7
    case _ => 8
  }

  predicate Ranked(s: seq<Clue>, lo: nat, hi: nat) {
    && (forall i :: 0 <= i < |s| ==> lo < Rank(s[i].kind) <= hi)
    && (forall i, j :: 0 <= i < j < |s| ==> Rank(s[i].kind) < Rank(s[j].kind))
  }

  lemma RankedConcat(a: seq<Clue>, b: seq<Clue>, lo: nat, mid: nat, hi: nat)
    requires Ranked(a, lo, mid) && Ranked(b, mid, hi) && lo <= mid <= hi
    ensures Ranked(a + b, lo, hi)
  {
  }

  lemma ProbeRanked(g: ProbeFact, s: SocketId, kind: TargetKind)
    ensures var c := Only(Supporting, ProbeClue(g, s, kind));
            if kind == ToGateway then Ranked(c, 2, 3) else Ranked(c, 3, 4)
  {
  }

  lemma WifiRanked(f: Facts, w: WifiFact, scope: Scope)
    ensures Ranked(WifiSupport(f, w, scope), 4, 7)
  {
    if WifiConclusive(w) && w.meaning != IsNotAssociated {
      var e := w.entry.value;
      var first := OfWifi(e, scope, Associated, w.why);
      assert Ranked([first], 4, 5) && Ranked(SignalClues(e, scope), 5, 6) && Ranked(BitrateClues(f, e, scope), 6, 7);
      hide Ranked, SignalClues, BitrateClues, OfWifi;
      RankedConcat([first], SignalClues(e, scope), 4, 5, 6);
      RankedConcat([first] + SignalClues(e, scope), BitrateClues(f, e, scope), 4, 6, 7);
    }
  }

  lemma SupportRanked(f: Facts, s: SocketId)
    ensures Ranked(PathSupport(f, s), 0, 7)
  {
    var (scope, g, r, w) := (SocketScope(s), GatewayOf(f, s), RemoteOf(f, s), WifiOf(f, s));
    var a := if RouteKnown(f, s) then [Of(f.routes[s].header, scope, Supporting, ModeledRoute, Observed, RouteSupports)] else [];
    var b := if UplinkKnown(f, s.netns)
      then [Of(f.uplinks[s.netns].header, scope, Supporting, UsableUplink, Observed, UplinkSupports)] else [];
    assert Ranked(a, 0, 1) && Ranked(b, 1, 2);
    ProbeRanked(g, s, ToGateway);
    ProbeRanked(r, s, ToRemote);
    WifiRanked(f, w, scope);
    hide Ranked, Only, ProbeClue, WifiSupport, ClassifyProbe, ClassifyWifi, RouteKnown, UplinkKnown, Of;
    RankedConcat(a, b, 0, 1, 2);
    RankedConcat(a + b, Only(Supporting, ProbeClue(g, s, ToGateway)), 0, 2, 3);
    RankedConcat(a + b + Only(Supporting, ProbeClue(g, s, ToGateway)), Only(Supporting, ProbeClue(r, s, ToRemote)), 0, 3, 4);
    RankedConcat(a + b + Only(Supporting, ProbeClue(g, s, ToGateway)) + Only(Supporting, ProbeClue(r, s, ToRemote)),
                 WifiSupport(f, w, scope), 0, 4, 7);
  }

  // ---------- Both TCP incidents survive exactly while nothing has to make room ----------

  predicate AllTcp(t: seq<Clue>) {
    forall i :: 0 <= i < |t| ==> IsTcp(t[i])
  }

  lemma ThreeRepeatAKind(t: seq<Clue>)
    requires AllTcp(t) && |t| >= 3
    ensures !KindsDistinct(t)
  {
    assert IsTcp(t[0]) && IsTcp(t[1]) && IsTcp(t[2]);
  }

  lemma AtMostTwo(t: seq<Clue>)
    requires AllTcp(t) && KindsDistinct(t)
    ensures |t| <= 2 && (|t| == 2 <==> BothTcp(t))
  {
    if |t| >= 3 {
      ThreeRepeatAKind(t);
    } else {
      assert |t| == 2 ==> t[0].kind != t[1].kind;
    }
  }

  lemma JoinedDistinct(t: seq<Clue>, s: seq<Clue>)
    requires AllTcp(t) && KindsDistinct(t) && Ranked(s, 0, 7)
    ensures KindsDistinct(t + s) && NoRepeats(t + s)
  {
    var x := t + s;
    forall i, j | 0 <= i < j < |x|
      ensures x[i].kind != x[j].kind
    {
      if i < |t| <= j { assert IsTcp(t[i]) && 0 < Rank(s[j - |t|].kind); }
    }
  }

  lemma OnlyOneLeft(t: seq<Clue>, s: seq<Clue>, bound: nat)
    requires AllTcp(t) && |t| <= 2 && Ranked(s, 0, 7) && 0 < bound < |t + s|
    ensures !BothTcp(FirstAndLatest(t + s, bound))
  {
    var k := FirstAndLatest(t + s, bound);
    assert forall i :: 1 <= i < |k| ==> !IsTcp(k[i]) by {
      forall i | 1 <= i < |k|
        ensures !IsTcp(k[i])
      {
        var j := |t + s| - (bound - 1) + i - 1;
        assert k[i] == (t + s)[j] == s[j - |t|];
      }
    }
  }

  lemma BothInFront(t: seq<Clue>, s: seq<Clue>)
    requires Ranked(s, 0, 7)
    ensures BothTcp(t + s) <==> BothTcp(t)
  {
    MentionsInFront(t, s, RttIncident);
    MentionsInFront(t, s, RetransmissionIncident);
  }

  lemma MentionsInFront(t: seq<Clue>, s: seq<Clue>, kind: Kind)
    requires Ranked(s, 0, 7) && Rank(kind) == 0
    ensures Mentions(t + s, kind) <==> Mentions(t, kind)
  {
    if Mentions(t, kind) {
      var i :| 0 <= i < |t| && t[i].kind == kind;
      assert (t + s)[i].kind == kind;
    }
    if !Mentions(t, kind) {
      forall i | 0 <= i < |t + s|
        ensures (t + s)[i].kind != kind
      {
        if i < |t| { assert (t + s)[i] == t[i]; } else { assert (t + s)[i] == s[i - |t|]; }
      }
    }
  }

  lemma BothSurvive(t: seq<Clue>, s: seq<Clue>, bound: nat)
    requires AllTcp(t) && KindsDistinct(t) && Ranked(s, 0, 7) && bound > 0
    ensures BothTcp(AddAll([], t + s, bound)) <==> BothTcp(t) && 2 + |s| <= bound
  {
    AtMostTwo(t);
    JoinedDistinct(t, s);
    AddAllKeeps(t + s, bound);
    BothInFront(t, s);
    hide BothTcp, AllTcp, KindsDistinct, Ranked, NoRepeats, AddAll;
    if |t + s| > bound { OnlyOneLeft(t, s, bound); }
  }

  // ---------- The rating ----------

  lemma {:induction false} RatedHigh(f: Facts, s: SocketId, base: Hypothesis)
    requires base.level == if BothTcp(base.supporting) then Medium else Low
    ensures WithPathContext(f, s, base).level == High <==>
            && BothTcp(WithPathContext(f, s, base).supporting)
            && GatewayOf(f, s).meaning == Reachable && RemoteOf(f, s).meaning == HighRtt
  {
    hide ClassifyProbe, PathSupport, PathGaps, AddAll, BothTcp;
  }

  /**
   * A path problem is rated high exactly when both TCP incidents are active on the socket, its gateway answers promptly
   * and the remote target slowly, and the supporting evidence fits the bound without either incident being crowded out.
   */
  lemma PathIsHighIff(f: Facts, s: SocketId)
    requires PolicyOk(f.policy) && UniqueIncidents(f.incidents)
    ensures var r := CandidateAt(f, Openings(f), PathKey(SocketScope(s)));
            r.Some? && r.value.level == High <==>
              && HasIncident(f, I.HighTcpRtt, SocketScope(s)) && HasIncident(f, I.ElevatedTcpRetransmission, SocketScope(s))
              && GatewayOf(f, s).meaning == Reachable && RemoteOf(f, s).meaning == HighRtt
              && 2 + |PathSupport(f, s)| <= f.policy.maxEvidence
  {
    var (n, scope, bound) := (Above(f.incidents.Keys), SocketScope(s), f.policy.maxEvidence);
    var t := TcpClues(f.incidents, scope, n);
    hide PathSupport, BothTcp, TcpClues, Ranked, AllTcp, KindsDistinct, OpenBelow, HasIncident, UniqueIncidents, ClassifyProbe;
    BothAreOpen(f, scope);
    SupportRanked(f, s);
    BothSurvive(t, PathSupport(f, s), bound);
    PathSupportedByTcp(f.incidents, scope, n, bound);
    if PathKey(scope) in Openings(f) {
      PathOpensLow(f, scope);
      AddAllConcat([], t, PathSupport(f, s), bound);
      hide Mentions, AddAll, Openings;
      RatedHigh(f, s, Upgraded(PathKey(scope), Openings(f)[PathKey(scope)]));
    } else {
      NothingMentioned();
    }
  }

  lemma BothAreOpen(f: Facts, scope: Scope)
    requires UniqueIncidents(f.incidents)
    ensures var t := TcpClues(f.incidents, scope, Above(f.incidents.Keys));
            && AllTcp(t) && KindsDistinct(t)
            && (BothTcp(t) <==> HasIncident(f, I.HighTcpRtt, scope) && HasIncident(f, I.ElevatedTcpRetransmission, scope))
  {
    TcpCluesNameIncidents(f.incidents, scope, Above(f.incidents.Keys));
    AllBelow(f, I.HighTcpRtt, scope);
    AllBelow(f, I.ElevatedTcpRetransmission, scope);
  }

  lemma PathOpensLow(f: Facts, scope: Scope)
    requires PolicyOk(f.policy) && PathKey(scope) in Openings(f)
    ensures Openings(f)[PathKey(scope)].level == Low
  {
    AdmittedOk(f, Above(f.incidents.Keys));
    hide HypothesisOk;
  }

  lemma NothingMentioned()
    ensures !BothTcp([])
  {
  }

  lemma AllBelow(f: Facts, t: I.IncidentType, scope: Scope)
    ensures HasIncident(f, t, scope) <==> OpenBelow(f.incidents, t, scope, Above(f.incidents.Keys))
  {
  }

  /** Whatever is cached, a high rating is only ever given with both incidents active. */
  lemma HighPathImpliesBoth(f: Facts, s: SocketId)
    requires PolicyOk(f.policy)
    ensures var r := CandidateAt(f, Openings(f), PathKey(SocketScope(s)));
            r.Some? && r.value.level == High ==>
              && HasIncident(f, I.HighTcpRtt, SocketScope(s)) && HasIncident(f, I.ElevatedTcpRetransmission, SocketScope(s))
              && GatewayOf(f, s).meaning == Reachable && RemoteOf(f, s).meaning == HighRtt
  {
    var (scope, k) := (SocketScope(s), PathKey(SocketScope(s)));
    CandidatesAreSound(f, k);
    hide ClassifyProbe, WithPathContext, Openings;
    if k in Openings(f) {
      PathOpensLow(f, scope);
      RatedHigh(f, s, Upgraded(k, Openings(f)[k]));
      var path := WithPathContext(f, s, Upgraded(k, Openings(f)[k]));
      if BothTcp(path.supporting) { SupportedByBoth(f, scope, path.supporting); }
    }
  }

  lemma SupportedByBoth(f: Facts, scope: Scope, list: seq<Clue>)
    requires CluesOk(f, scope, Supporting, list) && BothTcp(list)
    ensures HasIncident(f, I.HighTcpRtt, scope) && HasIncident(f, I.ElevatedTcpRetransmission, scope)
  {
    hide HasIncident;
    var i :| 0 <= i < |list| && list[i].kind == RttIncident;
    var j :| 0 <= j < |list| && list[j].kind == RetransmissionIncident;
    assert list[i] in list && list[j] in list;
  }

  // ---------- With the default bound of eight, nine supporting items crowd an incident out ----------

  const NETNS := NetnsId(1, 1)
  const SOCKET := SocketId(NETNS, Some(1), 1)

  function Seen(kind: EventKind, source: EventSource): Header {
    Header(kind, source, 0, 0, Valid)
  }

  function Example(id: nat, t: I.IncidentType): I.Incident {
    I.Incident(id, t, SocketScope(SOCKET), I.Active, I.High, 0, 0, 0, 0, None, [], I.RttHigh, None, Valid, I.Complete)
  }

  function Probed(kind: TargetKind, gateway: Gateway, rtt: nat): ProbeEvent {
    ProbeEvent(Seen(ProbeObservation, ActiveProbe), Target(kind, NETNS, gateway, Some(3)), NETNS, 0, 1, Success, Some(rtt), Valid)
  }

  /** Every source of evidence has something to say. */
  function CrowdedFacts(gateway: Gateway): Facts {
    Facts(Policy(256, 8, 1024, 15, 10, 75000, 175000, -70, -80, -67, -77, 6000), 0,
          map[1 := Example(1, I.HighTcpRtt), 2 := Example(2, I.ElevatedTcpRetransmission)],
          map[SOCKET := RouteEvent(Seen(SocketRouteObservation, SocketTracker), NETNS, RouteAvailable, true, 1, Some(3), Some(gateway))],
          map[NETNS := UplinkEvent(Seen(UplinkObservation, NetlinkCollector), Some(3), true, 1)],
          map[NETNS := ProbeCache(Some(Probed(ToGateway, gateway, 1000)), Some(Probed(ToRemote, gateway, 200000)))],
          map[WifiKey(NETNS, 3) := WifiEntry(
                WifiEvent(Seen(WifiObservation, WifiCollector), 1, NETNS, Some(3), 1, LinkAssociated, WifiAvailable, Some(STATION),
                          Some(-60), None, Some(1000), 0, Valid), Normal)])
  }

  /** Both incidents, a prompt gateway and a slow remote do not suffice. */
  lemma CrowdedOut(gateway: Gateway)
    ensures var f := CrowdedFacts(gateway);
            var r := CandidateAt(f, Openings(f), PathKey(SocketScope(SOCKET)));
            && PolicyOk(f.policy) && UniqueIncidents(f.incidents)
            && HasIncident(f, I.HighTcpRtt, SocketScope(SOCKET))
            && HasIncident(f, I.ElevatedTcpRetransmission, SocketScope(SOCKET))
            && GatewayOf(f, SOCKET).meaning == Reachable && RemoteOf(f, SOCKET).meaning == HighRtt
            && !(r.Some? && r.value.level == High)
  {
    hide ClassifyProbe, PathSupport, CandidateAt;
    var f := CrowdedFacts(gateway);
    assert f.incidents[1].typ == I.HighTcpRtt && f.incidents[2].typ == I.ElevatedTcpRetransmission;
    CrowdedSupport(gateway);
    PathIsHighIff(f, SOCKET);
  }

  lemma CrowdedSupport(gateway: Gateway)
    ensures var f := CrowdedFacts(gateway);
            |PathSupport(f, SOCKET)| == 7 && GatewayOf(f, SOCKET).meaning == Reachable && RemoteOf(f, SOCKET).meaning == HighRtt
  {
    var f := CrowdedFacts(gateway);
    assert |WifiSupport(f, WifiOf(f, SOCKET), SocketScope(SOCKET))| == 3;
    hide WifiSupport, ClassifyWifi;
    assert GatewayOf(f, SOCKET).meaning == Reachable && RemoteOf(f, SOCKET).meaning == HighRtt;
  }

  // ---------- Ratings of the other openings ----------

  lemma {:induction false} OpeningLevels(incidents: map<nat, I.Incident>, scope: Scope, n: nat, bound: nat)
    ensures var m := Admitted(incidents, n, bound);
            && (CauseKey(LocalRoutingProblem, scope) in m ==>
                  m[CauseKey(LocalRoutingProblem, scope)].level == if OpenBelow(incidents, I.NoRoute, scope, n) then High else Medium)
            && (CauseKey(UplinkAvailabilityProblem, scope) in m ==> m[CauseKey(UplinkAvailabilityProblem, scope)].level == High)
            && (OpenBelow(incidents, I.NoRoute, scope, n) ==> CauseKey(LocalRoutingProblem, scope) in m)
  {
    hide Add, OfIncidentNow, OpenBelow;
    if n == 0 {
      NoneOpenBelow(incidents, I.NoRoute, scope);
    } else {
      OpeningLevels(incidents, scope, n - 1, bound);
      OneMore(incidents, scope, n, I.NoRoute);
    }
  }

  lemma NoneOpenBelow(incidents: map<nat, I.Incident>, t: I.IncidentType, scope: Scope)
    ensures !OpenBelow(incidents, t, scope, 0)
  {
  }

  /** A routing problem is rated by whether a route is reported missing and whether a usable one is on record. */
  lemma RoutingRating(f: Facts, s: SocketId)
    ensures var r := CandidateAt(f, Openings(f), CauseKey(LocalRoutingProblem, SocketScope(s)));
            r.Some? ==>
              r.value.level == if HasIncident(f, I.NoRoute, SocketScope(s))
                               then if RouteKnown(f, s) then Medium else High
                               else if RouteKnown(f, s) then Low else Medium
  {
    OpeningLevels(f.incidents, SocketScope(s), Above(f.incidents.Keys), f.policy.maxEvidence);
    AllBelow(f, I.NoRoute, SocketScope(s));
    hide OpenBelow, HasIncident, Admitted, ClassifyProbe, AddAll, Add, RouteUsable;
  }

  /** An uplink problem is high until the uplink is reported as selected again, then medium. */
  lemma UplinkRating(f: Facts, netns: NetnsId)
    ensures var r := CandidateAt(f, Openings(f), CauseKey(UplinkAvailabilityProblem, NetnsScope(netns)));
            r.Some? ==>
              && (r.value.level == High || r.value.level == Medium)
              && (r.value.level == Medium <==>
                    netns in f.uplinks && f.uplinks[netns].selected && UsableValidity(f.uplinks[netns].header.validity))
  {
    OpeningLevels(f.incidents, NetnsScope(netns), Above(f.incidents.Keys), f.policy.maxEvidence);
    hide OpenBelow, Admitted, Add;
  }
}
