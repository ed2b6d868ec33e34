/** The attribution is determined by the set of routes, and says what its status claims. */
module AttributionProofs {
  import opened Entities
  import opened TopologyModel
  import opened TopologyProofs
  import opened Attribution
  import U = UplinkPolicy
  import I = IncidentModel

  // ---------- The route's identity carries everything that matters ----------

  lemma SortKeepsMembers(hops: seq<Nexthop>)
    ensures forall h :: h in SortHops(hops) <==> h in hops
  {
    SortHopsSorts(hops);
    assert forall h :: h in multiset(hops) <==> h in hops;
    assert forall h :: h in multiset(SortHops(hops)) <==> h in SortHops(hops);
  }

  lemma {:induction false} SameMembersSameOutputs(a: seq<Nexthop>, b: seq<Nexthop>)
    requires forall h :: h in a <==> h in b
    ensures HopOutputs(a) == HopOutputs(b)
  {
    forall x | x in HopOutputs(a)
      ensures x in HopOutputs(b)
    {
      var i :| 0 <= i < |a| && a[i].ifindex != 0 && a[i].ifindex == x;
      assert a[i] in b;
    }
    forall x | x in HopOutputs(b)
      ensures x in HopOutputs(a)
    {
      var i :| 0 <= i < |b| && b[i].ifindex != 0 && b[i].ifindex == x;
      assert b[i] in a;
    }
  }

  lemma IdentityKeepsOutputs(r: RouteFact)
    ensures ForwardOutputs(Identity(r)) == ForwardOutputs(r)
  {
    SortKeepsMembers(r.multipath);
    SameMembersSameOutputs(SortHops(r.multipath), r.multipath);
  }

  lemma ChosenAgree(t: Topology, destination: Endpoint, less: U.IdentityOrder, r: RouteFact, s: RouteFact)
    requires U.StrictTotal(less) && IsChosen(t, destination, less, r) && IsChosen(t, destination, less, s)
    ensures Identity(r) == Identity(s) && ForwardOutputs(r) == ForwardOutputs(s)
  {
    hide IsBest, Identity;
    assert !less(Identity(r), Identity(s)) && !less(Identity(s), Identity(r));
    IdentityKeepsOutputs(r);
    IdentityKeepsOutputs(s);
  }

  lemma AttributionUnique(t: Topology, q: Query, less: U.IdentityOrder, c: Context, d: Context)
    requires U.StrictTotal(less) && Attributes(t, q, less, c) && Attributes(t, q, less, d)
    ensures c == d
  {
    hide IsChosen, IsAmbiguous, AllOutputs, ForwardOutputs, Identity, Conclude, U.StrictTotal, Applies;
    var remote := q.tuple.remote;
    if Trusted(t, q) && !NothingApplies(t, remote) {
      var (amb, all) := (IsAmbiguous(t, remote), AllOutputs(t, remote));
      var r :| IsChosen(t, remote, less, r) && c == Conclude(t, q, Identity(r), amb, if amb then all else ForwardOutputs(r));
      var s :| IsChosen(t, remote, less, s) && d == Conclude(t, q, Identity(s), amb, if amb then all else ForwardOutputs(s));
      ChosenAgree(t, remote, less, r, s);
    }
  }

  // ---------- The order of routes ----------

  lemma SameBest(t: Topology, routes: seq<RouteFact>, destination: Endpoint)
    requires U.SameRoutes(t.routes, routes)
    ensures var u := t.(routes := routes);
            && (forall r :: Applies(u, destination, r) == Applies(t, destination, r))
            && (forall r :: IsBest(u, destination, r) == IsBest(t, destination, r))
  {
    var u := t.(routes := routes);
    assert forall r :: Applies(u, destination, r) == Applies(t, destination, r);
    hide Applies, Better;
  }

  lemma SameConclusions(t: Topology, routes: seq<RouteFact>, q: Query, less: U.IdentityOrder)
    requires U.SameRoutes(t.routes, routes)
    ensures var (u, remote) := (t.(routes := routes), q.tuple.remote);
            && NothingApplies(u, remote) == NothingApplies(t, remote) && IsAmbiguous(u, remote) == IsAmbiguous(t, remote)
            && AllOutputs(u, remote) == AllOutputs(t, remote)
            && (forall r :: IsChosen(u, remote, less, r) == IsChosen(t, remote, less, r))
  {
    SameBest(t, routes, q.tuple.remote);
    hide Applies, IsBest, SameOutput, Identity, ForwardOutputs;
  }

  lemma ConclusionIgnoresRoutes(t: Topology, routes: seq<RouteFact>, q: Query, r: RouteFact, ambiguous: bool, outputs: set<nat>)
    ensures Conclude(t.(routes := routes), q, r, ambiguous, outputs) == Conclude(t, q, r, ambiguous, outputs)
    ensures Unmatched(t.(routes := routes), q) == Unmatched(t, q) && Untrusted(t.(routes := routes), q) == Untrusted(t, q)
  {
    hide RouteReasons, Relation, Sole;
    assert LocalAgrees(t.(routes := routes), q, outputs) == LocalAgrees(t, q, outputs);
  }

  /** The order in which the routes are stored makes no difference. */
  lemma AttributionIgnoresRouteOrder(t: Topology, routes: seq<RouteFact>, q: Query, less: U.IdentityOrder, c: Context, d: Context)
    requires U.StrictTotal(less) && U.SameRoutes(t.routes, routes)
    requires Attributes(t, q, less, c) && Attributes(t.(routes := routes), q, less, d)
    ensures c == d
  {
    var (u, remote) := (t.(routes := routes), q.tuple.remote);
    SameConclusions(t, routes, q, less);
    hide IsChosen, IsAmbiguous, AllOutputs, ForwardOutputs, Identity, Conclude, U.StrictTotal, NothingApplies, U.SameRoutes,
         Unmatched, Untrusted;
    forall r, outputs
      ensures Conclude(u, q, Identity(r), IsAmbiguous(t, remote), outputs) == Conclude(t, q, Identity(r), IsAmbiguous(t, remote), outputs)
    {
      ConclusionIgnoresRoutes(t, routes, q, Identity(r), IsAmbiguous(t, remote), outputs);
    }
    ConclusionIgnoresRoutes(t, routes, q, Witness(t), false, {});
    assert Attributes(u, q, less, c);
    AttributionUnique(u, q, less, c, d);
  }

  function Witness(t: Topology): RouteFact {
    if t.routes != [] then t.routes[0]
    else RouteFact(t.netns, 0, 0, seq(16, _ => 0 as bv8), 0, 0, 0, 0, 0, None, None, None, [], true, {})
  }

  // ---------- What a status means ----------

  /**
   * "Available" is only said of a trustworthy topology, of a route no other beats, and of exactly one interface, which
   * is the selected one and the one the kernel reported, if it reported any.
   */
  lemma AvailableMeans(t: Topology, q: Query, less: U.IdentityOrder, c: Context)
    requires Attributes(t, q, less, c) && c.status == RouteAvailable
    ensures Trusted(t, q) && !t.partial && !t.degraded && c.authoritative
    ensures c.selected.Some? && c.possible == {c.selected.value}
    ensures Diagnosed(q) != 0 ==> c.selected == Some(Diagnosed(q))
    ensures exists r :: IsBest(t, q.tuple.remote, r) && c.route == Some(Identity(r)) && Forwards(r) && r.output == c.selected
    ensures forall r :: IsBest(t, q.tuple.remote, r) ==> Outputs(r) == c.possible
  {
    hide IsBest, Identity, Relation;
    var remote := q.tuple.remote;
    var (amb, all) := (IsAmbiguous(t, remote), AllOutputs(t, remote));
    var r :| IsChosen(t, remote, less, r) && c == Conclude(t, q, Identity(r), amb, if amb then all else ForwardOutputs(r));
    IdentityKeepsPlainFields(r);
    SingleOutput(r);
    ConclusionWhenExact(t, q, Identity(r), amb, ForwardOutputs(r));
    assert forall s :: IsBest(t, remote, s) ==> SameOutput(r, s);
  }

  lemma IdentityKeepsPlainFields(r: RouteFact)
    ensures Identity(r).typ == r.typ && Identity(r).output == r.output && (Identity(r).multipath == [] <==> r.multipath == [])
  {
    SortHopsSorts(r.multipath);
    assert |multiset(SortHops(r.multipath))| == |multiset(r.multipath)|;
  }

  lemma SingleOutput(r: RouteFact)
    requires Forwards(r) && r.multipath == [] && ForwardOutputs(r) != {}
    ensures r.output.Some? && ForwardOutputs(r) == {r.output.value}
  {
  }

  lemma ConclusionWhenExact(t: Topology, q: Query, r: RouteFact, ambiguous: bool, outputs: set<nat>)
    requires !ambiguous && Conclude(t, q, r, ambiguous, outputs).status == RouteAvailable
    ensures Forwards(r) && r.multipath == [] && !t.partial && !t.degraded && outputs != {}
    ensures Diagnosed(q) != 0 ==> Diagnosed(q) in outputs
  {
  }

  /**
   * The incident engine may conclude that a route is missing exactly when a complete, current topology of the socket's
   * own namespace holds no route that applies.
   */
  lemma MissingRouteIff(t: Topology, q: Query, less: U.IdentityOrder, c: Context)
    requires Attributes(t, q, less, c)
    ensures I.ExplicitlyMissing(c.status, c.reasons) <==>
            Trusted(t, q) && !t.partial && !t.degraded && NothingApplies(t, q.tuple.remote)
  {
    hide Applies, IsChosen, IsAmbiguous, Identity, AllOutputs, ForwardOutputs, RouteReasons, SocketReasons, Relation;
  }

  /** The outputs the attribution considers are those of every best route that forwards. */
  lemma PossibleAreForwardOutputs(t: Topology, q: Query, less: U.IdentityOrder, c: Context)
    requires Attributes(t, q, less, c) && Trusted(t, q)
    ensures c.possible == AllOutputs(t, q.tuple.remote)
  {
    hide Applies, Better, Identity, ForwardOutputs, Conclude;
    var remote := q.tuple.remote;
    if NothingApplies(t, remote) {
      assert AllOutputs(t, remote) == {};
    } else {
      var (amb, all) := (IsAmbiguous(t, remote), AllOutputs(t, remote));
      var r :| IsChosen(t, remote, less, r) && c == Conclude(t, q, Identity(r), amb, if amb then all else ForwardOutputs(r));
      ConclusionInConflict(t, q, Identity(r), amb, if amb then all else ForwardOutputs(r));
      if !amb { AgreeingOutputs(t, remote, r); }
    }
  }

  lemma AgreeingOutputs(t: Topology, destination: Endpoint, r: RouteFact)
    requires !IsAmbiguous(t, destination) && IsBest(t, destination, r)
    ensures AllOutputs(t, destination) == ForwardOutputs(r)
  {
    assert r in t.routes;
    forall s | IsBest(t, destination, s)
      ensures ForwardOutputs(s) == ForwardOutputs(r)
    {
      assert SameOutput(s, r);
    }
    hide IsBest, ForwardOutputs;
  }

  /** Some best route forwards through the interface the kernel named. */
  ghost predicate ForwardsTo(t: Topology, destination: Endpoint, ifindex: nat) {
    exists r :: IsBest(t, destination, r) && Forwards(r) && ifindex in Outputs(r)
  }

  lemma ForwardsToIsOutput(t: Topology, destination: Endpoint, ifindex: nat)
    ensures ifindex in AllOutputs(t, destination) <==> ForwardsTo(t, destination, ifindex)
  {
    hide Better, Outputs;
    if ForwardsTo(t, destination, ifindex) {
      var r :| IsBest(t, destination, r) && Forwards(r) && ifindex in Outputs(r);
      assert r in t.routes && ifindex in ForwardOutputs(r);
    }
  }

  /**
   * A conflict is reported exactly when the kernel named an interface and no best route forwards through it. Routes that
   * do not forward, such as local ones, count for nothing here even if they name that very interface.
   */
  lemma ConflictIff(t: Topology, q: Query, less: U.IdentityOrder, c: Context)
    requires Attributes(t, q, less, c)
    ensures I.Conflicting(c.status, c.reasons) <==>
            && Trusted(t, q) && !NothingApplies(t, q.tuple.remote) && Diagnosed(q) != 0
            && !ForwardsTo(t, q.tuple.remote, Diagnosed(q))
  {
    hide Applies, IsChosen, IsAmbiguous, Identity, AllOutputs, ForwardOutputs, Conclude, ForwardsTo;
    var remote := q.tuple.remote;
    if Trusted(t, q) {
      PossibleAreForwardOutputs(t, q, less, c);
      ForwardsToIsOutput(t, remote, Diagnosed(q));
      if !NothingApplies(t, remote) {
        var (amb, all) := (IsAmbiguous(t, remote), AllOutputs(t, remote));
        var r :| IsChosen(t, remote, less, r) && c == Conclude(t, q, Identity(r), amb, if amb then all else ForwardOutputs(r));
        ConclusionInConflict(t, q, Identity(r), amb, if amb then all else ForwardOutputs(r));
      }
    }
  }

  /** Some best route of whatever type uses the interface. */
  ghost predicate UsedByBest(t: Topology, destination: Endpoint, ifindex: nat) {
    exists r :: IsBest(t, destination, r) && ifindex in Outputs(r)
  }

  /**
   * A conflict therefore says that no best route uses the interface exactly when the interface is not used by routes
   * that do not forward only.
   */
  lemma ConflictMeansUnusedIff(t: Topology, q: Query, less: U.IdentityOrder, c: Context)
    requires Attributes(t, q, less, c)
    requires Trusted(t, q) && !NothingApplies(t, q.tuple.remote) && Diagnosed(q) != 0
    ensures (I.Conflicting(c.status, c.reasons) <==> !UsedByBest(t, q.tuple.remote, Diagnosed(q))) <==>
            (UsedByBest(t, q.tuple.remote, Diagnosed(q)) ==> ForwardsTo(t, q.tuple.remote, Diagnosed(q)))
  {
    ConflictIff(t, q, less, c);
    hide IsBest, Outputs, Attributes, NothingApplies;
  }

  // ---------- A local route ----------

  /** One local route through an interface, and a socket the kernel sees on that interface. */
  lemma LocalRouteConflicts(t: Topology, q: Query, less: U.IdentityOrder, c: Context, r: RouteFact, ifindex: nat)
    requires t.routes == [r] && r.typ == LOCAL && r.output == Some(ifindex) && ifindex != 0
    requires Attributes(t, q, less, c) && Trusted(t, q) && Applies(t, q.tuple.remote, r) && q.diag == Some(ifindex)
    ensures I.Conflicting(c.status, c.reasons) && UsedByBest(t, q.tuple.remote, ifindex)
  {
    var remote := q.tuple.remote;
    assert forall s :: Applies(t, remote, s) ==> s == r;
    ConflictIff(t, q, less, c);
    hide Applies, Attributes;
    assert IsBest(t, remote, r);
  }

  lemma ConclusionInConflict(t: Topology, q: Query, r: RouteFact, ambiguous: bool, outputs: set<nat>)
    ensures var c := Conclude(t, q, r, ambiguous, outputs);
            && c.possible == outputs && c.status != RouteUnavailable
            && (DiagIfindexConflicts in c.reasons <==> Diagnosed(q) != 0 && Diagnosed(q) !in outputs)
            && (c.status == RouteAvailable ==> DiagIfindexConflicts !in c.reasons)
  {
    hide LocalAgrees, Relation, Sole, HasGatewayHop;
    assert DiagIfindexConflicts !in Opening(t, q) && DiagIfindexConflicts !in RouteReasons(r, outputs);
    assert DiagIfindexConflicts in SocketReasons(t, q, r, outputs) <==> Diagnosed(q) != 0 && Diagnosed(q) !in outputs;
    hide Opening, RouteReasons, SocketReasons;
  }

  /** No applicable route has a longer prefix; of those as long none is in a better table; of those none has a lower priority. */
  lemma BestIsPreferred(t: Topology, destination: Endpoint, r: RouteFact, s: RouteFact)
    requires IsBest(t, destination, r) && Applies(t, destination, s)
    ensures s.prefix <= r.prefix
    ensures s.prefix == r.prefix && s.table == U.TABLE_MAIN ==> r.table == U.TABLE_MAIN
    ensures s.prefix == r.prefix && s.table == U.TABLE_DEFAULT ==> r.table == U.TABLE_MAIN || r.table == U.TABLE_DEFAULT
    ensures s.prefix == r.prefix && TableRank(s.table) == TableRank(r.table) ==> r.priority <= s.priority
  {
    hide Applies;
    assert !Better(s, r);
  }

  /** What the remaining statuses mean, and how the result relates to the uplink. */
  lemma StatusMeans(t: Topology, q: Query, less: U.IdentityOrder, c: Context)
    requires Attributes(t, q, less, c)
    ensures c.status == RouteUnavailable <==> !Trusted(t, q) || NothingApplies(t, q.tuple.remote)
    ensures c.status == RouteAmbiguous <==>
            Trusted(t, q) && !NothingApplies(t, q.tuple.remote) && IsAmbiguous(t, q.tuple.remote)
    ensures c.relationship == MatchesUplink <==> c.selected.Some? && c.selected == q.uplink
    ensures c.relationship == DifferentUplink ==> q.uplink.Some? && q.uplink.value !in c.possible
    ensures c.relationship == PossibleUplink ==> q.uplink.Some? && q.uplink.value in c.possible && c.selected.None?
  {
    hide Applies, IsChosen, IsAmbiguous, Identity, AllOutputs, ForwardOutputs, Conclude;
    var remote := q.tuple.remote;
    if Trusted(t, q) && !NothingApplies(t, remote) {
      var (amb, all) := (IsAmbiguous(t, remote), AllOutputs(t, remote));
      var r :| IsChosen(t, remote, less, r) && c == Conclude(t, q, Identity(r), amb, if amb then all else ForwardOutputs(r));
      ConclusionRelates(t, q, Identity(r), amb, if amb then all else ForwardOutputs(r));
    }
  }

  lemma ConclusionRelates(t: Topology, q: Query, r: RouteFact, ambiguous: bool, outputs: set<nat>)
    ensures var c := Conclude(t, q, r, ambiguous, outputs);
            && c.status != RouteUnavailable && (c.status == RouteAmbiguous <==> ambiguous)
            && (c.relationship == MatchesUplink <==> c.selected.Some? && c.selected == q.uplink)
            && (c.relationship == DifferentUplink ==> q.uplink.Some? && q.uplink.value !in c.possible)
            && (c.relationship == PossibleUplink ==> q.uplink.Some? && q.uplink.value in c.possible && c.selected.None?)
  {
    hide Opening, RouteReasons, SocketReasons;
  }

  // ---------- The interfaces listed ----------

  lemma HasMember(s: seq<nat>)
    requires s != []
    ensures exists i :: i in s
  {
    assert s[0] in s;
  }

  lemma {:induction false} AscendingUnique(a: seq<nat>, b: seq<nat>)
    requires Ascending(a) && Ascending(b) && forall i :: i in a <==> i in b
    ensures a == b
  {
    if a != [] { HasMember(a); }
    if b != [] { HasMember(b); }
    if a != [] {
      assert a[0] in b && b[0] in a;
      assert a[0] == b[0];
      assert a == [a[0]] + a[1..] && b == [b[0]] + b[1..];
      forall i
        ensures i in a[1..] <==> i in b[1..]
      {
        assert i in a[1..] <==> i in a && i != a[0];
        assert i in b[1..] <==> i in b && i != b[0];
      }
      AscendingUnique(a[1..], b[1..]);
    }
  }

  /** There is one way to list the possible interfaces, each once. */
  lemma ListingUnique(t: Topology, possible: set<nat>, list: seq<InterfaceId>, other: seq<InterfaceId>)
    requires Lists(t, possible, list) && Lists(t, possible, other)
    ensures list == other && |list| == |possible|
  {
    var a :| ListedAs(t, possible, list, a);
    var b :| ListedAs(t, possible, other, b);
    AscendingUnique(a, b);
    OrderSize(a, possible);
  }

  lemma {:induction false} OrderSize(order: seq<nat>, s: set<nat>)
    requires Ascending(order) && forall i :: i in order <==> i in s
    ensures |order| == |s|
  {
    if order != [] {
      assert order == [order[0]] + order[1..];
      assert order[0] in s && order[0] !in order[1..];
      OrderSize(order[1..], s - {order[0]});
    } else {
      assert s == {};
    }
  }
}
