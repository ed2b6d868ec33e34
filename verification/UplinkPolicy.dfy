/** Which default route is the uplink, as a minimum over all usable candidates. */
module UplinkPolicy {
  import opened Entities
  import opened TopologyModel

  const UNICAST := 1
  const TABLE_MAIN := 254
  const TABLE_DEFAULT := 253
  const OPER_NOT_PRESENT := 1
  const OPER_DOWN := 2
  const FLAG_UP: bv32 := 1
  const FLAG_LOOPBACK: bv32 := 8

  predicate LinkUsable(l: LinkFact) {
    && l.present && l.flags & FLAG_UP != 0 && l.flags & FLAG_LOOPBACK == 0
    && l.operState != OPER_DOWN && l.operState != OPER_NOT_PRESENT && (!l.carrierKnown || l.carrier != 0)
  }

  /** A route together with one interface it would use. */
  datatype Candidate = Candidate(route: RouteFact, ifindex: nat, multipath: bool)

  datatype Evidence = Evidence(table: nat, priority: nat, ipv4: bool, ifindex: nat, viaGateway: bool, multipath: bool)

  datatype Selection = Selection(
    interface: Option<InterfaceId>, ipv4: bool, ipv6: bool, validity: Validity, evidence: Option<Evidence>)

  predicate Eligible(t: Topology, r: RouteFact) {
    && r.netns == t.netns && r.present && r.prefix == 0 && r.typ == UNICAST
    && (r.table == TABLE_MAIN || r.table == TABLE_DEFAULT)
  }

  predicate UsableIn(t: Topology, ifindex: nat) {
    ifindex in t.links && t.links[ifindex].netns == t.netns && LinkUsable(t.links[ifindex])
  }

  predicate Through(r: RouteFact, ifindex: nat, multipath: bool) {
    if r.multipath != [] then multipath && exists i :: 0 <= i < |r.multipath| && r.multipath[i].ifindex == ifindex
    else !multipath && r.output == Some(ifindex)
  }

  predicate IsCandidate(t: Topology, c: Candidate) {
    c.route in t.routes && Eligible(t, c.route) && UsableIn(t, c.ifindex) && Through(c.route, c.ifindex, c.multipath)
  }

  // ---------- The ranking ----------

  /** Printed identities are compared as text; all that matters is that this is some strict total order. */
  type IdentityOrder = (RouteFact, RouteFact) -> bool

  ghost predicate StrictTotal(less: IdentityOrder) {
    && (forall a :: !less(a, a))
    && (forall a, b, c :: less(a, b) && less(b, c) ==> less(a, c))
    && (forall a, b :: a != b ==> less(a, b) || less(b, a))
  }

  function TableRank(c: Candidate): nat {
    if c.route.table == TABLE_MAIN then 0 else 1
  }

  function FamilyRank(c: Candidate): nat {
    if c.route.family == AF_INET then 0 else 1
  }

  function MultipathRank(c: Candidate): nat {
    if c.multipath then 1 else 0
  }

  predicate Before(a: Candidate, b: Candidate, less: IdentityOrder) {
    if TableRank(a) != TableRank(b) then TableRank(a) < TableRank(b)
    else if a.route.priority != b.route.priority then a.route.priority < b.route.priority
    else if FamilyRank(a) != FamilyRank(b) then FamilyRank(a) < FamilyRank(b)
    else if MultipathRank(a) != MultipathRank(b) then MultipathRank(a) < MultipathRank(b)
    else if a.ifindex != b.ifindex then a.ifindex < b.ifindex
    else less(Identity(a.route), Identity(b.route))
  }

  ghost predicate IsChosen(t: Topology, c: Candidate, less: IdentityOrder) {
    IsCandidate(t, c) && forall d :: IsCandidate(t, d) ==> !Before(d, c, less)
  }

  ghost predicate AnyOf(t: Topology, family: nat) {
    exists c :: IsCandidate(t, c) && c.route.family == family
  }

  ghost predicate NoCandidate(t: Topology) {
    forall c :: !IsCandidate(t, c)
  }

  function EvidenceOf(c: Candidate): Evidence {
    Evidence(c.route.table, c.route.priority, c.route.family == AF_INET, c.ifindex, c.route.gateway.Some?, c.multipath)
  }

  /** What the selection is of a topology. */
  ghost predicate Selects(t: Topology, less: IdentityOrder, r: Selection) {
    && r.ipv4 == AnyOf(t, AF_INET) && r.ipv6 == AnyOf(t, AF_INET6)
    && if NoCandidate(t) then
         && r.interface.None? && r.evidence.None?
         && r.validity == if t.authoritative && !t.partial && !t.degraded then Unavailable else Stale
       else exists c :: IsChosen(t, c, less) && Follows(t, c, r)
  }

  predicate Follows(t: Topology, c: Candidate, r: Selection) {
    && UsableIn(t, c.ifindex) && r.interface == Some(InterfaceId(t.links[c.ifindex].ifindex, t.links[c.ifindex].name))
    && r.validity == (if c.multipath then Validity.Partial else Valid) && r.evidence == Some(EvidenceOf(c))
  }

  // ---------- The selection is determined ----------

  lemma ChosenAgree(t: Topology, less: IdentityOrder, c: Candidate, d: Candidate)
    requires StrictTotal(less) && IsChosen(t, c, less) && IsChosen(t, d, less)
    ensures c.ifindex == d.ifindex && c.multipath == d.multipath && Identity(c.route) == Identity(d.route)
  {
    hide Identity;
    assert !Before(c, d, less) && !Before(d, c, less);
  }

  lemma SelectionUnique(t: Topology, less: IdentityOrder, r: Selection, s: Selection)
    requires StrictTotal(less) && Selects(t, less, r) && Selects(t, less, s)
    ensures r == s
  {
    if !NoCandidate(t) {
      var c :| IsChosen(t, c, less) && Follows(t, c, r);
      var d :| IsChosen(t, d, less) && Follows(t, d, s);
      ChosenAgree(t, less, c, d);
      assert EvidenceOf(c) == EvidenceOf(d);
    }
  }

  predicate SameRoutes(a: seq<RouteFact>, b: seq<RouteFact>) {
    (forall r :: r in a ==> r in b) && (forall r :: r in b ==> r in a)
  }

  lemma SameCandidates(t: Topology, routes: seq<RouteFact>, c: Candidate)
    requires SameRoutes(t.routes, routes)
    ensures IsCandidate(t.(routes := routes), c) == IsCandidate(t, c)
  {
  }

  lemma SameSelection(t: Topology, routes: seq<RouteFact>, less: IdentityOrder, r: Selection)
    requires SameRoutes(t.routes, routes) && Selects(t, less, r)
    ensures Selects(t.(routes := routes), less, r)
  {
    var u := t.(routes := routes);
    forall c
      ensures IsCandidate(u, c) == IsCandidate(t, c)
    {
      SameCandidates(t, routes, c);
    }
    hide IsCandidate, Before;
    if !NoCandidate(t) {
      var c :| IsChosen(t, c, less) && Follows(t, c, r);
      assert IsChosen(u, c, less) && Follows(u, c, r);
    }
  }

  /** The order in which the routes are stored makes no difference. */
  lemma SelectionIgnoresRouteOrder(t: Topology, routes: seq<RouteFact>, less: IdentityOrder, r: Selection, s: Selection)
    requires StrictTotal(less) && SameRoutes(t.routes, routes)
    requires Selects(t, less, r) && Selects(t.(routes := routes), less, s)
    ensures r == s
  {
    hide Selects, StrictTotal;
    SameSelection(t, routes, less, r);
    SelectionUnique(t.(routes := routes), less, r, s);
  }

  /** The degraded mark matters only where nothing can be selected from an otherwise trustworthy topology. */
  lemma DegradedMattersIff(t: Topology, less: IdentityOrder, r: Selection)
    requires Selects(t.(degraded := false), less, r)
    ensures Selects(t, less, r) <==> !(t.degraded && t.authoritative && !t.partial && NoCandidate(t))
  {
    var u := t.(degraded := false);
    assert forall c :: IsCandidate(u, c) == IsCandidate(t, c);
    hide IsCandidate, Before;
    if !NoCandidate(t) {
      var c :| IsChosen(u, c, less) && Follows(u, c, r);
      assert IsChosen(t, c, less) && Follows(t, c, r);
    }
  }

  // ---------- The scan of the source ----------

  method CollectCandidates(t: Topology) returns (found: seq<Candidate>)
    ensures forall c :: c in found <==> IsCandidate(t, c)
  {
    found := [];
    for i := 0 to |t.routes|
      invariant forall c :: c in found <==> IsCandidate(t.(routes := t.routes[..i]), c)
    {
      var r := t.routes[i];
      assert t.routes[..i + 1] == t.routes[..i] + [r];
      if Eligible(t, r) {
        var more := CandidatesOf(t, r);
        found := found + more;
      }
    }
    assert t.routes[..|t.routes|] == t.routes;
  }

  method CandidatesOf(t: Topology, r: RouteFact) returns (found: seq<Candidate>)
    ensures forall c :: c in found <==> c.route == r && UsableIn(t, c.ifindex) && Through(r, c.ifindex, c.multipath)
  {
    hide LinkUsable;
    found := [];
    if r.multipath != [] {
      for i := 0 to |r.multipath|
        invariant forall c :: c in found <==>
                    c.route == r && UsableIn(t, c.ifindex) && c.multipath
                    && exists j :: 0 <= j < i && r.multipath[j].ifindex == c.ifindex
      {
        if UsableIn(t, r.multipath[i].ifindex) { found := found + [Candidate(r, r.multipath[i].ifindex, true)]; }
      }
    } else if r.output.Some? && UsableIn(t, r.output.value) {
      found := [Candidate(r, r.output.value, false)];
    }
  }

  lemma BeforeTransitive(a: Candidate, b: Candidate, c: Candidate, less: IdentityOrder)
    requires StrictTotal(less) && !Before(b, a, less) && !Before(c, b, less)
    ensures !Before(c, a, less)
  {
    hide Identity;
    assert forall x, y, z :: !less(y, x) && !less(z, y) ==> !less(z, x);
  }

  method FirstRanked(found: seq<Candidate>, less: IdentityOrder) returns (best: Candidate)
    requires StrictTotal(less) && found != []
    ensures best in found && forall c :: c in found ==> !Before(c, best, less)
  {
    best := found[0];
    for i := 1 to |found|
      invariant best in found && forall j :: 0 <= j < i ==> !Before(found[j], best, less)
    {
      ghost var was := best;
      if Before(found[i], best, less) { best := found[i]; }
      forall j | 0 <= j < i + 1
        ensures !Before(found[j], best, less)
      {
        if best != was && j < i {
          assert !Before(was, found[i], less) by { BeforeAsymmetric(found[i], was, less); }
          BeforeTransitive(best, was, found[j], less);
        }
      }
    }
  }

  lemma BeforeAsymmetric(a: Candidate, b: Candidate, less: IdentityOrder)
    requires StrictTotal(less)
    ensures !(Before(a, b, less) && Before(b, a, less))
  {
    hide Identity;
  }

  method Select(t: Topology, less: IdentityOrder) returns (r: Selection)
    requires StrictTotal(less)
    ensures Selects(t, less, r)
  {
    hide IsCandidate, StrictTotal, Before;
    var found := CollectCandidates(t);
    var (ipv4, ipv6) := (false, false);
    for i := 0 to |found|
      invariant ipv4 == exists j :: 0 <= j < i && found[j].route.family == AF_INET
      invariant ipv6 == exists j :: 0 <= j < i && found[j].route.family == AF_INET6
    {
      ipv4 := ipv4 || found[i].route.family == AF_INET;
      ipv6 := ipv6 || found[i].route.family == AF_INET6;
    }
    FamiliesFound(t, found);
    if found == [] {
      var sure := t.authoritative && !t.partial && !t.degraded;
      return Selection(None, ipv4, ipv6, if sure then Unavailable else Stale, None);
    }
    var best := FirstRanked(found, less);
    assert IsChosen(t, best, less) && UsableIn(t, best.ifindex) by { CandidateUsable(t, best); }
    var link := t.links[best.ifindex];
    r := Selection(Some(InterfaceId(link.ifindex, link.name)), ipv4, ipv6, if best.multipath then Validity.Partial else Valid,
                   Some(EvidenceOf(best)));
    assert Follows(t, best, r);
  }

  lemma CandidateUsable(t: Topology, c: Candidate)
    ensures IsCandidate(t, c) ==> UsableIn(t, c.ifindex)
  {
  }

  lemma FamiliesFound(t: Topology, found: seq<Candidate>)
    requires forall c :: c in found <==> IsCandidate(t, c)
    ensures forall family :: AnyOf(t, family) <==> exists j :: 0 <= j < |found| && found[j].route.family == family
    ensures found == [] <==> NoCandidate(t)
  {
    hide IsCandidate;
    if found != [] { assert found[0] in found; }
    forall family
      ensures AnyOf(t, family) <==> exists j :: 0 <= j < |found| && found[j].route.family == family
    {
      if j :| 0 <= j < |found| && found[j].route.family == family { assert found[j] in found; }
    }
  }

  /** The chosen candidate is preferred at every stage of the ranking among those that tie at the stages before. */
  lemma ChosenIsPreferred(t: Topology, less: IdentityOrder, c: Candidate, d: Candidate)
    requires IsChosen(t, c, less) && IsCandidate(t, d)
    ensures d.route.table == TABLE_MAIN ==> c.route.table == TABLE_MAIN
    ensures c.route.table == d.route.table ==> c.route.priority <= d.route.priority
    ensures c.route.table == d.route.table && c.route.priority == d.route.priority && d.route.family == AF_INET ==>
              c.route.family == AF_INET
    ensures c.route.table == d.route.table && c.route.priority == d.route.priority && c.route.family == d.route.family ==>
              (c.multipath ==> d.multipath) && (c.multipath == d.multipath ==> c.ifindex <= d.ifindex)
  {
    hide Identity;
    assert !Before(d, c, less);
  }
}
