/** The passes of the attributor: collect, keep the longest prefixes, keep the best rank, compare, choose. */
module SocketRouteAttributor {
  import opened Entities
  import opened KeyOrder
  import opened TopologyModel
  import opened Attribution
  import U = UplinkPolicy

  method CollectApplicable(t: Topology, destination: Endpoint) returns (found: seq<RouteFact>)
    ensures forall r :: r in found <==> Applies(t, destination, r)
  {
    hide PrefixHit, KnownType;
    found := [];
    for i := 0 to |t.routes|
      invariant forall r :: r in found <==> r in t.routes[..i] && Applies(t, destination, r)
    {
      var r := t.routes[i];
      assert t.routes[..i + 1] == t.routes[..i] + [r];
      var hit := PrefixMatches(destination, r);
      if r.present && r.netns == t.netns && SupportedFamily(r.family) && hit && KnownType(r.typ) { found := found + [r]; }
    }
    assert t.routes[..|t.routes|] == t.routes;
  }

  method LongestPrefix(found: seq<RouteFact>) returns (prefix: nat)
    requires found != []
    ensures (exists r :: r in found && r.prefix == prefix) && forall r :: r in found ==> r.prefix <= prefix
  {
    prefix := found[0].prefix;
    for i := 1 to |found|
      invariant (exists j :: 0 <= j < i && found[j].prefix == prefix) && forall j :: 0 <= j < i ==> found[j].prefix <= prefix
    {
      if found[i].prefix > prefix { prefix := found[i].prefix; }
    }
  }

  method WithPrefix(found: seq<RouteFact>, prefix: nat) returns (kept: seq<RouteFact>)
    ensures forall r :: r in kept <==> r in found && r.prefix == prefix
  {
    kept := [];
    for i := 0 to |found|
      invariant forall r :: r in kept <==> r in found[..i] && r.prefix == prefix
    {
      assert found[..i + 1] == found[..i] + [found[i]];
      if found[i].prefix == prefix { kept := kept + [found[i]]; }
    }
    assert found[..|found|] == found;
  }

  predicate RankBefore(a: RouteFact, b: RouteFact) {
    if TableRank(a.table) != TableRank(b.table) then TableRank(a.table) < TableRank(b.table) else a.priority < b.priority
  }

  predicate SameRank(a: RouteFact, b: RouteFact) {
    TableRank(a.table) == TableRank(b.table) && a.priority == b.priority
  }

  method BestRanked(found: seq<RouteFact>) returns (best: RouteFact)
    requires found != []
    ensures best in found && forall r :: r in found ==> !RankBefore(r, best)
  {
    best := found[0];
    for i := 1 to |found|
      invariant best in found && forall j :: 0 <= j < i ==> !RankBefore(found[j], best)
    {
      if RankBefore(found[i], best) { best := found[i]; }
    }
  }

  method WithRank(found: seq<RouteFact>, best: RouteFact) returns (kept: seq<RouteFact>)
    ensures forall r :: r in kept <==> r in found && SameRank(r, best)
  {
    hide SameRank;
    kept := [];
    for i := 0 to |found|
      invariant forall r :: r in kept <==> r in found[..i] && SameRank(r, best)
    {
      assert found[..i + 1] == found[..i] + [found[i]];
      if SameRank(found[i], best) { kept := kept + [found[i]]; }
    }
    assert found[..|found|] == found;
  }

  /** Filtering by the longest prefix and then by the best rank leaves exactly the routes no other beats. */
  method BestRoutes(t: Topology, destination: Endpoint, found: seq<RouteFact>) returns (best: seq<RouteFact>)
    requires found != [] && forall r :: r in found <==> Applies(t, destination, r)
    ensures best != [] && forall r :: r in best <==> IsBest(t, destination, r)
  {
    hide Applies;
    var prefix := LongestPrefix(found);
    var longest := WithPrefix(found, prefix);
    var first := BestRanked(longest);
    best := WithRank(longest, first);
    assert first in best;
    forall r
      ensures r in best <==> IsBest(t, destination, r)
    {
      if r in best {
        forall s | Applies(t, destination, s)
          ensures !Better(s, r)
        {
          assert s in found;
          if s.prefix == prefix { assert s in longest; }
        }
      }
      if IsBest(t, destination, r) {
        assert r in found && first in found;
        assert !Better(first, r);
        assert r in longest;
      }
    }
  }

  method CheckAmbiguous(best: seq<RouteFact>) returns (ambiguous: bool)
    requires best != []
    ensures ambiguous <==> exists a, b :: a in best && b in best && !SameOutput(a, b)
  {
    hide Outputs;
    for i := 1 to |best|
      invariant forall j :: 0 <= j < i ==> SameOutput(best[0], best[j])
    {
      if !SameOutput(best[0], best[i]) {
        assert best[0] in best && best[i] in best;
        return true;
      }
    }
    forall a, b | a in best && b in best
      ensures SameOutput(a, b)
    {
      var i :| 0 <= i < |best| && best[i] == a;
      var j :| 0 <= j < |best| && best[j] == b;
      assert SameOutput(best[0], best[i]) && SameOutput(best[0], best[j]);
    }
    ambiguous := false;
  }

  method FirstIdentity(best: seq<RouteFact>, less: U.IdentityOrder) returns (first: RouteFact)
    requires U.StrictTotal(less) && best != []
    ensures first in best && forall r :: r in best ==> !less(Identity(r), Identity(first))
  {
    hide Identity;
    first := best[0];
    for i := 1 to |best|
      invariant first in best && forall j :: 0 <= j < i ==> !less(Identity(best[j]), Identity(first))
    {
      if less(Identity(best[i]), Identity(first)) {
        assert forall x :: !less(x, Identity(first)) ==> !less(x, Identity(best[i]));
        first := best[i];
      }
    }
  }

  method UnionOfOutputs(best: seq<RouteFact>) returns (outputs: set<nat>)
    ensures forall i :: i in outputs <==> exists r :: r in best && i in ForwardOutputs(r)
  {
    hide ForwardOutputs;
    outputs := {};
    for k := 0 to |best|
      invariant forall i :: i in outputs <==> exists r :: r in best[..k] && i in ForwardOutputs(r)
    {
      assert best[..k + 1] == best[..k] + [best[k]];
      outputs := outputs + ForwardOutputs(best[k]);
    }
    assert best[..|best|] == best;
  }

  lemma NothingListed(t: Topology)
    ensures ListedAs(t, {}, [], [])
  {
  }

  lemma ListsNext(t: Topology, done: set<nat>, list: seq<InterfaceId>, order: seq<nat>, i: nat)
    requires ListedAs(t, done, list, order) && forall j :: j in order ==> j < i
    ensures ListedAs(t, done + {i}, list + [InterfaceFor(t, i)], order + [i])
  {
    hide InterfaceFor;
    var next := order + [i];
    assert forall j :: 0 <= j < |order| ==> next[j] == order[j] && order[j] in order;
  }

  method ListInterfaces(t: Topology, possible: set<nat>) returns (list: seq<InterfaceId>)
    ensures Lists(t, possible, list)
  {
    hide InterfaceFor, ListedAs;
    list := [];
    ghost var order := [];
    NothingListed(t);
    assert possible - possible == {};
    var rest := possible;
    while rest != {}
      invariant rest <= possible && ListedAs(t, possible - rest, list, order)
      invariant forall i, j :: i in order && j in rest ==> i < j
      decreases rest
    {
      NumberOrder();
      FirstExists(rest, NumberLess);
      hide TotalOrder;
      var i :| i in rest && IsFirst(i, rest, NumberLess);
      ListsNext(t, possible - rest, list, order, i);
      list, order := list + [InterfaceFor(t, i)], order + [i];
      assert possible - (rest - {i}) == possible - rest + {i};
      rest := rest - {i};
    }
    assert possible - {} == possible;
  }

  /** The attribution, and the possible interfaces as they are reported. */
  method Attribute(t: Topology, q: Query, less: U.IdentityOrder) returns (c: Context, interfaces: seq<InterfaceId>)
    requires U.StrictTotal(less)
    ensures Attributes(t, q, less, c)
    ensures Lists(t, c.possible, interfaces)
  {
    c := Resolve(t, q, less);
    interfaces := ListInterfaces(t, c.possible);
  }

  method Resolve(t: Topology, q: Query, less: U.IdentityOrder) returns (c: Context)
    requires U.StrictTotal(less)
    ensures Attributes(t, q, less, c)
  {
    hide Applies, Better, Identity, ForwardOutputs, Conclude, Unmatched, Untrusted, SameOutput, U.StrictTotal;
    var remote := q.tuple.remote;
    if q.tuple.netns != t.netns || !t.authoritative { return Untrusted(t, q); }
    var found := CollectApplicable(t, remote);
    if found == [] { return Unmatched(t, q); }
    assert Applies(t, remote, found[0]) by { assert found[0] in found; }
    var best := BestRoutes(t, remote, found);
    hide IsBest;
    var ambiguous := CheckAmbiguous(best);
    assert ambiguous <==> IsAmbiguous(t, remote);
    var route := FirstIdentity(best, less);
    var outputs := ForwardOutputs(route);
    if ambiguous {
      outputs := UnionOfOutputs(best);
      BestAreRoutes(t, remote);
      assert outputs == AllOutputs(t, remote);
    }
    c := Conclude(t, q, Identity(route), ambiguous, outputs);
    assert IsChosen(t, remote, less, route);
  }

  lemma BestAreRoutes(t: Topology, destination: Endpoint)
    ensures forall r :: IsBest(t, destination, r) ==> r in t.routes
  {
  }
}
