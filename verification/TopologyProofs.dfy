/** What every message keeps, and what a route delete can do. */
module TopologyProofs {
  import opened Entities
  import opened TopologyModel

  // ---------- Sorting nexthops ----------

  lemma {:induction false} BytesTotal(a: seq<bv8>, b: seq<bv8>)
    requires |a| == |b|
    ensures a != b ==> (BytesLess(a, b) <==> !BytesLess(b, a))
    ensures !BytesLess(a, a)
  {
    if a != [] {
      BytesTotal(a[1..], b[1..]);
      BytesTotal(a[1..], a[1..]);
      assert a == [a[0]] + a[1..] && b == [b[0]] + b[1..];
    }
  }

  lemma {:induction false} BytesTransitive(a: seq<bv8>, b: seq<bv8>, c: seq<bv8>)
    requires |a| == |b| == |c| && BytesLess(a, b) && BytesLess(b, c)
    ensures BytesLess(a, c)
  {
    if a[0] == b[0] && b[0] == c[0] { BytesTransitive(a[1..], b[1..], c[1..]); }
  }

  lemma HopTotal(a: Nexthop, b: Nexthop)
    ensures a != b ==> (HopLess(a, b) <==> !HopLess(b, a))
    ensures !HopLess(a, a)
  {
    BytesTotal(a.gateway, b.gateway);
  }

  lemma HopTransitive(a: Nexthop, b: Nexthop, c: Nexthop)
    requires HopLess(a, b) && HopLess(b, c)
    ensures HopLess(a, c)
  {
    if a.ifindex == b.ifindex == c.ifindex {
      if a.gateway != b.gateway && b.gateway != c.gateway {
        BytesTransitive(a.gateway, b.gateway, c.gateway);
        BytesTotal(a.gateway, c.gateway);
        BytesTotal(a.gateway, b.gateway);
      }
    }
  }

  /** "not greater" is transitive too. */
  lemma HopNotGreater(a: Nexthop, b: Nexthop, c: Nexthop)
    requires !HopLess(b, a) && !HopLess(c, b)
    ensures !HopLess(c, a)
  {
    HopTotal(a, b);
    HopTotal(b, c);
    HopTotal(a, c);
    if HopLess(a, b) && HopLess(b, c) { HopTransitive(a, b, c); }
  }

  lemma {:induction false} InsertSorts(x: Nexthop, s: seq<Nexthop>)
    requires SortedHops(s)
    ensures SortedHops(Insert(x, s)) && multiset(Insert(x, s)) == multiset(s) + multiset{x}
  {
    hide HopLess;
    if s != [] && HopLess(s[0], x) {
      InsertSorts(x, s[1..]);
      var r := Insert(x, s[1..]);
      assert s == [s[0]] + s[1..];
      forall j | 0 <= j < |r|
        ensures !HopLess(r[j], s[0])
      {
        assert r[j] in multiset(r);
        if r[j] == x { HopTotal(s[0], x); } else { assert r[j] in s[1..]; }
      }
    } else if s != [] {
      forall j | 0 <= j < |s|
        ensures !HopLess(s[j], x)
      {
        HopTotal(s[0], s[0]);
        HopNotGreater(x, s[0], s[j]);
      }
    }
  }

  lemma {:induction false} SortHopsSorts(s: seq<Nexthop>)
    ensures SortedHops(SortHops(s)) && multiset(SortHops(s)) == multiset(s)
  {
    if s != [] {
      SortHopsSorts(s[1..]);
      InsertSorts(s[0], SortHops(s[1..]));
      assert s == [s[0]] + s[1..];
    }
  }

  lemma LeastComesFirst(a: seq<Nexthop>, x: Nexthop)
    requires SortedHops(a) && x in a
    ensures !HopLess(x, a[0])
  {
    hide HopLess;
    HopTotal(a[0], a[0]);
    var i :| 0 <= i < |a| && a[i] == x;
  }

  lemma TailOf(a: seq<Nexthop>)
    requires a != []
    ensures multiset(a[1..]) == multiset(a) - multiset{a[0]}
  {
    assert a == [a[0]] + a[1..];
  }

  /** A sorted arrangement is determined by what it contains. */
  lemma {:induction false} SortedUnique(a: seq<Nexthop>, b: seq<Nexthop>)
    requires SortedHops(a) && SortedHops(b) && multiset(a) == multiset(b)
    ensures a == b
  {
    assert |a| == |multiset(a)| == |multiset(b)| == |b|;
    if a != [] {
      assert a[0] in multiset(a) && b[0] in multiset(b);
      LeastComesFirst(a, b[0]);
      LeastComesFirst(b, a[0]);
      HopTotal(a[0], b[0]);
      TailOf(a);
      TailOf(b);
      hide HopLess;
      SortedUnique(a[1..], b[1..]);
      assert a == [a[0]] + a[1..] && b == [b[0]] + b[1..];
    }
  }

  /** Listing the same nexthops in another order does not change a route's identity. */
  lemma IdentityIgnoresOrder(r: RouteFact, hops: seq<Nexthop>)
    ensures Identity(r.(multipath := hops)) == Identity(r) <==> multiset(hops) == multiset(r.multipath)
  {
    SortHopsSorts(hops);
    SortHopsSorts(r.multipath);
    if multiset(hops) == multiset(r.multipath) { SortedUnique(SortHops(hops), SortHops(r.multipath)); }
  }

  // ---------- The invariant ----------

  predicate LinksOk(t: Topology) {
    forall i :: i in t.links ==> t.links[i].ifindex == i && t.links[i].netns == t.netns && t.links[i].present
  }

  predicate AddressesOk(t: Topology) {
    && (forall i :: 0 <= i < |t.addresses| ==> t.addresses[i].netns == t.netns && t.addresses[i].present)
    && (forall i, j :: 0 <= i < j < |t.addresses| ==> !SameAddress(t.addresses[i], t.addresses[j]))
  }

  predicate RouteOk(t: Topology, r: RouteFact) {
    r.netns == t.netns && r.present && SortedHops(r.multipath)
  }

  predicate Unique(routes: seq<RouteFact>) {
    forall i, j :: 0 <= i < j < |routes| ==> Identity(routes[i]) != Identity(routes[j])
  }

  predicate RoutesOk(t: Topology) {
    (forall i :: 0 <= i < |t.routes| ==> RouteOk(t, t.routes[i])) && Unique(t.routes)
  }

  predicate TopologyOk(t: Topology) {
    LinksOk(t) && AddressesOk(t) && RoutesOk(t)
  }

  // ---------- Keeping it ----------

  /** Which positions of a sequence a filter keeps. */
  lemma {:induction false} KeepPositions<T(!new)>(s: seq<T>, p: T -> bool) returns (at: seq<nat>)
    ensures |at| == |Keep(s, p)|
    ensures forall i :: 0 <= i < |at| ==> at[i] < |s| && s[at[i]] == Keep(s, p)[i]
    ensures forall i, j :: 0 <= i < j < |at| ==> at[i] < at[j]
  {
    if s == [] {
      at := [];
    } else {
      at := KeepPositions(s[..|s| - 1], p);
      if p(s[|s| - 1]) { at := at + [|s| - 1]; }
    }
  }

  lemma KeepAddressesOk(t: Topology, p: AddressFact -> bool)
    requires AddressesOk(t)
    ensures AddressesOk(t.(addresses := Keep(t.addresses, p)))
  {
    var at := KeepPositions(t.addresses, p);
    hide SameAddress;
    var kept := Keep(t.addresses, p);
    forall i | 0 <= i < |kept|
      ensures kept[i].netns == t.netns && kept[i].present
    {
      assert t.addresses[at[i]] == kept[i];
    }
    forall i, j | 0 <= i < j < |kept|
      ensures !SameAddress(kept[i], kept[j])
    {
      assert t.addresses[at[i]] == kept[i] && t.addresses[at[j]] == kept[j];
    }
  }

  lemma KeepRoutesOk(t: Topology, p: RouteFact -> bool)
    requires RoutesOk(t)
    ensures RoutesOk(t.(routes := Keep(t.routes, p)))
  {
    var at := KeepPositions(t.routes, p);
    hide Identity, SortedHops;
    var kept := Keep(t.routes, p);
    forall i | 0 <= i < |kept|
      ensures RouteOk(t, kept[i])
    {
      assert t.routes[at[i]] == kept[i];
    }
    forall i, j | 0 <= i < j < |kept|
      ensures Identity(kept[i]) != Identity(kept[j])
    {
      assert t.routes[at[i]] == kept[i] && t.routes[at[j]] == kept[j];
    }
  }

  lemma LinkKeepsOk(t: Topology, f: LinkFact)
    requires TopologyOk(t)
    ensures TopologyOk(ApplyLink(t, f).0)
  {
    KeepAddressesOk(t, (a: AddressFact) => a.ifindex != f.ifindex);
    KeepRoutesOk(t, (r: RouteFact) => !Uses(r, f.ifindex));
    hide Keep, SameAddress, Unique, SortedHops, Uses, LinkDiffers;
  }

  lemma AddressKeepsOk(t: Topology, f: AddressFact)
    requires TopologyOk(t)
    ensures TopologyOk(ApplyAddress(t, f).0)
  {
    hide Unique, SortedHops;
    var i := FindAddress(t.addresses, f);
    if f.netns == t.netns && f.present && i == |t.addresses| {
      assert AddressesOk(t.(addresses := t.addresses + [f]));
    }
  }

  lemma RemoveRouteOk(t: Topology, i: nat)
    requires RoutesOk(t) && i < |t.routes|
    ensures RoutesOk(t.(routes := RemoveAt(t.routes, i)))
  {
    hide Identity, SortedHops;
  }

  lemma AddRouteOk(t: Topology, f: RouteFact)
    requires RoutesOk(t) && RouteOk(t, f) && !HasIdentity(t.routes, f)
    ensures RoutesOk(t.(routes := t.routes + [f]))
  {
    hide Identity, SortedHops;
  }

  lemma RouteKeepsOk(t: Topology, given: RouteFact)
    requires TopologyOk(t)
    ensures TopologyOk(ApplyRoute(t, given).0)
  {
    var f := given.(multipath := SortHops(given.multipath));
    SortHopsSorts(given.multipath);
    hide AddressesOk, LinksOk, SortedHops, Unique, Names, Identity, SortHops;
    if f.netns == t.netns {
      if !f.present {
        var m := Matching(t.routes, f);
        if |m| == 1 {
          assert m[0] in m;
          RemoveRouteOk(t, m[0]);
        }
      } else if !HasIdentity(t.routes, f) {
        AddRouteOk(t, f);
      }
    }
    OthersUntouched(t, ApplyRoute(t, given).0);
  }

  lemma OthersUntouched(t: Topology, u: Topology)
    requires t.netns == u.netns && t.links == u.links && t.addresses == u.addresses
    ensures LinksOk(t) == LinksOk(u) && AddressesOk(t) == AddressesOk(u)
  {
  }

  /**
   * From an empty topology on, routes keep distinct identities and addresses distinct keys, nexthops stay sorted, and
   * every fact is present and of this namespace.
   */
  lemma ApplyKeepsOk(t: Topology, m: Message)
    requires TopologyOk(t)
    ensures TopologyOk(Apply(t, m).0)
    ensures var u := Apply(t, m).0; u == t.(links := u.links, addresses := u.addresses, routes := u.routes)
  {
    hide TopologyOk;
    match m {
      case LinkMessage(f) => LinkKeepsOk(t, f);
      case AddressMessage(f) => AddressKeepsOk(t, f);
      case RouteMessage(f) => RouteKeepsOk(t, f);
      case OtherMessage =>
    }
  }

  lemma EmptyOk(netns: NetnsId)
    ensures TopologyOk(EmptyTopology(netns))
  {
  }

  // ---------- Route deletes ----------

  predicate RemovesAt(routes: seq<RouteFact>, f: RouteFact, i: nat, left: seq<RouteFact>) {
    i < |routes| && Names(f, routes[i]) && left == RemoveAt(routes, i)
  }

  /** A delete changes the topology exactly when it names one stored route and no other; then that route is gone. */
  lemma DeleteRemovesTheOne(t: Topology, given: RouteFact)
    requires !given.present && given.netns == t.netns
    ensures var f := given.(multipath := SortHops(given.multipath));
            var (u, result) := ApplyRoute(t, given);
            && (result == Changed <==> (f.prefix == 0 || HasDestination in f.attributes) && |Matching(t.routes, f)| == 1)
            && (result == Changed ==> (exists i :: RemovesAt(t.routes, f, i, u.routes)) && forall r :: r in u.routes ==> !Names(f, r))
            && (result != Changed ==> u == t)
  {
    var f := given.(multipath := SortHops(given.multipath));
    hide Names, SortHops;
    if (f.prefix == 0 || HasDestination in f.attributes) && |Matching(t.routes, f)| == 1 {
      var m := Matching(t.routes, f);
      assert m[0] in m;
      assert m == [m[0]];
      assert RemovesAt(t.routes, f, m[0], RemoveAt(t.routes, m[0]));
      var u := RemoveAt(t.routes, m[0]);
      forall r | r in u
        ensures !Names(f, r)
      {
        var j :| 0 <= j < |u| && u[j] == r;
        var at := if j < m[0] then j else j + 1;
        assert t.routes[at] == r && at != m[0];
        assert at !in m;
      }
    }
  }

  predicate Complete(f: RouteFact) {
    && HasDestination in f.attributes && HasGateway in f.attributes && HasPreferredSource in f.attributes
    && HasOutput in f.attributes && HasPriority in f.attributes && HasMultipath in f.attributes
  }

  lemma CompleteNamesIdentity(f: RouteFact, r: RouteFact)
    requires Complete(f) && Names(f, r)
    ensures Identity(r) == Identity(f)
  {
    hide SortHops;
  }

  lemma {:induction false} MatchingAtMostOne(routes: seq<RouteFact>, f: RouteFact)
    requires Unique(routes) && Complete(f)
    ensures |Matching(routes, f)| <= 1
  {
    hide Identity, Names, Complete;
    if routes != [] {
      var n := |routes| - 1;
      assert Unique(routes[..n]);
      MatchingAtMostOne(routes[..n], f);
      if Matching(routes[..n], f) != [] && Names(f, routes[n]) {
        var i := Matching(routes[..n], f)[0];
        assert i in Matching(routes[..n], f);
        CompleteNamesIdentity(f, routes[i]);
        CompleteNamesIdentity(f, routes[n]);
      }
    }
  }

  /** A delete that carries every attribute is never ambiguous. */
  lemma CompleteDeleteIsNeverAmbiguous(t: Topology, given: RouteFact)
    requires TopologyOk(t) && !given.present && Complete(given)
    ensures ApplyRoute(t, given).1 != AmbiguousDelete
  {
    MatchingAtMostOne(t.routes, given.(multipath := SortHops(given.multipath)));
  }
}
