/** Links, addresses and routes of one network namespace, and what a netlink message does to them. */
module TopologyModel {
  import opened Entities

  // ---------- Facts ----------

  datatype LinkFact = LinkFact(
    netns: NetnsId, ifindex: nat, name: string, flags: bv32, operState: nat, carrier: nat, carrierKnown: bool,
    linkType: nat, present: bool)

  datatype AddressFact = AddressFact(
    netns: NetnsId, ifindex: nat, family: nat, prefixLength: nat, address: Address, scope: nat, flags: bv32, present: bool)

  datatype Nexthop = Nexthop(ifindex: nat, gateway: Address, hops: nat, flags: nat)

  datatype RouteAttribute = HasDestination | HasGateway | HasPreferredSource | HasOutput | HasPriority | HasTable | HasMultipath

  /** `attributes` says what a delete notification carried; it is a bit mask in the source. */
  datatype RouteFact = RouteFact(
    netns: NetnsId, family: nat, prefix: nat, destination: Address, table: nat, priority: nat, protocol: nat, scope: nat,
    typ: nat, output: Option<nat>, gateway: Option<Address>, preferredSource: Option<Address>, multipath: seq<Nexthop>,
    present: bool, attributes: set<RouteAttribute>)

  datatype Topology = Topology(
    netns: NetnsId, links: map<nat, LinkFact>, addresses: seq<AddressFact>, routes: seq<RouteFact>,
    authoritative: bool, partial: bool, degraded: bool, generation: nat)

  datatype Message = LinkMessage(link: LinkFact) | AddressMessage(address: AddressFact) | RouteMessage(route: RouteFact)
    | OtherMessage

  datatype ApplyResult = NoChange | Changed | Invalid | AmbiguousDelete

  function EmptyTopology(netns: NetnsId): Topology {
    Topology(netns, map[], [], [], false, false, false, 0)
  }

  // ---------- The order of nexthops ----------

  predicate BytesLess(a: seq<bv8>, b: seq<bv8>) {
    if b == [] then false
    else if a == [] then true
    else if a[0] != b[0] then a[0] < b[0]
    else BytesLess(a[1..], b[1..])
  }

  predicate HopLess(a: Nexthop, b: Nexthop) {
    if a.ifindex != b.ifindex then a.ifindex < b.ifindex
    else if a.gateway != b.gateway then BytesLess(a.gateway, b.gateway)
    else if a.hops != b.hops then a.hops < b.hops
    else a.flags < b.flags
  }

  function Insert(x: Nexthop, s: seq<Nexthop>): seq<Nexthop> {
    if s == [] || !HopLess(s[0], x) then [x] + s else [s[0]] + Insert(x, s[1..])
  }

  function SortHops(s: seq<Nexthop>): seq<Nexthop> {
    if s == [] then [] else Insert(s[0], SortHops(s[1..]))
  }

  predicate SortedHops(s: seq<Nexthop>) {
    forall i, j :: 0 <= i < j < |s| ==> !HopLess(s[j], s[i])
  }

  // ---------- Identity ----------

  /** What the source prints into one string: everything but presence and the attribute mask, nexthops in order. */
  function Identity(r: RouteFact): RouteFact {
    r.(multipath := SortHops(r.multipath), present := true, attributes := {})
  }

  predicate SameAddress(a: AddressFact, b: AddressFact) {
    a.netns == b.netns && a.ifindex == b.ifindex && a.family == b.family && a.prefixLength == b.prefixLength && a.address == b.address
  }

  // ---------- Messages ----------

  function Keep<T(!new)>(s: seq<T>, p: T -> bool): (r: seq<T>)
    ensures forall x :: x in r <==> x in s && p(x)
  {
    if s == [] then [] else Keep(s[..|s| - 1], p) + (if p(s[|s| - 1]) then [s[|s| - 1]] else [])
  }

  predicate Uses(r: RouteFact, ifindex: nat) {
    r.output == Some(ifindex) || exists i :: 0 <= i < |r.multipath| && r.multipath[i].ifindex == ifindex
  }

  predicate LinkDiffers(a: LinkFact, b: LinkFact) {
    a.name != b.name || a.flags != b.flags || a.operState != b.operState || a.carrier != b.carrier
    || a.carrierKnown != b.carrierKnown
  }

  function ApplyLink(t: Topology, f: LinkFact): (Topology, ApplyResult) {
    if f.netns != t.netns then (t, Invalid)
    else if !f.present then
      var u := t.(links := t.links - {f.ifindex},
                  addresses := Keep(t.addresses, (a: AddressFact) => a.ifindex != f.ifindex),
                  routes := Keep(t.routes, (r: RouteFact) => !Uses(r, f.ifindex)));
      (u, if f.ifindex in t.links || |u.addresses| != |t.addresses| || |u.routes| != |t.routes| then Changed else NoChange)
    else
      (t.(links := t.links[f.ifindex := f]),
       if f.ifindex !in t.links || LinkDiffers(t.links[f.ifindex], f) then Changed else NoChange)
  }

  function FindAddress(s: seq<AddressFact>, f: AddressFact): (i: nat)
    ensures i <= |s|
    ensures i < |s| ==> SameAddress(s[i], f)
    ensures forall j :: 0 <= j < i ==> !SameAddress(s[j], f)
  {
    if s == [] then 0 else if SameAddress(s[0], f) then 0 else FindAddress(s[1..], f) + 1
  }

  function RemoveAt<T>(s: seq<T>, i: nat): seq<T>
    requires i < |s|
  {
    s[..i] + s[i + 1..]
  }

  function ApplyAddress(t: Topology, f: AddressFact): (Topology, ApplyResult) {
    var i := FindAddress(t.addresses, f);
    if f.netns != t.netns then (t, Invalid)
    else if !f.present then
      if i == |t.addresses| then (t, NoChange) else (t.(addresses := RemoveAt(t.addresses, i)), Changed)
    else if i == |t.addresses| then (t.(addresses := t.addresses + [f]), Changed)
    else if t.addresses[i] == f then (t, NoChange)
    else (t.(addresses := t.addresses[i := f]), Changed)
  }

  /** A delete names a route by what it carries; what it leaves out may be anything. */
  predicate Names(f: RouteFact, r: RouteFact) {
    && r.netns == f.netns && r.family == f.family && r.prefix == f.prefix && r.table == f.table
    && r.protocol == f.protocol && r.scope == f.scope && r.typ == f.typ
    && (HasDestination in f.attributes ==> r.destination == f.destination)
    && (HasPriority in f.attributes ==> r.priority == f.priority)
    && (HasOutput in f.attributes ==> r.output == f.output)
    && (HasGateway in f.attributes ==> r.gateway == f.gateway)
    && (HasPreferredSource in f.attributes ==> r.preferredSource == f.preferredSource)
    && (HasMultipath in f.attributes ==> r.multipath == f.multipath)
  }

  function Matching(routes: seq<RouteFact>, f: RouteFact): (m: seq<nat>)
    ensures forall i :: i in m <==> 0 <= i < |routes| && Names(f, routes[i])
    ensures |m| <= |routes|
  {
    if routes == [] then []
    else
      var n := |routes| - 1;
      Matching(routes[..n], f) + (if Names(f, routes[n]) then [n] else [])
  }

  predicate HasIdentity(routes: seq<RouteFact>, f: RouteFact) {
    exists i :: 0 <= i < |routes| && Identity(routes[i]) == Identity(f)
  }

  function ApplyRoute(t: Topology, given: RouteFact): (Topology, ApplyResult) {
    var f := given.(multipath := SortHops(given.multipath));
    if f.netns != t.netns then (t, Invalid)
    else if !f.present then
      if f.prefix != 0 && HasDestination !in f.attributes then (t, AmbiguousDelete)
      else
        var m := Matching(t.routes, f);
        if m == [] then (t, NoChange)
        else if |m| != 1 then (t, AmbiguousDelete)
        else assert m[0] in m; (t.(routes := RemoveAt(t.routes, m[0])), Changed)
    else if HasIdentity(t.routes, f) then (t, NoChange)
    else (t.(routes := t.routes + [f]), Changed)
  }

  function Apply(t: Topology, m: Message): (Topology, ApplyResult) {
    match m
    case LinkMessage(f) => ApplyLink(t, f)
    case AddressMessage(f) => ApplyAddress(t, f)
    case RouteMessage(f) => ApplyRoute(t, f)
    case OtherMessage => (t, Invalid)
  }
}
