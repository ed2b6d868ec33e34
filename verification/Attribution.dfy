/** Which modelled route a socket's packets take, and how sure that is. */
module Attribution {
  import opened Entities
  import opened TopologyModel
  import UplinkPolicy

  const LOCAL := 2
  const BLACKHOLE := 6
  const UNREACHABLE := 7
  const PROHIBIT := 8

  // ---------- Prefixes ----------

  /** Bits of a byte counted from the most significant one. */
  predicate BitOf(x: bv8, j: nat)
    requires j < 8
  {
    match j
    case 0 => x & 0x80 != 0
    case 1 => x & 0x40 != 0
    case 2 => x & 0x20 != 0
    case 3 => x & 0x10 != 0
    case 4 => x & 0x08 != 0
    case 5 => x & 0x04 != 0
    case 6 => x & 0x02 != 0
    case 7 => x & 0x01 != 0
  }

  predicate Bit(a: Address, i: nat)
    requires i < 128
  {
    BitOf(a[i / 8], i % 8)
  }

  predicate SamePrefix(a: Address, b: Address, n: nat)
    requires n <= 128
  {
    forall i :: 0 <= i < n ==> Bit(a, i) == Bit(b, i)
  }

  function Width(family: nat): nat {
    if family == AF_INET then 32 else 128
  }

  predicate PrefixHit(destination: Endpoint, r: RouteFact) {
    && SupportedFamily(destination.family) && destination.family == r.family && r.prefix <= Width(destination.family)
    && SamePrefix(destination.address, r.destination, r.prefix)
  }

  function Mask(remainder: nat): bv8
    requires 0 < remainder < 8
  {
    0xff << (8 - remainder)
  }

  predicate SameUnderMask(x: bv8, y: bv8, remainder: nat)
    requires 0 < remainder < 8
  {
    x & Mask(remainder) == y & Mask(remainder)
  }

  lemma Masks()
    ensures Mask(1) == 0x80 && Mask(2) == 0xc0 && Mask(3) == 0xe0 && Mask(4) == 0xf0
    ensures Mask(5) == 0xf8 && Mask(6) == 0xfc && Mask(7) == 0xfe
  {
  }

  predicate SameBits(x: bv8, y: bv8, n: nat)
    requires n <= 8
  {
    forall j :: 0 <= j < n ==> BitOf(x, j) == BitOf(y, j)
  }

  /** Comparing under a mask of leading ones compares the leading bits. */
  lemma MaskComparesBits(x: bv8, y: bv8, n: nat)
    requires 0 < n < 8
    ensures SameUnderMask(x, y, n) <==> SameBits(x, y, n)
  {
    Masks();
    hide Mask;
    UpToSeven(x, y);
    match n {
      case 1 => case 2 => case 3 => case 4 => case 5 => case 6 => case 7 =>
    }
  }

  lemma UpToSeven(x: bv8, y: bv8)
    ensures x & 0x80 == y & 0x80 <==> SameBits(x, y, 1)
    ensures x & 0xc0 == y & 0xc0 <==> SameBits(x, y, 2)
    ensures x & 0xe0 == y & 0xe0 <==> SameBits(x, y, 3)
    ensures x & 0xf0 == y & 0xf0 <==> SameBits(x, y, 4)
    ensures x & 0xf8 == y & 0xf8 <==> SameBits(x, y, 5)
    ensures x & 0xfc == y & 0xfc <==> SameBits(x, y, 6)
    ensures x & 0xfe == y & 0xfe <==> SameBits(x, y, 7)
  {
    SameBitsStep(x, y, 0);
    SameBitsStep(x, y, 1);
    SameBitsStep(x, y, 2);
    SameBitsStep(x, y, 3);
    SameBitsStep(x, y, 4);
    SameBitsStep(x, y, 5);
    SameBitsStep(x, y, 6);
    hide SameBits;
    NoBits(x, y);
  }

  lemma NoBits(x: bv8, y: bv8)
    ensures SameBits(x, y, 0)
  {
  }

  lemma SameBitsStep(x: bv8, y: bv8, n: nat)
    requires n < 8
    ensures SameBits(x, y, n + 1) <==> SameBits(x, y, n) && BitOf(x, n) == BitOf(y, n)
  {
    hide BitOf;
  }

  lemma ByteEqual(x: bv8, y: bv8)
    ensures x == y <==> SameBits(x, y, 8)
  {
    UpToSeven(x, y);
    SameBitsStep(x, y, 7);
    hide SameBits;
    assert x == y <==> x & 0xfe == y & 0xfe && x & 0x01 == y & 0x01;
    assert x & 0x01 == y & 0x01 <==> BitOf(x, 7) == BitOf(y, 7);
  }

  lemma BitAt(a: Address, k: nat, j: nat)
    requires k < 16 && j < 8
    ensures Bit(a, 8 * k + j) == BitOf(a[k], j)
  {
    assert (8 * k + j) / 8 == k && (8 * k + j) % 8 == j;
  }

  /** A prefix is a number of whole bytes and some leading bits of the next one. */
  lemma PrefixIsBytesAndBits(a: Address, b: Address, n: nat)
    requires n <= 128
    ensures SamePrefix(a, b, n) <==>
            && (forall k :: 0 <= k < n / 8 ==> a[k] == b[k])
            && (n % 8 != 0 ==> SameBits(a[n / 8], b[n / 8], n % 8))
  {
    if SamePrefix(a, b, n) {
      forall k | 0 <= k < n / 8
        ensures a[k] == b[k]
      {
        SegmentSame(a, b, n, k, 8);
        ByteEqual(a[k], b[k]);
      }
      if n % 8 != 0 { SegmentSame(a, b, n, n / 8, n % 8); }
    }
    if (forall k :: 0 <= k < n / 8 ==> a[k] == b[k]) && (n % 8 != 0 ==> SameBits(a[n / 8], b[n / 8], n % 8)) {
      forall i | 0 <= i < n
        ensures Bit(a, i) == Bit(b, i)
      {
        assert i / 8 < n / 8 || (i / 8 == n / 8 && i % 8 < n % 8);
      }
    }
  }

  lemma SegmentSame(a: Address, b: Address, n: nat, k: nat, m: nat)
    requires n <= 128 && m <= 8 && k < 16 && 8 * k + m <= n && SamePrefix(a, b, n)
    ensures SameBits(a[k], b[k], m)
  {
    hide BitOf;
    forall j | 0 <= j < m
      ensures BitOf(a[k], j) == BitOf(b[k], j)
    {
      BitAt(a, k, j);
      BitAt(b, k, j);
      assert Bit(a, 8 * k + j) == Bit(b, 8 * k + j);
    }
  }

  /** Whole bytes first, then the rest under a mask. */
  method BytesMatch(a: Address, b: Address, n: nat) returns (hit: bool)
    requires n <= 128
    ensures hit == SamePrefix(a, b, n)
  {
    var (full, remainder) := (n / 8, n % 8);
    PrefixIsBytesAndBits(a, b, n);
    assert full <= 16 && (remainder != 0 ==> full < 16);
    if remainder != 0 { MaskComparesBits(a[full], b[full], remainder); }
    hide SamePrefix, SameBits, SameUnderMask;
    for i := 0 to full
      invariant forall k :: 0 <= k < i ==> a[k] == b[k]
    {
      if a[i] != b[i] { return false; }
    }
    hit := remainder == 0 || SameUnderMask(a[full], b[full], remainder);
  }

  method PrefixMatches(destination: Endpoint, r: RouteFact) returns (hit: bool)
    ensures hit == PrefixHit(destination, r)
  {
    hide SamePrefix;
    if !SupportedFamily(destination.family) || destination.family != r.family || r.prefix > Width(destination.family) {
      return false;
    }
    hit := BytesMatch(destination.address, r.destination, r.prefix);
  }

  // ---------- The best routes ----------

  predicate KnownType(typ: nat) {
    typ == UplinkPolicy.UNICAST || typ == LOCAL || typ == BLACKHOLE || typ == UNREACHABLE || typ == PROHIBIT
  }

  predicate Forwards(r: RouteFact) {
    r.typ == UplinkPolicy.UNICAST
  }

  predicate Applies(t: Topology, destination: Endpoint, r: RouteFact) {
    && r in t.routes && r.present && r.netns == t.netns && SupportedFamily(r.family)
    && PrefixHit(destination, r) && KnownType(r.typ)
  }

  function TableRank(table: nat): nat {
    if table == UplinkPolicy.TABLE_MAIN then 0 else if table == UplinkPolicy.TABLE_DEFAULT then 1 else 2
  }

  /** Longest prefix, then table, then priority. */
  predicate Better(a: RouteFact, b: RouteFact) {
    if a.prefix != b.prefix then a.prefix > b.prefix
    else if TableRank(a.table) != TableRank(b.table) then TableRank(a.table) < TableRank(b.table)
    else a.priority < b.priority
  }

  ghost predicate IsBest(t: Topology, destination: Endpoint, r: RouteFact) {
    Applies(t, destination, r) && forall s :: Applies(t, destination, s) ==> !Better(s, r)
  }

  ghost predicate IsChosen(t: Topology, destination: Endpoint, less: UplinkPolicy.IdentityOrder, r: RouteFact) {
    IsBest(t, destination, r) && forall s :: IsBest(t, destination, s) ==> !less(Identity(s), Identity(r))
  }

  // ---------- Outputs ----------

  function HopOutputs(hops: seq<Nexthop>): set<nat> {
    set i | 0 <= i < |hops| && hops[i].ifindex != 0 :: hops[i].ifindex
  }

  function Outputs(r: RouteFact): set<nat> {
    HopOutputs(r.multipath) + if r.output.Some? && r.output.value != 0 then {r.output.value} else {}
  }

  predicate SameOutput(a: RouteFact, b: RouteFact) {
    Outputs(a) == Outputs(b) && a.typ == b.typ
  }

  ghost predicate IsAmbiguous(t: Topology, destination: Endpoint) {
    exists a, b :: IsBest(t, destination, a) && IsBest(t, destination, b) && !SameOutput(a, b)
  }

  function ForwardOutputs(r: RouteFact): set<nat> {
    if Forwards(r) then Outputs(r) else {}
  }

  ghost function AllOutputs(t: Topology, destination: Endpoint): set<nat> {
    set r, i | r in t.routes && IsBest(t, destination, r) && i in ForwardOutputs(r) :: i
  }

  // ---------- The conclusion ----------

  datatype Relationship = RelationUnknown | NonUplinkLocal | MatchesUplink | PossibleUplink | DifferentUplink

  /** `possible` are the interfaces the source lists in ascending order; `route` is the matched route's identity. */
  datatype Context = Context(
    status: RouteStatus, reasons: set<RouteReason>, route: Option<RouteFact>, possible: set<nat>, selected: Option<nat>,
    relationship: Relationship, diag: Option<nat>, generation: nat, authoritative: bool)

  /** The name is known only while the link is. */
  function InterfaceFor(t: Topology, ifindex: nat): InterfaceId {
    if ifindex in t.links && t.links[ifindex].netns == t.netns then InterfaceId(t.links[ifindex].ifindex, t.links[ifindex].name)
    else InterfaceId(ifindex, "")
  }

  predicate Ascending(s: seq<nat>) {
    forall i, j :: 0 <= i < j < |s| ==> s[i] < s[j]
  }

  ghost predicate ListedAs(t: Topology, possible: set<nat>, list: seq<InterfaceId>, order: seq<nat>) {
    && Ascending(order) && (forall i :: i in order <==> i in possible)
    && |list| == |order| && forall k :: 0 <= k < |list| ==> list[k] == InterfaceFor(t, order[k])
  }

  /** The interfaces of a set in ascending order. */
  ghost predicate Lists(t: Topology, possible: set<nat>, list: seq<InterfaceId>) {
    exists order :: ListedAs(t, possible, list, order)
  }

  datatype Query = Query(tuple: SocketTuple, diag: Option<nat>, uplink: Option<nat>)

  function Diagnosed(q: Query): nat {
    if q.diag.Some? then q.diag.value else 0
  }

  function Opening(t: Topology, q: Query): set<RouteReason> {
    (if t.partial then {TopologyPartial} else {}) + (if t.degraded then {TopologyDegraded} else {})
    + (if Diagnosed(q) == 0 then {DiagIfindexUnavailable} else {})
  }

  predicate LocalAgrees(t: Topology, q: Query, outputs: set<nat>) {
    exists i :: 0 <= i < |t.addresses| && t.addresses[i].netns == t.netns && t.addresses[i].family == q.tuple.local.family
                && t.addresses[i].address == q.tuple.local.address && t.addresses[i].ifindex in outputs
  }

  predicate ZeroAddress(a: Address) {
    forall i :: 0 <= i < 16 ==> a[i] == 0
  }

  predicate HasGatewayHop(hops: seq<Nexthop>) {
    exists i :: 0 <= i < |hops| && !ZeroAddress(hops[i].gateway)
  }

  predicate OnLink(r: RouteFact) {
    r.gateway.None? && r.multipath == []
  }

  function RouteReasons(r: RouteFact, outputs: set<nat>): set<RouteReason> {
    (if Forwards(r) && outputs == {} then {MissingOutputInterface} else {})
    + (if r.gateway.Some? || HasGatewayHop(r.multipath) then {GatewayEvidence} else {})
    + (if OnLink(r) && Forwards(r) then {OnLinkEvidence} else {})
    + (if Forwards(r) then {} else if r.typ == LOCAL then {LocalRoute} else {PolicyRoutingNotModeled})
    + (if TableRank(r.table) == 2 then {PolicyRoutingNotModeled} else {})
  }

  function SocketReasons(t: Topology, q: Query, r: RouteFact, outputs: set<nat>): set<RouteReason> {
    var local := q.tuple.local.address;
    (if Diagnosed(q) == 0 then {} else if Diagnosed(q) in outputs then {DiagIfindexAgrees} else {DiagIfindexConflicts})
    + (if LocalAgrees(t, q, outputs) || r.preferredSource == Some(local) then {LocalAddressAgrees}
       else if outputs != {} && q.tuple.local.family == q.tuple.family then {LocalAddressConflicts}
       else {})
    + (if r.preferredSource.Some? && r.preferredSource.value != local then {LocalAddressConflicts} else {})
  }

  function Relation(q: Query, r: RouteFact, possible: set<nat>): Relationship {
    if r.typ == LOCAL then NonUplinkLocal
    else if q.uplink.None? || possible == {} then RelationUnknown
    else if q.uplink.value !in possible then DifferentUplink
    else if |possible| == 1 then MatchesUplink
    else PossibleUplink
  }

  const OBSTACLES: set<RouteReason> :=
    {DiagIfindexConflicts, LocalAddressConflicts, MissingOutputInterface, PolicyRoutingNotModeled}

  function Sole(possible: set<nat>): (x: Option<nat>)
    ensures x.Some? <==> |possible| == 1
    ensures x.Some? ==> possible == {x.value}
  {
    if |possible| != 1 then None
    else
      SoleExists(possible);
      var i :| i in possible && possible == {i};
      Some(i)
  }

  lemma SoleExists(s: set<nat>)
    requires |s| == 1
    ensures exists i :: i in s && s == {i}
  {
    var i :| i in s;
    assert |s - {i}| == 0;
    assert s == {i} + (s - {i}) == {i};
  }

  function Conclude(t: Topology, q: Query, r: RouteFact, ambiguous: bool, outputs: set<nat>): Context {
    var found := Opening(t, q) + (if ambiguous then {AmbiguousCandidate} else {}) + RouteReasons(r, outputs)
                 + SocketReasons(t, q, r, outputs);
    var exact := !ambiguous && Forwards(r) && r.multipath == [] && found !! OBSTACLES && !t.partial && !t.degraded;
    Context(
      if exact then RouteAvailable else if ambiguous then RouteAmbiguous else RoutePartial,
      found + (if exact then {ExactModeledMatch} else {})
            + (if !exact && !ambiguous && r.multipath != [] then {MultipathWithoutFlowHash} else {}),
      Some(r), outputs, if r.typ == LOCAL then None else Sole(outputs), Relation(q, r, outputs), q.diag, t.generation, true)
  }

  function Unmatched(t: Topology, q: Query): Context {
    Context(RouteUnavailable, Opening(t, q) + {NoModeledRoute}, None, {}, None, RelationUnknown, q.diag, t.generation, true)
  }

  function Untrusted(t: Topology, q: Query): Context {
    Context(RouteUnavailable, {TopologyNonAuthoritative} + (if Diagnosed(q) == 0 then {DiagIfindexUnavailable} else {}), None, {},
            None, RelationUnknown, q.diag, t.generation, t.authoritative)
  }

  predicate Trusted(t: Topology, q: Query) {
    q.tuple.netns == t.netns && t.authoritative
  }

  ghost predicate NothingApplies(t: Topology, destination: Endpoint) {
    forall r :: !Applies(t, destination, r)
  }

  /** What the attribution of a socket is. */
  ghost predicate Attributes(t: Topology, q: Query, less: UplinkPolicy.IdentityOrder, c: Context) {
    var remote := q.tuple.remote;
    if !Trusted(t, q) then c == Untrusted(t, q)
    else if NothingApplies(t, remote) then c == Unmatched(t, q)
    else exists r :: IsChosen(t, remote, less, r) && c == Conclude(t, q, Identity(r), IsAmbiguous(t, remote),
      if IsAmbiguous(t, remote) then AllOutputs(t, remote) else ForwardOutputs(r))
  }
}
