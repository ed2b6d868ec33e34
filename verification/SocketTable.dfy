/** What `SocketLifecycleTable` does to its state, as functions on values. */
module SocketTable {
  import opened BoundedList
  import opened Entities
  import opened IdOrder

  datatype Disposition = Authoritative | PartialSnapshot | Failed

  datatype Lifecycle = Active | Closed

  /** `detail` stands for the TCP state and tcp_info attributes, which the table only copies. */
  datatype Input = Input(
    tuple: SocketTuple, cookie: Option<nat>, observedAt: int, monotonicAt: int, validity: Validity,
    present: bool, diagIfindex: Option<nat>, detail: int)

  datatype Observation = Observation(
    id: SocketId, tuple: SocketTuple, observedAt: int, monotonicAt: int, validity: Validity,
    lifecycle: Lifecycle, present: bool, diagIfindex: Option<nat>, detail: int)

  datatype CookieKey = CookieKey(netns: NetnsId, cookie: nat)

  datatype Resolution = Resolution(observation: Observation, created: bool, inconsistent: bool)

  /** A set of identified sockets together with its two lookup indexes. */
  datatype Side = Side(
    members: map<SocketId, Observation>, byCookie: map<CookieKey, SocketId>, byTuple: map<SocketTuple, SocketId>)

  /** The candidate a snapshot builds up: `superseded` are active identities it has given up on. */
  datatype Draft = Draft(side: Side, seen: set<SocketId>, superseded: set<SocketId>)

  datatype Table = Table(
    maxActive: nat, maxClosed: nat, inProgress: bool, disposition: Disposition, nextGeneration: nat,
    active: Side, closed: seq<Observation>, draft: Draft)

  // ---------- Pieces ----------

  predicate ValidInput(input: Input) {
    && input.present && input.tuple.netns.inode != 0
    && input.tuple.protocol == TCP
    && input.tuple.family == input.tuple.local.family == input.tuple.remote.family
    && SupportedFamily(input.tuple.family)
  }

  function KeyOf(id: SocketId): CookieKey
    requires id.cookie.Some?
  {
    CookieKey(id.netns, id.cookie.value)
  }

  function MakeObservation(id: SocketId, input: Input): Observation {
    Observation(id, input.tuple, input.observedAt, input.monotonicAt, input.validity, Active, true,
                input.diagIfindex, input.detail)
  }

  function MarkClosed(o: Observation): Observation {
    o.(lifecycle := Closed, present := false, validity := Stale)
  }

  function Without<K, V(==)>(m: map<K, V>, v: V): map<K, V> {
    map k | k in m && m[k] != v :: m[k]
  }

  function Live<K>(m: map<K, SocketId>, k: K, dead: set<SocketId>): Option<SocketId> {
    if k in m && m[k] !in dead then Some(m[k]) else None
  }

  /** The cookie-backed members of `m` that have this tuple and are not superseded. */
  function CookieBacked(m: map<SocketId, Observation>, tuple: SocketTuple, dead: set<SocketId>): set<SocketId> {
    set id | id in m && id.cookie.Some? && m[id].tuple == tuple && id !in dead
  }

  function WithCookie(m: map<SocketId, Observation>, k: CookieKey): set<SocketId> {
    set id | id in m && id.cookie.Some? && KeyOf(id) == k
  }

  function WithTuple(m: map<SocketId, Observation>, k: SocketTuple): set<SocketId> {
    set id | id in m && id.cookie.None? && m[id].tuple == k
  }

  /** The side whose indexes are built afresh by a traversal of its members: a later member overwrites an earlier one. */
  ghost function Reindexed(m: map<SocketId, Observation>): Side {
    var cookies := set id | id in m && id.cookie.Some? :: KeyOf(id);
    var tuples := set id | id in m && id.cookie.None? :: m[id].tuple;
    Side(m,
         map k | k in cookies :: Last(WithCookie(m, k)),
         map k | k in tuples :: Last(WithTuple(m, k)))
  }

  // ---------- Transitions ----------

  const NO_SIDE := Side(map[], map[], map[])
  const NO_DRAFT := Draft(NO_SIDE, {}, {})

  function Empty(maxActive: nat, maxClosed: nat): Table {
    Table(maxActive, maxClosed, false, Failed, 1, NO_SIDE, [], NO_DRAFT)
  }

  function Cleared(t: Table): Table {
    t.(inProgress := false, disposition := Failed, draft := NO_DRAFT)
  }

  function Begin(t: Table, d: Disposition): Table {
    if t.inProgress then t else t.(inProgress := true, disposition := d, draft := NO_DRAFT)
  }

  function Erase(s: Side, id: SocketId): Side {
    Side(s.members - {id}, Without(s.byCookie, id), Without(s.byTuple, id))
  }

  function Insert(s: Side, o: Observation): Side {
    Side(s.members[o.id := o],
         if o.id.cookie.Some? then s.byCookie[KeyOf(o.id) := o.id] else s.byCookie,
         if o.id.cookie.Some? then s.byTuple else s.byTuple[o.tuple := o.id])
  }

  function Supersede(active: Side, d: Draft, id: SocketId): Draft {
    Draft(Erase(d.side, id), d.seen - {id}, if id in active.members then d.superseded + {id} else d.superseded)
  }

  function SupersedeIf(active: Side, d: Draft, id: Option<SocketId>): Draft {
    if id.Some? then Supersede(active, d, id.value) else d
  }

  /** The outcome of looking an input up: the draft may already have superseded identities. */
  datatype Lookup = Lookup(draft: Draft, resolved: Option<SocketId>, inconsistent: bool)

  /** The identity a live index entry names resolves the input if its tuple agrees and is superseded otherwise. */
  function ByCookie(active: Side, l: Lookup, s: Side, input: Input): Lookup
    requires input.cookie.Some?
  {
    var c := Live(s.byCookie, CookieKey(input.tuple.netns, input.cookie.value), l.draft.superseded);
    if l.resolved.Some? || c.None? then l
    else if c.value in s.members && s.members[c.value].tuple == input.tuple then l.(resolved := c)
    else Lookup(Supersede(active, l.draft, c.value), None, true)
  }

  /** A tuple seen without a cookie so far is reset when it turns up with one. */
  function ResetWeak(active: Side, l: Lookup, input: Input): Lookup {
    var p := Live(l.draft.side.byTuple, input.tuple, l.draft.superseded);
    var w := if p.Some? then p else Live(active.byTuple, input.tuple, l.draft.superseded);
    if l.resolved.Some? || w.None? then l else Lookup(Supersede(active, l.draft, w.value), None, true)
  }

  ghost function FirstCookieBacked(m: map<SocketId, Observation>, tuple: SocketTuple, dead: set<SocketId>): Option<SocketId> {
    var ids := CookieBacked(m, tuple, dead);
    if ids == {} then None else Some(Least(ids))
  }

  /** Losing cookie visibility never merges into a cookie-backed identity: the first of each side is reset. */
  ghost function ByTuple(active: Side, d: Draft, input: Input): Lookup {
    var p := Live(d.side.byTuple, input.tuple, d.superseded);
    var a := Live(active.byTuple, input.tuple, d.superseded);
    if p.Some? then Lookup(d, p, false)
    else if a.Some? then Lookup(d, a, false)
    else
      var cp := FirstCookieBacked(d.side.members, input.tuple, d.superseded);
      var d1 := SupersedeIf(active, d, cp);
      var ca := FirstCookieBacked(active.members, input.tuple, d1.superseded);
      Lookup(SupersedeIf(active, d1, ca), None, cp.Some? || ca.Some?)
  }

  ghost function Find(active: Side, d: Draft, input: Input): Lookup {
    if input.cookie.Some? then
      var l1 := ByCookie(active, Lookup(d, None, false), d.side, input);
      var l2 := ByCookie(active, l1, active, input);
      ResetWeak(active, l2, input)
    else ByTuple(active, d, input)
  }

  function Store(d: Draft, o: Observation): Draft {
    Draft(Insert(d.side, o), d.seen + {o.id}, d.superseded)
  }

  predicate Accepts(t: Table, input: Input) {
    t.inProgress && t.disposition != Failed && ValidInput(input)
  }

  /** Store the resolved identity, or a new one if there is room for it. */
  function Conclude(t: Table, l: Lookup, input: Input): (Table, Option<Resolution>) {
    if l.resolved.Some? then
      var o := MakeObservation(l.resolved.value, input);
      (t.(draft := Store(l.draft, o)), Some(Resolution(o, false, l.inconsistent)))
    else if |t.active.members| + |l.draft.side.members| >= t.maxActive then (t.(draft := l.draft), None)
    else
      var o := MakeObservation(SocketId(input.tuple.netns, input.cookie, t.nextGeneration), input);
      (t.(nextGeneration := t.nextGeneration + 1, draft := Store(l.draft, o)),
       Some(Resolution(o, true, l.inconsistent)))
  }

  ghost function Observe(t: Table, input: Input): (Table, Option<Resolution>) {
    if !Accepts(t, input) then (t, None) else Conclude(t, Find(t.active, t.draft, input), input)
  }

  function Closing(active: Side, d: Draft): set<SocketId> {
    set id | id in active.members && (id !in d.seen || id in d.superseded)
  }

  function Merged(active: Side, d: Draft): map<SocketId, Observation> {
    (active.members - Closing(active, d)) +
    (map id | id in d.side.members && id !in d.superseded :: d.side.members[id])
  }

  ghost function ClosedNotes(m: map<SocketId, Observation>, ids: seq<SocketId>): seq<Observation>
    requires forall id :: id in ids ==> id in m
  {
    seq(|ids|, i requires 0 <= i < |ids| => MarkClosed(m[ids[i]]))
  }

  ghost function Commit(t: Table): Table {
    if !t.inProgress then t
    else if t.disposition != Authoritative then Cleared(t)
    else
      var notes := ClosedNotes(t.active.members, InOrder(Closing(t.active, t.draft)));
      Cleared(t).(active := Reindexed(Merged(t.active, t.draft)), closed := KeepLast(t.closed + notes, t.maxClosed))
  }

  ghost function Close(t: Table, id: SocketId): Table {
    if t.inProgress || id !in t.active.members then t
    else t.(active := Reindexed(t.active.members - {id}),
            closed := KeepLast(t.closed + [MarkClosed(t.active.members[id])], t.maxClosed))
  }
}
