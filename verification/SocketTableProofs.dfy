/** What every operation of the socket table keeps, and what holds over whole runs. */
module SocketTableProofs {
  import opened Entities
  import opened SocketTable

  // ---------- The invariant ----------

  predicate WellNamed(m: map<SocketId, Observation>, g: nat) {
    forall id :: id in m ==> m[id].id == id && m[id].tuple.netns == id.netns && id.generation < g
  }

  /** The cookie index and the cookie-backed members are inverse to each other. */
  predicate CookieInverse(s: Side) {
    && (forall id :: id in s.members && id.cookie.Some? ==> KeyOf(id) in s.byCookie && s.byCookie[KeyOf(id)] == id)
    && (forall k :: k in s.byCookie ==>
          s.byCookie[k] in s.members && s.byCookie[k].cookie.Some? && KeyOf(s.byCookie[k]) == k)
  }

  /** The tuple index and the cookie-less members are inverse to each other. */
  predicate TupleInverse(s: Side) {
    && (forall id :: id in s.members && id.cookie.None? ==>
          s.members[id].tuple in s.byTuple && s.byTuple[s.members[id].tuple] == id)
    && (forall k :: k in s.byTuple ==>
          s.byTuple[k] in s.members && s.byTuple[k].cookie.None? && s.members[s.byTuple[k]].tuple == k)
  }

  predicate SideOk(s: Side, g: nat) {
    WellNamed(s.members, g) && CookieInverse(s) && TupleInverse(s)
  }

  predicate DraftOk(active: Side, d: Draft, g: nat) {
    && SideOk(d.side, g)
    && d.seen == d.side.members.Keys
    && (forall id :: id in d.superseded ==> id in active.members && id !in d.side.members)
    && (forall id :: id in active.members && id in d.side.members ==>
          active.members[id].tuple == d.side.members[id].tuple)
  }

  /** The pending identities that are not active: re-resolved identities bypass the capacity test. */
  function NewCount(active: Side, d: Draft): nat {
    |d.side.members.Keys - active.members.Keys|
  }

  predicate TableOk(t: Table) {
    && SideOk(t.active, t.nextGeneration)
    && DraftOk(t.active, t.draft, t.nextGeneration)
    && (!t.inProgress ==> t.draft == NO_DRAFT)
  }

  predicate Bounded(t: Table) {
    && |t.active.members| + NewCount(t.active, t.draft) <= t.maxActive
    && |t.closed| <= t.maxClosed
  }

  // ---------- Each piece keeps the invariant ----------

  /** No two members share a cookie key, and no two cookie-less members share a tuple. */
  predicate Distinct(m: map<SocketId, Observation>) {
    && (forall a, b :: a in m && b in m && a.cookie.Some? && b.cookie.Some? && KeyOf(a) == KeyOf(b) ==> a == b)
    && (forall a, b :: a in m && b in m && a.cookie.None? && b.cookie.None? && m[a].tuple == m[b].tuple ==> a == b)
  }

  lemma ReindexedInverse(m: map<SocketId, Observation>)
    requires Distinct(m)
    ensures CookieInverse(Reindexed(m)) && TupleInverse(Reindexed(m))
  {
    var r := Reindexed(m);
    assert CookieInverse(r) by {
      forall id | id in m && id.cookie.Some?
        ensures KeyOf(id) in r.byCookie && r.byCookie[KeyOf(id)] == id
      {
        assert id in WithCookie(m, KeyOf(id));
      }
    }
    assert TupleInverse(r) by {
      forall id | id in m && id.cookie.None?
        ensures m[id].tuple in r.byTuple && r.byTuple[m[id].tuple] == id
      {
        assert id in WithTuple(m, m[id].tuple);
      }
    }
  }

  /** In a sound side no key is shared, so rebuilding the indexes gives the ones that are there. */
  lemma SideIsDistinct(s: Side, g: nat)
    requires SideOk(s, g)
    ensures Distinct(s.members) && s == Reindexed(s.members)
  {
    ReindexedInverse(s.members);
    CookieIndexUnique(s, Reindexed(s.members));
    TupleIndexUnique(s, Reindexed(s.members));
  }

  lemma CookieIndexUnique(s: Side, r: Side)
    requires CookieInverse(s) && CookieInverse(r) && s.members == r.members
    ensures s.byCookie == r.byCookie
  {
  }

  lemma TupleIndexUnique(s: Side, r: Side)
    requires TupleInverse(s) && TupleInverse(r) && s.members == r.members
    ensures s.byTuple == r.byTuple
  {
  }

  lemma EraseOk(s: Side, g: nat, id: SocketId)
    requires SideOk(s, g)
    ensures SideOk(Erase(s, id), g)
  {
  }

  predicate Insertable(s: Side, o: Observation) {
    && o.tuple.netns == o.id.netns
    && (o.id in s.members ==> s.members[o.id].tuple == o.tuple)
    && (o.id.cookie.Some? && KeyOf(o.id) in s.byCookie ==> s.byCookie[KeyOf(o.id)] == o.id)
    && (o.id.cookie.None? && o.tuple in s.byTuple ==> s.byTuple[o.tuple] == o.id)
  }

  lemma InsertKeepsCookieInverse(s: Side, o: Observation)
    requires CookieInverse(s) && Insertable(s, o)
    ensures CookieInverse(Insert(s, o))
  {
  }

  lemma InsertKeepsTupleInverse(s: Side, o: Observation)
    requires TupleInverse(s) && Insertable(s, o)
    ensures TupleInverse(Insert(s, o))
  {
  }

  lemma InsertOk(s: Side, g: nat, o: Observation)
    requires SideOk(s, g) && Insertable(s, o) && o.id.generation < g
    ensures SideOk(Insert(s, o), g)
  {
    InsertKeepsCookieInverse(s, o);
    InsertKeepsTupleInverse(s, o);
  }

  predicate OnlyErased(d: Draft, e: Draft) {
    && (forall id :: id in e.side.members ==> id in d.side.members && e.side.members[id] == d.side.members[id])
    && (forall k :: k in e.side.byCookie ==> k in d.side.byCookie)
    && (forall k :: k in e.side.byTuple ==> k in d.side.byTuple)
    && (forall id :: id in d.superseded ==> id in e.superseded)
  }

  lemma SupersedeOk(active: Side, d: Draft, g: nat, id: SocketId)
    requires DraftOk(active, d, g)
    ensures DraftOk(active, Supersede(active, d, id), g)
    ensures OnlyErased(d, Supersede(active, d, id))
  {
    EraseOk(d.side, g, id);
  }

  predicate NotFound(s: Side, input: Input) {
    if input.cookie.Some? then CookieKey(input.tuple.netns, input.cookie.value) !in s.byCookie
    else input.tuple !in s.byTuple
  }

  predicate Resolves(active: Side, d: Draft, id: SocketId, input: Input) {
    && id !in d.superseded && id.cookie == input.cookie
    && (id in active.members || id in d.side.members)
    && (id in active.members ==> active.members[id].tuple == input.tuple)
    && Insertable(d.side, MakeObservation(id, input))
  }

  /** What a lookup leaves behind: a sound draft in which the resolved identity can be stored. */
  predicate LookupOk(active: Side, d: Draft, l: Lookup, g: nat, input: Input) {
    && DraftOk(active, l.draft, g) && OnlyErased(d, l.draft)
    && (l.resolved.Some? ==> Resolves(active, l.draft, l.resolved.value, input))
  }

  lemma SupersededLookup(active: Side, d: Draft, l: Lookup, g: nat, input: Input, id: SocketId)
    requires LookupOk(active, d, l, g, input)
    ensures LookupOk(active, d, Lookup(Supersede(active, l.draft, id), None, true), g, input)
    ensures NotFound(l.draft.side, input) ==> NotFound(Supersede(active, l.draft, id).side, input)
  {
    SupersedeOk(active, l.draft, g, id);
  }

  lemma PendingCookieOk(active: Side, d: Draft, g: nat, input: Input)
    requires SideOk(active, g) && DraftOk(active, d, g) && input.cookie.Some?
    ensures var r := ByCookie(active, Lookup(d, None, false), d.side, input);
            LookupOk(active, d, r, g, input) && (r.resolved.None? ==> NotFound(r.draft.side, input))
  {
    var c := Live(d.side.byCookie, CookieKey(input.tuple.netns, input.cookie.value), d.superseded);
    if c.Some? {
      if d.side.members[c.value].tuple == input.tuple {
        assert Resolves(active, d, c.value, input);
      } else {
        SupersededLookup(active, d, Lookup(d, None, false), g, input, c.value);
      }
    }
  }

  lemma ActiveCookieOk(active: Side, d: Draft, l: Lookup, g: nat, input: Input)
    requires SideOk(active, g) && LookupOk(active, d, l, g, input) && input.cookie.Some?
    requires l.resolved.None? ==> NotFound(l.draft.side, input)
    ensures var r := ByCookie(active, l, active, input);
            LookupOk(active, d, r, g, input) && (r.resolved.None? ==> NotFound(r.draft.side, input))
  {
    var c := Live(active.byCookie, CookieKey(input.tuple.netns, input.cookie.value), l.draft.superseded);
    if l.resolved.None? && c.Some? {
      if active.members[c.value].tuple == input.tuple {
        assert Resolves(active, l.draft, c.value, input);
      } else {
        SupersededLookup(active, d, l, g, input, c.value);
      }
    }
  }

  lemma ResetWeakOk(active: Side, d: Draft, l: Lookup, g: nat, input: Input)
    requires LookupOk(active, d, l, g, input) && input.cookie.Some?
    requires l.resolved.None? ==> NotFound(l.draft.side, input)
    ensures var r := ResetWeak(active, l, input);
            LookupOk(active, d, r, g, input) && (r.resolved.None? ==> NotFound(r.draft.side, input))
  {
    var p := Live(l.draft.side.byTuple, input.tuple, l.draft.superseded);
    var w := if p.Some? then p else Live(active.byTuple, input.tuple, l.draft.superseded);
    if w.Some? { SupersededLookup(active, d, l, g, input, w.value); }
  }

  lemma WeakHitOk(active: Side, d: Draft, g: nat, input: Input, id: SocketId)
    requires SideOk(active, g) && DraftOk(active, d, g) && input.cookie.None?
    requires Live(d.side.byTuple, input.tuple, d.superseded) == Some(id) ||
             (input.tuple !in d.side.byTuple && Live(active.byTuple, input.tuple, d.superseded) == Some(id))
    ensures Resolves(active, d, id, input)
  {
  }

  lemma ByTupleOk(active: Side, d: Draft, g: nat, input: Input)
    requires SideOk(active, g) && DraftOk(active, d, g) && input.cookie.None?
    ensures var r := ByTuple(active, d, input);
            LookupOk(active, d, r, g, input) && (r.resolved.None? ==> NotFound(r.draft.side, input))
  {
    var p := Live(d.side.byTuple, input.tuple, d.superseded);
    var a := Live(active.byTuple, input.tuple, d.superseded);
    if p.Some? {
      WeakHitOk(active, d, g, input, p.value);
    } else {
      assert input.tuple !in d.side.byTuple;
      if a.Some? {
        WeakHitOk(active, d, g, input, a.value);
      } else {
        WeakMissOk(active, d, g, input);
      }
    }
  }

  lemma WeakMissOk(active: Side, d: Draft, g: nat, input: Input)
    requires DraftOk(active, d, g) && input.cookie.None? && input.tuple !in d.side.byTuple
    requires Live(active.byTuple, input.tuple, d.superseded).None?
    ensures var r := ByTuple(active, d, input);
            LookupOk(active, d, r, g, input) && r.resolved.None? && NotFound(r.draft.side, input)
  {
    var l0 := Lookup(d, None, false);
    var cp := FirstCookieBacked(d.side.members, input.tuple, d.superseded);
    if cp.Some? { SupersededLookup(active, d, l0, g, input, cp.value); }
    var d1 := SupersedeIf(active, d, cp);
    var ca := FirstCookieBacked(active.members, input.tuple, d1.superseded);
    if ca.Some? { SupersededLookup(active, d, Lookup(d1, None, true), g, input, ca.value); }
  }

  lemma FindOk(active: Side, d: Draft, g: nat, input: Input)
    requires SideOk(active, g) && DraftOk(active, d, g)
    ensures var r := Find(active, d, input);
            LookupOk(active, d, r, g, input) && (r.resolved.None? ==> NotFound(r.draft.side, input))
  {
    if input.cookie.Some? {
      var l1 := ByCookie(active, Lookup(d, None, false), d.side, input);
      PendingCookieOk(active, d, g, input);
      ActiveCookieOk(active, d, l1, g, input);
      ResetWeakOk(active, d, ByCookie(active, l1, active, input), g, input);
    } else {
      ByTupleOk(active, d, g, input);
    }
  }

  lemma StoreOk(active: Side, d: Draft, g: nat, o: Observation)
    requires DraftOk(active, d, g) && Insertable(d.side, o) && o.id.generation < g && o.id !in d.superseded
    requires o.id in active.members ==> active.members[o.id].tuple == o.tuple
    ensures DraftOk(active, Store(d, o), g)
  {
    InsertOk(d.side, g, o);
  }

  lemma LaterGeneration(active: Side, d: Draft, g: nat)
    requires SideOk(active, g) && DraftOk(active, d, g)
    ensures SideOk(active, g + 1) && DraftOk(active, d, g + 1)
  {
  }

  lemma ConcludeKeepsValid(t: Table, l: Lookup, input: Input)
    requires TableOk(t) && t.inProgress && LookupOk(t.active, t.draft, l, t.nextGeneration, input)
    requires l.resolved.None? ==> NotFound(l.draft.side, input)
    ensures TableOk(Conclude(t, l, input).0)
  {
    var g := t.nextGeneration;
    if l.resolved.Some? {
      StoreOk(t.active, l.draft, g, MakeObservation(l.resolved.value, input));
    } else {
      var id := SocketId(input.tuple.netns, input.cookie, g);
      assert id !in t.active.members && id !in l.draft.side.members;
      LaterGeneration(t.active, l.draft, g);
      StoreOk(t.active, l.draft, g + 1, MakeObservation(id, input));
    }
  }

  lemma ObserveKeepsValid(t: Table, input: Input)
    requires TableOk(t)
    ensures TableOk(Observe(t, input).0)
  {
    if Accepts(t, input) {
      FindOk(t.active, t.draft, t.nextGeneration, input);
      ConcludeKeepsValid(t, Find(t.active, t.draft, input), input);
    }
  }

  // ---------- Commit ----------

  /** Committing: what survives of the active map, overlaid with the candidate, is exactly the candidate. */
  lemma MergedIsPending(active: Side, d: Draft)
    requires d.seen == d.side.members.Keys
    requires forall id :: id in d.superseded ==> id in active.members && id !in d.side.members
    ensures Merged(active, d) == d.side.members
    ensures Closing(active, d) == active.members.Keys - d.side.members.Keys
  {
    assert forall id :: id in Closing(active, d) <==> id in active.members && id !in d.side.members;
  }

  lemma CommitExact(t: Table)
    requires TableOk(t)
    ensures t.inProgress && t.disposition == Authoritative ==>
              && Commit(t).active == t.draft.side
              && (forall id :: id in Closing(t.active, t.draft) <==> id in t.active.members && id !in Commit(t).active.members)
    ensures t.inProgress && t.disposition != Authoritative ==> Commit(t) == Cleared(t)
  {
    MergedIsPending(t.active, t.draft);
    SideIsDistinct(t.draft.side, t.nextGeneration);
  }

  lemma CommitKeepsValid(t: Table)
    requires TableOk(t)
    ensures TableOk(Commit(t))
  {
    CommitExact(t);
  }

  lemma CloseKeepsValid(t: Table, id: SocketId)
    requires TableOk(t)
    ensures TableOk(Close(t, id))
  {
    SideIsDistinct(t.active, t.nextGeneration);
    ReindexedInverse(t.active.members - {id});
  }

  // ---------- Capacity ----------

  lemma SubsetSize<T>(a: set<T>, b: set<T>)
    requires a <= b
    ensures |a| <= |b|
  {
    assert b == a + (b - a);
  }

  lemma ErasingCount(active: Side, d: Draft, e: Draft)
    requires OnlyErased(d, e)
    ensures NewCount(active, e) <= NewCount(active, d)
  {
    SubsetSize(e.side.members.Keys - active.members.Keys, d.side.members.Keys - active.members.Keys);
  }

  lemma AddOne<T>(p: set<T>, a: set<T>, x: T)
    ensures |(p + {x}) - a| <= |p - a| + (if x in a || x in p then 0 else 1)
  {
    assert (p + {x}) - a == if x in a || x in p then p - a else (p - a) + {x};
  }

  lemma StoringCount(active: Side, d: Draft, o: Observation)
    ensures NewCount(active, Store(d, o)) <=
            NewCount(active, d) + (if o.id in active.members || o.id in d.side.members then 0 else 1)
  {
    AddOne(d.side.members.Keys, active.members.Keys, o.id);
    assert Store(d, o).side.members.Keys == d.side.members.Keys + {o.id};
  }

  lemma CountWithinPending(active: Side, d: Draft)
    ensures NewCount(active, d) <= |d.side.members| <= NewCount(active, d) + |active.members|
  {
    var p, a := d.side.members.Keys, active.members.Keys;
    assert p == (p - a) + (p * a);
    SubsetSize(p * a, a);
  }

  lemma NoNewOnes(active: Side)
    ensures NewCount(active, NO_DRAFT) == 0
  {
    assert NO_DRAFT.side.members.Keys - active.members.Keys == {};
  }

  lemma ObserveKeepsBounded(t: Table, input: Input)
    requires TableOk(t) && Bounded(t)
    ensures Bounded(Observe(t, input).0)
  {
    if Accepts(t, input) {
      FindOk(t.active, t.draft, t.nextGeneration, input);
      ConcludeKeepsBounded(t, Find(t.active, t.draft, input), input);
    }
  }

  lemma ConcludeKeepsBounded(t: Table, l: Lookup, input: Input)
    requires Bounded(t) && OnlyErased(t.draft, l.draft)
    requires l.resolved.Some? ==> l.resolved.value in t.active.members || l.resolved.value in l.draft.side.members
    ensures Bounded(Conclude(t, l, input).0)
  {
    var id := if l.resolved.Some? then l.resolved.value else SocketId(input.tuple.netns, input.cookie, t.nextGeneration);
    ErasingCount(t.active, t.draft, l.draft);
    StoringCount(t.active, l.draft, MakeObservation(id, input));
    CountWithinPending(t.active, l.draft);
  }

  lemma CommittedBounded(t: Table, u: Table)
    requires Bounded(t) && u.maxActive == t.maxActive && |u.closed| <= u.maxClosed
    requires (u.active == t.active || u.active == t.draft.side) && u.draft == NO_DRAFT
    ensures Bounded(u)
  {
    CountWithinPending(t.active, t.draft);
    NoNewOnes(u.active);
  }

  lemma CommitKeepsBounded(t: Table)
    requires TableOk(t) && Bounded(t)
    ensures Bounded(Commit(t))
  {
    hide SideOk, DraftOk;
    CommitExact(t);
    if t.inProgress { CommittedBounded(t, Commit(t)); }
  }

  lemma CloseKeepsBounded(t: Table, id: SocketId)
    requires Bounded(t)
    requires !t.inProgress ==> t.draft == NO_DRAFT
    ensures Bounded(Close(t, id))
  {
    assert (t.active.members - {id}).Keys == t.active.members.Keys - {id};
    SubsetSize(t.active.members.Keys - {id}, t.active.members.Keys);
    NoNewOnes(t.active);
    NoNewOnes(Reindexed(t.active.members - {id}));
  }
}
