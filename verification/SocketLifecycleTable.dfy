/** The table as the object it is: fields updated in place, scans and erase-while-iterating loops. */
module SocketLifecycle {
  import opened BoundedList
  import opened Entities
  import opened IdOrder
  import opened SocketTable
  import opened SocketTableProofs
  import Runs = SocketTableRuns

  class SocketLifecycleTable {
    const maxActive: nat
    const maxClosed: nat
    var inProgress: bool
    var disposition: Disposition
    var nextGeneration: nat
    var active: map<SocketId, Observation>
    var weakActive: map<SocketTuple, SocketId>
    var cookieActive: map<CookieKey, SocketId>
    var closed: seq<Observation>
    var pending: map<SocketId, Observation>
    var pendingWeak: map<SocketTuple, SocketId>
    var pendingCookie: map<CookieKey, SocketId>
    var pendingSeen: set<SocketId>
    var pendingSuperseded: set<SocketId>

    function Committed(): Side
      reads this
    {
      Side(active, cookieActive, weakActive)
    }

    function Candidate(): Draft
      reads this
    {
      Draft(Side(pending, pendingCookie, pendingWeak), pendingSeen, pendingSuperseded)
    }

    function State(): Table
      reads this
    {
      Table(maxActive, maxClosed, inProgress, disposition, nextGeneration, Committed(), closed, Candidate())
    }

    ghost predicate Valid()
      reads this
    {
      Runs.Sound(State())
    }

    constructor (maxActive: nat, maxClosed: nat)
      requires maxActive > 0 && maxClosed > 0
      ensures State() == Empty(maxActive, maxClosed) && Valid()
    {
      this.maxActive, this.maxClosed := maxActive, maxClosed;
      inProgress, disposition, nextGeneration := false, Failed, 1;
      active, weakActive, cookieActive, closed := map[], map[], map[], [];
      pending, pendingWeak, pendingCookie, pendingSeen, pendingSuperseded := map[], map[], map[], {}, {};
      new;
      Runs.EmptyTableValid(maxActive, maxClosed);
    }

    method BeginSnapshot(d: Disposition) returns (ok: bool)
      requires Valid()
      modifies this
      ensures State() == Begin(old(State()), d) && ok == !old(inProgress)
      ensures Valid()
    {
      hide Runs.Sound;
      Runs.StepKeepsSound(State(), Runs.BeginSnapshot(d));
      if inProgress { return false; }
      inProgress, disposition := true, d;
      pending, pendingWeak, pendingCookie, pendingSeen, pendingSuperseded := map[], map[], map[], {}, {};
      ok := true;
    }

    method SupersedeIdentity(id: SocketId)
      modifies this`pending, this`pendingSeen, this`pendingWeak, this`pendingCookie, this`pendingSuperseded
      ensures Candidate() == Supersede(Committed(), old(Candidate()), id)
    {
      var wasActive := id in active;
      pending := pending - {id};
      pendingSeen := pendingSeen - {id};
      pendingWeak := EraseValue(pendingWeak, id);
      pendingCookie := EraseValue(pendingCookie, id);
      if wasActive { pendingSuperseded := pendingSuperseded + {id}; }
    }

    method ResolveOrSupersede(m: map<SocketId, Observation>, id: SocketId, input: Input) returns (resolved: bool)
      modifies this`pending, this`pendingSeen, this`pendingWeak, this`pendingCookie, this`pendingSuperseded
      ensures resolved == (id in m && m[id].tuple == input.tuple)
      ensures Candidate() == if resolved then old(Candidate()) else Supersede(Committed(), old(Candidate()), id)
    {
      resolved := id in m && m[id].tuple == input.tuple;
      if !resolved { SupersedeIdentity(id); }
    }

    method FindByCookie(input: Input) returns (resolved: Option<SocketId>, inconsistent: bool)
      requires input.cookie.Some?
      modifies this`pending, this`pendingSeen, this`pendingWeak, this`pendingCookie, this`pendingSuperseded
      ensures Lookup(Candidate(), resolved, inconsistent) == Find(Committed(), old(Candidate()), input)
    {
      hide Supersede;
      resolved, inconsistent := None, false;
      var key := CookieKey(input.tuple.netns, input.cookie.value);
      if key in pendingCookie && pendingCookie[key] !in pendingSuperseded {
        var candidate := pendingCookie[key];
        var hit := ResolveOrSupersede(pending, candidate, input);
        if hit { resolved := Some(candidate); } else { inconsistent := true; }
      }
      if resolved.None? && key in cookieActive && cookieActive[key] !in pendingSuperseded {
        var candidate := cookieActive[key];
        var hit := ResolveOrSupersede(active, candidate, input);
        if hit { resolved := Some(candidate); } else { inconsistent := true; }
      }
      if resolved.None? {
        inconsistent := ResetCookieless(input, inconsistent);
      }
    }

    method ResetCookieless(input: Input, before: bool) returns (inconsistent: bool)
      modifies this`pending, this`pendingSeen, this`pendingWeak, this`pendingCookie, this`pendingSuperseded
      ensures Lookup(Candidate(), None, inconsistent) ==
              ResetWeak(Committed(), Lookup(old(Candidate()), None, before), input)
    {
      inconsistent := before;
      if input.tuple in pendingWeak && pendingWeak[input.tuple] !in pendingSuperseded {
        inconsistent := true;
        SupersedeIdentity(pendingWeak[input.tuple]);
      } else if input.tuple in weakActive && weakActive[input.tuple] !in pendingSuperseded {
        inconsistent := true;
        SupersedeIdentity(weakActive[input.tuple]);
      }
    }

    method FindByTuple(input: Input) returns (resolved: Option<SocketId>, inconsistent: bool)
      requires input.cookie.None?
      modifies this`pending, this`pendingSeen, this`pendingWeak, this`pendingCookie, this`pendingSuperseded
      ensures Lookup(Candidate(), resolved, inconsistent) == Find(Committed(), old(Candidate()), input)
    {
      resolved, inconsistent := None, false;
      if input.tuple in pendingWeak && pendingWeak[input.tuple] !in pendingSuperseded {
        resolved := Some(pendingWeak[input.tuple]);
      } else if input.tuple in weakActive && weakActive[input.tuple] !in pendingSuperseded {
        resolved := Some(weakActive[input.tuple]);
      } else {
        var fromPending := FirstMatch(pending, input.tuple, pendingSuperseded);
        if fromPending.Some? { inconsistent := true; SupersedeIdentity(fromPending.value); }
        var fromActive := FirstMatch(active, input.tuple, pendingSuperseded);
        if fromActive.Some? { inconsistent := true; SupersedeIdentity(fromActive.value); }
      }
    }

    method StoreObservation(id: SocketId, input: Input) returns (observation: Observation)
      requires id.cookie == input.cookie && id.netns == input.tuple.netns
      modifies this`pending, this`pendingSeen, this`pendingWeak, this`pendingCookie
      ensures observation == MakeObservation(id, input)
      ensures Candidate() == Store(old(Candidate()), observation)
    {
      observation := MakeObservation(id, input);
      pending := pending[id := observation];
      pendingSeen := pendingSeen + {id};
      if input.cookie.Some? {
        pendingCookie := pendingCookie[CookieKey(input.tuple.netns, input.cookie.value) := id];
      } else {
        pendingWeak := pendingWeak[input.tuple := id];
      }
    }

    method ObserveSocket(input: Input) returns (result: Option<Resolution>)
      requires Valid()
      modifies this
      ensures (State(), result) == Observe(old(State()), input)
      ensures Valid()
    {
      hide Runs.Sound, Find, Store, ValidInput;
      Runs.StepKeepsSound(State(), Runs.ObserveSocket(input));
      FindNames(State(), input);
      if !inProgress || disposition == Failed || !ValidInput(input) { return None; }
      var resolved, inconsistent, created := None, false, false;
      if input.cookie.Some? {
        resolved, inconsistent := FindByCookie(input);
      } else {
        resolved, inconsistent := FindByTuple(input);
      }
      if resolved.None? {
        if |active| + |pending| >= maxActive { return None; }
        resolved := Some(SocketId(input.tuple.netns, input.cookie, nextGeneration));
        nextGeneration := nextGeneration + 1;
        created := true;
      }
      var observation := StoreObservation(resolved.value, input);
      result := Some(Resolution(observation, created, inconsistent));
    }

    /** Closing entries are noted in key order; the pending ones overlay what is left; both indexes are rebuilt. */
    method CommitSnapshot() returns (ok: bool)
      requires Valid()
      modifies this
      ensures State() == Commit(old(State())) && ok == old(inProgress)
      ensures Valid()
    {
      hide Runs.Sound, Reindexed, Closing, Distinct, KeepLast;
      Runs.StepKeepsSound(State(), Runs.CommitSnapshot);
      SoundFacts(State());
      if !inProgress { return false; }
      if disposition == Authoritative { TakeOver(); }
      inProgress, disposition := false, Failed;
      pending, pendingWeak, pendingCookie, pendingSeen, pendingSuperseded := map[], map[], map[], {}, {};
      ok := true;
    }

    method TakeOver()
      requires Distinct(Merged(Committed(), Candidate())) && |closed| <= maxClosed
      modifies this`active, this`closed, this`cookieActive, this`weakActive
      ensures Committed() == Reindexed(Merged(old(Committed()), Candidate()))
      ensures closed == KeepLast(old(closed) + ClosedNotes(old(active), InOrder(Closing(old(Committed()), Candidate()))), maxClosed)
    {
      ghost var all := Closing(Committed(), Candidate());
      assert forall id :: id in all <==> id in active && (id !in pendingSeen || id in pendingSuperseded);
      hide Reindexed, Closing, Distinct, KeepLast, NoRepeats, ClosedNotes, InOrder;
      var toClose := CollectClosing(active.Keys, pendingSeen, pendingSuperseded, all);
      CloseAll(toClose);
      Overlay();
      assert active == Merged(old(Committed()), Candidate());
      hide Merged;
      cookieActive, weakActive := RebuildIndexes(active);
    }

    method CloseAll(toClose: seq<SocketId>)
      requires forall id :: id in toClose ==> id in active
      requires NoRepeats(toClose)
      requires |closed| <= maxClosed
      modifies this`active, this`closed
      ensures active == old(active) - (set id | id in toClose)
      ensures closed == KeepLast(old(closed) + ClosedNotes(old(active), toClose), maxClosed)
    {
      ghost var notes := ClosedNotes(active, toClose);
      hide KeepLast;
      for i := 0 to |toClose|
        invariant active == old(active) - (set id | id in toClose[..i])
        invariant closed == KeepLast(old(closed) + notes[..i], maxClosed)
      {
        var id := toClose[i];
        assert id !in toClose[..i];
        RememberClosed(active[id]);
        active := active - {id};
        assert toClose[..i + 1] == toClose[..i] + [id];
        assert old(closed) + notes[..i] + [notes[i]] == old(closed) + notes[..i + 1];
      }
      assert toClose[..|toClose|] == toClose && notes[..|toClose|] == notes;
    }

    method RememberClosed(o: Observation)
      modifies this`closed
      ensures forall s: seq<Observation> ::
                old(closed) == KeepLast(s, maxClosed) ==> closed == KeepLast(s + [MarkClosed(o)], maxClosed)
    {
      closed := closed + [MarkClosed(o)];
      while |closed| > maxClosed
        invariant closed == KeepLast(old(closed) + [MarkClosed(o)], |closed|)
        invariant |closed| >= maxClosed || closed == old(closed) + [MarkClosed(o)]
      {
        closed := closed[1..];
      }
      forall s: seq<Observation> | old(closed) == KeepLast(s, maxClosed)
        ensures closed == KeepLast(s + [MarkClosed(o)], maxClosed)
      {
      }
    }

    method Overlay()
      modifies this`active
      ensures active == old(active) + (map id | id in pending && id !in pendingSuperseded :: pending[id])
    {
      var rest := pending.Keys;
      while rest != {}
        invariant rest <= pending.Keys
        invariant active == old(active) +
                            (map id | id in pending && id !in pendingSuperseded && id !in rest :: pending[id])
        decreases |rest|
      {
        var id :| id in rest;
        if id !in pendingSuperseded { active := active[id := pending[id]]; }
        rest := rest - {id};
      }
    }

    method AbortSnapshot()
      requires Valid()
      modifies this
      ensures State() == Cleared(old(State()))
      ensures Valid()
    {
      hide Runs.Sound;
      Runs.StepKeepsSound(State(), Runs.AbortSnapshot);
      inProgress, disposition := false, Failed;
      pending, pendingWeak, pendingCookie, pendingSeen, pendingSuperseded := map[], map[], map[], {}, {};
    }

    method CloseSocket(id: SocketId) returns (ok: bool)
      requires Valid()
      modifies this
      ensures State() == Close(old(State()), id)
      ensures ok == (!old(inProgress) && id in old(active))
      ensures Valid()
    {
      hide Runs.Sound, Reindexed, Distinct, KeepLast;
      Runs.StepKeepsSound(State(), Runs.CloseSocket(id));
      SoundFacts(State());
      if inProgress || id !in active { return false; }
      RememberClosed(active[id]);
      active := active - {id};
      DistinctSubset(old(active), active);
      cookieActive, weakActive := RebuildIndexes(active);
      ok := true;
    }

    /** An indexed lookup finds what a scan of the active sockets would find. */
    method LookupCookie(key: CookieKey) returns (r: Option<SocketId>)
      requires Valid()
      ensures r.Some? <==> exists id :: id in active && id.cookie.Some? && KeyOf(id) == key
      ensures forall id :: id in active && id.cookie.Some? && KeyOf(id) == key ==> r == Some(id)
    {
      r := if key in cookieActive then Some(cookieActive[key]) else None;
    }

    method LookupTuple(tuple: SocketTuple) returns (r: Option<SocketId>)
      requires Valid()
      ensures r.Some? <==> exists id :: id in active && id.cookie.None? && active[id].tuple == tuple
      ensures forall id :: id in active && id.cookie.None? && active[id].tuple == tuple ==> r == Some(id)
    {
      r := if tuple in weakActive then Some(weakActive[tuple]) else None;
    }
  }

  /** What the methods below need of a sound table. */
  lemma SoundFacts(t: Table)
    requires Runs.Sound(t)
    ensures t.closed == KeepLast(t.closed, t.maxClosed) && |t.closed| <= t.maxClosed
    ensures Distinct(t.active.members) && Distinct(Merged(t.active, t.draft))
  {
    CommitExact(t);
    MergedIsPending(t.active, t.draft);
    SideIsDistinct(t.active, t.nextGeneration);
    SideIsDistinct(t.draft.side, t.nextGeneration);
  }

  lemma DistinctSubset(m: map<SocketId, Observation>, n: map<SocketId, Observation>)
    requires Distinct(m) && forall id :: id in n ==> id in m && n[id] == m[id]
    ensures Distinct(n)
  {
  }

  lemma FindNames(t: Table, input: Input)
    requires Runs.Sound(t)
    ensures var l := Find(t.active, t.draft, input);
            l.resolved.Some? ==> l.resolved.value.cookie == input.cookie && l.resolved.value.netns == input.tuple.netns
  {
    FindOk(t.active, t.draft, t.nextGeneration, input);
  }

  /** The identities to close, in key order. */
  method CollectClosing(keys: set<SocketId>, seen: set<SocketId>, superseded: set<SocketId>, ghost all: set<SocketId>)
    returns (toClose: seq<SocketId>)
    requires forall id :: id in all <==> id in keys && (id !in seen || id in superseded)
    ensures toClose == InOrder(all) && NoRepeats(toClose)
    ensures (set id | id in toClose) == all
  {
    InOrderDistinct(all);
    hide NoRepeats;
    toClose := [];
    var rest := keys;
    RemainingEnds(all, rest);
    hide Remaining;
    while rest != {}
      invariant rest <= keys
      invariant toClose + Remaining(all, rest) == InOrder(all)
      decreases |rest|
    {
      LeastExists(rest);
      var id :| id in rest && IsLeast(id, rest);
      TakeFirst(all, rest, id);
      ghost var later := Remaining(all, rest - {id});
      if id !in seen || id in superseded {
        Regroup(toClose, id, later);
        toClose := toClose + [id];
      }
      rest := rest - {id};
    }
  }

  method RebuildIndexes(m: map<SocketId, Observation>)
    returns (cookies: map<CookieKey, SocketId>, tuples: map<SocketTuple, SocketId>)
    requires Distinct(m)
    ensures Side(m, cookies, tuples) == Reindexed(m)
  {
    cookies, tuples := map[], map[];
    var rest := m.Keys;
    while rest != {}
      invariant rest <= m.Keys
      invariant forall id :: id in m ==>
                  if id.cookie.Some? then id !in rest ==> KeyOf(id) in cookies && cookies[KeyOf(id)] == id
                  else id !in rest ==> m[id].tuple in tuples && tuples[m[id].tuple] == id
      invariant forall k :: k in cookies ==> cookies[k] in m && cookies[k].cookie.Some? && KeyOf(cookies[k]) == k
      invariant forall k :: k in tuples ==> tuples[k] in m && tuples[k].cookie.None? && m[tuples[k]].tuple == k
      decreases |rest|
    {
      var id :| id in rest;
      if id.cookie.Some? { cookies := cookies[KeyOf(id) := id]; } else { tuples := tuples[m[id].tuple := id]; }
      rest := rest - {id};
    }
    ReindexedInverse(m);
    CookieIndexUnique(Side(m, cookies, tuples), Reindexed(m));
    TupleIndexUnique(Side(m, cookies, tuples), Reindexed(m));
  }

  method EraseValue<K(==), V(==)>(m: map<K, V>, v: V) returns (r: map<K, V>)
    ensures r == Without(m, v)
  {
    r := m;
    var rest := m.Keys;
    while rest != {}
      invariant rest <= m.Keys
      invariant forall k :: k in r <==> k in m && (k in rest || m[k] != v)
      invariant forall k :: k in r ==> r[k] == m[k]
      decreases |rest|
    {
      var k :| k in rest;
      if r[k] == v { r := r - {k}; }
      rest := rest - {k};
    }
  }

  /** The scan stops at the first cookie-backed match in key order. */
  method FirstMatch(m: map<SocketId, Observation>, tuple: SocketTuple, dead: set<SocketId>) returns (r: Option<SocketId>)
    ensures r == FirstCookieBacked(m, tuple, dead)
  {
    var rest := m.Keys;
    while rest != {}
      invariant rest <= m.Keys && CookieBacked(m, tuple, dead) <= rest
      decreases |rest|
    {
      LeastExists(rest);
      var id :| id in rest && IsLeast(id, rest);
      if id.cookie.Some? && m[id].tuple == tuple && id !in dead {
        LeastUnique(CookieBacked(m, tuple, dead), id, Least(CookieBacked(m, tuple, dead)));
        return Some(id);
      }
      rest := rest - {id};
    }
    r := None;
  }
}
