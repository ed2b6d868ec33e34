/** The socket table over whole runs: identities are never recycled, and a repeated snapshot changes nothing. */
module SocketTableRuns {
  import opened Entities
  import opened SocketTable
  import opened SocketTableProofs

  datatype Op = BeginSnapshot(disposition: Disposition) | ObserveSocket(input: Input) | CommitSnapshot | AbortSnapshot
              | CloseSocket(id: SocketId)

  ghost function Step(t: Table, op: Op): Table {
    match op
    case BeginSnapshot(d) => Begin(t, d)
    case ObserveSocket(input) => Observe(t, input).0
    case CommitSnapshot => Commit(t)
    case AbortSnapshot => Cleared(t)
    case CloseSocket(id) => Close(t, id)
  }

  ghost function Run(t: Table, ops: seq<Op>): Table
    decreases |ops|
  {
    if ops == [] then t else Run(Step(t, ops[0]), ops[1..])
  }

  predicate Sound(t: Table) {
    TableOk(t) && Bounded(t)
  }

  lemma StepKeepsSound(t: Table, op: Op)
    requires Sound(t)
    ensures Sound(Step(t, op))
  {
    match op {
      case BeginSnapshot(d) => DiscardKeepsSound(t, Begin(t, d));
      case ObserveSocket(input) => hide TableOk, Bounded; ObserveKeepsValid(t, input); ObserveKeepsBounded(t, input);
      case CommitSnapshot => hide TableOk, Bounded; CommitKeepsValid(t); CommitKeepsBounded(t);
      case AbortSnapshot => DiscardKeepsSound(t, Cleared(t));
      case CloseSocket(id) =>
        assert !t.inProgress ==> t.draft == NO_DRAFT;
        hide TableOk, Bounded; CloseKeepsValid(t, id); CloseKeepsBounded(t, id);
    }
  }

  lemma DiscardKeepsSound(t: Table, u: Table)
    requires Sound(t)
    requires u == t || u == t.(draft := NO_DRAFT, inProgress := u.inProgress, disposition := u.disposition)
    ensures Sound(u)
  {
    EmptyDraftOk(t.active, t.nextGeneration);
    NoNewOnes(t.active);
    hide NewCount, SideOk, DraftOk;
  }

  lemma EmptyDraftOk(active: Side, g: nat)
    ensures DraftOk(active, NO_DRAFT, g)
  {
  }

  lemma {:induction false} RunKeepsSound(t: Table, ops: seq<Op>)
    requires Sound(t)
    ensures Sound(Run(t, ops))
    decreases |ops|
  {
    hide Sound, Step;
    if ops != [] {
      StepKeepsSound(t, ops[0]);
      RunKeepsSound(Step(t, ops[0]), ops[1..]);
    }
  }

  lemma EmptyTableValid(maxActive: nat, maxClosed: nat)
    ensures TableOk(Empty(maxActive, maxClosed)) && Bounded(Empty(maxActive, maxClosed))
  {
    NoNewOnes(NO_SIDE);
  }

  // ---------- Identities over a run ----------

  predicate IsLive(t: Table, id: SocketId) {
    id in t.active.members || id in t.draft.side.members
  }

  function TupleOf(t: Table, id: SocketId): SocketTuple
    requires IsLive(t, id)
  {
    if id in t.active.members then t.active.members[id].tuple else t.draft.side.members[id].tuple
  }

  /** Generations only grow, and every later identity is either a surviving one, unchanged, or a new one. */
  ghost predicate Follows(t: Table, u: Table) {
    && t.nextGeneration <= u.nextGeneration
    && (forall id :: IsLive(t, id) ==> id.generation < t.nextGeneration)
    && (forall id :: IsLive(u, id) ==>
          (if IsLive(t, id) then TupleOf(u, id) == TupleOf(t, id) else t.nextGeneration <= id.generation))
  }

  lemma ConcludeFollows(t: Table, l: Lookup, input: Input)
    requires WellNamed(t.active.members, t.nextGeneration) && WellNamed(t.draft.side.members, t.nextGeneration)
    requires OnlyErased(t.draft, l.draft)
    requires l.resolved.Some? ==> Resolves(t.active, l.draft, l.resolved.value, input)
    ensures Follows(t, Conclude(t, l, input).0)
  {
    var u := Conclude(t, l, input).0;
    assert u.active == t.active;
    forall id | IsLive(u, id) && id !in t.active.members
      ensures if IsLive(t, id) then TupleOf(u, id) == TupleOf(t, id) else t.nextGeneration <= id.generation
    {
      if id in l.draft.side.members {
        assert id in t.draft.side.members;
      }
    }
  }

  lemma ObserveFollows(t: Table, input: Input)
    requires TableOk(t)
    ensures Follows(t, Observe(t, input).0)
  {
    if Accepts(t, input) {
      FindOk(t.active, t.draft, t.nextGeneration, input);
      ConcludeFollows(t, Find(t.active, t.draft, input), input);
    }
  }

  lemma CommitFollows(t: Table)
    requires TableOk(t)
    ensures Follows(t, Commit(t))
  {
    CommitExact(t);
  }

  lemma StepFollows(t: Table, op: Op)
    requires Sound(t)
    ensures Follows(t, Step(t, op))
  {
    hide CookieInverse, TupleInverse, Bounded;
    match op {
      case BeginSnapshot(_) =>
      case ObserveSocket(input) => hide Follows, Observe; ObserveFollows(t, input);
      case CommitSnapshot => hide Follows, Commit; CommitFollows(t);
      case AbortSnapshot =>
      case CloseSocket(id) => CloseKeepsValid(t, id);
    }
  }

  lemma FollowsTransitive(t: Table, u: Table, v: Table)
    requires Follows(t, u) && Follows(u, v)
    ensures Follows(t, v)
  {
  }

  lemma {:induction false} RunFollows(t: Table, ops: seq<Op>)
    requires Sound(t)
    ensures Follows(t, Run(t, ops))
    decreases |ops|
  {
    if ops == [] {
      assert forall id :: IsLive(t, id) ==> id.generation < t.nextGeneration;
    } else {
      hide Sound, Step, Follows;
      StepKeepsSound(t, ops[0]);
      StepFollows(t, ops[0]);
      RunFollows(Step(t, ops[0]), ops[1..]);
      FollowsTransitive(t, Step(t, ops[0]), Run(t, ops));
    }
  }

  /** An identity that has stopped being live is never live, hence never active, again. */
  lemma RetiredForGood(t: Table, ops: seq<Op>, id: SocketId)
    requires Sound(t)
    requires id.generation < t.nextGeneration && !IsLive(t, id)
    ensures !IsLive(Run(t, ops), id)
  {
    RunFollows(t, ops);
  }

  lemma CommitRetires(t: Table, id: SocketId)
    requires TableOk(t) && t.inProgress && t.disposition == Authoritative && id in Closing(t.active, t.draft)
    ensures !IsLive(Commit(t), id) && id.generation < Commit(t).nextGeneration
  {
    CommitExact(t);
  }

  /** The identities a commit closes are retired for good. */
  lemma ClosedForGood(t: Table, ops: seq<Op>, id: SocketId)
    requires Sound(t) && t.inProgress && t.disposition == Authoritative
    requires id in Closing(t.active, t.draft)
    ensures id !in Run(Step(t, CommitSnapshot), ops).active.members
  {
    hide TableOk, Bounded, Run, Commit, Closing;
    CommitRetires(t, id);
    StepKeepsSound(t, CommitSnapshot);
    RetiredForGood(Step(t, CommitSnapshot), ops, id);
  }

  /** An identity a snapshot has given up on stays active unless that snapshot is committed as authoritative. */
  lemma SupersededFate(t: Table, id: SocketId)
    requires Sound(t) && id in t.draft.superseded
    ensures id in Cleared(t).active.members
    ensures t.inProgress ==> (id in Commit(t).active.members <==> t.disposition != Authoritative)
  {
    CommitExact(t);
  }

  // ---------- A snapshot that is not authoritative, or is given up ----------

  ghost function ObserveAll(t: Table, inputs: seq<Input>): Table {
    if inputs == [] then t else Observe(ObserveAll(t, inputs[..|inputs| - 1]), inputs[|inputs| - 1]).0
  }

  ghost predicate AllAccepted(t: Table, inputs: seq<Input>) {
    forall i :: 0 <= i < |inputs| ==> Observe(ObserveAll(t, inputs[..i]), inputs[i]).1.Some?
  }

  lemma {:induction false} ObserveAllFrame(t: Table, inputs: seq<Input>)
    requires Sound(t)
    ensures var u := ObserveAll(t, inputs);
            && TableOk(u) && Bounded(u)
            && u == t.(draft := u.draft, nextGeneration := u.nextGeneration)
            && t.nextGeneration <= u.nextGeneration
  {
    hide TableOk, Bounded;
    if inputs != [] {
      var p := inputs[..|inputs| - 1];
      ObserveAllFrame(t, p);
      ObserveKeepsValid(ObserveAll(t, p), inputs[|inputs| - 1]);
      ObserveKeepsBounded(ObserveAll(t, p), inputs[|inputs| - 1]);
    }
  }

  /** Only generation numbers are spent: the committed sockets, the indexes and the closed list are as before. */
  lemma AbandonedSnapshotChangesNothing(t: Table, d: Disposition, inputs: seq<Input>)
    requires Sound(t) && !t.inProgress
    ensures var u := ObserveAll(Begin(t, d), inputs);
            && Cleared(u) == Cleared(t).(nextGeneration := u.nextGeneration)
            && (d != Authoritative ==> Commit(u) == Cleared(u))
  {
    var b := Step(t, BeginSnapshot(d));
    StepKeepsSound(t, BeginSnapshot(d));
    ObserveAllFrame(b, inputs);
    CommitExact(ObserveAll(b, inputs));
  }

  // ---------- Observing the same records again ----------

  /** What a record says about who the socket is. */
  type Who = (SocketTuple, Option<nat>)

  function Listed(rs: seq<Input>): set<Who> {
    set r | r in rs :: (r.tuple, r.cookie)
  }

  function Known(m: map<SocketId, Observation>): set<Who> {
    set id | id in m :: (m[id].tuple, id.cookie)
  }

  /** Distinct cookies, and a tuple seen without a cookie belongs to no other record. */
  predicate Distinguishable(a: Input, b: Input) {
    if a.cookie.Some? && b.cookie.Some?
    then CookieKey(a.tuple.netns, a.cookie.value) != CookieKey(b.tuple.netns, b.cookie.value)
    else a.tuple != b.tuple
  }

  predicate PairwiseDistinguishable(rs: seq<Input>) {
    forall i, j :: 0 <= i < j < |rs| ==> Distinguishable(rs[i], rs[j])
  }

  lemma EraseAbsent(s: Side, g: nat, id: SocketId)
    requires SideOk(s, g) && id !in s.members
    ensures Erase(s, id) == s
  {
    assert Without(s.byCookie, id) == s.byCookie;
    assert Without(s.byTuple, id) == s.byTuple;
  }

  /** No pending identity stands for a record that could be confused with `r`. */
  predicate Unconfused(s: Side, r: Input) {
    && (forall id :: id in s.members ==>
          if r.cookie.Some? && id.cookie.Some? then KeyOf(id) != CookieKey(r.tuple.netns, r.cookie.value)
          else s.members[id].tuple != r.tuple)
  }

  lemma FindUnconfused(active: Side, d: Draft, g: nat, r: Input)
    requires SideOk(active, g) && DraftOk(active, d, g) && Unconfused(d.side, r)
    ensures Find(active, d, r).draft.side == d.side
  {
    if r.cookie.Some? {
      FindUnconfusedCookie(active, d, g, r);
    } else {
      FindUnconfusedTuple(active, d, g, r);
    }
  }

  lemma FindUnconfusedCookie(active: Side, d: Draft, g: nat, r: Input)
    requires SideOk(active, g) && DraftOk(active, d, g) && Unconfused(d.side, r) && r.cookie.Some?
    ensures Find(active, d, r).draft.side == d.side
  {
    var l0 := Lookup(d, None, false);
    assert ByCookie(active, l0, d.side, r) == l0;
    var l2 := ByCookie(active, l0, active, r);
    var c := Live(active.byCookie, CookieKey(r.tuple.netns, r.cookie.value), d.superseded);
    if c.Some? { EraseAbsent(d.side, g, c.value); }
    assert l2.draft.side == d.side;
    var w := Live(active.byTuple, r.tuple, l2.draft.superseded);
    assert Live(l2.draft.side.byTuple, r.tuple, l2.draft.superseded).None?;
    if w.Some? {
      assert w.value !in d.side.members;
      EraseAbsent(d.side, g, w.value);
    }
  }

  lemma FindUnconfusedTuple(active: Side, d: Draft, g: nat, r: Input)
    requires SideOk(active, g) && DraftOk(active, d, g) && Unconfused(d.side, r) && r.cookie.None?
    ensures Find(active, d, r).draft.side == d.side
  {
    assert r.tuple !in d.side.byTuple;
    assert CookieBacked(d.side.members, r.tuple, d.superseded) == {};
    var ca := FirstCookieBacked(active.members, r.tuple, d.superseded);
    if ca.Some? {
      assert ca.value !in d.side.members;
      EraseAbsent(d.side, g, ca.value);
    }
  }

  lemma KnownUnconfused(s: Side, rs: seq<Input>, r: Input, g: nat)
    requires Known(s.members) == Listed(rs) && WellNamed(s.members, g)
    requires forall q :: q in rs ==> Distinguishable(q, r)
    ensures Unconfused(s, r)
  {
    forall id | id in s.members
      ensures if r.cookie.Some? && id.cookie.Some? then KeyOf(id) != CookieKey(r.tuple.netns, r.cookie.value)
              else s.members[id].tuple != r.tuple
    {
      assert (s.members[id].tuple, id.cookie) in Listed(rs);
    }
  }

  /** Overwriting or adding the identity that stands for a record. */
  lemma KnownInserted(m: map<SocketId, Observation>, o: Observation)
    requires o.id in m ==> m[o.id].tuple == o.tuple
    ensures Known(m[o.id := o]) == Known(m) + {(o.tuple, o.id.cookie)}
  {
    var n := m[o.id := o];
    forall w | w in Known(m) + {(o.tuple, o.id.cookie)}
      ensures w in Known(n)
    {
      if w in Known(m) {
        var id :| id in m && w == (m[id].tuple, id.cookie);
        assert w == (n[id].tuple, id.cookie) && id in n;
      } else {
        assert o.id in n;
      }
    }
  }

  lemma ObserveLearns(t: Table, rs: seq<Input>, r: Input)
    requires TableOk(t) && Known(t.draft.side.members) == Listed(rs)
    requires forall q :: q in rs ==> Distinguishable(q, r)
    requires Observe(t, r).1.Some?
    ensures Known(Observe(t, r).0.draft.side.members) == Listed(rs) + {(r.tuple, r.cookie)}
  {
    KnownUnconfused(t.draft.side, rs, r, t.nextGeneration);
    FindOk(t.active, t.draft, t.nextGeneration, r);
    FindUnconfused(t.active, t.draft, t.nextGeneration, r);
    hide Known, Listed, Find, Unconfused, CookieInverse, TupleInverse, OnlyErased;
    KnownInserted(t.draft.side.members, Observe(t, r).1.value.observation);
  }

  lemma PrefixOfSnapshot(t: Table, rs: seq<Input>)
    requires rs != [] && AllAccepted(t, rs) && PairwiseDistinguishable(rs)
    ensures var p, r := rs[..|rs| - 1], rs[|rs| - 1];
            && AllAccepted(t, p) && Observe(ObserveAll(t, p), r).1.Some?
            && PairwiseDistinguishable(p) && (forall q :: q in p ==> Distinguishable(q, r))
  {
    hide Observe, ObserveAll, Distinguishable;
    var p := rs[..|rs| - 1];
    forall i | 0 <= i < |p|
      ensures Observe(ObserveAll(t, p[..i]), p[i]).1.Some?
    {
      assert p[..i] == rs[..i] && p[i] == rs[i];
    }
  }

  lemma ListedLast(rs: seq<Input>)
    requires rs != []
    ensures var p, r := rs[..|rs| - 1], rs[|rs| - 1]; Listed(rs) == Listed(p) + {(r.tuple, r.cookie)}
  {
    var p, r := rs[..|rs| - 1], rs[|rs| - 1];
    assert rs == p + [r];
    assert forall q :: q in rs <==> q in p || q == r;
  }

  lemma {:induction false} SnapshotLearnsAll(t: Table, rs: seq<Input>)
    requires Sound(t) && t.draft == NO_DRAFT && PairwiseDistinguishable(rs) && AllAccepted(t, rs)
    ensures Known(ObserveAll(t, rs).draft.side.members) == Listed(rs)
  {
    if rs != [] {
      hide TableOk, Bounded, Observe, Known, Listed, AllAccepted, PairwiseDistinguishable, Distinguishable;
      var p, r := rs[..|rs| - 1], rs[|rs| - 1];
      PrefixOfSnapshot(t, rs);
      SnapshotLearnsAll(t, p);
      ObserveAllFrame(t, p);
      ObserveLearns(ObserveAll(t, p), p, r);
      ListedLast(rs);
    }
  }

  /** While everything observed so far was already active, looking up an active socket finds just that socket. */
  lemma FindHit(active: Side, d: Draft, g: nat, r: Input, id: SocketId)
    requires SideOk(active, g) && DraftOk(active, d, g) && d.superseded == {}
    requires forall x :: x in d.side.members ==> x in active.members
    requires id in active.members && id.cookie == r.cookie && active.members[id].tuple == r.tuple
    ensures Find(active, d, r) == Lookup(d, Some(id), false)
  {
    if r.cookie.Some? {
      hide TupleInverse;
      FindHitByCookie(active, d, r, id);
    } else {
      hide CookieInverse;
      FindHitByTuple(active, d, r, id);
    }
  }

  lemma FindHitByCookie(active: Side, d: Draft, r: Input, id: SocketId)
    requires CookieInverse(active) && CookieInverse(d.side) && d.superseded == {} && r.cookie.Some?
    requires forall x :: x in d.side.members ==> x in active.members && active.members[x].tuple == d.side.members[x].tuple
    requires id in active.members && id.cookie == r.cookie && active.members[id].tuple == r.tuple
    requires id.netns == r.tuple.netns
    ensures Find(active, d, r) == Lookup(d, Some(id), false)
  {
    var k := CookieKey(r.tuple.netns, r.cookie.value);
    assert KeyOf(id) == k && active.byCookie[k] == id;
    if k in d.side.byCookie {
      assert d.side.byCookie[k] == id;
    }
  }

  lemma FindHitByTuple(active: Side, d: Draft, r: Input, id: SocketId)
    requires TupleInverse(active) && TupleInverse(d.side) && d.superseded == {} && r.cookie.None?
    requires forall x :: x in d.side.members ==> x in active.members && active.members[x].tuple == d.side.members[x].tuple
    requires id in active.members && id.cookie == r.cookie && active.members[id].tuple == r.tuple
    ensures Find(active, d, r) == Lookup(d, Some(id), false)
  {
    assert active.byTuple[r.tuple] == id;
    if r.tuple in d.side.byTuple {
      assert d.side.byTuple[r.tuple] == id;
    }
  }

  predicate Refreshing(t: Table) {
    && t.inProgress && t.disposition == Authoritative && t.draft.superseded == {}
    && (forall x :: x in t.draft.side.members ==> x in t.active.members)
  }

  lemma ReplayOne(t: Table, r: Input)
    requires TableOk(t) && Refreshing(t) && ValidInput(r) && (r.tuple, r.cookie) in Known(t.active.members)
    ensures var (u, result) := Observe(t, r);
            && Refreshing(u) && u == t.(draft := u.draft)
            && result.Some? && !result.value.created && !result.value.inconsistent
            && Known(u.draft.side.members) == Known(t.draft.side.members) + {(r.tuple, r.cookie)}
  {
    var id :| id in t.active.members && id.cookie == r.cookie && t.active.members[id].tuple == r.tuple;
    FindHit(t.active, t.draft, t.nextGeneration, r, id);
    hide Find, Known;
    KnownInserted(t.draft.side.members, MakeObservation(id, r));
  }

  lemma OneMoreAccepted(t: Table, rs: seq<Input>)
    requires rs != [] && AllAccepted(t, rs[..|rs| - 1])
    requires Observe(ObserveAll(t, rs[..|rs| - 1]), rs[|rs| - 1]).1.Some?
    ensures AllAccepted(t, rs)
  {
    hide Observe, ObserveAll;
    var p := rs[..|rs| - 1];
    forall i | 0 <= i < |rs|
      ensures Observe(ObserveAll(t, rs[..i]), rs[i]).1.Some?
    {
      if i < |p| { assert p[..i] == rs[..i] && p[i] == rs[i]; }
    }
  }

  lemma {:induction false} ReplayAll(t: Table, rs: seq<Input>)
    requires Sound(t) && t.draft == NO_DRAFT && Refreshing(t)
    requires Listed(rs) <= Known(t.active.members) && forall r :: r in rs ==> ValidInput(r)
    ensures var u := ObserveAll(t, rs);
            && Sound(u) && Refreshing(u) && u == t.(draft := u.draft)
            && Known(u.draft.side.members) == Listed(rs)
    ensures AllAccepted(t, rs)
  {
    if rs != [] {
      hide TableOk, Bounded, Observe, Known, Listed, Refreshing, AllAccepted;
      var p, r := rs[..|rs| - 1], rs[|rs| - 1];
      ListedLast(rs);
      ReplayAll(t, p);
      ReplayOne(ObserveAll(t, p), r);
      ObserveAllFrame(t, rs);
      OneMoreAccepted(t, rs);
    }
  }

  /** Two sides of the same table that know the same sockets have the same identities. */
  lemma SameKnownSameIds(active: Side, d: Draft, g: nat)
    requires SideOk(active, g) && DraftOk(active, d, g)
    requires forall x :: x in d.side.members ==> x in active.members
    requires Known(d.side.members) == Known(active.members)
    ensures d.side.members.Keys == active.members.Keys
  {
    forall id | id in active.members
      ensures id in d.side.members
    {
      assert (active.members[id].tuple, id.cookie) in Known(d.side.members);
      var x :| x in d.side.members && d.side.members[x].tuple == active.members[id].tuple && x.cookie == id.cookie;
      assert active.members[x].tuple == active.members[id].tuple;
    }
  }

  lemma RefreshClosesNothing(t: Table)
    requires TableOk(t) && Bounded(t) && Refreshing(t) && t.draft.side.members.Keys == t.active.members.Keys
    ensures var u := Commit(t);
            u.active == t.draft.side && u.closed == t.closed && u.nextGeneration == t.nextGeneration
  {
    CommitExact(t);
    assert Closing(t.active, t.draft) == {};
  }

  /** From an active side that knows exactly the records, a whole snapshot of them keeps every identity. */
  lemma KnownSnapshotIsStable(t: Table, rs: seq<Input>)
    requires Sound(t) && !t.inProgress && Known(t.active.members) == Listed(rs) && forall r :: r in rs ==> ValidInput(r)
    ensures AllAccepted(Begin(t, Authoritative), rs)
    ensures var u := Commit(ObserveAll(Begin(t, Authoritative), rs));
            && u.active.members.Keys == t.active.members.Keys
            && u.nextGeneration == t.nextGeneration && u.closed == t.closed
  {
    hide SideOk, DraftOk, Known, Listed, Commit, ObserveAll, NewCount;
    var b := Begin(t, Authoritative);
    StepKeepsSound(t, BeginSnapshot(Authoritative));
    ReplayAll(b, rs);
    var u := ObserveAll(b, rs);
    SameKnownSameIds(u.active, u.draft, u.nextGeneration);
    RefreshClosesNothing(u);
  }

  /**
   * A committed snapshot, observed again in any order and with any repetitions, keeps every identity, spends no
   * generation and closes nothing.
   */
  lemma ReplayedSnapshotIsStable(t: Table, first: seq<Input>, again: seq<Input>)
    requires Sound(t) && !t.inProgress
    requires PairwiseDistinguishable(first) && AllAccepted(Begin(t, Authoritative), first)
    requires Listed(again) == Listed(first) && forall r :: r in again ==> ValidInput(r)
    ensures var u := Commit(ObserveAll(Begin(t, Authoritative), first));
            var v := Commit(ObserveAll(Begin(u, Authoritative), again));
            && AllAccepted(Begin(u, Authoritative), again)
            && v.active.members.Keys == u.active.members.Keys
            && v.nextGeneration == u.nextGeneration && v.closed == u.closed
  {
    hide SideOk, DraftOk, Known, Listed, Commit, ObserveAll, NewCount, AllAccepted, PairwiseDistinguishable;
    var b := Begin(t, Authoritative);
    StepKeepsSound(t, BeginSnapshot(Authoritative));
    SnapshotLearnsAll(b, first);
    var o := ObserveAll(b, first);
    ObserveAllFrame(b, first);
    CommitExact(o);
    StepKeepsSound(o, CommitSnapshot);
    assert !Commit(o).inProgress by { CommitEnds(o); }
    KnownSnapshotIsStable(Commit(o), again);
  }

  lemma CommitEnds(t: Table)
    ensures !Commit(t).inProgress
  {
  }

  // ---------- Identities that were given up ----------

  /** Closing a socket outside a snapshot retires it for good. */
  lemma CloseIsForGood(t: Table, ops: seq<Op>, id: SocketId)
    requires Sound(t) && !t.inProgress && id in t.active.members
    ensures id !in Run(Step(t, CloseSocket(id)), ops).active.members
  {
    hide TableOk, Bounded, Run, Close;
    StepKeepsSound(t, CloseSocket(id));
    CloseRetires(t, id);
    RetiredForGood(Step(t, CloseSocket(id)), ops, id);
  }

  lemma CloseRetires(t: Table, id: SocketId)
    requires TableOk(t) && !t.inProgress && id in t.active.members
    ensures !IsLive(Close(t, id), id) && id.generation < Close(t, id).nextGeneration
  {
    hide CookieInverse, TupleInverse, WithCookie, WithTuple;
  }

  lemma {:induction false} ObserveAllKeepsSuperseded(t: Table, inputs: seq<Input>, id: SocketId)
    requires Sound(t) && id in t.draft.superseded
    ensures id in ObserveAll(t, inputs).draft.superseded
  {
    if inputs != [] {
      var p := inputs[..|inputs| - 1];
      ObserveAllKeepsSuperseded(t, p, id);
      ObserveAllFrame(t, p);
      ObserveKeepsSuperseded(ObserveAll(t, p), inputs[|inputs| - 1], id);
    }
  }

  lemma ObserveKeepsSuperseded(t: Table, input: Input, id: SocketId)
    requires TableOk(t) && id in t.draft.superseded
    ensures id in Observe(t, input).0.draft.superseded
  {
    if Accepts(t, input) {
      FindOk(t.active, t.draft, t.nextGeneration, input);
      hide Find, SideOk, DraftOk;
    }
  }

  /**
   * An identity superseded at any point of an authoritative snapshot is never active again once the snapshot is
   * committed, whatever is observed in between and whatever happens afterwards.
   */
  lemma SupersededForGood(t: Table, inputs: seq<Input>, ops: seq<Op>, id: SocketId)
    requires Sound(t) && t.inProgress && t.disposition == Authoritative && id in t.draft.superseded
    ensures id !in Run(Commit(ObserveAll(t, inputs)), ops).active.members
  {
    hide Run, ObserveAll, Bounded;
    ObserveAllKeepsSuperseded(t, inputs, id);
    ObserveAllFrame(t, inputs);
    var u := ObserveAll(t, inputs);
    assert id in Closing(u.active, u.draft);
    hide TableOk, Closing, Commit;
    ClosedForGood(u, ops, id);
  }

  /** A cookie that turns up with another tuple supersedes the active identity that had it. */
  lemma CookieReuseSupersedes(t: Table, input: Input, id: SocketId)
    requires TableOk(t) && Accepts(t, input) && t.draft == NO_DRAFT && input.cookie.Some?
    requires id in t.active.members && id.cookie == input.cookie && id.netns == input.tuple.netns
    requires t.active.members[id].tuple != input.tuple
    ensures id in Observe(t, input).0.draft.superseded
  {
    assert t.active.byCookie[CookieKey(input.tuple.netns, input.cookie.value)] == id by {
      assert KeyOf(id) == CookieKey(input.tuple.netns, input.cookie.value);
    }
    hide SideOk, DraftOk, TableOk;
    var l1 := ByCookie(t.active, Lookup(t.draft, None, false), t.draft.side, input);
    assert l1 == Lookup(t.draft, None, false);
    var l2 := ByCookie(t.active, l1, t.active, input);
    assert id in l2.draft.superseded;
  }

  function ExampleInput(a: Address, port: nat): Input {
    var netns := NetnsId(1, 1);
    Input(SocketTuple(netns, TCP, AF_INET, Endpoint(AF_INET, a, port), Endpoint(AF_INET, a, 80)), Some(1), 0, 0, Valid, true, None, 0)
  }

  const EXAMPLE_ID := SocketId(NetnsId(1, 1), Some(1), 1)

  function ExampleRun(a: Address): seq<Op> {
    [BeginSnapshot(Authoritative), ObserveSocket(ExampleInput(a, 1)), CommitSnapshot, BeginSnapshot(Authoritative),
     ObserveSocket(ExampleInput(a, 2))]
  }

  lemma ExampleTable(a: Address)
    ensures Run(Empty(4, 4), ExampleRun(a)) ==
            Observe(Begin(Commit(Observe(Begin(Empty(4, 4), Authoritative), ExampleInput(a, 1)).0), Authoritative), ExampleInput(a, 2)).0
  {
    hide Commit, Observe, Begin, ExampleInput, Empty, Run;
    FiveSteps(Empty(4, 4), BeginSnapshot(Authoritative), ObserveSocket(ExampleInput(a, 1)), CommitSnapshot,
              BeginSnapshot(Authoritative), ObserveSocket(ExampleInput(a, 2)));
  }

  /** A run in which an active identity is superseded and, the snapshot being aborted, stays active. */
  lemma SupersededThenAborted(a: Address)
    ensures var t := Run(Empty(4, 4), ExampleRun(a));
            EXAMPLE_ID in t.draft.superseded && EXAMPLE_ID in Step(t, AbortSnapshot).active.members
  {
    FirstSnapshot(a);
    ExampleTable(a);
    hide Commit, Observe, Begin, Sound, ExampleInput, Empty, Run, ExampleRun;
    SecondSnapshot(Commit(Observe(Begin(Empty(4, 4), Authoritative), ExampleInput(a, 1)).0), a);
  }

  lemma SecondSnapshot(t: Table, a: Address)
    requires Sound(t) && !t.inProgress
    requires EXAMPLE_ID in t.active.members && t.active.members[EXAMPLE_ID].tuple == ExampleInput(a, 1).tuple
    ensures var u := Observe(Begin(t, Authoritative), ExampleInput(a, 2)).0;
            EXAMPLE_ID in u.draft.superseded && EXAMPLE_ID in u.active.members
  {
    hide TableOk, Bounded, Observe;
    StepKeepsSound(t, BeginSnapshot(Authoritative));
    CookieReuseSupersedes(Begin(t, Authoritative), ExampleInput(a, 2), EXAMPLE_ID);
    ObserveKeepsActive(Begin(t, Authoritative), ExampleInput(a, 2));
  }

  lemma ObserveKeepsActive(t: Table, input: Input)
    ensures Observe(t, input).0.active == t.active
  {
    hide Find;
  }

  lemma FirstSnapshot(a: Address)
    ensures var id := EXAMPLE_ID;
            var in1 := ExampleInput(a, 1);
            var t := Commit(Observe(Begin(Empty(4, 4), Authoritative), in1).0);
            Sound(t) && !t.inProgress && id in t.active.members && t.active.members[id].tuple == in1.tuple
  {
    var (in1, id) := (ExampleInput(a, 1), EXAMPLE_ID);
    EmptyTableValid(4, 4);
    hide TableOk, Bounded, Observe, Commit;
    var t1 := Begin(Empty(4, 4), Authoritative);
    StepKeepsSound(Empty(4, 4), BeginSnapshot(Authoritative));
    StepKeepsSound(t1, ObserveSocket(in1));
    FirstObservation(t1, in1);
    var t2 := Observe(t1, in1).0;
    StepKeepsSound(t2, CommitSnapshot);
    CommitExact(t2);
    CommitEnds(t2);
  }

  lemma FirstObservation(t: Table, input: Input)
    requires TableOk(t) && Accepts(t, input) && t.draft == NO_DRAFT && t.active == NO_SIDE && t.maxActive > 0 && input.cookie.Some?
    ensures var id := SocketId(input.tuple.netns, input.cookie, t.nextGeneration);
            var u := Observe(t, input).0;
            u == t.(nextGeneration := t.nextGeneration + 1, draft := u.draft)
            && u.draft.side.members == map[id := MakeObservation(id, input)]
  {
    hide TableOk;
    assert Find(t.active, t.draft, input) == Lookup(NO_DRAFT, None, false);
    hide Find;
  }

  lemma FiveSteps(t: Table, a: Op, b: Op, c: Op, d: Op, e: Op)
    ensures Run(t, [a, b, c, d, e]) == Step(Step(Step(Step(Step(t, a), b), c), d), e)
  {
    hide Step;
    assert [a, b, c, d, e][1..] == [b, c, d, e] && [b, c, d, e][1..] == [c, d, e] && [c, d, e][1..] == [d, e];
    assert [d, e][1..] == [e] && [e][1..] == [];
    var t1 := Step(t, a);
    var t2 := Step(t1, b);
    var t3 := Step(t2, c);
    var t4 := Step(t3, d);
    assert Run(Step(t4, e), []) == Step(t4, e);
    assert Run(t4, [e]) == Step(t4, e);
    assert Run(t3, [d, e]) == Run(t4, [e]);
    assert Run(t2, [c, d, e]) == Run(t3, [d, e]);
    assert Run(t1, [b, c, d, e]) == Run(t2, [c, d, e]);
  }
}
