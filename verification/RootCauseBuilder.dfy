/** The passes of the source over a map of candidates, against the candidate of each single key. */
module RootCauseBuilder {
  import opened Entities
  import opened RootCauseModel
  import opened RootCauseRules
  import I = IncidentModel

  type Hypotheses = map<CauseKey, Hypothesis>

  function At(c: Hypotheses, k: CauseKey): Option<Hypothesis> {
    if k in c then Some(c[k]) else None
  }

  /** What the incidents open is of these types only. */
  predicate OpeningType(k: CauseKey) {
    k.typ == UplinkAvailabilityProblem || k.typ == LocalRoutingProblem || k.typ == NetworkPathDegradation
  }

  predicate OnlyOpenings(m: Hypotheses) {
    forall k :: k in m ==> OpeningType(k)
  }

  // ---------- Pass 1: incidents in the order of their ids ----------

  lemma {:induction false} NoneBetween(incidents: map<nat, I.Incident>, n: nat, m: nat, bound: nat)
    requires n <= m && forall id :: n <= id < m ==> id !in incidents
    ensures Admitted(incidents, m, bound) == Admitted(incidents, n, bound)
    decreases m
  {
    hide Admit;
    if n < m { NoneBetween(incidents, n, m - 1, bound); }
  }

  predicate IsLeastId(x: nat, s: set<nat>) {
    x in s && forall y :: y in s ==> x <= y
  }

  lemma LeastIdExists(s: set<nat>)
    requires s != {}
    ensures exists x :: x in s && IsLeastId(x, s)
  {
    var a :| a in s;
    if s == {a} {
      assert IsLeastId(a, s);
    } else {
      LeastIdExists(s - {a});
      var b :| b in s - {a} && IsLeastId(b, s - {a});
      assert forall y :: y in s ==> y == a || y in s - {a};
      assert IsLeastId(if a < b then a else b, s);
    }
  }

  method OpenCandidates(f: Facts) returns (c: Hypotheses)
    ensures c == Openings(f)
  {
    c := map[];
    var rest := f.incidents.Keys;
    ghost var n := 0;
    while rest != {}
      invariant forall id :: id in rest <==> id in f.incidents && n <= id
      invariant c == Admitted(f.incidents, n, f.policy.maxEvidence)
      decreases |rest|
    {
      LeastIdExists(rest);
      var id :| id in rest && IsLeastId(id, rest);
      NoneBetween(f.incidents, n, id, f.policy.maxEvidence);
      c := Admit(c, f.incidents[id], f.policy.maxEvidence);
      n := id + 1;
      rest := rest - {id};
    }
    ghost var all := Above(f.incidents.Keys);
    NoneBetween(f.incidents, if n < all then n else all, if n < all then all else n, f.policy.maxEvidence);
  }

  lemma {:induction false} AdmittedTypes(incidents: map<nat, I.Incident>, n: nat, bound: nat)
    ensures OnlyOpenings(Admitted(incidents, n, bound)) && KeyedByOwn(Admitted(incidents, n, bound))
  {
    if n > 0 { AdmittedTypes(incidents, n - 1, bound); }
  }

  // ---------- Pass 2: two TCP incidents upgrade a path ----------

  function Upgrade(m: Hypotheses): Hypotheses {
    map k | k in m :: Upgraded(k, m[k])
  }

  method UpgradePaths(m: Hypotheses) returns (c: Hypotheses)
    ensures c == Upgrade(m)
  {
    hide Upgraded;
    c := m;
    var rest := m.Keys;
    while rest != {}
      invariant rest <= m.Keys && c.Keys == m.Keys
      invariant forall k :: k in m ==> c[k] == if k in rest then m[k] else Upgraded(k, m[k])
      decreases |rest|
    {
      var k :| k in rest;
      c := c[k := Upgraded(k, c[k])];
      rest := rest - {k};
    }
  }

  // ---------- Pass 3: context, and what it leads to ----------

  /** The last argument says whether uplink candidates have had their context added yet. */
  function Context(f: Facts, k: CauseKey, h: Hypothesis, uplinks: bool): Hypothesis {
    match k.typ
    case LocalRoutingProblem => if k.scope.SocketScope? then WithRouteContext(f, k.scope.socket, h) else h
    case NetworkPathDegradation => if k.scope.SocketScope? then WithPathContext(f, k.scope.socket, h) else h
    case UplinkAvailabilityProblem =>
      if k.scope.NetnsScope? && uplinks then WithUplinkContext(f, k.scope.netns, h) else h
    case _ => h
  }

  /** What a path that has been passed leads to under another type. */
  function DerivedAt(f: Facts, m: Hypotheses, rest: set<CauseKey>, k: CauseKey): Option<Hypothesis> {
    var p := PathKey(k.scope);
    if p !in m || p in rest || !k.scope.SocketScope? then None else PathFamilyAt(f, k.scope.socket, m[p], k.typ)
  }

  function Expected(f: Facts, m: Hypotheses, rest: set<CauseKey>, types: set<CauseType>, uplinks: bool, k: CauseKey)
    : Option<Hypothesis>
  {
    if OpeningType(k) then if k !in m then None else Some(if k in rest then m[k] else Context(f, k, m[k], uplinks))
    else if k.typ in types then DerivedAt(f, m, rest, k)
    else None
  }

  ghost predicate Agrees(f: Facts, m: Hypotheses, rest: set<CauseKey>, types: set<CauseType>, uplinks: bool, c: Hypotheses) {
    forall k :: At(c, k) == Expected(f, m, rest, types, uplinks, k)
  }

  /** The candidates of one derived type waiting to be entered. */
  ghost predicate Waiting(f: Facts, m: Hypotheses, rest: set<CauseKey>, typ: CauseType, queue: seq<Hypothesis>) {
    && (forall h :: h in queue ==> h.typ == typ && DerivedAt(f, m, rest, CauseKey(typ, h.scope)) == Some(h))
    && (forall scope :: DerivedAt(f, m, rest, CauseKey(typ, scope)).Some? ==>
          var h := DerivedAt(f, m, rest, CauseKey(typ, scope)).value; h in queue && h.scope == scope)
  }

  lemma ContextStep(f: Facts, m: Hypotheses, rest: set<CauseKey>, c: Hypotheses, k: CauseKey)
    requires OnlyOpenings(m) && k in rest && k in m
    requires Agrees(f, m, rest, {LocalLinkSuspected}, false, c)
    ensures var next := c[k := Context(f, k, m[k], false)];
            var l := CauseKey(LocalLinkSuspected, k.scope);
            var d := DerivedFrom(f, m, k, LocalLinkSuspected);
            Agrees(f, m, rest - {k}, {LocalLinkSuspected}, false, if d.Some? then next[l := d.value] else next)
  {
    hide Context, DerivedAt, DerivedFrom;
    var l := CauseKey(LocalLinkSuspected, k.scope);
    var d := DerivedFrom(f, m, k, LocalLinkSuspected);
    var next := c[k := Context(f, k, m[k], false)];
    var last := if d.Some? then next[l := d.value] else next;
    forall x
      ensures At(last, x) == Expected(f, m, rest - {k}, {LocalLinkSuspected}, false, x)
    {
      assert At(c, x) == Expected(f, m, rest, {LocalLinkSuspected}, false, x);
      DerivedStep(f, m, rest, k, LocalLinkSuspected, x.scope);
    }
  }

  /** The derived candidate of the path at `k`, if that is what `k` is. */
  function DerivedFrom(f: Facts, m: Hypotheses, k: CauseKey, typ: CauseType): Option<Hypothesis>
    requires k in m
  {
    if k.typ == NetworkPathDegradation && k.scope.SocketScope? then PathFamilyAt(f, k.scope.socket, m[k], typ) else None
  }

  lemma DerivedStep(f: Facts, m: Hypotheses, rest: set<CauseKey>, k: CauseKey, typ: CauseType, scope: Scope)
    requires k in rest && k in m
    ensures DerivedAt(f, m, rest - {k}, CauseKey(typ, scope)) ==
            if PathKey(scope) == k then DerivedFrom(f, m, k, typ) else DerivedAt(f, m, rest, CauseKey(typ, scope))
    ensures PathKey(scope) == k ==> scope == k.scope && DerivedAt(f, m, rest, CauseKey(typ, scope)).None?
    ensures scope == k.scope && DerivedFrom(f, m, k, typ).Some? ==> PathKey(scope) == k
  {
    hide PathFamilyAt;
  }

  lemma WaitingStep(f: Facts, m: Hypotheses, rest: set<CauseKey>, typ: CauseType, queue: seq<Hypothesis>, k: CauseKey)
    requires k in rest && k in m && Waiting(f, m, rest, typ, queue)
    requires var d := DerivedFrom(f, m, k, typ); d.Some? ==> d.value.typ == typ && d.value.scope == k.scope
    ensures var d := DerivedFrom(f, m, k, typ);
            Waiting(f, m, rest - {k}, typ, if d.Some? then queue + [d.value] else queue)
  {
    hide DerivedAt, DerivedFrom;
    var d := DerivedFrom(f, m, k, typ);
    var next := if d.Some? then queue + [d.value] else queue;
    forall scope
      ensures DerivedAt(f, m, rest - {k}, CauseKey(typ, scope)).Some? ==>
              var h := DerivedAt(f, m, rest - {k}, CauseKey(typ, scope)).value; h in next && h.scope == scope
    {
      DerivedStep(f, m, rest, k, typ, scope);
    }
    forall h | h in next
      ensures h.typ == typ && DerivedAt(f, m, rest - {k}, CauseKey(typ, h.scope)) == Some(h)
    {
      DerivedStep(f, m, rest, k, typ, h.scope);
    }
  }

  lemma FamilyKeys(f: Facts, s: SocketId, base: Hypothesis, typ: CauseType)
    requires base.typ == NetworkPathDegradation && base.scope == SocketScope(s)
    ensures var d := PathFamilyAt(f, s, base, typ); d.Some? ==> d.value.typ == typ && d.value.scope == SocketScope(s)
  {
    hide LocalSuspected, RouteKnown, ProbesInsufficient, BeyondTheGateway, PathLevel, PathSupport, PathGaps, AddAll, Filter;
  }

  predicate KeyedByOwn(m: Hypotheses) {
    forall k :: k in m ==> m[k].typ == k.typ && m[k].scope == k.scope
  }

  method AddContext(f: Facts, m: Hypotheses) returns (ok: bool, c: Hypotheses, insufficient: seq<Hypothesis>)
    requires OnlyOpenings(m) && KeyedByOwn(m)
    ensures ok <==> forall k :: k in m && k.typ == LocalRoutingProblem ==> k.scope.SocketScope?
    ensures ok ==> Agrees(f, m, {}, {LocalLinkSuspected}, false, c) && Waiting(f, m, {}, InsufficientEvidence, insufficient)
  {
    c, insufficient := m, [];
    var rest := m.Keys;
    assert Agrees(f, m, rest, {LocalLinkSuspected}, false, c) && Waiting(f, m, rest, InsufficientEvidence, insufficient);
    hide Agrees, Waiting, PathFamilyAt, WithRouteContext, WithPathContext;
    while rest != {}
      invariant rest <= m.Keys
      invariant forall k :: k in m && k !in rest && k.typ == LocalRoutingProblem ==> k.scope.SocketScope?
      invariant Agrees(f, m, rest, {LocalLinkSuspected}, false, c) && Waiting(f, m, rest, InsufficientEvidence, insufficient)
      decreases |rest|
    {
      var k :| k in rest;
      if k.typ == LocalRoutingProblem && !k.scope.SocketScope? { return false, c, insufficient; }
      ContextStep(f, m, rest, c, k);
      if k.typ == NetworkPathDegradation && k.scope.SocketScope? { FamilyKeys(f, k.scope.socket, m[k], InsufficientEvidence); }
      WaitingStep(f, m, rest, InsufficientEvidence, insufficient, k);
      c := c[k := Context(f, k, m[k], false)];
      if k.typ == NetworkPathDegradation && k.scope.SocketScope? {
        var s := k.scope.socket;
        var local := PathFamilyAt(f, s, m[k], LocalLinkSuspected);
        if local.Some? { c := c[CauseKey(LocalLinkSuspected, k.scope) := local.value]; }
        var thin := PathFamilyAt(f, s, m[k], InsufficientEvidence);
        if thin.Some? { insufficient := insufficient + [thin.value]; }
      }
      rest := rest - {k};
    }
    ok := true;
  }

  /** Entering the queue adds exactly the derived candidates of its type. */
  method Enter(f: Facts, m: Hypotheses, types: set<CauseType>, uplinks: bool, typ: CauseType, before: Hypotheses,
               queue: seq<Hypothesis>)
    returns (c: Hypotheses)
    requires typ in DERIVED && typ !in types && Agrees(f, m, {}, types, uplinks, before) && Waiting(f, m, {}, typ, queue)
    ensures Agrees(f, m, {}, types + {typ}, uplinks, c)
  {
    hide DerivedAt, Context;
    c := before;
    assert forall k: CauseKey :: k.typ == typ ==> At(c, k).None?;
    for i := 0 to |queue|
      invariant forall k: CauseKey :: k.typ != typ ==> At(c, k) == Expected(f, m, {}, types, uplinks, k)
      invariant forall k: CauseKey :: k.typ == typ && k in c ==> DerivedAt(f, m, {}, k) == Some(c[k])
      invariant forall j :: 0 <= j < i ==> CauseKey(typ, queue[j].scope) in c
    {
      var k := CauseKey(queue[i].typ, queue[i].scope);
      assert queue[i] in queue;
      if k !in c { c := c[k := queue[i]]; }
    }
    forall k
      ensures At(c, k) == Expected(f, m, {}, types + {typ}, uplinks, k)
    {
      assert k == CauseKey(k.typ, k.scope);
    }
  }

  // ---------- Pass 4: uplinks ----------

  method CheckUplinks(f: Facts, ghost m: Hypotheses, before: Hypotheses, ghost types: set<CauseType>)
    returns (ok: bool, c: Hypotheses)
    requires Agrees(f, m, {}, types, false, before)
    ensures ok <==> forall k :: k in m && k.typ == UplinkAvailabilityProblem ==> k.scope.NetnsScope?
    ensures ok ==> Agrees(f, m, {}, types, true, c)
  {
    hide DerivedAt, WithRouteContext, WithPathContext, WithUplinkContext;
    assert forall k :: At(before, k) == Expected(f, m, {}, types, false, k);
    c := before;
    var rest := before.Keys;
    while rest != {}
      invariant rest <= before.Keys
      invariant forall k ::
                  At(c, k) == if k in rest then Expected(f, m, {}, types, false, k) else Expected(f, m, {}, types, true, k)
      invariant forall k :: k in m && k !in rest && k.typ == UplinkAvailabilityProblem ==> k.scope.NetnsScope?
      decreases |rest|
    {
      var k :| k in rest;
      assert At(c, k) == Expected(f, m, {}, types, false, k);
      if k.typ == UplinkAvailabilityProblem {
        if !k.scope.NetnsScope? { return false, c; }
        c := c[k := WithUplinkContext(f, k.scope.netns, c[k])];
      }
      rest := rest - {k};
    }
    ok := true;
  }

  // ---------- Pass 5: beyond the gateway ----------

  lemma WaitingSkip(f: Facts, m: Hypotheses, rest: set<CauseKey>, typ: CauseType, queue: seq<Hypothesis>, k: CauseKey)
    requires Waiting(f, m, rest, typ, queue) && (k.typ != NetworkPathDegradation || !k.scope.SocketScope?)
    ensures Waiting(f, m, rest - {k}, typ, queue)
  {
    hide PathFamilyAt;
    assert forall scope :: DerivedAt(f, m, rest - {k}, CauseKey(typ, scope)) == DerivedAt(f, m, rest, CauseKey(typ, scope));
  }

  method CollectRemote(f: Facts, ghost m: Hypotheses, c: Hypotheses, ghost types: set<CauseType>) returns (queue: seq<Hypothesis>)
    requires KeyedByOwn(m) && Agrees(f, m, {}, types, true, c)
    ensures Waiting(f, m, {}, RemoteOrUpstreamDegradation, queue)
  {
    hide Agrees, Waiting, WithPathContext, BeyondTheGateway, Remote, LocalSuspected, ProbesInsufficient, RouteKnown;
    queue := [];
    var rest := c.Keys;
    NothingWaiting(f, m, c, types);
    while rest != {}
      invariant rest <= c.Keys && Waiting(f, m, rest, RemoteOrUpstreamDegradation, queue)
      decreases |rest|
    {
      var k :| k in rest;
      if k.typ != NetworkPathDegradation || !k.scope.SocketScope? {
        WaitingSkip(f, m, rest, RemoteOrUpstreamDegradation, queue, k);
      } else {
        var s := k.scope.socket;
        PathInPlace(f, m, c, types, k);
        FamilyKeys(f, s, m[k], RemoteOrUpstreamDegradation);
        WaitingStep(f, m, rest, RemoteOrUpstreamDegradation, queue, k);
        if BeyondTheGateway(f, s) { queue := queue + [Remote(f, s, c[k])]; }
      }
      rest := rest - {k};
    }
  }

  lemma NothingWaiting(f: Facts, m: Hypotheses, c: Hypotheses, types: set<CauseType>)
    requires Agrees(f, m, {}, types, true, c)
    ensures Waiting(f, m, c.Keys, RemoteOrUpstreamDegradation, [])
  {
    hide PathFamilyAt, Context;
    forall scope
      ensures DerivedAt(f, m, c.Keys, CauseKey(RemoteOrUpstreamDegradation, scope)).None?
    {
      assert At(c, PathKey(scope)) == Expected(f, m, {}, types, true, PathKey(scope));
    }
  }

  lemma PathInPlace(f: Facts, m: Hypotheses, c: Hypotheses, types: set<CauseType>, k: CauseKey)
    requires Agrees(f, m, {}, types, true, c) && k in c && k.typ == NetworkPathDegradation && k.scope.SocketScope?
    ensures k in m && c[k] == WithPathContext(f, k.scope.socket, m[k])
  {
    hide WithPathContext;
    assert At(c, k) == Expected(f, m, {}, types, true, k);
  }

  // ---------- All passes ----------

  lemma AllExpected(f: Facts, m: Hypotheses, k: CauseKey)
    requires OnlyOpenings(m)
    ensures Expected(f, Upgrade(m), {}, DERIVED, true, k) == CandidateAt(f, m, k)
  {
    hide WithRouteContext, WithPathContext, WithUplinkContext, PathFamilyAt, Upgraded;
    if PathKey(k.scope) in m && k.scope.SocketScope? {
      PathItself(f, k.scope.socket, Upgraded(PathKey(k.scope), m[PathKey(k.scope)]));
    }
    if k in m { OthersNotUpgraded(k, m[k]); }
  }

  lemma PathItself(f: Facts, s: SocketId, h: Hypothesis)
    ensures PathFamilyAt(f, s, h, NetworkPathDegradation) == Some(WithPathContext(f, s, h))
  {
  }

  lemma OthersNotUpgraded(k: CauseKey, h: Hypothesis)
    ensures k.typ != NetworkPathDegradation ==> Upgraded(k, h) == h
  {
  }

  /** The five passes build exactly the candidate of every key, or fail on a scope of the wrong kind. */
  method BuildCandidates(f: Facts) returns (r: Option<Hypotheses>)
    ensures r.Some? <==> Typed(f.incidents)
    ensures r.Some? ==> r.value == Candidates(f)
  {
    hide Agrees, Waiting, Openings, Candidates, KeyedByOwn, OnlyOpenings, Upgrade, ScopeFits;
    var m1 := OpenCandidates(f);
    OpeningsReady(f);
    var m := UpgradePaths(m1);
    var ok, c, insufficient := AddContext(f, m);
    if !ok { return None; }
    c := Enter(f, m, {LocalLinkSuspected}, false, InsufficientEvidence, c, insufficient);
    ghost var types := {LocalLinkSuspected} + {InsufficientEvidence};
    ok, c := CheckUplinks(f, m, c, types);
    if !ok { return None; }
    var remote := CollectRemote(f, m, c, types);
    c := Enter(f, m, {LocalLinkSuspected} + {InsufficientEvidence}, true, RemoteOrUpstreamDegradation, c, remote);
    assert types + {RemoteOrUpstreamDegradation} == DERIVED;
    Finished(f, m1, c);
    r := Some(c);
  }

  lemma OpeningsReady(f: Facts)
    ensures var m := Upgrade(Openings(f));
            && OnlyOpenings(Openings(f)) && OnlyOpenings(m) && KeyedByOwn(m)
            && (Typed(f.incidents) <==>
                  && (forall k :: k in m && k.typ == LocalRoutingProblem ==> k.scope.SocketScope?)
                  && (forall k :: k in m && k.typ == UplinkAvailabilityProblem ==> k.scope.NetnsScope?))
  {
    AdmittedTypes(f.incidents, Above(f.incidents.Keys), f.policy.maxEvidence);
    TypedOpenings(f);
    assert OnlyOpenings(Openings(f)) && KeyedByOwn(Openings(f));
    hide Typed, Openings, Mentions;
    var (o, m) := (Openings(f), Upgrade(Openings(f)));
    assert m.Keys == o.Keys;
  }

  lemma TypedOpenings(f: Facts)
    ensures Typed(f.incidents) <==> forall k :: k in Openings(f) ==> ScopeFits(k)
  {
    var n := Above(f.incidents.Keys);
    hide ScopeFits, KeyFor, Admitted;
    forall k
      ensures k in Openings(f) <==> exists id :: 0 <= id < n && id in f.incidents && KeyFor(f.incidents[id]) == k
    {
      OpenedByIncidents(f.incidents, n, f.policy.maxEvidence, k);
    }
    forall id | id in f.incidents
      ensures KeyFor(f.incidents[id]) in Openings(f)
    {
    }
  }

  lemma Finished(f: Facts, m: Hypotheses, c: Hypotheses)
    requires m == Openings(f) && OnlyOpenings(m) && Agrees(f, Upgrade(m), {}, DERIVED, true, c)
    ensures c == Candidates(f)
  {
    hide CandidateAt, Openings, Upgrade, Expected;
    forall k
      ensures At(c, k) == CandidateAt(f, m, k)
    {
      AllExpected(f, m, k);
    }
    forall k | k in c
      ensures k in PossibleKeys(m)
    {
      assert At(c, k) == CandidateAt(f, m, k);
      SomeKeysPossible(f, m, k);
    }
    assert forall k :: k in PossibleKeys(m) && CandidateAt(f, m, k).Some? ==> At(c, k) == CandidateAt(f, m, k);
  }

  lemma SomeKeysPossible(f: Facts, m: Hypotheses, k: CauseKey)
    requires CandidateAt(f, m, k).Some?
    ensures k in PossibleKeys(m)
  {
    hide WithRouteContext, WithPathContext, WithUplinkContext, PathFamilyAt;
    if k !in m {
      assert PathKey(k.scope) in m && k.typ in DERIVED && k == CauseKey(k.typ, PathKey(k.scope).scope);
    }
  }
}
