/** The root-cause engine: cached facts, live hypotheses, and the events that change them. */
module RootCauses {
  import opened BoundedList
  import opened Entities
  import opened IdOrder
  import opened KeyOrder
  import opened RootCauseModel
  import opened Reconciliation
  import opened RootCauseEvents
  import Builder = RootCauseBuilder
  import History = RootCauseHistory
  import I = IncidentModel

  class RootCauseEngine {
    const policy: Policy
    var incidents: map<nat, I.Incident>
    var routes: map<SocketId, RouteEvent>
    var uplinks: map<NetnsId, UplinkEvent>
    var probes: map<NetnsId, ProbeCache>
    var wifi: map<WifiKey, WifiEntry>
    var active: map<CauseKey, Hypothesis>
    var resolved: seq<Hypothesis>
    var nextOccurrence: nat
    /** Everything emitted so far. */
    ghost var log: seq<Hypothesis>

    function Live(): Registry
      reads this
    {
      Registry(active, resolved, nextOccurrence)
    }

    function Cached(): Caches
      reads this
    {
      Caches(incidents, routes, uplinks, probes, wifi)
    }

    function Now(): State
      reads this
    {
      State(Cached(), Live())
    }

    ghost predicate Consistent()
      reads this
    {
      PolicyOk(policy) && History.Sound(Now(), log, policy)
    }

    constructor (policy: Policy)
      requires PolicyOk(policy)
      ensures this.policy == policy && Now() == History.START && log == []
      ensures Consistent()
    {
      this.policy := policy;
      incidents, routes, uplinks, probes, wifi := map[], map[], map[], map[], map[];
      active, resolved, nextOccurrence, log := map[], [], 1, [];
      new;
      History.StartIsSound(policy);
      hide History.Sound;
    }

    method EnterOne(k: CauseKey, c: Hypothesis, now: int) returns (out: seq<Hypothesis>)
      modifies this`active, this`nextOccurrence
      ensures var (r, o) := Enter(old(Live()), k, c, now, policy.maxActive); Live() == r && out == Emitted(o)
    {
      hide SameContent;
      out := [];
      if |active| >= policy.maxActive && k !in active { return; }
      if k !in active {
        var h := c.(occurrence := nextOccurrence, active := true);
        nextOccurrence := nextOccurrence + 1;
        active := active[k := h];
        out := [h];
      } else {
        var h := c.(occurrence := active[k].occurrence, openedAt := active[k].openedAt, active := true,
                    updatedAt := Max(c.updatedAt, active[k].updatedAt));
        if !SameContent(active[k], h) {
          h := h.(updatedAt := now);
          active := active[k := h];
          out := [h];
        }
      }
    }

    method LeaveOne(k: CauseKey, now: int) returns (out: seq<Hypothesis>)
      requires k in active
      modifies this`active, this`resolved
      ensures var (r, o) := Leave(old(Live()), k, now, policy.maxResolved); Live() == r && out == Emitted(o)
    {
      var h := active[k].(active := false, resolvedAt := Some(now), updatedAt := now);
      resolved := resolved + [h];
      TrimResolved();
      active := active - {k};
      out := [h];
    }

    method TrimResolved()
      modifies this`resolved
      ensures resolved == KeepLast(old(resolved), policy.maxResolved)
    {
      while |resolved| > policy.maxResolved
        invariant |resolved| <= |old(resolved)|
        invariant |resolved| >= policy.maxResolved || resolved == old(resolved)
        invariant resolved == old(resolved)[|old(resolved)| - |resolved|..]
      {
        resolved := resolved[1..];
      }
    }

    /** The first pass of reconciliation; `order` is the order in which it happened to visit the keys. */
    method EnterDesired(desired: map<CauseKey, Hypothesis>, now: int) returns (out: seq<Hypothesis>, ghost order: seq<CauseKey>)
      modifies this`active, this`nextOccurrence
      ensures Enumerates(order, desired.Keys)
      ensures (Live(), out) == EnterAll(old(Live()), desired, order, now, policy.maxActive)
    {
      hide Enter, NoRepeats;
      out, order := [], [];
      StartsEmpty();
      var rest := desired.Keys;
      while rest != {}
        invariant rest <= desired.Keys && Enumerates(order, desired.Keys - rest)
        invariant (Live(), out) == EnterAll(old(Live()), desired, order, now, policy.maxActive)
        decreases |rest|
      {
        var k :| k in rest;
        EnterNext(old(Live()), desired, order, k, now, policy.maxActive);
        EnumeratesNext(order, desired.Keys - rest, k);
        var more := EnterOne(k, desired[k], now);
        out := out + more;
        order := order + [k];
        assert desired.Keys - (rest - {k}) == desired.Keys - rest + {k};
        rest := rest - {k};
      }
      assert desired.Keys - {} == desired.Keys;
    }

    method LeaveUndesired(desired: map<CauseKey, Hypothesis>, now: int) returns (out: seq<Hypothesis>, ghost gone: seq<CauseKey>)
      modifies this`active, this`resolved
      ensures Enumerates(gone, old(active).Keys - desired.Keys)
      ensures (Live(), out) == LeaveAll(old(Live()), gone, now, policy.maxResolved)
    {
      hide Leave, LeaveAll, Enumerates;
      NoneLeave(Live(), now, policy.maxResolved);
      StartsEmpty();
      out, gone := [], [];
      var rest := active.Keys;
      ghost var left: set<CauseKey> := {};
      while rest != {}
        invariant rest <= active.Keys && Enumerates(gone, left)
        invariant forall k :: k in left <==> k in old(active) && k !in rest && k !in desired
        invariant (Live(), out) == LeaveAll(old(Live()), gone, now, policy.maxResolved)
        decreases rest
      {
        var k :| k in rest;
        if k !in desired {
          LeaveNext(old(Live()), gone, k, now, policy.maxResolved);
          EnumeratesNext(gone, left, k);
          LeaveKeys(Live(), k, now, policy.maxResolved);
          var more := LeaveOne(k, now);
          out, gone, left := out + more, gone + [k], left + {k};
        }
        rest := rest - {k};
      }
      assert left == old(active).Keys - desired.Keys;
    }

    method ReconcileWith(desired: map<CauseKey, Hypothesis>, now: int)
      returns (out: seq<Hypothesis>, ghost order: seq<CauseKey>, ghost gone: seq<CauseKey>)
      modifies this`active, this`resolved, this`nextOccurrence
      ensures Visits(old(Live()), desired, order, gone)
      ensures (Live(), out) == Reconcile(old(Live()), desired, order, gone, now, policy)
    {
      hide EnterAll, LeaveAll, NoRepeats;
      var first, second;
      first, order := EnterDesired(desired, now);
      Entered(old(Live()), desired, order, now, policy.maxActive);
      second, gone := LeaveUndesired(desired, now);
      out := first + second;
    }

    /** Fails, leaving the hypotheses as they are, exactly when an incident has a scope of the wrong kind. */
    method ReconcileNow(now: int, clock: int)
      returns (ok: bool, out: seq<Hypothesis>, ghost order: seq<CauseKey>, ghost gone: seq<CauseKey>)
      modifies this`active, this`resolved, this`nextOccurrence
      ensures ok <==> Typed(incidents)
      ensures !ok ==> Live() == old(Live()) && out == []
      ensures ok ==> var desired := Candidates(FactsOf(Cached(), clock, policy));
                     && Visits(old(Live()), desired, order, gone)
                     && (Live(), out) == Reconcile(old(Live()), desired, order, gone, now, policy)
    {
      hide Candidates, Reconcile, Visits, Typed;
      var desired := Builder.BuildCandidates(FactsOf(Cached(), clock, policy));
      if desired.None? { return false, [], [], []; }
      out, order, gone := ReconcileWith(desired.value, now);
      ok := true;
    }

    // Each of the following takes one kind of event into its cache.

    method TakeIncident(i: I.Incident)
      requires i.state != I.Pending
      modifies this`incidents
      ensures forall source, at :: Cached() == Absorb(old(Cached()), IncidentInput(source, at, i), policy)
    {
      NumberOrder();
      hide TotalOrder, Trimmed;
      if i.state == I.Active {
        incidents := incidents[i.id := i];
      } else {
        incidents := incidents - {i.id};
      }
      incidents := Trim(incidents, 2 * policy.maxActive, NumberLess);
    }

    method TakeRoute(s: SocketId, r: RouteEvent)
      modifies this`routes
      ensures Cached() == Absorb(old(Cached()), RouteInput(s, r), policy)
    {
      SocketOrder();
      hide TotalOrder, Trimmed;
      routes := routes[s := r];
      routes := Trim(routes, 2 * policy.maxActive, IdLess);
    }

    method TakeUplink(n: NetnsId, u: UplinkEvent)
      modifies this`uplinks
      ensures Cached() == Absorb(old(Cached()), UplinkInput(n, u), policy)
    {
      NetnsOrder();
      hide TotalOrder, Trimmed;
      uplinks := uplinks[n := u];
      uplinks := Trim(uplinks, policy.maxActive, NetnsLess);
    }

    /** A probe older than the one held for its target is passed over. */
    method TakeProbe(q: ProbeEvent) returns (taken: bool)
      modifies this`probes
      ensures taken <==> !Late(old(Cached()), ProbeInput(q))
      ensures Cached() == if taken then Absorb(old(Cached()), ProbeInput(q), policy) else old(Cached())
    {
      NetnsOrder();
      hide TotalOrder, Trimmed;
      var cache := ProbesAt(probes, q.netns);
      var current := if q.target.kind == ToGateway then cache.gateway else cache.remote;
      if current.Some? && !IsNewer(q, current.value) { return false; }
      if q.target.kind == ToGateway {
        cache := cache.(gateway := Some(q));
      } else {
        cache := cache.(remote := Some(q));
      }
      probes := probes[q.netns := cache];
      probes := Trim(probes, policy.maxActive, NetnsLess);
      taken := true;
    }

    /** Without an interface it clears its namespace; otherwise it is taken in the order of time and event id. */
    method TakeWifi(w: WifiEvent) returns (taken: bool)
      modifies this`wifi
      ensures taken <==> !Late(old(Cached()), WifiInput(w))
      ensures Cached() == if taken then Absorb(old(Cached()), WifiInput(w), policy) else old(Cached())
    {
      WifiOrder();
      hide TotalOrder, Trimmed, CategoryOf;
      taken := true;
      if w.ifindex.None? {
        wifi := map k | k in wifi && k.netns != w.netns :: wifi[k];
        return;
      }
      var k := WifiKey(w.netns, w.ifindex.value);
      var before := if k in wifi then Some(wifi[k]) else None;
      if before.Some? && IsOlder(w, before.value.event) { return false; }
      wifi := wifi[k := WifiEntry(w, CategoryOf(before, w, policy))];
      wifi := Trim(wifi, 2 * policy.maxActive, WifiLess);
    }

    method Take(e: Input) returns (taken: bool)
      requires Consumed(e)
      modifies this`incidents, this`routes, this`uplinks, this`probes, this`wifi
      ensures taken <==> Triggers(old(Cached()), e)
      ensures Cached() == if taken then Absorb(old(Cached()), e, policy) else old(Cached())
    {
      hide Absorb, Held, ProbesAt, EntryAt, IsNewer, IsOlder;
      taken := true;
      match e {
        case IncidentInput(_, _, i) => TakeIncident(i);
        case RouteInput(s, r) => TakeRoute(s, r);
        case UplinkInput(n, u) => TakeUplink(n, u);
        case ProbeInput(q) => taken := TakeProbe(q);
        case WifiInput(w) => taken := TakeWifi(w);
      }
    }

    /** One event: the caches take it in and, unless it came late, the hypotheses are reconciled with them. */
    method ProcessEvent(e: Input, clock: int)
      returns (consumed: bool, ok: bool, out: seq<Hypothesis>, ghost order: seq<CauseKey>, ghost gone: seq<CauseKey>)
      requires Consistent()
      modifies this
      ensures consumed == Consumed(e)
      ensures ok <==> (Triggers(old(Cached()), e) ==> Typed(incidents))
      ensures StepTo(old(Now()), Turn(e, clock, order, gone, out), Now(), policy)
      ensures log == old(log) + out
      ensures Consistent()
    {
      consumed, ok, out, order, gone := false, true, [], [], [];
      hide History.Sound, Absorb, Candidates, Reconcile, Visits, Typed, ObservedAt, PolicyOk, Late;
      if !Consumed(e) { return; }
      consumed := true;
      hide Consumed;
      var taken := Take(e);
      if taken { ok, out, order, gone := ReconcileNow(ObservedAt(e), clock); }
      History.StepKeepsSound(old(Now()), log, Turn(e, clock, order, gone, out), Now(), policy);
      log := log + out;
    }
  }

  // ---------- Lemmas for the loops ----------

  lemma StartsEmpty()
    ensures Enumerates([], {})
  {
  }

  lemma EnumeratesNext(order: seq<CauseKey>, keys: set<CauseKey>, k: CauseKey)
    requires Enumerates(order, keys) && k !in keys
    ensures Enumerates(order + [k], keys + {k})
  {
  }

  lemma EnterNext(r: Registry, desired: map<CauseKey, Hypothesis>, order: seq<CauseKey>, k: CauseKey, now: int, cap: nat)
    requires (forall x :: x in order ==> x in desired) && k in desired
    ensures var (r1, out) := EnterAll(r, desired, order, now, cap);
            var (r2, o) := Enter(r1, k, desired[k], now, cap);
            EnterAll(r, desired, order + [k], now, cap) == (r2, out + Emitted(o))
  {
    hide Enter;
    assert (order + [k])[..|order + [k]| - 1] == order;
  }

  lemma LeaveNext(r: Registry, gone: seq<CauseKey>, k: CauseKey, now: int, maxResolved: nat)
    ensures var (r1, out) := LeaveAll(r, gone, now, maxResolved);
            var (r2, o) := Leave(r1, k, now, maxResolved);
            LeaveAll(r, gone + [k], now, maxResolved) == (r2, out + Emitted(o))
  {
    hide Leave;
    assert (gone + [k])[..|gone + [k]| - 1] == gone;
  }

  lemma NoneLeave(r: Registry, now: int, maxResolved: nat)
    ensures LeaveAll(r, [], now, maxResolved) == (r, [])
  {
  }

  lemma LeaveKeys(r: Registry, k: CauseKey, now: int, maxResolved: nat)
    requires k in r.active
    ensures Leave(r, k, now, maxResolved).0.active == r.active - {k}
  {
  }

  /** What the second pass gives up is what was active at the start and is no longer desired. */
  lemma Entered(r: Registry, desired: map<CauseKey, Hypothesis>, order: seq<CauseKey>, now: int, cap: nat)
    requires Enumerates(order, desired.Keys)
    ensures EnterAll(r, desired, order, now, cap).0.active.Keys - desired.Keys == r.active.Keys - desired.Keys
  {
    hide EnterAll, NoRepeats;
    EnterAllKeys(r, desired, order, now, cap);
    ListedIs(order, desired.Keys);
  }
}
