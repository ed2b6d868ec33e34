/** Histories of the root-cause engine: what its hypotheses say about its caches after any sequence of events. */
module RootCauseHistory {
  import opened Entities
  import opened IdOrder
  import opened KeyOrder
  import opened RootCauseModel
  import opened Reconciliation
  import opened RootCauseEvents
  import opened WifiHysteresis
  import Proofs = ReconciliationProofs
  import Runs = ReconciliationRuns
  import Rules = RootCauseRules
  import Incidents = IncidentProofs

  const START := State(Caches(map[], map[], map[], map[], map[]), Registry(map[], [], 1))

  ghost predicate History(states: seq<State>, turns: seq<Turn>, p: Policy) {
    && |states| == |turns| + 1 && states[0] == START
    && forall i :: 0 <= i < |turns| ==> StepTo(states[i], turns[i], states[i + 1], p)
  }

  function Emissions(turns: seq<Turn>): seq<Hypothesis> {
    if turns == [] then [] else Emissions(turns[..|turns| - 1]) + turns[|turns| - 1].out
  }

  /** The caches keep to their bounds, and the emissions tell what is active. */
  predicate Bounded(c: Caches, p: Policy) {
    && |c.incidents| <= 2 * p.maxActive && |c.routes| <= 2 * p.maxActive && |c.wifi| <= 2 * p.maxActive
    && |c.uplinks| <= p.maxActive && |c.probes| <= p.maxActive
  }

  ghost predicate Sound(s: State, log: seq<Hypothesis>, p: Policy) {
    Bounded(s.caches, p) && Runs.Tracked(s.live, log) && |s.live.active| <= p.maxActive
  }

  // ---------- One event ----------

  lemma FewerKeys(wifi: map<WifiKey, WifiEntry>, netns: NetnsId)
    ensures |map k | k in wifi && k.netns != netns :: wifi[k]| <= |wifi|
  {
    var less := map k | k in wifi && k.netns != netns :: wifi[k];
    SubsetSize(less.Keys, wifi.Keys);
  }

  lemma WifiKeepsBounded(wifi: map<WifiKey, WifiEntry>, w: WifiEvent, p: Policy)
    requires |wifi| <= 2 * p.maxActive
    ensures |WithWifi(wifi, w, p)| <= 2 * p.maxActive
  {
    if w.ifindex.None? {
      FewerKeys(wifi, w.netns);
    } else {
      WifiOrder();
      TrimmedHoldsLast(wifi[WifiKey(w.netns, w.ifindex.value) := WifiEntry(w, CategoryOf(EntryAt(wifi, w), w, p))],
                       2 * p.maxActive, WifiLess);
      hide TotalOrder;
    }
  }

  lemma AbsorbKeepsBounded(c: Caches, e: Input, p: Policy)
    requires Bounded(c, p)
    ensures Bounded(Absorb(c, e, p), p)
  {
    NumberOrder();
    SocketOrder();
    NetnsOrder();
    hide TotalOrder, Submap, WithWifi;
    match e {
      case IncidentInput(_, _, i) =>
        TrimmedHoldsLast(Incidents.Mirror(c.incidents, i), 2 * p.maxActive, NumberLess);
      case RouteInput(s, r) => TrimmedHoldsLast(c.routes[s := r], 2 * p.maxActive, IdLess);
      case UplinkInput(n, u) => TrimmedHoldsLast(c.uplinks[n := u], p.maxActive, NetnsLess);
      case ProbeInput(q) =>
        TrimmedHoldsLast(c.probes[q.netns := Hold(ProbesAt(c.probes, q.netns), q)], p.maxActive, NetnsLess);
      case WifiInput(w) => WifiKeepsBounded(c.wifi, w, p);
      case OtherInput =>
    }
  }

  lemma CandidatesKeyed(f: Facts)
    requires PolicyOk(f.policy)
    ensures Proofs.Keyed(Candidates(f))
  {
    hide Openings, CandidateAt, PossibleKeys, PolicyOk;
    forall k | k in Candidates(f)
      ensures Candidates(f)[k].typ == k.typ && Candidates(f)[k].scope == k.scope
    {
      Rules.CandidatesAreSound(f, k);
    }
  }

  lemma StepKeepsSound(s: State, log: seq<Hypothesis>, t: Turn, u: State, p: Policy)
    requires PolicyOk(p) && Sound(s, log, p) && StepTo(s, t, u, p)
    ensures Sound(u, log + t.out, p)
  {
    hide Bounded, Runs.Tracked, Absorb, Triggers, Reconcile, Candidates, Typed, PolicyOk;
    AbsorbKeepsBounded(s.caches, t.event, p);
    if Reconciles(s, t, p) {
      CandidatesKeyed(FactsOf(Absorb(s.caches, t.event, p), t.clock, p));
      hide Visits;
      Runs.ReconcileTracked(s.live, log, Desired(s, t, p), t.order, t.gone, ObservedAt(t.event), p);
      ActiveKeysAreDesired(s.live, Desired(s, t, p), t.order, t.gone, ObservedAt(t.event), p);
    } else {
      assert log + [] == log;
    }
  }

  // ---------- Histories ----------

  lemma {:induction false} HistoryIsSound(states: seq<State>, turns: seq<Turn>, p: Policy, n: nat)
    requires PolicyOk(p) && History(states, turns, p) && n <= |turns|
    ensures Sound(states[n], Emissions(turns[..n]), p)
  {
    hide Sound, StepTo, PolicyOk;
    if n == 0 {
      StartIsSound(p);
    } else {
      HistoryIsSound(states, turns, p, n - 1);
      StepKeepsSound(states[n - 1], Emissions(turns[..n - 1]), turns[n - 1], states[n], p);
      assert turns[..n][..n - 1] == turns[..n - 1];
    }
  }

  lemma StartIsSound(p: Policy)
    ensures Sound(START, [], p)
  {
    Runs.EmptyTracked();
  }

  /**
   * An event that is reconciled leaves only candidates of the cached facts active, and all of them exactly when they and
   * what was active before fit the cap together.
   */
  lemma ReconciledEventLeavesCandidates(states: seq<State>, turns: seq<Turn>, p: Policy, i: nat)
    requires PolicyOk(p) && History(states, turns, p) && i < |turns| && Reconciles(states[i], turns[i], p)
    ensures var desired := Candidates(FactsOf(states[i + 1].caches, turns[i].clock, p)).Keys;
            && states[i + 1].live.active.Keys <= desired
            && states[i].live.active.Keys * desired <= states[i + 1].live.active.Keys
            && (states[i + 1].live.active.Keys == desired <==> |states[i].live.active.Keys + desired| <= p.maxActive)
  {
    var (s, t) := (states[i], turns[i]);
    HistoryIsSound(states, turns, p, i);
    assert StepTo(s, t, states[i + 1], p);
    assert |s.live.active| <= p.maxActive;
    hide Sound, Absorb, Triggers, Reconcile, Candidates, Typed, PolicyOk, Visits, History;
    ActiveKeysAreDesired(s.live, Desired(s, t, p), t.order, t.gone, ObservedAt(t.event), p);
  }

  ghost predicate Quiet(states: seq<State>, turns: seq<Turn>, i: nat, n: nat)
    requires |states| == |turns| + 1 && n <= |turns|
  {
    forall j :: i <= j < n ==> !Triggers(states[j].caches, turns[j].event)
  }

  lemma {:induction false} QuietChangesNothing(states: seq<State>, turns: seq<Turn>, p: Policy, i: nat, n: nat)
    requires History(states, turns, p) && i <= n <= |turns| && Quiet(states, turns, i, n)
    ensures states[n] == states[i]
    decreases n
  {
    if i < n {
      QuietChangesNothing(states, turns, p, i, n - 1);
      assert StepTo(states[n - 1], turns[n - 1], states[n], p);
      hide Absorb, Triggers, Reconcile, Candidates, Typed, Visits;
    }
  }

  /** Either nothing has had an effect so far, or there is a last event that had. */
  lemma {:induction false} LastTrigger(states: seq<State>, turns: seq<Turn>, n: nat) returns (i: nat)
    requires |states| == |turns| + 1 && n <= |turns|
    ensures i <= n && Quiet(states, turns, i, n) && (i > 0 ==> Triggers(states[i - 1].caches, turns[i - 1].event))
  {
    hide Triggers;
    i := n;
    while i > 0 && !Triggers(states[i - 1].caches, turns[i - 1].event)
      invariant i <= n && Quiet(states, turns, i, n)
    {
      i := i - 1;
    }
  }

  ghost predicate Explains(states: seq<State>, turns: seq<Turn>, p: Policy, i: nat, n: nat)
    requires |states| == |turns| + 1 && i < n <= |turns|
  {
    var desired := Candidates(FactsOf(states[n].caches, turns[i].clock, p)).Keys;
    && states[n].live.active.Keys <= desired
    && (states[n].live.active.Keys == desired <==> |states[i].live.active.Keys + desired| <= p.maxActive)
  }

  lemma TriggeredIsReconciled(states: seq<State>, turns: seq<Turn>, p: Policy, i: nat)
    requires History(states, turns, p) && i < |turns| && Triggers(states[i].caches, turns[i].event)
    requires Typed(states[i + 1].caches.incidents)
    ensures Reconciles(states[i], turns[i], p)
  {
    assert StepTo(states[i], turns[i], states[i + 1], p);
    hide Absorb, Triggers, Reconcile, Candidates, Typed, Visits;
  }

  lemma ExplainedByLast(states: seq<State>, turns: seq<Turn>, p: Policy, i: nat, n: nat)
    requires PolicyOk(p) && History(states, turns, p) && i < n <= |turns| && Typed(states[n].caches.incidents)
    requires Triggers(states[i].caches, turns[i].event) && Quiet(states, turns, i + 1, n)
    ensures Explains(states, turns, p, i, n)
  {
    hide Triggers, Typed, Candidates, Quiet, StepTo, PolicyOk;
    QuietChangesNothing(states, turns, p, i + 1, n);
    TriggeredIsReconciled(states, turns, p, i);
    ReconciledEventLeavesCandidates(states, turns, p, i);
  }

  /**
   * At every moment the active hypotheses are candidates of what is cached at that moment, read with the clock of the last
   * event that had an effect, provided the cached incidents have scopes of the right kind.
   */
  lemma ActiveAreCandidates(states: seq<State>, turns: seq<Turn>, p: Policy, n: nat)
    requires PolicyOk(p) && History(states, turns, p) && n <= |turns| && Typed(states[n].caches.incidents)
    ensures states[n].live.active == map[] ||
            exists i :: 0 <= i < n && Triggers(states[i].caches, turns[i].event) && Quiet(states, turns, i + 1, n)
                        && Explains(states, turns, p, i, n)
  {
    hide Triggers, Typed, Candidates, Quiet, StepTo, PolicyOk, Explains;
    var i := LastTrigger(states, turns, n);
    if i == 0 {
      QuietChangesNothing(states, turns, p, 0, n);
    } else {
      ExplainedByLast(states, turns, p, i - 1, n);
    }
  }

  /** Every active hypothesis is about the scope of an incident in the mirror. */
  lemma HypothesesHaveIncidents(states: seq<State>, turns: seq<Turn>, p: Policy, n: nat, k: CauseKey)
    requires PolicyOk(p) && History(states, turns, p) && n <= |turns| && Typed(states[n].caches.incidents)
    requires k in states[n].live.active
    ensures exists id :: id in states[n].caches.incidents && states[n].caches.incidents[id].scope == k.scope
  {
    ActiveAreCandidates(states, turns, p, n);
    hide Triggers, Typed, Quiet, History, PolicyOk;
    var i :| 0 <= i < n && Triggers(states[i].caches, turns[i].event) && Quiet(states, turns, i + 1, n)
             && Explains(states, turns, p, i, n);
    CandidateHasIncident(FactsOf(states[n].caches, turns[i].clock, p), k);
  }

  lemma CandidateHasIncident(f: Facts, k: CauseKey)
    requires PolicyOk(f.policy) && k in Candidates(f)
    ensures exists id :: id in f.incidents && f.incidents[id].scope == k.scope
  {
    Rules.CandidatesAreSound(f, k);
    hide CandidateAt, Openings, PolicyOk;
    assert Rules.HasScope(f, k.scope);
  }

  // ---------- Signal categories ----------

  /** The event is an observation of this interface and is taken. */
  predicate Reports(s: State, t: Turn, k: WifiKey) {
    && t.event.WifiInput? && Triggers(s.caches, t.event)
    && t.event.wifi.netns == k.netns && t.event.wifi.ifindex == Some(k.ifindex)
  }

  /** The entry of an interface changes with its own observations only, for as long as it is cached. */
  lemma EntryStep(s: State, t: Turn, u: State, p: Policy, k: WifiKey)
    requires StepTo(s, t, u, p) && k in s.caches.wifi && k in u.caches.wifi
    ensures u.caches.wifi[k] ==
            if Reports(s, t, k) then WifiEntry(t.event.wifi, CategoryOf(Some(s.caches.wifi[k]), t.event.wifi, p))
            else s.caches.wifi[k]
  {
    hide Reconciles, CategoryOf, Late, Consumed, TotalOrder;
    if Triggers(s.caches, t.event) && t.event.WifiInput? && t.event.wifi.ifindex.Some? {
      var (w, wifi) := (t.event.wifi, s.caches.wifi);
      WifiOrder();
      TrimmedHoldsLast(wifi[WifiKey(w.netns, w.ifindex.value) := WifiEntry(w, CategoryOf(EntryAt(wifi, w), w, p))],
                       2 * p.maxActive, WifiLess);
    }
  }

  predicate ReportsWithin(s: State, t: Turn, k: WifiKey, lo: int, hi: int) {
    Reports(s, t, k) ==> Measured(t.event.wifi) && lo <= Reading(t.event.wifi) <= hi
  }

  /** From `i` to `n` the interface stays cached and associated, with its signal between `lo` and `hi`. */
  ghost predicate Steady(states: seq<State>, turns: seq<Turn>, k: WifiKey, lo: int, hi: int, i: nat, n: nat)
    requires |states| == |turns| + 1 && i <= n <= |turns|
  {
    && (forall j :: i <= j <= n ==> k in states[j].caches.wifi)
    && (forall j :: i <= j < n ==> ReportsWithin(states[j], turns[j], k, lo, hi))
  }

  function CategoryAt(s: State, k: WifiKey): Signal
    requires k in s.caches.wifi
  {
    s.caches.wifi[k].category
  }

  lemma {:induction false} RanksRise(states: seq<State>, turns: seq<Turn>, p: Policy, k: WifiKey, lo: int, hi: int, i: nat, n: nat)
    requires PolicyOk(p) && History(states, turns, p) && Calm(lo, hi, p)
    requires i <= n <= |turns| && Steady(states, turns, k, lo, hi, i, n)
    ensures var (a, b) := (CategoryAt(states[i], k), CategoryAt(states[n], k));
            Rank(a, hi, p) <= Rank(b, hi, p) && (a != b ==> Rank(a, hi, p) < Rank(b, hi, p))
    decreases n
  {
    hide Reports, Calm, PolicyOk, StepTo, Rank;
    if i < n {
      RanksRise(states, turns, p, k, lo, hi, i, n - 1);
      assert ReportsWithin(states[n - 1], turns[n - 1], k, lo, hi);
      RankStep(states[n - 1], turns[n - 1], states[n], p, k, lo, hi);
    }
  }

  lemma RankStep(s: State, t: Turn, u: State, p: Policy, k: WifiKey, lo: int, hi: int)
    requires PolicyOk(p) && Calm(lo, hi, p) && StepTo(s, t, u, p) && k in s.caches.wifi && k in u.caches.wifi
    requires ReportsWithin(s, t, k, lo, hi)
    ensures var (a, b) := (CategoryAt(s, k), CategoryAt(u, k)); a != b ==> Rank(a, hi, p) < Rank(b, hi, p)
  {
    hide StepTo, Calm, PolicyOk, Rank;
    EntryStep(s, t, u, p, k);
    if Reports(s, t, k) { ChangesRaiseRank(CategoryAt(s, k), Reading(t.event.wifi), lo, hi, p); }
  }

  /**
   * Whatever else the engine is given, while an interface stays cached and associated and its signal in a window that
   * spans neither gap, its cached category never returns to one it has left.
   */
  lemma CachedCategoryNeverReturns(states: seq<State>, turns: seq<Turn>, p: Policy, k: WifiKey, lo: int, hi: int,
                                   i: nat, j: nat, n: nat)
    requires PolicyOk(p) && History(states, turns, p) && Calm(lo, hi, p)
    requires i <= j <= n <= |turns| && Steady(states, turns, k, lo, hi, i, n)
    requires CategoryAt(states[i], k) != CategoryAt(states[j], k)
    ensures CategoryAt(states[n], k) != CategoryAt(states[i], k)
  {
    hide History, Calm, PolicyOk, Rank, ReportsWithin;
    RanksRise(states, turns, p, k, lo, hi, i, j);
    RanksRise(states, turns, p, k, lo, hi, j, n);
  }
}
