/** Runs of reconciliation: what its emissions say, taken together. */
module ReconciliationRuns {
  import opened Entities
  import opened RootCauseModel
  import opened Reconciliation
  import opened ReconciliationProofs

  datatype HypothesisId = HypothesisId(key: CauseKey, occurrence: nat)

  function KeyOf(h: Hypothesis): CauseKey {
    CauseKey(h.typ, h.scope)
  }

  function IdOf(h: Hypothesis): HypothesisId {
    HypothesisId(KeyOf(h), h.occurrence)
  }

  // ---------- Folding emissions ----------

  function Mirror(m: map<HypothesisId, Hypothesis>, h: Hypothesis): map<HypothesisId, Hypothesis> {
    if h.active then m[IdOf(h) := h] else m - {IdOf(h)}
  }

  function Fold(log: seq<Hypothesis>): map<HypothesisId, Hypothesis> {
    if log == [] then map[] else Mirror(Fold(log[..|log| - 1]), log[|log| - 1])
  }

  predicate Mirrors(m: map<HypothesisId, Hypothesis>, active: Hypotheses) {
    && (forall k :: k in active ==> IdOf(active[k]) in m && m[IdOf(active[k])] == active[k])
    && (forall id :: id in m ==> id.key in active && active[id.key] == m[id] && IdOf(m[id]) == id)
  }

  predicate RegistryOk(r: Registry) {
    forall k :: k in r.active ==> KeyOf(r.active[k]) == k && r.active[k].active && r.active[k].occurrence < r.nextOccurrence
  }

  /** The end of a hypothesis is the last word on its id. */
  predicate Final(log: seq<Hypothesis>) {
    forall i, j :: 0 <= i < j < |log| && !log[i].active ==> IdOf(log[j]) != IdOf(log[i])
  }

  /** An occurrence number names one hypothesis only. */
  predicate NeverReused(log: seq<Hypothesis>) {
    forall i, j :: 0 <= i < j < |log| && log[i].occurrence == log[j].occurrence ==> KeyOf(log[i]) == KeyOf(log[j])
  }

  predicate LogOk(log: seq<Hypothesis>, active: Hypotheses, next: nat) {
    && Mirrors(Fold(log), active) && Final(log) && NeverReused(log)
    && (forall i :: 0 <= i < |log| ==> log[i].occurrence < next)
    && (forall i :: 0 <= i < |log| && !log[i].active ==> IdOf(log[i]) !in Fold(log))
  }

  predicate Tracked(r: Registry, log: seq<Hypothesis>) {
    RegistryOk(r) && LogOk(log, r.active, r.nextOccurrence)
  }

  // ---------- One step ----------

  predicate Opens(r: Registry, u: Registry, h: Hypothesis) {
    && KeyOf(h) !in r.active && h.active && h.occurrence == r.nextOccurrence
    && u.active == r.active[KeyOf(h) := h] && u.nextOccurrence == r.nextOccurrence + 1
  }

  predicate Updates(r: Registry, u: Registry, h: Hypothesis) {
    && KeyOf(h) in r.active && h.active && h.occurrence == r.active[KeyOf(h)].occurrence
    && u.active == r.active[KeyOf(h) := h] && u.nextOccurrence == r.nextOccurrence
  }

  predicate Closes(r: Registry, u: Registry, h: Hypothesis) {
    && KeyOf(h) in r.active && !h.active && h.occurrence == r.active[KeyOf(h)].occurrence
    && u.active == r.active - {KeyOf(h)} && u.nextOccurrence == r.nextOccurrence
  }

  predicate StepOk(r: Registry, u: Registry, o: Option<Hypothesis>) {
    if o.None? then u.active == r.active && u.nextOccurrence == r.nextOccurrence
    else Opens(r, u, o.value) || Updates(r, u, o.value) || Closes(r, u, o.value)
  }

  lemma EnterStep(r: Registry, k: CauseKey, c: Hypothesis, now: int, cap: nat)
    requires KeyOf(c) == k
    ensures var (u, o) := Enter(r, k, c, now, cap); StepOk(r, u, o)
  {
    hide SameContent;
  }

  lemma LeaveStep(r: Registry, k: CauseKey, now: int, maxResolved: nat)
    requires RegistryOk(r)
    ensures var (u, o) := Leave(r, k, now, maxResolved); StepOk(r, u, o)
  {
  }

  lemma FoldSnoc(log: seq<Hypothesis>, h: Hypothesis)
    ensures Fold(log + [h]) == Mirror(Fold(log), h)
  {
    assert (log + [h])[..|log + [h]| - 1] == log;
  }

  lemma MirrorStep(m: map<HypothesisId, Hypothesis>, r: Registry, u: Registry, h: Hypothesis)
    requires RegistryOk(r) && Mirrors(m, r.active) && StepOk(r, u, Some(h))
    ensures Mirrors(Mirror(m, h), u.active) && RegistryOk(u)
    ensures !h.active ==> IdOf(h) !in Mirror(m, h)
    ensures h.occurrence == r.nextOccurrence || IdOf(h) in m
  {
    if Closes(r, u, h) {
      assert IdOf(r.active[KeyOf(h)]) == IdOf(h);
    }
  }

  lemma FinalSnoc(log: seq<Hypothesis>, h: Hypothesis)
    requires Final(log) && forall i :: 0 <= i < |log| && !log[i].active ==> IdOf(log[i]) != IdOf(h)
    ensures Final(log + [h])
  {
  }

  lemma NeverReusedSnoc(log: seq<Hypothesis>, h: Hypothesis)
    requires NeverReused(log)
    requires forall i :: 0 <= i < |log| && log[i].occurrence == h.occurrence ==> KeyOf(log[i]) == KeyOf(h)
    ensures NeverReused(log + [h])
  {
  }

  lemma {:induction false} FoldedWasEmitted(log: seq<Hypothesis>, id: HypothesisId)
    requires id in Fold(log)
    ensures exists i :: 0 <= i < |log| && IdOf(log[i]) == id
  {
    var p := log[..|log| - 1];
    if IdOf(log[|log| - 1]) != id {
      FoldedWasEmitted(p, id);
      var i :| 0 <= i < |p| && IdOf(p[i]) == id;
      assert IdOf(log[i]) == id;
    } else {
      assert IdOf(log[|log| - 1]) == id;
    }
  }

  lemma OccurrenceIsTheirs(log: seq<Hypothesis>, h: Hypothesis, next: nat)
    requires NeverReused(log) && (forall i :: 0 <= i < |log| ==> log[i].occurrence < next)
    requires h.occurrence == next || IdOf(h) in Fold(log)
    ensures forall i :: 0 <= i < |log| && log[i].occurrence == h.occurrence ==> KeyOf(log[i]) == KeyOf(h)
  {
    if h.occurrence != next {
      FoldedWasEmitted(log, IdOf(h));
      var j :| 0 <= j < |log| && IdOf(log[j]) == IdOf(h);
      hide Fold;
      forall i | 0 <= i < |log| && log[i].occurrence == h.occurrence
        ensures KeyOf(log[i]) == KeyOf(h)
      {
        assert log[j].occurrence == h.occurrence;
        if i < j { assert KeyOf(log[i]) == KeyOf(log[j]); }
      }
    }
  }

  lemma LogStep(log: seq<Hypothesis>, r: Registry, u: Registry, h: Hypothesis)
    requires Tracked(r, log) && StepOk(r, u, Some(h))
    ensures Tracked(u, log + [h])
  {
    var m := Fold(log);
    assert Mirrors(m, r.active) && RegistryOk(r);
    assert h.occurrence < u.nextOccurrence && r.nextOccurrence <= u.nextOccurrence;
    hide Fold, Mirrors, RegistryOk, StepOk, Final, NeverReused;
    MirrorStep(m, r, u, h);
    FoldSnoc(log, h);
    OccurrenceIsTheirs(log, h, r.nextOccurrence);
    NeverReusedSnoc(log, h);
    FinalSnoc(log, h);
  }

  lemma StepTracked(r: Registry, log: seq<Hypothesis>, u: Registry, o: Option<Hypothesis>)
    requires Tracked(r, log) && StepOk(r, u, o)
    ensures Tracked(u, log + Emitted(o))
  {
    if o.None? {
      assert log + Emitted(o) == log;
      hide LogOk;
    } else {
      LogStep(log, r, u, o.value);
    }
  }

  // ---------- One reconciliation ----------

  lemma {:induction false} EnterAllTracked(r: Registry, log: seq<Hypothesis>, desired: Hypotheses, order: seq<CauseKey>, now: int, cap: nat)
    requires Tracked(r, log) && Keyed(desired) && forall k :: k in order ==> k in desired
    ensures var (u, out) := EnterAll(r, desired, order, now, cap); Tracked(u, log + out)
  {
    hide Tracked, Enter, StepOk;
    if order == [] {
      assert log + [] == log;
    } else {
      var (init, k) := (order[..|order| - 1], order[|order| - 1]);
      assert forall x :: x in init ==> x in order;
      EnterAllTracked(r, log, desired, init, now, cap);
      var (u, out) := EnterAll(r, desired, init, now, cap);
      EnterStep(u, k, desired[k], now, cap);
      var (v, o) := Enter(u, k, desired[k], now, cap);
      StepTracked(u, log + out, v, o);
      assert log + out + Emitted(o) == log + (out + Emitted(o));
    }
  }

  lemma {:induction false} LeaveAllTracked(r: Registry, log: seq<Hypothesis>, gone: seq<CauseKey>, now: int, maxResolved: nat)
    requires Tracked(r, log)
    ensures var (u, out) := LeaveAll(r, gone, now, maxResolved); Tracked(u, log + out)
  {
    hide LogOk, RegistryOk, Leave, StepOk;
    if gone == [] {
      assert log + [] == log;
    } else {
      var (init, k) := (gone[..|gone| - 1], gone[|gone| - 1]);
      LeaveAllTracked(r, log, init, now, maxResolved);
      var (u, out) := LeaveAll(r, init, now, maxResolved);
      LeaveStep(u, k, now, maxResolved);
      var (v, o) := Leave(u, k, now, maxResolved);
      StepTracked(u, log + out, v, o);
      assert log + out + Emitted(o) == log + (out + Emitted(o));
    }
  }

  lemma ReconcileTracked(r: Registry, log: seq<Hypothesis>, desired: Hypotheses, order: seq<CauseKey>, gone: seq<CauseKey>,
                         now: int, p: Policy)
    requires Tracked(r, log) && Keyed(desired) && forall k :: k in order ==> k in desired
    ensures var (u, out) := Reconcile(r, desired, order, gone, now, p); Tracked(u, log + out)
  {
    hide Tracked, EnterAll, LeaveAll;
    EnterAllTracked(r, log, desired, order, now, p.maxActive);
    var (u, out) := EnterAll(r, desired, order, now, p.maxActive);
    LeaveAllTracked(u, log + out, gone, now, p.maxResolved);
    var (v, more) := LeaveAll(u, gone, now, p.maxResolved);
    assert log + out + more == log + (out + more);
  }

  // ---------- Runs ----------

  datatype Round = Round(desired: Hypotheses, order: seq<CauseKey>, gone: seq<CauseKey>, now: int)

  /** Every round visits its keys in some order of its own. */
  ghost predicate Proper(p: Policy, rounds: seq<Round>)
    decreases |rounds|, 0
  {
    rounds == [] ||
    (var (init, last) := (rounds[..|rounds| - 1], rounds[|rounds| - 1]);
     Proper(p, init) && Keyed(last.desired) && Visits(Run(p, init).0, last.desired, last.order, last.gone))
  }

  ghost function Run(p: Policy, rounds: seq<Round>): (Registry, seq<Hypothesis>)
    requires Proper(p, rounds)
    decreases |rounds|, 1
  {
    if rounds == [] then (Registry(map[], [], 1), [])
    else
      var (init, last) := (rounds[..|rounds| - 1], rounds[|rounds| - 1]);
      var (r, log) := Run(p, init);
      var (u, out) := Reconcile(r, last.desired, last.order, last.gone, last.now, p);
      (u, log + out)
  }

  lemma EmptyTracked()
    ensures Tracked(Registry(map[], [], 1), [])
  {
  }

  /**
   * Over every run of reconciliations, folding the emissions gives back exactly the active hypotheses, the end of a
   * hypothesis is final, an occurrence number is never used for another hypothesis, and the cap holds.
   */
  lemma FoldedEmissionsAreActiveHypotheses(p: Policy, rounds: seq<Round>)
    requires Proper(p, rounds)
    ensures var (r, log) := Run(p, rounds);
            Mirrors(Fold(log), r.active) && Final(log) && NeverReused(log) && |r.active| <= p.maxActive
  {
    RunTracked(p, rounds);
  }

  lemma {:induction false} RunTracked(p: Policy, rounds: seq<Round>)
    requires Proper(p, rounds)
    ensures var (r, log) := Run(p, rounds); Tracked(r, log) && |r.active| <= p.maxActive
  {
    hide Tracked, Reconcile;
    if rounds == [] {
      EmptyTracked();
    } else {
      var (init, last) := (rounds[..|rounds| - 1], rounds[|rounds| - 1]);
      RunTracked(p, init);
      var (r, log) := Run(p, init);
      ReconcileTracked(r, log, last.desired, last.order, last.gone, last.now, p);
      ActiveKeysAreDesired(r, last.desired, last.order, last.gone, last.now, p);
    }
  }

  // ---------- Above the cap ----------

  function Plain(k: CauseKey): Hypothesis {
    NewHypothesis(k, Low, 0, 0, PathContextUnavailable)
  }

  function OnlyOne(k: CauseKey, gone: seq<CauseKey>): Round {
    Round(map[k := Plain(k)], [k], gone, 0)
  }

  /** With a cap of one, a hypothesis that is replaced keeps its successor out until the same candidates come again. */
  lemma SecondSpeaks(p: Policy, a: CauseKey, b: CauseKey)
    requires p.maxActive == 1 && a != b
    ensures var r := Reconcile(Registry(map[], [], 1), map[a := Plain(a)], [a], [], 0, p).0;
            var u := Reconcile(r, map[b := Plain(b)], [b], [a], 0, p).0;
            && Proper(p, [OnlyOne(a, [])]) && Run(p, [OnlyOne(a, [])]).0 == r
            && Visits(r, map[b := Plain(b)], [b], [a]) && Visits(u, map[b := Plain(b)], [b], [])
            && u.active == map[] && Reconcile(u, map[b := Plain(b)], [b], [], 0, p).1 != []
  {
    var (da, db) := (map[a := Plain(a)], map[b := Plain(b)]);
    var r0 := Registry(map[], [], 1);
    assert [a][..0] == [] && [b][..0] == [];
    assert EnterAll(r0, da, [], 0, 1) == (r0, []);
    var r := Enter(r0, a, Plain(a), 0, 1).0;
    assert EnterAll(r0, da, [a], 0, 1).0 == r;
    assert r.active.Keys == {a} && |r.active| == |r.active.Keys| == 1;
    assert Reconcile(r0, da, [a], [], 0, p).0 == r;
    assert [OnlyOne(a, [])][..0] == [];
    assert Proper(p, []) && Run(p, []).0 == r0;
    assert Visits(r0, da, [a], []);
    assert EnterAll(r, db, [], 0, 1) == (r, []);
    assert Enter(r, b, db[b], 0, 1) == (r, None) && [] + Emitted(None) == [];
    assert EnterAll(r, db, [b], 0, 1) == (r, []);
    assert LeaveAll(r, [], 0, p.maxResolved) == (r, []);
    var u := Leave(r, a, 0, p.maxResolved).0;
    assert LeaveAll(r, [a], 0, p.maxResolved).0 == u && u.active == map[];
    assert Reconcile(r, db, [b], [a], 0, p).0 == u;
    assert EnterAll(u, db, [], 0, 1) == (u, []);
    assert EnterAll(u, db, [b], 0, 1).1 != [];
  }
}
