/** Identity, silence and emissions of reconciliation. */
module ReconciliationProofs {
  import opened Entities
  import opened IdOrder
  import opened RootCauseModel
  import opened Reconciliation

  type Hypotheses = map<CauseKey, Hypothesis>

  /** Candidates stand under their own type and scope. */
  predicate Keyed(m: Hypotheses) {
    forall k :: k in m ==> m[k].typ == k.typ && m[k].scope == k.scope
  }

  // ---------- What happens to one key ----------

  /** `done` are the desired keys already visited. */
  predicate Settled(r: Registry, u: Registry, desired: Hypotheses, done: set<CauseKey>, x: CauseKey)
    requires x in done ==> x in desired
  {
    x in u.active ==>
      && (x in r.active ==> u.active[x].occurrence == r.active[x].occurrence && u.active[x].openedAt == r.active[x].openedAt)
      && (x !in r.active ==> x in done && r.nextOccurrence <= u.active[x].occurrence)
      && (if x in done then SameContent(u.active[x], desired[x]) else u.active[x] == r.active[x])
  }

  predicate AllSettled(r: Registry, u: Registry, desired: Hypotheses, done: set<CauseKey>) {
    forall x :: x in u.active && (x in done ==> x in desired) ==> Settled(r, u, desired, done, x)
  }

  lemma SameContentOf(a: Hypothesis, current: Hypothesis, c: Hypothesis, at: int)
    ensures SameContent(a, Continued(current, c)) <==> SameContent(a, c)
    ensures SameContent(Continued(current, c).(updatedAt := at), c)
    ensures SameContent(Opened(c, current.occurrence), c)
  {
  }

  lemma EnterSettles(r: Registry, u: Registry, desired: Hypotheses, done: set<CauseKey>, k: CauseKey, now: int, cap: nat)
    requires done <= desired.Keys && k in desired && k !in done && AllSettled(r, u, desired, done)
    requires r.nextOccurrence <= u.nextOccurrence && r.active.Keys <= u.active.Keys
    ensures var v := Enter(u, k, desired[k], now, cap).0;
            AllSettled(r, v, desired, done + {k}) && r.nextOccurrence <= v.nextOccurrence
  {
    var v := Enter(u, k, desired[k], now, cap).0;
    if k in u.active { SameContentOf(u.active[k], u.active[k], desired[k], now); }
    OpenedContent(desired[k], u.nextOccurrence);
    hide SameContent;
    forall x | x in v.active && (x in done + {k} ==> x in desired)
      ensures Settled(r, v, desired, done + {k}, x)
    {
      if x != k { assert Settled(r, u, desired, done, x); }
      if x == k && k in u.active { assert Settled(r, u, desired, done, k); }
    }
  }

  lemma OpenedContent(c: Hypothesis, occurrence: nat)
    ensures SameContent(Opened(c, occurrence), c)
  {
  }

  lemma {:induction false} EnterAllSettles(r: Registry, desired: Hypotheses, order: seq<CauseKey>, now: int, cap: nat)
    requires NoRepeats(order) && forall k :: k in order ==> k in desired
    ensures var u := EnterAll(r, desired, order, now, cap).0;
            AllSettled(r, u, desired, Listed(order)) && r.nextOccurrence <= u.nextOccurrence
  {
    if order != [] {
      var (init, k) := (order[..|order| - 1], order[|order| - 1]);
      SplitLast(order);
      assert forall x :: x in init ==> x in order;
      EnterAllSettles(r, desired, init, now, cap);
      EnterAllKeys(r, desired, init, now, cap);
      var u := EnterAll(r, desired, init, now, cap).0;
      hide Enter, AllSettled, NoRepeats;
      assert k !in Listed(init) && Listed(init) <= desired.Keys;
      EnterSettles(r, u, desired, Listed(init), k, now, cap);
    }
  }

  /** Survivors keep occurrence and opening time, newcomers get new occurrences, and all carry the desired content. */
  lemma SurvivorsKeepIdentity(r: Registry, desired: Hypotheses, order: seq<CauseKey>, gone: seq<CauseKey>, now: int, p: Policy,
                              k: CauseKey)
    requires Visits(r, desired, order, gone)
    requires k in Reconcile(r, desired, order, gone, now, p).0.active
    ensures var h := Reconcile(r, desired, order, gone, now, p).0.active[k];
            && k in desired && SameContent(h, desired[k])
            && (k in r.active ==> h.occurrence == r.active[k].occurrence && h.openedAt == r.active[k].openedAt)
            && (k !in r.active ==> r.nextOccurrence <= h.occurrence)
  {
    hide EnterAll, LeaveAll, NoRepeats, SameContent, Listed;
    ListedIs(order, desired.Keys);
    ListedIs(gone, r.active.Keys - desired.Keys);
    EnterAllSettles(r, desired, order, now, p.maxActive);
    EnterAllKeys(r, desired, order, now, p.maxActive);
    var e := EnterAll(r, desired, order, now, p.maxActive).0;
    LeaveAllKeys(e, gone, now, p.maxResolved);
    assert k in e.active && k !in r.active.Keys - desired.Keys;
    assert Settled(r, e, desired, desired.Keys, k);
  }

  // ---------- A second time ----------

  predicate Matches(u: Registry, desired: Hypotheses) {
    forall k :: k in u.active && k in desired ==> SameContent(u.active[k], desired[k])
  }

  lemma EnterUnchanged(u: Registry, desired: Hypotheses, k: CauseKey, now: int, cap: nat)
    requires Matches(u, desired) && k in desired
    ensures k in u.active || |u.active| >= cap ==> Enter(u, k, desired[k], now, cap) == (u, None)
    ensures !(k in u.active || |u.active| >= cap) ==> Enter(u, k, desired[k], now, cap).1.Some?
  {
    if k in u.active { SameContentOf(u.active[k], u.active[k], desired[k], now); }
    hide SameContent;
  }

  lemma {:induction false} EnterAllUnchanged(u: Registry, desired: Hypotheses, order: seq<CauseKey>, now: int, cap: nat)
    requires Matches(u, desired) && (forall k :: k in order ==> k in desired)
    requires |u.active| >= cap || forall k :: k in order ==> k in u.active
    ensures EnterAll(u, desired, order, now, cap) == (u, [])
  {
    hide Matches, Enter;
    if order != [] {
      var (init, k) := (order[..|order| - 1], order[|order| - 1]);
      assert k in order && forall x :: x in init ==> x in order;
      EnterAllUnchanged(u, desired, init, now, cap);
      EnterUnchanged(u, desired, k, now, cap);
      assert EnterAll(u, desired, init, now, cap).1 + Emitted(None) == [];
    }
  }

  lemma {:induction false} EnterAllSpeaks(u: Registry, desired: Hypotheses, order: seq<CauseKey>, now: int, cap: nat, k: CauseKey)
    requires Matches(u, desired) && (forall x :: x in order ==> x in desired)
    requires k in order && k !in u.active && |u.active| < cap
    ensures EnterAll(u, desired, order, now, cap).1 != []
  {
    hide Matches, Enter;
    var (init, last) := (order[..|order| - 1], order[|order| - 1]);
    assert forall x :: x in init ==> x in order;
    if exists x :: x in init && x !in u.active {
      var x :| x in init && x !in u.active;
      EnterAllSpeaks(u, desired, init, now, cap, x);
    } else {
      assert order == init + [last];
      EnterAllUnchanged(u, desired, init, now, cap);
      EnterUnchanged(u, desired, last, now, cap);
    }
  }

  lemma MissingKey(order: seq<CauseKey>, u: Registry, desired: Hypotheses) returns (k: CauseKey)
    requires Enumerates(order, desired.Keys) && u.active.Keys <= desired.Keys && u.active.Keys != desired.Keys
    ensures k in order && k !in u.active
  {
    assert desired.Keys - u.active.Keys == {} ==> desired.Keys == u.active.Keys + (desired.Keys - u.active.Keys) == u.active.Keys;
    k :| k in desired.Keys - u.active.Keys;
  }

  lemma NothingToVisit(gone: seq<CauseKey>)
    requires Enumerates(gone, {})
    ensures gone == []
  {
    if gone != [] { FirstListed(gone); }
  }

  lemma FirstListed(gone: seq<CauseKey>)
    requires gone != []
    ensures exists k :: k in gone
  {
    assert gone[0] in gone;
  }

  lemma RepeatIsSilentWhen(u: Registry, desired: Hypotheses, order: seq<CauseKey>, gone: seq<CauseKey>, now: int, p: Policy)
    requires Visits(u, desired, order, gone) && Matches(u, desired) && u.active.Keys <= desired.Keys
    ensures Reconcile(u, desired, order, gone, now, p).1 == [] <==> u.active.Keys == desired.Keys || |u.active| >= p.maxActive
    ensures Reconcile(u, desired, order, gone, now, p).1 == [] ==> Reconcile(u, desired, order, gone, now, p).0 == u
  {
    assert u.active.Keys - desired.Keys == {};
    NothingToVisit(gone);
    hide Matches, EnterAll, NoRepeats;
    if u.active.Keys == desired.Keys || |u.active| >= p.maxActive {
      EnterAllUnchanged(u, desired, order, now, p.maxActive);
    } else {
      var k := MissingKey(order, u, desired);
      EnterAllSpeaks(u, desired, order, now, p.maxActive, k);
    }
  }

  /**
   * Reconciling again with the same candidates emits and changes nothing, exactly when the old and the desired keys
   * together fit the cap, or nothing had to be resolved the first time.
   */
  lemma SecondIsSilentIff(r: Registry, desired: Hypotheses, order: seq<CauseKey>, gone: seq<CauseKey>, now: int,
                          order2: seq<CauseKey>, gone2: seq<CauseKey>, now2: int, p: Policy)
    requires Visits(r, desired, order, gone) && |r.active| <= p.maxActive
    requires Visits(Reconcile(r, desired, order, gone, now, p).0, desired, order2, gone2)
    ensures var u := Reconcile(r, desired, order, gone, now, p).0;
            var (u2, out2) := Reconcile(u, desired, order2, gone2, now2, p);
            && (out2 == [] <==> |r.active.Keys + desired.Keys| <= p.maxActive || r.active.Keys <= desired.Keys)
            && (out2 == [] ==> u2 == u)
  {
    var u := Reconcile(r, desired, order, gone, now, p).0;
    assert Matches(u, desired) by {
      hide Reconcile, SameContent;
      forall k | k in u.active && k in desired
        ensures SameContent(u.active[k], desired[k])
      {
        SurvivorsKeepIdentity(r, desired, order, gone, now, p, k);
      }
    }
    hide Reconcile, Matches, NoRepeats, Min;
    ActiveKeysAreDesired(r, desired, order, gone, now, p);
    RepeatIsSilentWhen(u, desired, order2, gone2, now2, p);
    FullIff(r.active.Keys, desired.Keys, |u.active|, p.maxActive);
  }

  lemma FullIff(before: set<CauseKey>, wanted: set<CauseKey>, size: nat, cap: nat)
    requires size == Min(cap, |before + wanted|) - |before - wanted|
    ensures |before + wanted| > cap ==> (size >= cap <==> before <= wanted)
  {
    if before <= wanted {
      assert before - wanted == {};
    } else {
      var k :| k in before && k !in wanted;
      assert k in before - wanted;
    }
  }
}
