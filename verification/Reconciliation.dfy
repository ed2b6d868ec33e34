/** Matching desired candidates against live hypotheses, for every order in which the keys may be visited. */
module Reconciliation {
  import opened BoundedList
  import opened Entities
  import opened IdOrder
  import opened RootCauseModel

  datatype Registry = Registry(active: map<CauseKey, Hypothesis>, resolved: seq<Hypothesis>, nextOccurrence: nat)

  // ---------- Content ----------

  predicate SameClue(a: Clue, b: Clue) {
    a.(observedAt := b.observedAt, monotonicAt := b.monotonicAt) == b
  }

  predicate SameClues(a: seq<Clue>, b: seq<Clue>) {
    |a| == |b| && forall i :: 0 <= i < |a| ==> SameClue(a[i], b[i])
  }

  predicate SameContent(a: Hypothesis, b: Hypothesis) {
    && a.typ == b.typ && a.scope == b.scope && a.level == b.level && a.reason == b.reason
    && SameClues(a.supporting, b.supporting) && SameClues(a.contradicting, b.contradicting) && SameClues(a.missing, b.missing)
  }

  // ---------- One key ----------

  function Opened(c: Hypothesis, occurrence: nat): Hypothesis {
    c.(occurrence := occurrence, active := true)
  }

  function Continued(current: Hypothesis, c: Hypothesis): Hypothesis {
    c.(occurrence := current.occurrence, openedAt := current.openedAt, active := true,
       updatedAt := Max(c.updatedAt, current.updatedAt))
  }

  function Ended(h: Hypothesis, now: int): Hypothesis {
    h.(active := false, resolvedAt := Some(now), updatedAt := now)
  }

  function Enter(r: Registry, k: CauseKey, c: Hypothesis, now: int, cap: nat): (Registry, Option<Hypothesis>) {
    if k in r.active then
      var h := Continued(r.active[k], c);
      if SameContent(r.active[k], h) then (r, None)
      else (r.(active := r.active[k := h.(updatedAt := now)]), Some(h.(updatedAt := now)))
    else if |r.active| >= cap then (r, None)
    else
      var h := Opened(c, r.nextOccurrence);
      (r.(active := r.active[k := h], nextOccurrence := r.nextOccurrence + 1), Some(h))
  }

  function Leave(r: Registry, k: CauseKey, now: int, maxResolved: nat): (Registry, Option<Hypothesis>) {
    if k !in r.active then (r, None)
    else
      var h := Ended(r.active[k], now);
      (r.(active := r.active - {k}, resolved := KeepLast(r.resolved + [h], maxResolved)), Some(h))
  }

  // ---------- All keys ----------

  function Emitted(o: Option<Hypothesis>): seq<Hypothesis> {
    if o.Some? then [o.value] else []
  }

  function EnterAll(r: Registry, desired: map<CauseKey, Hypothesis>, order: seq<CauseKey>, now: int, cap: nat)
    : (Registry, seq<Hypothesis>)
    requires forall k :: k in order ==> k in desired
  {
    if order == [] then (r, [])
    else
      var (r1, out1) := EnterAll(r, desired, order[..|order| - 1], now, cap);
      var k := order[|order| - 1];
      var (r2, o) := Enter(r1, k, desired[k], now, cap);
      (r2, out1 + Emitted(o))
  }

  function LeaveAll(r: Registry, gone: seq<CauseKey>, now: int, maxResolved: nat): (Registry, seq<Hypothesis>) {
    if gone == [] then (r, [])
    else
      var (r1, out1) := LeaveAll(r, gone[..|gone| - 1], now, maxResolved);
      var (r2, o) := Leave(r1, gone[|gone| - 1], now, maxResolved);
      (r2, out1 + Emitted(o))
  }

  ghost predicate Enumerates(order: seq<CauseKey>, keys: set<CauseKey>) {
    NoRepeats(order) && forall k :: k in order <==> k in keys
  }

  /** The desired keys are visited in `order`, the keys no longer desired in the order of `gone`. */
  function Reconcile(r: Registry, desired: map<CauseKey, Hypothesis>, order: seq<CauseKey>, gone: seq<CauseKey>, now: int,
                     p: Policy): (Registry, seq<Hypothesis>)
    requires forall k :: k in order ==> k in desired
  {
    var (r1, out1) := EnterAll(r, desired, order, now, p.maxActive);
    var (r2, out2) := LeaveAll(r1, gone, now, p.maxResolved);
    (r2, out1 + out2)
  }

  /** Some order of both traversals. */
  ghost predicate Visits(r: Registry, desired: map<CauseKey, Hypothesis>, order: seq<CauseKey>, gone: seq<CauseKey>) {
    Enumerates(order, desired.Keys) && Enumerates(gone, r.active.Keys - desired.Keys)
  }

  // ---------- Which keys are active ----------

  function NewKeys(order: seq<CauseKey>, known: set<CauseKey>): nat {
    if order == [] then 0
    else NewKeys(order[..|order| - 1], known) + (if order[|order| - 1] in known then 0 else 1)
  }

  function Min(a: nat, b: nat): nat {
    if a < b then a else b
  }

  function Listed(order: seq<CauseKey>): set<CauseKey> {
    set k | k in order
  }

  lemma SplitLast(order: seq<CauseKey>)
    requires NoRepeats(order) && order != []
    ensures var (init, k) := (order[..|order| - 1], order[|order| - 1]);
            NoRepeats(init) && k !in init && Listed(order) == Listed(init) + {k}
  {
    assert order == order[..|order| - 1] + [order[|order| - 1]];
  }

  lemma OneMore<T>(s: set<T>, x: T)
    ensures |s + {x}| == |s| + (if x in s then 0 else 1)
  {
    if x in s { assert s + {x} == s; }
  }

  lemma {:induction false} NewKeysCount(order: seq<CauseKey>, known: set<CauseKey>)
    requires NoRepeats(order)
    ensures |known + Listed(order)| == |known| + NewKeys(order, known)
  {
    if order == [] {
      assert known + Listed(order) == known;
    } else {
      var (init, k) := (order[..|order| - 1], order[|order| - 1]);
      SplitLast(order);
      assert k !in Listed(init);
      hide NoRepeats, Listed;
      NewKeysCount(init, known);
      OneMore(known + Listed(init), k);
      assert known + Listed(order) == known + Listed(init) + {k};
    }
  }

  lemma EnterKeys(r: Registry, k: CauseKey, c: Hypothesis, now: int, cap: nat)
    ensures r.active.Keys <= Enter(r, k, c, now, cap).0.active.Keys <= r.active.Keys + {k}
  {
    hide SameContent;
  }

  lemma EnterCount(r: Registry, k: CauseKey, c: Hypothesis, now: int, cap: nat)
    ensures |Enter(r, k, c, now, cap).0.active| == |r.active| + (if k in r.active || |r.active| >= cap then 0 else 1)
  {
    hide SameContent;
    if k in r.active {
      assert Enter(r, k, c, now, cap).0.active.Keys == r.active.Keys;
    }
  }

  lemma CountStep(cap: nat, before: nat, fresh1: nat, size1: nat, known: bool, size2: nat)
    requires before <= cap && size1 == Min(cap, before + fresh1)
    requires size2 == size1 + (if known || size1 >= cap then 0 else 1)
    ensures size2 == Min(cap, before + (fresh1 + (if known then 0 else 1)))
  {
  }

  lemma {:induction false} EnterAllKeys(r: Registry, desired: map<CauseKey, Hypothesis>, order: seq<CauseKey>, now: int, cap: nat)
    requires NoRepeats(order) && (forall k :: k in order ==> k in desired)
    ensures r.active.Keys <= EnterAll(r, desired, order, now, cap).0.active.Keys <= r.active.Keys + Listed(order)
  {
    if order != [] {
      var (init, k) := (order[..|order| - 1], order[|order| - 1]);
      SplitLast(order);
      hide Enter, NoRepeats, Listed;
      EnterAllKeys(r, desired, init, now, cap);
      EnterKeys(EnterAll(r, desired, init, now, cap).0, k, desired[k], now, cap);
    }
  }

  /** Room is taken up by old and new keys alike, until the cap is reached. */
  lemma {:induction false} EnterAllCount(r: Registry, desired: map<CauseKey, Hypothesis>, order: seq<CauseKey>, now: int, cap: nat)
    requires NoRepeats(order) && (forall k :: k in order ==> k in desired) && |r.active| <= cap
    ensures |EnterAll(r, desired, order, now, cap).0.active| == Min(cap, |r.active| + NewKeys(order, r.active.Keys))
  {
    hide Enter, NoRepeats, Listed, Min;
    if order == [] {
      CountStart(cap, |r.active|);
    } else {
      SplitLast(order);
      EnterAllCount(r, desired, order[..|order| - 1], now, cap);
      EnterAllCountStep(r, desired, order, now, cap);
    }
  }

  lemma CountStart(cap: nat, before: nat)
    requires before <= cap
    ensures Min(cap, before) == before
  {
  }

  lemma EnterAllCountStep(r: Registry, desired: map<CauseKey, Hypothesis>, order: seq<CauseKey>, now: int, cap: nat)
    requires NoRepeats(order) && (forall k :: k in order ==> k in desired) && |r.active| <= cap && order != []
    requires var init := order[..|order| - 1];
             |EnterAll(r, desired, init, now, cap).0.active| == Min(cap, |r.active| + NewKeys(init, r.active.Keys))
    ensures |EnterAll(r, desired, order, now, cap).0.active| == Min(cap, |r.active| + NewKeys(order, r.active.Keys))
  {
    var (init, k) := (order[..|order| - 1], order[|order| - 1]);
    var u := EnterAll(r, desired, init, now, cap).0;
    var v := Enter(u, k, desired[k], now, cap).0;
    assert k in u.active <==> k in r.active by {
      SplitLast(order);
      EnterAllKeys(r, desired, init, now, cap);
    }
    hide Enter, NoRepeats, Listed, Min;
    EnterCount(u, k, desired[k], now, cap);
    CountStep(cap, |r.active|, NewKeys(init, r.active.Keys), |u.active|, k in r.active, |v.active|);
  }

  lemma SubsetSameSize<T>(a: set<T>, b: set<T>)
    requires a <= b
    ensures |a| <= |b| && (|a| == |b| <==> a == b)
  {
    assert b == a + (b - a) && |b| == |a| + |b - a|;
  }

  lemma {:induction false} LeaveAllKeys(r: Registry, gone: seq<CauseKey>, now: int, maxResolved: nat)
    ensures var u := LeaveAll(r, gone, now, maxResolved).0;
            u.active == r.active - Listed(gone) && u.nextOccurrence == r.nextOccurrence
  {
    if gone == [] {
      assert r.active - Listed(gone) == r.active;
    } else {
      var (init, k) := (gone[..|gone| - 1], gone[|gone| - 1]);
      LeaveAllKeys(r, init, now, maxResolved);
      assert gone == init + [k];
    }
  }

  /**
   * After reconciliation only desired keys are active and the cap holds; all desired keys are active exactly when the old
   * and the desired keys together fit the cap.
   */
  lemma ActiveKeysAreDesired(r: Registry, desired: map<CauseKey, Hypothesis>, order: seq<CauseKey>, gone: seq<CauseKey>,
                             now: int, p: Policy)
    requires Visits(r, desired, order, gone) && |r.active| <= p.maxActive
    ensures var u := Reconcile(r, desired, order, gone, now, p).0;
            && u.active.Keys <= desired.Keys && |u.active| <= p.maxActive
            && r.active.Keys * desired.Keys <= u.active.Keys
            && (u.active.Keys == desired.Keys <==> |r.active.Keys + desired.Keys| <= p.maxActive)
            && |u.active| == Min(p.maxActive, |r.active.Keys + desired.Keys|) - |r.active.Keys - desired.Keys|
  {
    hide EnterAll, LeaveAll, Min, Listed, NoRepeats;
    var (before, wanted) := (r.active.Keys, desired.Keys);
    AfterEntering(r, desired, order, now, p.maxActive);
    var e := EnterAll(r, desired, order, now, p.maxActive).0;
    LeaveAllKeys(e, gone, now, p.maxResolved);
    ListedIs(gone, before - wanted);
    var left := e.active.Keys - (before - wanted);
    assert LeaveAll(e, gone, now, p.maxResolved).0.active.Keys == left;
    KeysLeft(before, wanted, e.active.Keys, left, p.maxActive);
  }

  lemma SizeIsKeys(m: map<CauseKey, Hypothesis>)
    ensures |m| == |m.Keys|
  {
  }

  lemma ListedIs(order: seq<CauseKey>, keys: set<CauseKey>)
    requires Enumerates(order, keys)
    ensures Listed(order) == keys
  {
  }

  lemma AfterEntering(r: Registry, desired: map<CauseKey, Hypothesis>, order: seq<CauseKey>, now: int, cap: nat)
    requires Enumerates(order, desired.Keys) && |r.active| <= cap
    ensures var e := EnterAll(r, desired, order, now, cap).0;
            && r.active.Keys <= e.active.Keys <= r.active.Keys + desired.Keys
            && |e.active.Keys| == Min(cap, |r.active.Keys + desired.Keys|)
  {
    hide EnterAll, Min, NoRepeats, NewKeys, Listed;
    ListedIs(order, desired.Keys);
    EnterAllKeys(r, desired, order, now, cap);
    SizeAfterEntering(r, desired, order, now, cap);
  }

  lemma SizeAfterEntering(r: Registry, desired: map<CauseKey, Hypothesis>, order: seq<CauseKey>, now: int, cap: nat)
    requires Enumerates(order, desired.Keys) && |r.active| <= cap
    ensures |EnterAll(r, desired, order, now, cap).0.active.Keys| == Min(cap, |r.active.Keys + desired.Keys|)
  {
    hide EnterAll, Min, NoRepeats, NewKeys, Listed;
    EnterAllCount(r, desired, order, now, cap);
    UnionSize(order, desired.Keys, r.active.Keys);
    SizeIsKeys(r.active);
    SizeIsKeys(EnterAll(r, desired, order, now, cap).0.active);
  }

  lemma UnionSize(order: seq<CauseKey>, keys: set<CauseKey>, known: set<CauseKey>)
    requires Enumerates(order, keys)
    ensures |known + keys| == |known| + NewKeys(order, known)
  {
    ListedIs(order, keys);
    NewKeysCount(order, known);
  }

  /** The set argument behind it: `e` is what is active between the two passes. */
  lemma KeysLeft(before: set<CauseKey>, wanted: set<CauseKey>, e: set<CauseKey>, u: set<CauseKey>, cap: nat)
    requires before <= e <= before + wanted && |e| == Min(cap, |before + wanted|) && u == e - (before - wanted)
    ensures u <= wanted && |u| == |e| - |before - wanted| && |u| <= cap
    ensures u == wanted <==> |before + wanted| <= cap
  {
    var gone := before - wanted;
    assert e == u + gone && u !! gone;
    assert |e| == |u| + |gone|;
    SubsetSameSize(e, before + wanted);
    assert u == wanted <==> e == before + wanted by {
      if u == wanted { assert e == wanted + gone == before + wanted; }
    }
  }
}
