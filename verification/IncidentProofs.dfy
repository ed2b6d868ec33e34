/** What the incident engine keeps, and why folding its emissions gives back its active incidents. */
module IncidentProofs {
  import opened Entities
  import opened IdOrder
  import opened IncidentModel

  // ---------- The invariant of the record table ----------

  predicate EvidenceOk(i: Incident, bound: nat) {
    && 1 <= |i.evidence| <= bound
    && (bound >= 2 ==> i.evidence[0].observedAt == i.openedAt && i.evidence[0].monotonicAt == i.openedMonotonic
                       && i.evidence[0].condition == i.condition)
  }

  predicate IncidentOk(k: Key, i: Incident, p: Policy, nextId: nat) {
    i.typ == k.typ && i.scope == k.scope && i.state == Active && i.id < nextId && EvidenceOk(i, p.maxEvidence)
  }

  predicate RecordOk(k: Key, r: Record, p: Policy, nextId: nat) {
    if r.incident.None? then 0 < r.bad < p.activation && r.good == 0
    else r.good < p.recovery && IncidentOk(k, r.incident.value, p, nextId)
  }

  predicate RecordsOk(e: Engine) {
    forall k :: k in e.records ==> RecordOk(k, e.records[k], e.policy, e.nextId)
  }

  predicate SameId(a: Option<Incident>, b: Option<Incident>) {
    a.Some? && b.Some? && a.value.id == b.value.id
  }

  predicate IdsUnique(records: map<Key, Record>) {
    forall a, b ::
      a in records && b in records && SameId(records[a].incident, records[b].incident) ==> a == b
  }

  predicate KeyTyped(k: Key) {
    if k.typ == UplinkDown then k.scope.NetnsScope? else k.scope.SocketScope?
  }

  predicate RouteKey(k: Key) {
    k.typ == NoRoute || k.typ == SocketRouteConflict
  }

  /** Route records, pending or active, belong to sockets that are currently known to exist. */
  predicate KeysOk(records: map<Key, Record>, authoritative: set<SocketId>) {
    forall k :: k in records ==> KeyTyped(k) && (RouteKey(k) ==> k.scope.socket in authoritative)
  }

  predicate OneGeneration(authoritative: set<SocketId>) {
    forall a, b ::
      a in authoritative && b in authoritative && a.cookie.Some? && a.cookie == b.cookie && a.netns == b.netns ==> a == b
  }

  predicate EngineOk(e: Engine) {
    && PolicyOk(e.policy) && RecordsOk(e) && IdsUnique(e.records)
    && KeysOk(e.records, e.authoritative) && OneGeneration(e.authoritative)
  }

  predicate SizesOk(e: Engine) {
    |e.records| <= e.policy.maxRecords && |e.resolved| <= e.policy.maxResolved
  }

  // ---------- The four things that can happen to a record ----------

  function IncidentOf(r: Option<Record>): Option<Incident> {
    if r.Some? then r.value.incident else None
  }

  predicate Quiet(before: Option<Record>, o: Outcome) {
    o.emitted.None? && !o.isNew && IncidentOf(o.record) == IncidentOf(before)
  }

  predicate Opens(before: Option<Record>, o: Outcome, nextId: nat) {
    && IncidentOf(before).None? && o.isNew && o.emitted.Some? && IncidentOf(o.record) == o.emitted
    && o.emitted.value.id == nextId && o.emitted.value.state == Active
  }

  predicate Updates(before: Option<Record>, o: Outcome) {
    && IncidentOf(before).Some? && !o.isNew && o.emitted.Some? && IncidentOf(o.record) == o.emitted
    && o.emitted.value.id == IncidentOf(before).value.id && o.emitted.value.state == Active
  }

  predicate Closes(before: Option<Record>, o: Outcome) {
    && IncidentOf(before).Some? && !o.isNew && o.emitted.Some? && o.record.None?
    && o.emitted.value.id == IncidentOf(before).value.id && o.emitted.value.state == Resolved
  }

  predicate OutcomeOk(k: Key, before: Option<Record>, o: Outcome, p: Policy, nextId: nat) {
    && (Quiet(before, o) || Opens(before, o, nextId) || Updates(before, o) || Closes(before, o))
    && (o.record.Some? ==> RecordOk(k, o.record.value, p, if o.isNew then nextId + 1 else nextId))
  }

  lemma AppendOk(i: Incident, e: Evidence, bound: nat)
    requires EvidenceOk(i, bound)
    ensures EvidenceOk(i.(evidence := Append(i.evidence, e, bound)), bound)
    ensures var after := Append(i.evidence, e, bound); Equivalent(after[|after| - 1], e)
  {
  }

  lemma JudgeOk(r: Option<Record>, k: Key, netns: NetnsId, v: Evaluation, e: Evidence, c: Completeness, p: Policy, nextId: nat)
    requires PolicyOk(p) && (r.Some? ==> RecordOk(k, r.value, p, nextId))
    ensures OutcomeOk(k, r, Judge(r, k, netns, v, e, c, p, nextId), p, nextId)
  {
    if r.Some? && r.value.incident.Some? {
      AppendOk(r.value.incident.value, e, p.maxEvidence);
      hide Append;
    }
  }

  lemma PutKeepsOk(e: Engine, k: Key, o: Outcome)
    requires EngineOk(e) && OutcomeOk(k, RecordAt(e, k), o, e.policy, e.nextId)
    requires o.record.Some? ==> KeyTyped(k) && (RouteKey(k) ==> k.scope.socket in e.authoritative)
    ensures EngineOk(Put(e, k, o))
  {
    hide EvidenceOk;
    var u := Put(e, k, o);
    assert RecordsOk(u) by {
      forall x | x in u.records
        ensures RecordOk(x, u.records[x], u.policy, u.nextId)
      {
        if x != k { assert RecordOk(x, e.records[x], e.policy, e.nextId); }
      }
    }
    assert IdsUnique(u.records);
  }

  // ---------- Emissions ----------

  /** The rule of the consumer: an active incident is recorded by id, a resolved one erased. */
  function Mirror(m: map<nat, Incident>, i: Incident): map<nat, Incident> {
    match i.state
    case Active => m[i.id := i]
    case Resolved => m - {i.id}
    case Pending => m
  }

  function Fold(log: seq<Incident>): map<nat, Incident> {
    if log == [] then map[] else Mirror(Fold(log[..|log| - 1]), log[|log| - 1])
  }

  function KeyOf(i: Incident): Key {
    Key(i.typ, i.scope)
  }

  /** `m` holds exactly the incidents of the active records, under their ids. */
  predicate Mirrors(m: map<nat, Incident>, records: map<Key, Record>) {
    && (forall k :: k in records && records[k].incident.Some? ==>
          records[k].incident.value.id in m && m[records[k].incident.value.id] == records[k].incident.value)
    && (forall id :: id in m ==> m[id].id == id && KeyOf(m[id]) in records && records[KeyOf(m[id])].incident == Some(m[id]))
  }

  /** A resolution is the last word on its id. */
  predicate Final(log: seq<Incident>) {
    forall i, j :: 0 <= i < j < |log| && log[i].state == Resolved ==> log[j].id != log[i].id
  }

  predicate IsFirst(log: seq<Incident>, j: nat)
    requires j < |log|
  {
    forall i :: 0 <= i < j ==> log[i].id != log[j].id
  }

  /** The first emission of an incident carries an id larger than every id before it. */
  predicate Increasing(log: seq<Incident>) {
    forall i, j :: 0 <= i < j < |log| && IsFirst(log, j) ==> log[i].id < log[j].id
  }

  predicate LogOk(log: seq<Incident>, records: map<Key, Record>, nextId: nat) {
    && Mirrors(Fold(log), records)
    && Final(log) && Increasing(log)
    && (forall i :: 0 <= i < |log| ==> log[i].id < nextId && log[i].state != Pending)
    && (forall i :: 0 <= i < |log| && log[i].state == Resolved ==> log[i].id !in Fold(log))
  }

  lemma FoldSnoc(log: seq<Incident>, i: Incident)
    ensures Fold(log + [i]) == Mirror(Fold(log), i)
  {
    assert (log + [i])[..|log + [i]| - 1] == log;
  }

  lemma FinalSnoc(log: seq<Incident>, x: Incident)
    requires Final(log) && forall i :: 0 <= i < |log| && log[i].state == Resolved ==> log[i].id != x.id
    ensures Final(log + [x])
  {
  }

  lemma {:induction false} FoldedWasEmitted(log: seq<Incident>, id: nat)
    requires id in Fold(log)
    ensures exists i :: 0 <= i < |log| && log[i].id == id
  {
    var p := log[..|log| - 1];
    if id in Fold(p) && log[|log| - 1].id != id {
      FoldedWasEmitted(p, id);
      var i :| 0 <= i < |p| && p[i].id == id;
      assert log[i].id == id;
    } else {
      assert log[|log| - 1].id == id;
    }
  }

  lemma IncreasingSnoc(log: seq<Incident>, x: Incident)
    requires Increasing(log)
    requires (exists i :: 0 <= i < |log| && log[i].id == x.id) || (forall i :: 0 <= i < |log| ==> log[i].id < x.id)
    ensures Increasing(log + [x])
  {
    var l := log + [x];
    forall i, j | 0 <= i < j < |l| && IsFirst(l, j)
      ensures l[i].id < l[j].id
    {
      if j < |log| {
        assert forall h :: 0 <= h < j ==> l[h] == log[h];
        assert IsFirst(log, j);
      } else {
        assert forall h :: 0 <= h < |log| ==> log[h].id != x.id by {
          assert forall h :: 0 <= h < |log| ==> l[h] == log[h];
        }
        assert l[i] == log[i];
      }
    }
  }

  lemma LogSnoc(log: seq<Incident>, records: map<Key, Record>, nextId: nat, x: Incident, records': map<Key, Record>, next': nat)
    requires LogOk(log, records, nextId) && nextId <= next' && x.id < next' && x.state != Pending
    requires x.id in Fold(log) || x.id == nextId
    requires Mirrors(Mirror(Fold(log), x), records')
    ensures LogOk(log + [x], records', next')
  {
    hide Mirrors, Fold, Final, Increasing;
    FoldSnoc(log, x);
    FinalSnoc(log, x);
    if x.id in Fold(log) { FoldedWasEmitted(log, x.id); }
    IncreasingSnoc(log, x);
  }

  lemma MirrorsErased(m: map<nat, Incident>, records: map<Key, Record>, k: Key)
    requires Mirrors(m, records) && IdsUnique(records) && k in records && records[k].incident.Some?
    ensures Mirrors(m - {records[k].incident.value.id}, records - {k})
  {
  }

  lemma MirrorsSet(m: map<nat, Incident>, records: map<Key, Record>, k: Key, r: Record)
    requires Mirrors(m, records) && IdsUnique(records) && r.incident.Some? && KeyOf(r.incident.value) == k
    requires if k in records && records[k].incident.Some? then records[k].incident.value.id == r.incident.value.id
             else r.incident.value.id !in m
    ensures Mirrors(m[r.incident.value.id := r.incident.value], records[k := r])
  {
  }

  lemma MirrorsQuiet(m: map<nat, Incident>, records: map<Key, Record>, k: Key, r: Option<Record>)
    requires Mirrors(m, records)
    requires IncidentOf(r) == if k in records then records[k].incident else None
    ensures Mirrors(m, if r.Some? then records[k := r.value] else records - {k})
  {
  }

  lemma MirrorStep(m: map<nat, Incident>, e: Engine, k: Key, o: Outcome)
    requires RecordsOk(e) && IdsUnique(e.records) && Mirrors(m, e.records)
    requires OutcomeOk(k, RecordAt(e, k), o, e.policy, e.nextId)
    ensures Mirrors(if o.emitted.Some? then Mirror(m, o.emitted.value) else m, Put(e, k, o).records)
  {
    if Quiet(RecordAt(e, k), o) {
      hide Mirrors, RecordsOk, RecordOk;
      MirrorsQuiet(m, e.records, k, o.record);
    } else if Closes(RecordAt(e, k), o) {
      hide Mirrors, RecordsOk, RecordOk;
      MirrorsErased(m, e.records, k);
    } else {
      assert Opens(RecordAt(e, k), o, e.nextId) ==> e.nextId !in m;
      hide Mirrors, RecordsOk, EvidenceOk;
      MirrorsSet(m, e.records, k, o.record.value);
    }
  }

  /** The engine together with everything it has emitted. */
  predicate Tracked(e: Engine, log: seq<Incident>) {
    EngineOk(e) && LogOk(log, e.records, e.nextId) && SizesOk(e)
  }

  lemma PutKeepsSizes(e: Engine, k: Key, o: Outcome)
    requires SizesOk(e) && (o.record.Some? && k !in e.records ==> |e.records| < e.policy.maxRecords)
    ensures SizesOk(Put(e, k, o))
  {
  }

  lemma EmittedId(e: Engine, m: map<nat, Incident>, k: Key, o: Outcome)
    requires RecordsOk(e) && Mirrors(m, e.records) && OutcomeOk(k, RecordAt(e, k), o, e.policy, e.nextId) && o.emitted.Some?
    ensures var x := o.emitted.value;
            x.id < Put(e, k, o).nextId && (x.id in m || x.id == e.nextId) && x.state != Pending
  {
    hide EvidenceOk;
    if IncidentOf(RecordAt(e, k)).Some? { assert RecordOk(k, e.records[k], e.policy, e.nextId); }
  }

  lemma PutTracked(e: Engine, log: seq<Incident>, k: Key, o: Outcome)
    requires Tracked(e, log) && OutcomeOk(k, RecordAt(e, k), o, e.policy, e.nextId)
    requires o.record.Some? ==> KeyTyped(k) && (RouteKey(k) ==> k.scope.socket in e.authoritative)
    requires o.record.Some? && k !in e.records ==> |e.records| < e.policy.maxRecords
    ensures Tracked(Put(e, k, o), log + Emissions(o))
  {
    assert Mirrors(Fold(log), e.records);
    hide SizesOk, RecordsOk, IdsUnique, OneGeneration, KeysOk, Mirrors, Final, Increasing, OutcomeOk, PolicyOk;
    PutKeepsOk(e, k, o);
    PutKeepsSizes(e, k, o);
    MirrorStep(Fold(log), e, k, o);
    if o.emitted.None? {
      assert log + Emissions(o) == log;
    } else {
      EmittedId(e, Fold(log), k, o);
      LogSnoc(log, e.records, e.nextId, o.emitted.value, Put(e, k, o).records, Put(e, k, o).nextId);
    }
  }

  // ---------- Whole events ----------

  lemma EvaluateTracked(e: Engine, log: seq<Incident>, k: Key, netns: NetnsId, v: Evaluation, ev: Evidence, c: Completeness)
    requires Tracked(e, log) && KeyTyped(k) && (v == Bad && RouteKey(k) ==> k.scope.socket in e.authoritative)
    ensures var (u, out) := Evaluate(e, k, netns, v, ev, c);
            Tracked(u, log + out) && u.policy == e.policy && u.authoritative == e.authoritative
  {
    if Refused(e, k, v) {
      assert log + [] == log;
    } else {
      assert k in e.records ==> RecordOk(k, e.records[k], e.policy, e.nextId);
      var o := Judge(RecordAt(e, k), k, netns, v, ev, c, e.policy, e.nextId);
      assert o.record.Some? ==> k in e.records || v == Bad;
      JudgeOk(RecordAt(e, k), k, netns, v, ev, c, e.policy, e.nextId);
      hide Judge, LogOk, RecordsOk, OutcomeOk, RecordOk, IdsUnique;
      PutTracked(e, log, k, o);
    }
  }

  lemma DiscardTracked(e: Engine, log: seq<Incident>, k: Key, at: int, monotonic: int, why: Condition)
    requires Tracked(e, log)
    ensures var (u, out) := Discard(e, k, at, monotonic, why);
            && Tracked(u, log + out) && u.policy == e.policy && u.records == e.records - {k} && u.authoritative == e.authoritative
  {
    hide Tracked;
    if k in e.records {
      var i := e.records[k].incident;
      var o := Outcome(None, if i.Some? then Some(Closed(i.value, at, monotonic, why)) else None);
      assert OutcomeOk(k, RecordAt(e, k), o, e.policy, e.nextId);
      hide OutcomeOk;
      PutTracked(e, log, k, o);
    } else {
      assert log + [] == log && e.records - {k} == e.records;
    }
  }

  lemma {:induction false} DiscardTypesTracked(e: Engine, log: seq<Incident>, id: SocketId, n: nat, at: int, monotonic: int, why: Condition)
    requires Tracked(e, log) && n <= |TYPES|
    ensures var (u, out) := DiscardTypes(e, id, n, at, monotonic, why);
            && Tracked(u, log + out) && u.policy == e.policy && u.authoritative == e.authoritative
            && (forall k :: k in u.records ==> k in e.records && k !in Doomed(id, n))
  {
    hide Tracked, Discard;
    if n == 0 {
      assert log + [] == log;
    } else {
      DiscardTypesTracked(e, log, id, n - 1, at, monotonic, why);
      var (e1, out1) := DiscardTypes(e, id, n - 1, at, monotonic, why);
      var k := Key(TYPES[n - 1], SocketScope(id));
      DiscardTracked(e1, log + out1, k, at, monotonic, why);
      var (e2, out2) := Discard(e1, k, at, monotonic, why);
      assert log + out1 + out2 == log + (out1 + out2);
    }
  }

  function Doomed(id: SocketId, n: nat): set<Key>
    requires n <= |TYPES|
  {
    set i | 0 <= i < n :: Key(TYPES[i], SocketScope(id))
  }

  lemma AllDoomed(id: SocketId, k: Key)
    requires k.scope == SocketScope(id)
    ensures k in Doomed(id, |TYPES|)
  {
    var i := match k.typ
      case HighTcpRtt => 0 case ElevatedTcpRetransmission => 1 case NoRoute => 2 case UplinkDown => 3
      case SocketRouteConflict => 4;
    assert TYPES[i] == k.typ;
  }

  lemma {:induction false} DiscardIgnoresAuthority(e: Engine, id: SocketId, n: nat, at: int, monotonic: int,
                                                   why: Condition, a: set<SocketId>)
    requires n <= |TYPES|
    ensures var (u, out) := DiscardTypes(e, id, n, at, monotonic, why);
            DiscardTypes(e.(authoritative := a), id, n, at, monotonic, why) == (u.(authoritative := a), out)
  {
    if n > 0 {
      DiscardIgnoresAuthority(e, id, n - 1, at, monotonic, why, a);
    }
  }

  /** Giving up a socket leaves none of its records behind, so every remaining route record is still accounted for. */
  lemma RetireTracked(e: Engine, log: seq<Incident>, id: SocketId, at: int, monotonic: int, why: Condition)
    requires Tracked(e, log)
    ensures var (u, out) := Retire(e, id, at, monotonic, why);
            && Tracked(u, log + out) && u.policy == e.policy && u.authoritative == e.authoritative - {id}
            && (forall k :: k in u.records ==> k in e.records && k.scope != SocketScope(id))
  {
    DiscardTypesTracked(e, log, id, |TYPES|, at, monotonic, why);
    DiscardIgnoresAuthority(e, id, |TYPES|, at, monotonic, why, e.authoritative - {id});
    var (u, out) := DiscardTypes(e, id, |TYPES|, at, monotonic, why);
    hide DiscardTypes, Doomed, LogOk, RecordsOk, IdsUnique, PolicyOk, SizesOk;
    forall k | k in u.records
      ensures k.scope != SocketScope(id)
    {
      if k.scope == SocketScope(id) { AllDoomed(id, k); }
    }
    assert KeysOk(u.records, e.authoritative - {id});
    RetrackedAuthority(u, log + out, e.authoritative - {id});
  }

  lemma RetrackedAuthority(e: Engine, log: seq<Incident>, a: set<SocketId>)
    requires Tracked(e, log) && KeysOk(e.records, a) && OneGeneration(a)
    ensures Tracked(e.(authoritative := a), log)
  {
    hide LogOk, RecordOk, IdsUnique;
  }

  lemma {:induction false} RetireAllTracked(e: Engine, log: seq<Incident>, ids: seq<SocketId>, at: int, monotonic: int)
    requires Tracked(e, log)
    ensures var (u, out) := RetireAll(e, ids, at, monotonic);
            && Tracked(u, log + out) && u.policy == e.policy && u.authoritative == e.authoritative - (set id | id in ids)
            && (forall k :: k in u.records ==> k in e.records)
    decreases |ids|
  {
    hide Tracked, Retire;
    if ids == [] {
      assert log + [] == log;
    } else {
      RetireTracked(e, log, ids[0], at, monotonic, GenerationSuperseded);
      var (e1, out1) := Retire(e, ids[0], at, monotonic, GenerationSuperseded);
      RetireAllTracked(e1, log + out1, ids[1..], at, monotonic);
      var (e2, out2) := RetireAll(e1, ids[1..], at, monotonic);
      assert log + out1 + out2 == log + (out1 + out2);
      assert ids == [ids[0]] + ids[1..];
    }
  }

  lemma SupersedeTracked(e: Engine, log: seq<Incident>, current: SocketId, at: int, monotonic: int)
    requires Tracked(e, log)
    ensures var (u, out) := Supersede(e, current, at, monotonic);
            && Tracked(u, log + out) && u.policy == e.policy && u.authoritative == e.authoritative - OtherGenerations(e, current)
            && OneGeneration(u.authoritative + {current})
  {
    var others := OtherGenerations(e, current);
    var ids := InOrder(others);
    assert (set id | id in ids) == others;
    assert OneGeneration(e.authoritative - others + {current});
    hide Tracked, RetireAll, OneGeneration, OtherGenerations;
    RetireAllTracked(e, log, ids, at, monotonic);
  }

  lemma MoreAuthority(e: Engine, log: seq<Incident>, id: SocketId)
    requires Tracked(e, log) && OneGeneration(e.authoritative + {id})
    ensures Tracked(e.(authoritative := e.authoritative + {id}), log)
  {
    hide LogOk, RecordsOk, IdsUnique, OneGeneration, PolicyOk, SizesOk;
    RetrackedAuthority(e, log, e.authoritative + {id});
  }

  lemma OnSocketTracked(e: Engine, log: seq<Incident>, ev: Event)
    requires Tracked(e, log) && ev.payload.SocketSeen?
    ensures var (u, out) := OnSocket(e, ev); Tracked(u, log + out) && u.policy == e.policy
  {
    hide Tracked, Supersede, Retire, OneGeneration;
    SupersedeTracked(e, log, ev.payload.id, ev.observedAt, ev.monotonicAt);
    RetireTracked(e, log, ev.payload.id, ev.observedAt, ev.monotonicAt, LifecycleClosed);
    assert log + [] == log;
    var (u, out) := Supersede(e, ev.payload.id, ev.observedAt, ev.monotonicAt);
    MoreAuthority(u, log + out, ev.payload.id);
  }

  lemma SupersedeThenEvaluate(e: Engine, log: seq<Incident>, id: SocketId, at: int, monotonic: int, k: Key, netns: NetnsId,
                              v: Evaluation, ev: Evidence, c: Completeness)
    requires Tracked(e, log) && KeyTyped(k) && !RouteKey(k)
    ensures var (e1, out1) := Supersede(e, id, at, monotonic);
            var (e2, out2) := Evaluate(e1, k, netns, v, ev, c);
            Tracked(e2, log + (out1 + out2)) && e2.policy == e.policy
  {
    hide Tracked, Supersede, Evaluate;
    SupersedeTracked(e, log, id, at, monotonic);
    var (e1, out1) := Supersede(e, id, at, monotonic);
    EvaluateTracked(e1, log + out1, k, netns, v, ev, c);
    var (e2, out2) := Evaluate(e1, k, netns, v, ev, c);
    assert log + out1 + out2 == log + (out1 + out2);
  }

  lemma OnTcpInfoTracked(e: Engine, log: seq<Incident>, ev: Event)
    requires Tracked(e, log) && ev.payload.TcpInfoSeen?
    ensures var (u, out) := OnTcpInfo(e, ev); Tracked(u, log + out) && u.policy == e.policy
  {
    hide Tracked, Supersede, Evaluate, JudgeRtt;
    var (v, why) := JudgeRtt(ev, e.policy);
    var ok := RttAvailable(ev);
    var scope := SocketScope(ev.payload.id);
    var evidence := MakeEvidence(ev, scope, if ok then Some(Amount(ev.payload.rtt.value)) else None, Microseconds,
                                 if ok then Valid else ev.validity, why);
    SupersedeThenEvaluate(e, log, ev.payload.id, ev.observedAt, ev.monotonicAt, Key(HighTcpRtt, scope), ev.payload.netns,
                          v, evidence, if ok then Complete else Absent);
  }

  lemma OnTcpIntervalTracked(e: Engine, log: seq<Incident>, ev: Event)
    requires Tracked(e, log) && ev.payload.TcpIntervalSeen?
    ensures var (u, out) := OnTcpInterval(e, ev); Tracked(u, log + out) && u.policy == e.policy
  {
    hide Tracked, Supersede, Evaluate, JudgeRatio, RatioAvailable;
    var (v, why) := JudgeRatio(ev, e.policy);
    var ok := RatioAvailable(ev, e.policy);
    var scope := SocketScope(ev.payload.id);
    var value := if ev.payload.ratio.Some? then Some(Ratio(ev.payload.ratio.value)) else None;
    var evidence := MakeEvidence(ev, scope, value, Fraction, if ok then Valid else ev.validity, why);
    SupersedeThenEvaluate(e, log, ev.payload.id, ev.observedAt, ev.monotonicAt, Key(ElevatedTcpRetransmission, scope),
                          ev.payload.id.netns, v, evidence, if ok then Complete else Absent);
  }

  lemma OnRouteTracked(e: Engine, log: seq<Incident>, ev: Event)
    requires Tracked(e, log) && ev.payload.RouteSeen?
    ensures var (u, out) := OnRoute(e, ev); Tracked(u, log + out) && u.policy == e.policy
  {
    hide Tracked, Evaluate;
    var scope := SocketScope(ev.payload.id);
    var (v1, why1) := JudgeRoute(ev.payload.id in e.authoritative, ev);
    var ev1 := MakeEvidence(ev, scope, None, NoUnit, ev.validity, why1);
    var c1 := if v1 == Bad then Complete else Absent;
    EvaluateTracked(e, log, Key(NoRoute, scope), ev.payload.netns, v1, ev1, c1);
    var (e1, out1) := Evaluate(e, Key(NoRoute, scope), ev.payload.netns, v1, ev1, c1);
    var (v2, why2) := JudgeConflict(ev.payload.id in e.authoritative, ev);
    var diag := if ev.payload.diagIfindex.Some? && ev.payload.diagIfindex.value != 0
                then Some(Amount(ev.payload.diagIfindex.value)) else None;
    var ev2 := MakeEvidence(ev, scope, diag, Count, ev.validity, why2);
    var c2 := if v2 == Bad then Incomplete else Absent;
    EvaluateTracked(e1, log + out1, Key(SocketRouteConflict, scope), ev.payload.netns, v2, ev2, c2);
    var (e2, out2) := Evaluate(e1, Key(SocketRouteConflict, scope), ev.payload.netns, v2, ev2, c2);
    assert log + out1 + out2 == log + (out1 + out2);
  }

  lemma ProcessTracked(e: Engine, log: seq<Incident>, ev: Event)
    requires Tracked(e, log)
    ensures var (u, out) := Process(e, ev); Tracked(u, log + out) && u.policy == e.policy
  {
    hide Tracked, OnSocket, OnTcpInfo, OnTcpInterval, OnRoute, Evaluate, JudgeUplink;
    assert log + [] == log;
    match ev.payload {
      case SocketSeen(_, _, _, _) => OnSocketTracked(e, log, ev);
      case TcpInfoSeen(_, _, _, _) => OnTcpInfoTracked(e, log, ev);
      case TcpIntervalSeen(_, _, _, _, _) => OnTcpIntervalTracked(e, log, ev);
      case RouteSeen(_, _, _, _, _) => OnRouteTracked(e, log, ev);
      case UplinkSeen(_) =>
        var (v, why) := JudgeUplink(ev);
        var scope := NetnsScope(ev.netns);
        EvaluateTracked(e, log, Key(UplinkDown, scope), ev.netns, v,
                        MakeEvidence(ev, scope, None, NoUnit, ev.validity, why), if v == NoVerdict then Absent else Complete);
      case OtherPayload =>
    }
  }

  // ---------- Runs ----------

  ghost function Run(e: Engine, events: seq<Event>): (Engine, seq<Incident>) {
    if events == [] then (e, [])
    else
      var (e1, out1) := Run(e, events[..|events| - 1]);
      var (e2, out2) := Process(e1, events[|events| - 1]);
      (e2, out1 + out2)
  }

  lemma InitTracked(p: Policy)
    requires PolicyOk(p)
    ensures Tracked(InitEngine(p), [])
  {
  }

  lemma {:induction false} RunTracked(p: Policy, events: seq<Event>)
    requires PolicyOk(p)
    ensures var (u, log) := Run(InitEngine(p), events); Tracked(u, log) && u.policy == p
  {
    hide Tracked, Process, PolicyOk;
    if events == [] {
      InitTracked(p);
    } else {
      RunTracked(p, events[..|events| - 1]);
      var (e1, out1) := Run(InitEngine(p), events[..|events| - 1]);
      ProcessTracked(e1, out1, events[|events| - 1]);
    }
  }

  /**
   * Folding the emissions of any run gives back exactly the active incidents, a resolution is the last emission of
   * its id, and first emissions carry ever larger ids.
   */
  lemma FoldedEmissionsAreActiveIncidents(p: Policy, events: seq<Event>)
    requires PolicyOk(p)
    ensures var (u, log) := Run(InitEngine(p), events);
            Mirrors(Fold(log), u.records) && Final(log) && Increasing(log)
  {
    RunTracked(p, events);
  }

  lemma RouteRecordsBelongToKnownSockets(p: Policy, events: seq<Event>)
    requires PolicyOk(p)
    ensures var (u, log) := Run(InitEngine(p), events);
            KeysOk(u.records, u.authoritative) && OneGeneration(u.authoritative)
  {
    RunTracked(p, events);
  }

  /** Evidence stays within its bound and, where the bound allows, still starts with what opened the incident. */
  lemma EvidenceIsBounded(p: Policy, events: seq<Event>, k: Key)
    requires PolicyOk(p)
    ensures var (u, log) := Run(InitEngine(p), events);
            k in u.records && u.records[k].incident.Some? ==> EvidenceOk(u.records[k].incident.value, p.maxEvidence)
  {
    RunTracked(p, events);
  }
}
