/** The incident engine as the source writes it: records updated in place, emissions collected along the way. */
module Incidents {
  import opened BoundedList
  import opened Entities
  import opened IdOrder
  import opened IncidentModel
  import Proofs = IncidentProofs

  class IncidentEngine {
    const policy: Policy
    var records: map<Key, Record>
    var authoritative: set<SocketId>
    var resolved: seq<Incident>
    var nextId: nat
    /** Everything emitted so far. */
    ghost var log: seq<Incident>

    function State(): Engine
      reads this
    {
      Engine(policy, records, authoritative, resolved, nextId)
    }

    ghost predicate Consistent()
      reads this
    {
      Proofs.Tracked(State(), log)
    }

    constructor (policy: Policy)
      requires PolicyOk(policy)
      ensures State() == InitEngine(policy) && log == []
      ensures Consistent()
    {
      this.policy := policy;
      records, authoritative, resolved, nextId, log := map[], {}, [], 1, [];
      new;
      Proofs.InitTracked(policy);
      hide Proofs.Tracked;
    }

    method ResolveRecord(k: Key, last: Incident, at: int, monotonic: int, why: Condition) returns (out: Incident)
      requires k in records
      modifies this`records, this`resolved
      ensures out == Closed(last, at, monotonic, why)
      ensures State() == Put(old(State()), k, Outcome(None, Some(out)))
    {
      out := last.(state := Resolved, updatedAt := at, updatedMonotonic := monotonic, resolvedAt := Some((at, monotonic)),
                   resolution := Some(why));
      resolved := resolved + [out];
      TrimResolved();
      records := records - {k};
    }

    method TrimResolved()
      modifies this`resolved
      ensures resolved == KeepLast(old(resolved), policy.maxResolved)
    {
      while |resolved| > policy.maxResolved
        invariant |resolved| <= |old(resolved)|
        invariant |resolved| >= policy.maxResolved || resolved == old(resolved)
        invariant resolved == old(resolved)[|old(resolved)| - |resolved|..]
      {
        resolved := resolved[1..];
      }
    }

    /** One verdict on one key. */
    method EvaluateSample(k: Key, netns: NetnsId, v: Evaluation, e: Evidence, c: Completeness) returns (out: seq<Incident>)
      modifies this`records, this`resolved, this`nextId
      ensures (State(), out) == Evaluate(old(State()), k, netns, v, e, c)
    {
      hide Append, KeepLast;
      out := [];
      if v == NoVerdict {
        assert k in records ==> records[k := records[k]] == records;
        assert k !in records ==> records - {k} == records;
        return;
      }
      if k !in records {
        assert records - {k} == records;
        if v != Bad || |records| >= policy.maxRecords { return; }
        records := records[k := Record(netns, 0, 0, None)];
        PutOverwrites(old(State()), k, netns, e, c);
      }
      var r := records[k];
      if v == Neutral {
        if r.incident.Some? { records := records[k := r.(good := 0)]; } else { records := records - {k}; }
      } else if v == Good {
        out := OnGoodSample(k, e);
      } else {
        out := OnBadSample(k, netns, e, c);
      }
    }

    method OnGoodSample(k: Key, e: Evidence) returns (out: seq<Incident>)
      requires k in records
      modifies this`records, this`resolved
      ensures var o := OnGood(old(records)[k], e, policy); State() == Put(old(State()), k, o) && out == Emissions(o)
    {
      hide Append, KeepLast;
      out := [];
      var r := records[k];
      if r.incident.None? {
        records := records - {k};
        return;
      }
      if r.good + 1 >= policy.recovery {
        var last := r.incident.value.(evidence := Append(r.incident.value.evidence, e, policy.maxEvidence));
        var closed := ResolveRecord(k, last, e.observedAt, e.monotonicAt, e.condition);
        out := [closed];
        return;
      }
      records := records[k := r.(bad := 0, good := r.good + 1)];
    }

    method OnBadSample(k: Key, netns: NetnsId, e: Evidence, c: Completeness) returns (out: seq<Incident>)
      requires k in records
      modifies this`records, this`nextId
      ensures var o := OnBad(old(records)[k].(netns := netns), k, e, c, policy, old(nextId));
              State() == Put(old(State()), k, o) && out == Emissions(o)
    {
      hide Append, KeepLast;
      out := [];
      var r := records[k].(netns := netns, good := 0);
      if r.incident.None? {
        r := r.(bad := r.bad + 1);
        if r.bad >= policy.activation {
          var i := Opened(nextId, k, e, c, policy);
          nextId := nextId + 1;
          r := r.(incident := Some(i));
          out := [i];
        }
      } else {
        r := r.(bad := if r.bad + 1 < policy.activation then r.bad + 1 else policy.activation);
        var i := r.incident.value;
        if !Repeats(i.evidence, e) {
          i := Updated(i, e, c, policy);
          r := r.(incident := Some(i));
          out := [i];
        }
      }
      records := records[k := r];
    }

    method DiscardRecord(k: Key, at: int, monotonic: int, why: Condition) returns (out: seq<Incident>)
      requires k in records
      modifies this`records, this`resolved
      ensures (State(), out) == Discard(old(State()), k, at, monotonic, why)
    {
      out := [];
      if records[k].incident.None? {
        records := records - {k};
      } else {
        var closed := ResolveRecord(k, records[k].incident.value, at, monotonic, why);
        out := [closed];
      }
    }

    /** Walks the whole record map in key order; at most one record of each type can concern the socket. */
    method ResolveSocketRecords(id: SocketId, at: int, monotonic: int, why: Condition) returns (out: seq<Incident>)
      modifies this`records, this`resolved
      ensures (State(), out) == ResolveSocket(old(State()), id, at, monotonic, why)
    {
      hide DiscardTypes, Discard, Frontier, IsFirstType, Rank;
      out := [];
      var rest := records.Keys;
      ghost var n: nat := 0;
      FrontierStarts(records, id);
      DiscardNone(State(), id, at, monotonic, why);
      while rest != {}
        invariant n <= |TYPES| && rest <= records.Keys && Frontier(rest, records, id, n)
        invariant (State(), out) == DiscardTypes(old(State()), id, n, at, monotonic, why)
        decreases |rest|
      {
        FirstTypeExists(rest);
        var k :| k in rest && IsFirstType(k, rest);
        FrontierStep(rest, records, id, n, k);
        if k.scope == SocketScope(id) {
          SkipTypes(old(State()), id, n, Rank(k.typ), at, monotonic, why);
          DiscardNext(old(State()), id, k.typ, at, monotonic, why);
          DiscardErases(State(), k, at, monotonic, why);
          var gone := DiscardRecord(k, at, monotonic, why);
          out := out + gone;
          n := Rank(k.typ) + 1;
        }
        rest := rest - {k};
      }
      FrontierEnds(records, id, n);
      SkipTypes(old(State()), id, n, |TYPES|, at, monotonic, why);
    }

    method ResolveSuperseded(current: SocketId, at: int, monotonic: int) returns (out: seq<Incident>)
      modifies this`records, this`resolved, this`authoritative
      ensures (State(), out) == Supersede(old(State()), current, at, monotonic)
    {
      hide RetireAll, InOrder, ResolveSocket, Retire;
      out := [];
      ghost var all := OtherGenerations(State(), current);
      RetireNone(State(), at, monotonic);
      if current.cookie.None? {
        InOrderEmpty();
        return;
      }
      assert forall id :: id in all <==>
        id in authoritative && id != current && id.netns == current.netns && id.cookie == current.cookie;
      hide OtherGenerations;
      var superseded := CollectSuperseded(authoritative, current, all);
      for i := 0 to |superseded|
        invariant (State(), out) == RetireAll(old(State()), superseded[..i], at, monotonic)
      {
        RetireNext(old(State()), superseded, i, at, monotonic);
        RetireIs(State(), superseded[i], at, monotonic, GenerationSuperseded);
        authoritative := authoritative - {superseded[i]};
        var gone := ResolveSocketRecords(superseded[i], at, monotonic, GenerationSuperseded);
        out := out + gone;
      }
      assert superseded[..|superseded|] == superseded;
    }

    method OnSocketSeen(ev: Event) returns (out: seq<Incident>)
      requires ev.payload.SocketSeen?
      modifies this`records, this`resolved, this`authoritative
      ensures (State(), out) == OnSocket(old(State()), ev)
    {
      hide Supersede, ResolveSocket;
      var s := ev.payload;
      out := [];
      if s.present && !s.closed && ev.validity == Valid && s.validity == Valid {
        out := ResolveSuperseded(s.id, ev.observedAt, ev.monotonicAt);
        authoritative := authoritative + {s.id};
      } else if !s.present || s.closed {
        authoritative := authoritative - {s.id};
        out := ResolveSocketRecords(s.id, ev.observedAt, ev.monotonicAt, LifecycleClosed);
      }
    }

    method OnTcpInfoSeen(ev: Event) returns (out: seq<Incident>)
      requires ev.payload.TcpInfoSeen?
      modifies this`records, this`resolved, this`authoritative, this`nextId
      ensures (State(), out) == OnTcpInfo(old(State()), ev)
    {
      hide Supersede, Evaluate;
      var superseded := ResolveSuperseded(ev.payload.id, ev.observedAt, ev.monotonicAt);
      var scope := SocketScope(ev.payload.id);
      var available := ev.validity == Valid && ev.payload.validity == Valid && ev.payload.rtt.Some?;
      var (verdict, why) := (NoVerdict, RttUnavailable);
      if available {
        if ev.payload.rtt.value >= policy.rttActivation {
          verdict, why := Bad, RttHigh;
        } else if ev.payload.rtt.value <= policy.rttRecovery {
          verdict, why := Good, RttRecovered;
        } else {
          verdict, why := Neutral, RttInBand;
        }
      }
      var evidence := MakeEvidence(ev, scope, if available then Some(Amount(ev.payload.rtt.value)) else None, Microseconds,
                                   if available then Valid else ev.validity, why);
      var judged := EvaluateSample(Key(HighTcpRtt, scope), ev.payload.netns, verdict, evidence,
                                   if available then Complete else Absent);
      out := superseded + judged;
    }

    method OnTcpIntervalSeen(ev: Event) returns (out: seq<Incident>)
      requires ev.payload.TcpIntervalSeen?
      modifies this`records, this`resolved, this`authoritative, this`nextId
      ensures (State(), out) == OnTcpInterval(old(State()), ev)
    {
      hide Supersede, Evaluate;
      var superseded := ResolveSuperseded(ev.payload.id, ev.observedAt, ev.monotonicAt);
      var scope := SocketScope(ev.payload.id);
      var ratio := ev.payload.ratio;
      var enough := policy.minSegments == 0 ||
                    (ev.payload.segments.Some? && ev.payload.segments.value >= policy.minSegments);
      var available := && ev.validity == Valid && ev.payload.validity == Valid && ratio.Some? && enough
                       && !ev.payload.counterReset;
      var (verdict, why) := (NoVerdict, if enough then RatioUnavailable else TooFewSegments);
      if available {
        if ratio.value >= policy.ratioActivation {
          verdict, why := Bad, RatioHigh;
        } else if ratio.value <= policy.ratioRecovery {
          verdict, why := Good, RatioRecovered;
        } else {
          verdict, why := Neutral, RatioInBand;
        }
      }
      var evidence := MakeEvidence(ev, scope, if ratio.Some? then Some(Ratio(ratio.value)) else None, Fraction,
                                   if available then Valid else ev.validity, why);
      var judged := EvaluateSample(Key(ElevatedTcpRetransmission, scope), ev.payload.id.netns, verdict, evidence,
                                   if available then Complete else Absent);
      out := superseded + judged;
    }

    method OnRouteSeen(ev: Event) returns (out: seq<Incident>)
      requires ev.payload.RouteSeen?
      modifies this`records, this`resolved, this`nextId
      ensures (State(), out) == OnRoute(old(State()), ev)
    {
      hide Evaluate;
      var scope := SocketScope(ev.payload.id);
      var known := ev.payload.id in authoritative;
      var missing := known && ExplicitlyMissing(ev.payload.status, ev.payload.reasons);
      var (verdict, why) := (NoVerdict, RouteInsufficient);
      if missing {
        verdict, why := Bad, RouteMissing;
      } else if known && ev.payload.status == RouteAvailable {
        verdict, why := Good, RoutePresent;
      }
      var first := EvaluateSample(Key(NoRoute, scope), ev.payload.netns, verdict,
                                  MakeEvidence(ev, scope, None, NoUnit, ev.validity, why), if missing then Complete else Absent);

      var conflict := known && Conflicting(ev.payload.status, ev.payload.reasons);
      verdict, why := NoVerdict, RoutingInsufficient;
      if conflict {
        verdict, why := Bad, InterfaceConflict;
      } else if known && ev.payload.status == RouteAvailable {
        verdict, why := Good, InterfaceAgrees;
      }
      var diag := if ev.payload.diagIfindex.Some? && ev.payload.diagIfindex.value != 0
                  then Some(Amount(ev.payload.diagIfindex.value)) else None;
      var second := EvaluateSample(Key(SocketRouteConflict, scope), ev.payload.netns, verdict,
                                   MakeEvidence(ev, scope, diag, Count, ev.validity, why), if conflict then Incomplete else Absent);
      out := first + second;
    }

    method OnUplinkSeen(ev: Event) returns (out: seq<Incident>)
      requires ev.payload.UplinkSeen?
      modifies this`records, this`resolved, this`nextId
      ensures (State(), out) == OnUplink(old(State()), ev)
    {
      hide Evaluate;
      var (verdict, why) := (NoVerdict, UplinkUnknown);
      if ev.payload.selected && UsableValidity(ev.validity) {
        verdict, why := Good, UplinkSelected;
      } else if !ev.payload.selected && (ev.validity == Unavailable || ev.validity == Valid) {
        verdict, why := Bad, UplinkMissing;
      }
      var scope := NetnsScope(ev.netns);
      out := EvaluateSample(Key(UplinkDown, scope), ev.netns, verdict,
                            MakeEvidence(ev, scope, None, NoUnit, ev.validity, why),
                            if verdict == NoVerdict then Absent else Complete);
    }

    method ProcessEvent(ev: Event) returns (consumed: bool, out: seq<Incident>)
      requires Consistent()
      modifies this
      ensures (State(), out) == Process(old(State()), ev) && consumed == Consumed(ev)
      ensures log == old(log) + out
      ensures Consistent()
    {
      hide Proofs.Tracked, OnSocket, OnTcpInfo, OnTcpInterval, OnRoute, OnUplink;
      Proofs.ProcessTracked(State(), log, ev);
      consumed, out := true, [];
      match ev.payload {
        case SocketSeen(_, _, _, _) =>
          if ev.source == SocketTracker { out := OnSocketSeen(ev); } else { consumed := false; }
        case TcpInfoSeen(_, _, _, _) =>
          if ev.source == SocketTracker { out := OnTcpInfoSeen(ev); } else { consumed := false; }
        case TcpIntervalSeen(_, _, _, _, _) =>
          if ev.source == SocketTracker { out := OnTcpIntervalSeen(ev); } else { consumed := false; }
        case RouteSeen(_, _, _, _, _) =>
          if ev.source == SocketTracker { out := OnRouteSeen(ev); } else { consumed := false; }
        case UplinkSeen(_) =>
          if ev.source == NetlinkCollector { out := OnUplinkSeen(ev); } else { consumed := false; }
        case OtherPayload => consumed := false;
      }
      log := log + out;
    }

    /** Lists exactly the incidents a consumer holds who folded everything emitted so far. */
    method ListActive() returns (out: seq<Incident>)
      requires Consistent()
      ensures forall i :: i in out <==> i in Proofs.Fold(log).Values
      ensures NoRepeats(out)
    {
      ActiveUnderTheirKeys(State(), log);
      hide Proofs.Tracked, Proofs.Fold, NoRepeats;
      out := [];
      NoneRepeats();
      var rest := records.Keys;
      while rest != {}
        invariant rest <= records.Keys
        invariant forall k :: k in records && k !in rest && records[k].incident.Some? ==> records[k].incident.value in out
        invariant forall i :: i in out ==> Listed(records, rest, i)
        invariant NoRepeats(out)
        decreases |rest|
      {
        var k :| k in rest;
        if records[k].incident.Some? {
          var i := records[k].incident.value;
          NoRepeatsSnoc(out, i);
          out := out + [i];
        }
        rest := rest - {k};
      }
    }
  }

  /** An incident the listing has passed. */
  predicate Listed(records: map<Key, Record>, rest: set<Key>, i: Incident) {
    var k := Proofs.KeyOf(i);
    k in records && k !in rest && records[k].incident == Some(i)
  }

  lemma ActiveUnderTheirKeys(e: Engine, log: seq<Incident>)
    requires Proofs.Tracked(e, log)
    ensures forall k :: k in e.records && e.records[k].incident.Some? ==> Proofs.KeyOf(e.records[k].incident.value) == k
    ensures forall i :: i in Proofs.Fold(log).Values <==> Listed(e.records, {}, i)
  {
    var m := Proofs.Fold(log);
    assert Proofs.Mirrors(m, e.records);
    forall k | k in e.records && e.records[k].incident.Some?
      ensures Proofs.KeyOf(e.records[k].incident.value) == k
    {
      assert Proofs.RecordOk(k, e.records[k], e.policy, e.nextId);
    }
    hide Proofs.Tracked, Proofs.Fold;
    forall i | Listed(e.records, {}, i)
      ensures i in m.Values
    {
      assert i.id in m && m[i.id] == i;
    }
  }

  lemma NoneRepeats()
    ensures NoRepeats<Incident>([])
  {
  }

  lemma NoRepeatsSnoc(q: seq<Incident>, x: Incident)
    requires NoRepeats(q) && x !in q
    ensures NoRepeats(q + [x])
  {
  }

  /** Entering an empty record first makes no difference to what a bad sample leaves behind. */
  lemma PutOverwrites(e: Engine, k: Key, netns: NetnsId, ev: Evidence, c: Completeness)
    ensures var r := Record(netns, 0, 0, None);
            var o := OnBad(r, k, ev, c, e.policy, e.nextId);
            Put(e.(records := e.records[k := r]), k, o) == Put(e, k, o)
  {
    hide Append, KeepLast;
    var r := Record(netns, 0, 0, None);
    var o := OnBad(r, k, ev, c, e.policy, e.nextId);
    assert e.records[k := r][k := o.record.value] == e.records[k := o.record.value];
  }

  // ---------- Lemmas for the traversals ----------

  function Rank(t: IncidentType): (n: nat)
    ensures n < |TYPES| && TYPES[n] == t
  {
    match t
    case HighTcpRtt => 0
    case ElevatedTcpRetransmission => 1
    case NoRoute => 2
    case UplinkDown => 3
    case SocketRouteConflict => 4
  }

  /** The record map is ordered by type first. */
  predicate IsFirstType(k: Key, s: set<Key>) {
    k in s && forall o :: o in s ==> Rank(k.typ) <= Rank(o.typ)
  }

  lemma FirstTypeExists(s: set<Key>)
    requires s != {}
    ensures exists k :: k in s && IsFirstType(k, s)
  {
    var a :| a in s;
    if s == {a} {
      assert IsFirstType(a, s);
    } else {
      FirstTypeExists(s - {a});
      var b :| b in s - {a} && IsFirstType(b, s - {a});
      var m := if Rank(a.typ) <= Rank(b.typ) then a else b;
      assert forall o :: o in s ==> o == a || o in s - {a};
      assert IsFirstType(m, s);
    }
  }

  function SocketKey(id: SocketId, m: nat): Key
    requires m < |TYPES|
  {
    Key(TYPES[m], SocketScope(id))
  }

  /** The socket's records of the first `n` types are behind the traversal, the others still ahead. */
  predicate Frontier(rest: set<Key>, records: map<Key, Record>, id: SocketId, n: nat)
    requires n <= |TYPES|
  {
    forall m :: 0 <= m < |TYPES| ==>
      if m < n then SocketKey(id, m) !in rest else SocketKey(id, m) in rest <==> SocketKey(id, m) in records
  }

  lemma FrontierStarts(records: map<Key, Record>, id: SocketId)
    ensures Frontier(records.Keys, records, id, 0)
  {
  }

  lemma FrontierEnds(records: map<Key, Record>, id: SocketId, n: nat)
    requires n <= |TYPES| && Frontier({}, records, id, n)
    ensures forall m :: n <= m < |TYPES| ==> SocketKey(id, m) !in records
  {
  }

  lemma FrontierStep(rest: set<Key>, records: map<Key, Record>, id: SocketId, n: nat, k: Key)
    requires n <= |TYPES| && Frontier(rest, records, id, n) && IsFirstType(k, rest)
    ensures k.scope != SocketScope(id) ==> Frontier(rest - {k}, records, id, n)
    ensures k.scope == SocketScope(id) ==>
              && n <= Rank(k.typ) && k == SocketKey(id, Rank(k.typ))
              && (forall m :: n <= m < Rank(k.typ) ==> SocketKey(id, m) !in records)
              && Frontier(rest - {k}, records - {k}, id, Rank(k.typ) + 1)
  {
    assert forall m :: 0 <= m < |TYPES| ==> Rank(TYPES[m]) == m;
    assert k.scope == SocketScope(id) ==> k == SocketKey(id, Rank(k.typ));
  }

  lemma DiscardErases(e: Engine, k: Key, at: int, monotonic: int, why: Condition)
    requires k in e.records
    ensures Discard(e, k, at, monotonic, why).0.records == e.records - {k}
  {
  }

  lemma DiscardNone(e: Engine, id: SocketId, at: int, monotonic: int, why: Condition)
    ensures DiscardTypes(e, id, 0, at, monotonic, why) == (e, [])
  {
  }

  lemma DiscardNext(e: Engine, id: SocketId, t: IncidentType, at: int, monotonic: int, why: Condition)
    ensures var (e1, out1) := DiscardTypes(e, id, Rank(t), at, monotonic, why);
            var (e2, out2) := Discard(e1, Key(t, SocketScope(id)), at, monotonic, why);
            DiscardTypes(e, id, Rank(t) + 1, at, monotonic, why) == (e2, out1 + out2)
  {
    hide Discard;
  }

  /** Types without a record of this socket change nothing. */
  lemma {:induction false} SkipTypes(e: Engine, id: SocketId, n: nat, m: nat, at: int, monotonic: int, why: Condition)
    requires n <= m <= |TYPES|
    requires var u := DiscardTypes(e, id, n, at, monotonic, why).0;
             forall j :: n <= j < m ==> SocketKey(id, j) !in u.records
    ensures DiscardTypes(e, id, m, at, monotonic, why) == DiscardTypes(e, id, n, at, monotonic, why)
    decreases m
  {
    if n < m {
      SkipTypes(e, id, n, m - 1, at, monotonic, why);
      var (u, out) := DiscardTypes(e, id, n, at, monotonic, why);
      assert SocketKey(id, m - 1) !in u.records;
      assert out + [] == out;
    }
  }

  lemma RetireNone(e: Engine, at: int, monotonic: int)
    ensures RetireAll(e, [], at, monotonic) == (e, [])
  {
  }

  lemma RetireIs(e: Engine, id: SocketId, at: int, monotonic: int, why: Condition)
    ensures Retire(e, id, at, monotonic, why) ==
            ResolveSocket(e.(authoritative := e.authoritative - {id}), id, at, monotonic, why)
  {
  }

  lemma InOrderEmpty()
    ensures InOrder({}) == []
  {
  }

  lemma {:induction false} RetireSnoc(e: Engine, ids: seq<SocketId>, id: SocketId, at: int, monotonic: int)
    ensures var (e1, out1) := RetireAll(e, ids, at, monotonic);
            var (e2, out2) := Retire(e1, id, at, monotonic, GenerationSuperseded);
            RetireAll(e, ids + [id], at, monotonic) == (e2, out1 + out2)
    decreases |ids|
  {
    hide Retire;
    if ids == [] {
      var (e1, out1) := Retire(e, id, at, monotonic, GenerationSuperseded);
      assert ([id] + [])[1..] == [];
      assert RetireAll(e1, [], at, monotonic) == (e1, []);
      assert [] + [id] == [id] && out1 + [] == out1 && [] + out1 == out1;
    } else {
      var (e1, out1) := Retire(e, ids[0], at, monotonic, GenerationSuperseded);
      RetireSnoc(e1, ids[1..], id, at, monotonic);
      var (e2, out2) := RetireAll(e1, ids[1..], at, monotonic);
      var (e3, out3) := Retire(e2, id, at, monotonic, GenerationSuperseded);
      assert (ids + [id])[1..] == ids[1..] + [id];
      assert out1 + (out2 + out3) == out1 + out2 + out3;
    }
  }

  lemma RetireNext(e: Engine, ids: seq<SocketId>, i: nat, at: int, monotonic: int)
    requires i < |ids|
    ensures var (e1, out1) := RetireAll(e, ids[..i], at, monotonic);
            var (e2, out2) := Retire(e1, ids[i], at, monotonic, GenerationSuperseded);
            RetireAll(e, ids[..i + 1], at, monotonic) == (e2, out1 + out2)
  {
    hide Retire, RetireAll;
    RetireSnoc(e, ids[..i], ids[i], at, monotonic);
    assert ids[..i + 1] == ids[..i] + [ids[i]];
  }

  method CollectSuperseded(known: set<SocketId>, current: SocketId, ghost all: set<SocketId>) returns (found: seq<SocketId>)
    requires forall id :: id in all <==>
               id in known && id != current && id.netns == current.netns && id.cookie == current.cookie
    ensures found == InOrder(all)
  {
    found := [];
    var rest := known;
    RemainingEnds(all, rest);
    hide Remaining;
    while rest != {}
      invariant rest <= known
      invariant found + Remaining(all, rest) == InOrder(all)
      decreases |rest|
    {
      LeastExists(rest);
      var id :| id in rest && IsLeast(id, rest);
      TakeFirst(all, rest, id);
      if id != current && id.netns == current.netns && id.cookie == current.cookie {
        Regroup(found, id, Remaining(all, rest - {id}));
        found := found + [id];
      }
      rest := rest - {id};
    }
  }
}
