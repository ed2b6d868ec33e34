/** The streak counters of the incident engine and the evidence of the incident engine, against a specification over the history of one key. */
module IncidentHistory {
  import opened Entities
  import opened IdOrder
  import opened BoundedList
  import opened IncidentModel
  import opened IncidentProofs

  // ---------- Verdicts ----------

  /** The length of the trailing run of `v`, looking through samples that carry no verdict. */
  function Trailing(h: seq<Evaluation>, v: Evaluation): nat {
    if h == [] then 0
    else
      var (init, last) := (h[..|h| - 1], h[|h| - 1]);
      if last == v then Trailing(init, v) + 1
      else if last == NoVerdict then Trailing(init, v)
      else 0
  }

  predicate Unrecovered(h: seq<Evaluation>, j: nat, p: Policy)
    requires j <= |h|
  {
    Trailing(h[..j], Good) < p.recovery
  }

  /** The key ripened after `i` samples and has not recovered since. */
  ghost predicate OpenSince(h: seq<Evaluation>, i: nat, p: Policy)
    requires i <= |h|
  {
    Trailing(h[..i], Bad) >= p.activation && forall j :: i <= j <= |h| ==> Unrecovered(h, j, p)
  }

  ghost predicate IsOpen(h: seq<Evaluation>, p: Policy) {
    exists i :: 0 <= i <= |h| && OpenSince(h, i, p)
  }

  lemma TrailingSnoc(h: seq<Evaluation>, x: Evaluation, v: Evaluation)
    ensures Trailing(h + [x], v) == if x == v then Trailing(h, v) + 1 else if x == NoVerdict then Trailing(h, v) else 0
  {
    assert (h + [x])[..|h + [x]| - 1] == h;
  }

  lemma {:induction false} OnlyOneTrails(h: seq<Evaluation>)
    ensures Trailing(h, Bad) == 0 || Trailing(h, Good) == 0
  {
    if h != [] { OnlyOneTrails(h[..|h| - 1]); }
  }

  lemma PrefixUnchanged(h: seq<Evaluation>, x: Evaluation, p: Policy, j: nat)
    requires j <= |h|
    ensures (h + [x])[..j] == h[..j] && Unrecovered(h + [x], j, p) == Unrecovered(h, j, p)
  {
    assert (h + [x])[..j] == h[..j];
  }

  lemma WholeUnrecovered(h: seq<Evaluation>, p: Policy)
    ensures Unrecovered(h, |h|, p) == (Trailing(h, Good) < p.recovery)
  {
    assert h[..|h|] == h;
  }

  lemma StillOpen(h: seq<Evaluation>, x: Evaluation, p: Policy, i: nat)
    requires i <= |h|
    ensures OpenSince(h + [x], i, p) <==> OpenSince(h, i, p) && Trailing(h + [x], Good) < p.recovery
  {
    hide Unrecovered, Trailing;
    var l := h + [x];
    forall j | 0 <= j <= |h|
      ensures Unrecovered(l, j, p) == Unrecovered(h, j, p)
    {
      PrefixUnchanged(h, x, p, j);
    }
    PrefixUnchanged(h, x, p, i);
    WholeUnrecovered(l, p);
  }

  /** Opening and recovering, one sample at a time. */
  lemma IsOpenSnoc(h: seq<Evaluation>, x: Evaluation, p: Policy)
    requires PolicyOk(p)
    ensures IsOpen(h + [x], p) <==>
            if IsOpen(h, p) then Trailing(h + [x], Good) < p.recovery else Trailing(h + [x], Bad) >= p.activation
  {
    var l := h + [x];
    assert l[..|l|] == l;
    forall i | 0 <= i <= |h|
      ensures OpenSince(l, i, p) <==> OpenSince(h, i, p) && Trailing(l, Good) < p.recovery
    {
      StillOpen(h, x, p, i);
    }
    OnlyOneTrails(l);
    assert OpenSince(l, |l|, p) <==> Trailing(l, Bad) >= p.activation;
    if IsOpen(h, p) {
      var i :| 0 <= i <= |h| && OpenSince(h, i, p);
      if IsOpen(l, p) {
        var k :| 0 <= k <= |l| && OpenSince(l, k, p);
        assert Unrecovered(l, |l|, p);
      }
    }
  }

  // ---------- One record ----------

  /** The counters of a record are the trailing runs of its history, and it is active exactly while the history is open. */
  ghost predicate Streak(r: Option<Record>, h: seq<Evaluation>, p: Policy) {
    if r.None? then Trailing(h, Bad) == 0 && !IsOpen(h, p)
    else if r.value.incident.None? then r.value.bad == Trailing(h, Bad) < p.activation && r.value.good == 0 && !IsOpen(h, p)
    else r.value.good == Trailing(h, Good) < p.recovery && IsOpen(h, p)
  }

  lemma JudgeKeepsStreak(r: Option<Record>, h: seq<Evaluation>, key: Key, netns: NetnsId, v: Evaluation, e: Evidence,
                         c: Completeness, p: Policy, nextId: nat)
    requires PolicyOk(p) && Streak(r, h, p)
    ensures var o := Judge(r, key, netns, v, e, c, p, nextId);
            && Streak(o.record, h + [v], p)
            && (o.isNew <==> !IsOpen(h, p) && IsOpen(h + [v], p))
            && (o.emitted.Some? && o.record.None? <==> IsOpen(h, p) && !IsOpen(h + [v], p))
            && (o.isNew <==> v == Bad && !IsOpen(h, p) && Trailing(h, Bad) + 1 == p.activation)
            && (IsOpen(h, p) && !IsOpen(h + [v], p) <==> v == Good && IsOpen(h, p) && Trailing(h, Good) + 1 == p.recovery)
  {
    hide IsOpen, Append;
    IsOpenSnoc(h, v, p);
    TrailingSnoc(h, v, Bad);
    TrailingSnoc(h, v, Good);
    hide Trailing;
  }

  // ---------- What an event does to one key ----------

  /** A key is given up, judged once, or left alone; a sample that a full table turns away leaves it alone. */
  datatype Effect = Untouched | Ends | Takes(netns: NetnsId, verdict: Evaluation, evidence: Evidence, completeness: Completeness, id: nat)

  function Sampled(e: Engine, k: Key, netns: NetnsId, v: Evaluation, x: Evidence, c: Completeness): Effect {
    if Refused(e, k, v) then Untouched else Takes(netns, v, x, c, e.nextId)
  }

  predicate IsOther(e: Engine, current: SocketId, k: Key) {
    k.scope.SocketScope? && k.scope.socket in OtherGenerations(e, current)
  }

  ghost function SocketEffect(e: Engine, ev: Event, k: Key): Effect
    requires ev.payload.SocketSeen?
  {
    var s := ev.payload;
    if s.present && !s.closed then
      if ev.validity == Valid && s.validity == Valid && IsOther(e, s.id, k) then Ends else Untouched
    else if k.scope == SocketScope(s.id) then Ends else Untouched
  }

  ghost function RttEffect(e: Engine, ev: Event, k: Key): Effect
    requires ev.payload.TcpInfoSeen?
  {
    var (q, scope) := (ev.payload, SocketScope(ev.payload.id));
    var ((v, why), ok) := (JudgeRtt(ev, e.policy), RttAvailable(ev));
    if IsOther(e, q.id, k) then Ends
    else if k != Key(HighTcpRtt, scope) then Untouched
    else
      Sampled(Supersede(e, q.id, ev.observedAt, ev.monotonicAt).0, k, q.netns, v,
              MakeEvidence(ev, scope, if ok then Some(Amount(q.rtt.value)) else None, Microseconds,
                           if ok then Valid else ev.validity, why),
              if ok then Complete else Absent)
  }

  ghost function RatioEffect(e: Engine, ev: Event, k: Key): Effect
    requires ev.payload.TcpIntervalSeen?
  {
    var (q, scope) := (ev.payload, SocketScope(ev.payload.id));
    var ((v, why), ok) := (JudgeRatio(ev, e.policy), RatioAvailable(ev, e.policy));
    if IsOther(e, q.id, k) then Ends
    else if k != Key(ElevatedTcpRetransmission, scope) then Untouched
    else
      Sampled(Supersede(e, q.id, ev.observedAt, ev.monotonicAt).0, k, q.id.netns, v,
              MakeEvidence(ev, scope, if q.ratio.Some? then Some(Ratio(q.ratio.value)) else None, Fraction,
                           if ok then Valid else ev.validity, why),
              if ok then Complete else Absent)
  }

  /** Whether a route is missing is judged first, and may take the last free place in the table. */
  ghost function RouteEffect(e: Engine, ev: Event, k: Key): Effect
    requires ev.payload.RouteSeen?
  {
    var (q, scope) := (ev.payload, SocketScope(ev.payload.id));
    var known := q.id in e.authoritative;
    var ((v1, why1), (v2, why2)) := (JudgeRoute(known, ev), JudgeConflict(known, ev));
    var x1 := MakeEvidence(ev, scope, None, NoUnit, ev.validity, why1);
    var c1 := if v1 == Bad then Complete else Absent;
    if k == Key(NoRoute, scope) then Sampled(e, k, q.netns, v1, x1, c1)
    else if k == Key(SocketRouteConflict, scope) then
      Sampled(Evaluate(e, Key(NoRoute, scope), q.netns, v1, x1, c1).0, k, q.netns, v2,
              MakeEvidence(ev, scope, if q.diagIfindex.Some? && q.diagIfindex.value != 0
                                      then Some(Amount(q.diagIfindex.value)) else None, Count, ev.validity, why2),
              if v2 == Bad then Incomplete else Absent)
    else Untouched
  }

  ghost function UplinkEffect(e: Engine, ev: Event, k: Key): Effect
    requires ev.payload.UplinkSeen?
  {
    var (v, why) := JudgeUplink(ev);
    if k != Key(UplinkDown, NetnsScope(ev.netns)) then Untouched
    else Sampled(e, k, ev.netns, v, MakeEvidence(ev, k.scope, None, NoUnit, ev.validity, why),
                 if v == NoVerdict then Absent else Complete)
  }

  ghost function EffectOn(e: Engine, ev: Event, k: Key): Effect {
    if !Consumed(ev) then Untouched
    else match ev.payload
      case SocketSeen(_, _, _, _) => SocketEffect(e, ev, k)
      case TcpInfoSeen(_, _, _, _) => RttEffect(e, ev, k)
      case TcpIntervalSeen(_, _, _, _, _) => RatioEffect(e, ev, k)
      case RouteSeen(_, _, _, _, _) => RouteEffect(e, ev, k)
      case UplinkSeen(_) => UplinkEffect(e, ev, k)
      case OtherPayload => Untouched
  }

  function After(r: Option<Record>, k: Key, f: Effect, p: Policy): Option<Record> {
    match f
    case Untouched => r
    case Ends => None
    case Takes(netns, v, x, c, id) => Judge(r, k, netns, v, x, c, p, id).record
  }

  lemma EvaluateEffect(e: Engine, j: Key, netns: NetnsId, v: Evaluation, x: Evidence, c: Completeness, k: Key)
    ensures var u := Evaluate(e, j, netns, v, x, c).0;
            && u.policy == e.policy
            && RecordAt(u, k) ==
               After(RecordAt(e, k), k, if k == j then Sampled(e, j, netns, v, x, c) else Untouched, e.policy)
  {
    hide Judge;
  }

  lemma {:induction false} DiscardTypesEffect(e: Engine, id: SocketId, n: nat, at: int, monotonic: int, why: Condition, k: Key)
    requires n <= |TYPES|
    ensures var u := DiscardTypes(e, id, n, at, monotonic, why).0;
            u.policy == e.policy && RecordAt(u, k) == if k in Doomed(id, n) then None else RecordAt(e, k)
  {
    if n > 0 { DiscardTypesEffect(e, id, n - 1, at, monotonic, why, k); }
  }

  lemma RetireEffect(e: Engine, id: SocketId, at: int, monotonic: int, why: Condition, k: Key)
    ensures var u := Retire(e, id, at, monotonic, why).0;
            u.policy == e.policy && RecordAt(u, k) == if k.scope == SocketScope(id) then None else RecordAt(e, k)
  {
    hide DiscardTypes;
    DiscardTypesEffect(e.(authoritative := e.authoritative - {id}), id, |TYPES|, at, monotonic, why, k);
    if k.scope == SocketScope(id) { AllDoomed(id, k); }
  }

  lemma {:induction false} RetireAllEffect(e: Engine, ids: seq<SocketId>, at: int, monotonic: int, k: Key)
    ensures var u := RetireAll(e, ids, at, monotonic).0;
            && u.policy == e.policy
            && RecordAt(u, k) == if k.scope.SocketScope? && k.scope.socket in ids then None else RecordAt(e, k)
    decreases |ids|
  {
    hide Retire, RecordAt;
    if ids != [] {
      RetireEffect(e, ids[0], at, monotonic, GenerationSuperseded, k);
      RetireAllEffect(Retire(e, ids[0], at, monotonic, GenerationSuperseded).0, ids[1..], at, monotonic, k);
      assert ids == [ids[0]] + ids[1..];
    }
  }

  lemma SupersedeEffect(e: Engine, current: SocketId, at: int, monotonic: int, k: Key)
    ensures var u := Supersede(e, current, at, monotonic).0;
            u.policy == e.policy && RecordAt(u, k) == if IsOther(e, current, k) then None else RecordAt(e, k)
  {
    hide RetireAll, RecordAt, OtherGenerations;
    RetireAllEffect(e, InOrder(OtherGenerations(e, current)), at, monotonic, k);
  }

  /** Every event acts on every key at most once, in one of the three ways. */
  lemma ProcessEffect(e: Engine, ev: Event, k: Key)
    ensures var u := Process(e, ev).0;
            u.policy == e.policy && RecordAt(u, k) == After(RecordAt(e, k), k, EffectOn(e, ev, k), e.policy)
  {
    hide Judge, Evaluate, Supersede, Retire, JudgeRtt, JudgeRatio, JudgeRoute, JudgeConflict, JudgeUplink, RttAvailable,
         RatioAvailable, MakeEvidence, Refused, RecordAt;
    if Consumed(ev) {
      match ev.payload {
        case SocketSeen(_, _, _, _) => SocketEffectIs(e, ev, k);
        case TcpInfoSeen(_, _, _, _) => RttEffectIs(e, ev, k);
        case TcpIntervalSeen(_, _, _, _, _) => RatioEffectIs(e, ev, k);
        case RouteSeen(_, _, _, _, _) => RouteEffectIs(e, ev, k);
        case UplinkSeen(_) => UplinkEffectIs(e, ev, k);
        case OtherPayload =>
      }
    }
  }

  lemma SocketEffectIs(e: Engine, ev: Event, k: Key)
    requires ev.payload.SocketSeen?
    ensures var u := OnSocket(e, ev).0;
            u.policy == e.policy && RecordAt(u, k) == After(RecordAt(e, k), k, SocketEffect(e, ev, k), e.policy)
  {
    hide Supersede, Retire, OtherGenerations;
    SupersedeEffect(e, ev.payload.id, ev.observedAt, ev.monotonicAt, k);
    RetireEffect(e, ev.payload.id, ev.observedAt, ev.monotonicAt, LifecycleClosed, k);
  }

  lemma SupersedeThenSample(e: Engine, id: SocketId, at: int, monotonic: int, j: Key, netns: NetnsId, v: Evaluation, x: Evidence,
                            c: Completeness, k: Key)
    requires j.scope == SocketScope(id)
    ensures var e1 := Supersede(e, id, at, monotonic).0;
            var u := Evaluate(e1, j, netns, v, x, c).0;
            && u.policy == e.policy
            && RecordAt(u, k) ==
               After(RecordAt(e, k), k, if IsOther(e, id, k) then Ends else if k != j then Untouched
                                        else Sampled(e1, k, netns, v, x, c), e.policy)
  {
    assert !IsOther(e, id, j);
    hide Supersede, Evaluate, RecordAt, OtherGenerations, Judge, Refused;
    SupersedeEffect(e, id, at, monotonic, k);
    EvaluateEffect(Supersede(e, id, at, monotonic).0, j, netns, v, x, c, k);
  }

  lemma RttEffectIs(e: Engine, ev: Event, k: Key)
    requires ev.payload.TcpInfoSeen?
    ensures var u := OnTcpInfo(e, ev).0;
            u.policy == e.policy && RecordAt(u, k) == After(RecordAt(e, k), k, RttEffect(e, ev, k), e.policy)
  {
    hide Supersede, Evaluate, RecordAt, IsOther, Sampled, After, JudgeRtt, MakeEvidence;
    var (q, scope) := (ev.payload, SocketScope(ev.payload.id));
    var ((v, why), ok) := (JudgeRtt(ev, e.policy), RttAvailable(ev));
    var x := MakeEvidence(ev, scope, if ok then Some(Amount(q.rtt.value)) else None, Microseconds,
                          if ok then Valid else ev.validity, why);
    SupersedeThenSample(e, q.id, ev.observedAt, ev.monotonicAt, Key(HighTcpRtt, scope), q.netns, v, x,
                        if ok then Complete else Absent, k);
  }

  lemma RatioEffectIs(e: Engine, ev: Event, k: Key)
    requires ev.payload.TcpIntervalSeen?
    ensures var u := OnTcpInterval(e, ev).0;
            u.policy == e.policy && RecordAt(u, k) == After(RecordAt(e, k), k, RatioEffect(e, ev, k), e.policy)
  {
    hide Supersede, Evaluate, RecordAt, IsOther, Sampled, After, JudgeRatio, RatioAvailable, MakeEvidence;
    var (q, scope) := (ev.payload, SocketScope(ev.payload.id));
    var ((v, why), ok) := (JudgeRatio(ev, e.policy), RatioAvailable(ev, e.policy));
    var x := MakeEvidence(ev, scope, if q.ratio.Some? then Some(Ratio(q.ratio.value)) else None, Fraction,
                          if ok then Valid else ev.validity, why);
    SupersedeThenSample(e, q.id, ev.observedAt, ev.monotonicAt, Key(ElevatedTcpRetransmission, scope), q.id.netns, v, x,
                        if ok then Complete else Absent, k);
  }

  lemma RouteEffectIs(e: Engine, ev: Event, k: Key)
    requires ev.payload.RouteSeen?
    ensures var u := OnRoute(e, ev).0;
            u.policy == e.policy && RecordAt(u, k) == After(RecordAt(e, k), k, RouteEffect(e, ev, k), e.policy)
  {
    hide Evaluate, RecordAt, Sampled, JudgeRoute, JudgeConflict, MakeEvidence, Judge;
    var (q, scope) := (ev.payload, SocketScope(ev.payload.id));
    var known := q.id in e.authoritative;
    var ((v1, why1), (v2, why2)) := (JudgeRoute(known, ev), JudgeConflict(known, ev));
    var x1 := MakeEvidence(ev, scope, None, NoUnit, ev.validity, why1);
    var c1 := if v1 == Bad then Complete else Absent;
    var e1 := Evaluate(e, Key(NoRoute, scope), q.netns, v1, x1, c1).0;
    var x2 := MakeEvidence(ev, scope, if q.diagIfindex.Some? && q.diagIfindex.value != 0
                                      then Some(Amount(q.diagIfindex.value)) else None, Count, ev.validity, why2);
    var c2 := if v2 == Bad then Incomplete else Absent;
    EvaluateEffect(e, Key(NoRoute, scope), q.netns, v1, x1, c1, k);
    EvaluateEffect(e1, Key(SocketRouteConflict, scope), q.netns, v2, x2, c2, k);
  }

  lemma UplinkEffectIs(e: Engine, ev: Event, k: Key)
    requires ev.payload.UplinkSeen?
    ensures var u := OnUplink(e, ev).0;
            u.policy == e.policy && RecordAt(u, k) == After(RecordAt(e, k), k, UplinkEffect(e, ev, k), e.policy)
  {
    hide Evaluate, RecordAt, Sampled, JudgeUplink, MakeEvidence, Judge;
    var ((v, why), scope) := (JudgeUplink(ev), NetnsScope(ev.netns));
    EvaluateEffect(e, Key(UplinkDown, scope), ev.netns, v, MakeEvidence(ev, scope, None, NoUnit, ev.validity, why),
                   if v == NoVerdict then Absent else Complete, k);
  }

  // ---------- Evidence ----------

  /** All the evidence offered to an incident, in order, without immediate repetitions. */
  function Distinct(offered: seq<Evidence>): seq<Evidence> {
    if offered == [] then []
    else
      var kept := Distinct(offered[..|offered| - 1]);
      if Repeats(kept, offered[|offered| - 1]) then kept else kept + [offered[|offered| - 1]]
  }

  function Collected(offered: seq<Evidence>, bound: nat): seq<Evidence> {
    if offered == [] then [] else Append(Collected(offered[..|offered| - 1], bound), offered[|offered| - 1], bound)
  }

  lemma {:induction false} CollectedIsFirstAndLatest(offered: seq<Evidence>, bound: nat)
    requires bound > 0
    ensures Collected(offered, bound) == FirstAndLatest(Distinct(offered), bound)
  {
    if offered != [] {
      var (init, e) := (offered[..|offered| - 1], offered[|offered| - 1]);
      CollectedIsFirstAndLatest(init, bound);
      AppendIsFirstAndLatest(Distinct(init), e, bound);
    }
  }

  lemma AppendIsFirstAndLatest(s: seq<Evidence>, e: Evidence, bound: nat)
    requires bound > 0
    ensures Append(FirstAndLatest(s, bound), e, bound) == FirstAndLatest(if Repeats(s, e) then s else s + [e], bound)
  {
    hide FirstAndLatest, MakeRoom, Equivalent;
    KeptWasOffered(s, bound);
    MakeRoomKeeps(s, e, bound);
    if s == [] { NothingKept(bound); }
  }

  lemma NothingKept(bound: nat)
    requires bound > 0
    ensures FirstAndLatest<Evidence>([], bound) == []
  {
  }

  // ---------- Runs ----------

  /** The verdicts on one key since it was last given up, and the evidence of its bad samples while it is open. */
  datatype Story = Story(verdicts: seq<Evaluation>, offered: seq<Evidence>)

  ghost function Continue(s: Story, f: Effect, p: Policy): Story {
    match f
    case Untouched => s
    case Ends => Story([], [])
    case Takes(_, v, x, _, _) =>
      var h := s.verdicts + [v];
      Story(h, if !IsOpen(h, p) then [] else if v == Bad then s.offered + [x] else s.offered)
  }

  ghost function StoryOf(p: Policy, events: seq<Event>, k: Key): Story {
    if events == [] then Story([], [])
    else
      var before := events[..|events| - 1];
      Continue(StoryOf(p, before, k), EffectOn(Run(InitEngine(p), before).0, events[|events| - 1], k), p)
  }

  ghost predicate Tells(r: Option<Record>, s: Story, p: Policy) {
    && Streak(r, s.verdicts, p) && (!IsOpen(s.verdicts, p) ==> s.offered == [])
    && (IncidentOf(r).Some? ==> IncidentOf(r).value.evidence == Collected(s.offered, p.maxEvidence))
  }

  lemma FreshStory(p: Policy)
    requires PolicyOk(p)
    ensures Tells(None, Story([], []), p)
  {
    var h: seq<Evaluation> := [];
    assert h[..0] == h;
  }

  /** Bad samples add their evidence; other samples leave it alone for as long as the incident is open. */
  lemma JudgeKeepsEvidence(r: Option<Record>, key: Key, netns: NetnsId, v: Evaluation, e: Evidence, c: Completeness, p: Policy,
                           nextId: nat)
    ensures var (i, o) := (IncidentOf(r), Judge(r, key, netns, v, e, c, p, nextId));
            IncidentOf(o.record).Some? ==>
              IncidentOf(o.record).value.evidence ==
                if v != Bad then (if i.Some? then i.value.evidence else [])
                else Append(if i.Some? then i.value.evidence else [], e, p.maxEvidence)
    ensures v != Bad && IncidentOf(Judge(r, key, netns, v, e, c, p, nextId).record).Some? ==> IncidentOf(r).Some?
  {
    hide MakeRoom, Equivalent;
  }

  lemma CollectedSnoc(offered: seq<Evidence>, e: Evidence, bound: nat)
    ensures Collected([], bound) == [] && Collected(offered + [e], bound) == Append(Collected(offered, bound), e, bound)
  {
    assert (offered + [e])[..|offered + [e]| - 1] == offered;
  }

  lemma JudgeContinues(r: Option<Record>, s: Story, k: Key, f: Effect, p: Policy)
    requires PolicyOk(p) && Tells(r, s, p) && f.Takes?
    ensures Tells(After(r, k, f, p), Continue(s, f, p), p)
  {
    JudgeKeepsStreak(r, s.verdicts, k, f.netns, f.verdict, f.evidence, f.completeness, p, f.id);
    JudgeKeepsEvidence(r, k, f.netns, f.verdict, f.evidence, f.completeness, p, f.id);
    CollectedSnoc(s.offered, f.evidence, p.maxEvidence);
    hide Judge, IsOpen, Trailing, Append, Collected;
  }

  lemma {:induction false} RunTells(p: Policy, events: seq<Event>, k: Key)
    requires PolicyOk(p)
    ensures var u := Run(InitEngine(p), events).0; u.policy == p && Tells(RecordAt(u, k), StoryOf(p, events, k), p)
  {
    hide Tells, Process, EffectOn, After, Continue;
    if events == [] {
      FreshStory(p);
    } else {
      var (before, ev) := (events[..|events| - 1], events[|events| - 1]);
      RunTells(p, before, k);
      var e := Run(InitEngine(p), before).0;
      ProcessEffect(e, ev, k);
      EffectContinues(RecordAt(e, k), StoryOf(p, before, k), k, EffectOn(e, ev, k), p);
    }
  }

  lemma EffectContinues(r: Option<Record>, s: Story, k: Key, f: Effect, p: Policy)
    requires PolicyOk(p) && Tells(r, s, p)
    ensures Tells(After(r, k, f, p), Continue(s, f, p), p)
  {
    if f.Takes? {
      JudgeContinues(r, s, k, f, p);
    } else {
      FreshStory(p);
      hide Tells;
    }
  }

  /**
   * After any events, a key is active exactly when its own verdicts say so: once the trailing run of bad ones reached the
   * activation count, until a run of good ones reaches the recovery count. Its counters are those trailing runs.
   */
  lemma StreaksRefineHistory(p: Policy, events: seq<Event>, k: Key)
    requires PolicyOk(p)
    ensures Streak(RecordAt(Run(InitEngine(p), events).0, k), StoryOf(p, events, k).verdicts, p)
  {
    RunTells(p, events, k);
  }

  /**
   * After any events, the evidence of an active incident is what opened it and the latest of what bad samples offered it
   * since, as much as the bound allows, without immediate repetitions.
   */
  lemma EvidenceIsFirstAndLatest(p: Policy, events: seq<Event>, k: Key)
    requires PolicyOk(p)
    ensures var i := IncidentOf(RecordAt(Run(InitEngine(p), events).0, k));
            i.Some? ==> i.value.evidence == FirstAndLatest(Distinct(StoryOf(p, events, k).offered), p.maxEvidence)
  {
    RunTells(p, events, k);
    hide Run, StoryOf, FirstAndLatest, Distinct;
    CollectedIsFirstAndLatest(StoryOf(p, events, k).offered, p.maxEvidence);
  }
}
