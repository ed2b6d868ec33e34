/** The committed topology: notification batches, dumps and marks, and what every run of them keeps. */
module Collector {
  import opened Entities
  import opened TopologyModel
  import opened TopologyProofs

  // ---------- Batches ----------

  datatype Folded = Folded(topology: Topology, changed: bool) | FoldFailed

  predicate Failure(r: ApplyResult) {
    r == Invalid || r == AmbiguousDelete
  }

  /** All messages one after the other, unless one of them fails. */
  function ApplyAll(t: Topology, messages: seq<Message>): Folded {
    if messages == [] then Folded(t, false)
    else
      var before := ApplyAll(t, messages[..|messages| - 1]);
      if before.FoldFailed? then FoldFailed
      else
        var (u, result) := Apply(before.topology, messages[|messages| - 1]);
        if Failure(result) then FoldFailed else Folded(u, before.changed || result == Changed)
  }

  function Batch(t: Topology, messages: seq<Message>): (Topology, bool) {
    if OtherMessage in messages then (t, false)
    else
      match ApplyAll(t, messages)
      case FoldFailed => (t, false)
      case Folded(u, changed) => (if changed then u.(degraded := false, generation := t.generation + 1) else t, true)
  }

  predicate SameFacts(t: Topology, u: Topology) {
    t.links == u.links && t.addresses == u.addresses && t.routes == u.routes
  }

  /** Links that differ at most in their type, which the source does not compare. */
  predicate SameUpToType(a: map<nat, LinkFact>, b: map<nat, LinkFact>) {
    a.Keys == b.Keys && forall i :: i in a ==> a[i].(linkType := 0) == b[i].(linkType := 0)
  }

  // ---------- Dumps ----------

  /** A message that is not part of the dump raced with it. */
  datatype DumpItem = Racing | DumpDone(interrupted: bool) | Dumped(message: Message)

  datatype DumpState = DumpState(candidate: Topology, complete: bool, raced: bool) | DumpFailed

  function ReadDump(netns: NetnsId, items: seq<DumpItem>): DumpState {
    if items == [] then DumpState(EmptyTopology(netns), false, false)
    else
      var before := ReadDump(netns, items[..|items| - 1]);
      if before.DumpFailed? then DumpFailed
      else
        match items[|items| - 1]
        case Racing => before.(raced := true)
        case DumpDone(interrupted) => if interrupted then DumpFailed else before.(complete := true)
        case Dumped(m) =>
          var (u, result) := Apply(before.candidate, m);
          if Failure(result) then DumpFailed else before.(candidate := u)
  }

  function Marked(t: Topology): Topology {
    if t.authoritative then t.(degraded := true) else t
  }

  function Committed(t: Topology, candidate: Topology): Topology {
    candidate.(authoritative := true, partial := false, degraded := false, generation := t.generation + 1)
  }

  function Reconciled(t: Topology, items: seq<DumpItem>): (Topology, bool) {
    match ReadDump(t.netns, items)
    case DumpFailed => (t, false)
    case DumpState(candidate, complete, raced) =>
      if !complete then (t, false) else if raced then (Marked(t), false) else (Committed(t, candidate), true)
  }

  // ---------- One step ----------

  datatype Step = Notify(messages: seq<Message>) | Resync(items: seq<DumpItem>) | Mark

  function Next(t: Topology, s: Step): Topology {
    match s
    case Notify(messages) => Batch(t, messages).0
    case Resync(items) => Reconciled(t, items).0
    case Mark => Marked(t)
  }

  lemma {:induction false} ApplyAllKeepsOk(t: Topology, messages: seq<Message>)
    requires TopologyOk(t)
    ensures var r := ApplyAll(t, messages);
            r.Folded? ==> TopologyOk(r.topology)
                          && r.topology == t.(links := r.topology.links, addresses := r.topology.addresses, routes := r.topology.routes)
  {
    hide TopologyOk, Apply;
    if messages != [] {
      ApplyAllKeepsOk(t, messages[..|messages| - 1]);
      var before := ApplyAll(t, messages[..|messages| - 1]);
      if before.Folded? { ApplyKeepsOk(before.topology, messages[|messages| - 1]); }
    }
  }

  lemma FlagsDoNotMatter(t: Topology, u: Topology)
    requires TopologyOk(t) && SameFacts(t, u) && t.netns == u.netns
    ensures TopologyOk(u)
  {
    hide Unique, SortedHops, SameAddress;
  }

  /** A message that reports no change has changed nothing, except possibly the type of a link. */
  lemma NoChangeMeans(t: Topology, m: Message)
    requires TopologyOk(t) && Apply(t, m).1 == NoChange
    ensures var u := Apply(t, m).0; u.addresses == t.addresses && u.routes == t.routes && SameUpToType(t.links, u.links)
  {
    assert LinksOk(t);
    hide TopologyOk, LinksOk, ApplyLink, SameUpToType;
    if m.LinkMessage? {
      LinkNoChange(t, m.link);
    } else {
      OthersNoChange(t, m);
      SameItself(t.links);
    }
  }

  lemma SameItself(links: map<nat, LinkFact>)
    ensures SameUpToType(links, links)
  {
  }

  lemma OthersNoChange(t: Topology, m: Message)
    requires !m.LinkMessage? && Apply(t, m).1 == NoChange
    ensures Apply(t, m).0 == t
  {
    hide SameAddress, Identity, Names, SortHops;
  }

  lemma LinkNoChange(t: Topology, f: LinkFact)
    requires LinksOk(t) && ApplyLink(t, f).1 == NoChange
    ensures var u := ApplyLink(t, f).0; u.addresses == t.addresses && u.routes == t.routes && SameUpToType(t.links, u.links)
  {
    KeepAll(t.addresses, (a: AddressFact) => a.ifindex != f.ifindex);
    KeepAll(t.routes, (r: RouteFact) => !Uses(r, f.ifindex));
    hide Keep, Uses;
    if f.present {
      assert f.ifindex in t.links && t.links[f.ifindex].(linkType := 0) == f.(linkType := 0);
    } else {
      assert t.links - {f.ifindex} == t.links;
    }
  }

  lemma {:induction false} KeepAll<T(!new)>(s: seq<T>, p: T -> bool)
    ensures |Keep(s, p)| <= |s|
    ensures |Keep(s, p)| == |s| ==> Keep(s, p) == s
  {
    if s != [] {
      KeepAll(s[..|s| - 1], p);
      assert s == s[..|s| - 1] + [s[|s| - 1]];
    }
  }

  lemma {:induction false} UnchangedFold(t: Topology, messages: seq<Message>)
    requires TopologyOk(t)
    ensures var r := ApplyAll(t, messages);
            r.Folded? && !r.changed ==>
              r.topology.addresses == t.addresses && r.topology.routes == t.routes && SameUpToType(t.links, r.topology.links)
  {
    hide TopologyOk, Apply;
    if messages != [] {
      UnchangedFold(t, messages[..|messages| - 1]);
      ApplyAllKeepsOk(t, messages[..|messages| - 1]);
      var before := ApplyAll(t, messages[..|messages| - 1]);
      if before.Folded? && Apply(before.topology, messages[|messages| - 1]).1 == NoChange {
        NoChangeMeans(before.topology, messages[|messages| - 1]);
      }
    }
  }

  /**
   * A batch is the left fold of its messages or nothing at all. It is nothing when a message fails, and also when none
   * reports a change; in that case the fold would have differed in link types at most.
   */
  lemma BatchIsFoldOrNothing(t: Topology, messages: seq<Message>)
    requires TopologyOk(t)
    ensures var (u, ok) := Batch(t, messages);
            var r := ApplyAll(t, messages);
            && (ok <==> r.Folded?)
            && (!ok ==> u == t)
            && (ok && r.changed ==> SameFacts(u, r.topology) && u.generation == t.generation + 1)
            && (ok && !r.changed ==> u == t && r.topology.addresses == t.addresses && r.topology.routes == t.routes
                                     && SameUpToType(t.links, r.topology.links))
  {
    UnchangedFold(t, messages);
    UnsupportedFails(t, messages);
  }

  lemma {:induction false} UnsupportedFails(t: Topology, messages: seq<Message>)
    ensures OtherMessage in messages ==> ApplyAll(t, messages).FoldFailed?
  {
    if messages != [] {
      UnsupportedFails(t, messages[..|messages| - 1]);
      assert messages == messages[..|messages| - 1] + [messages[|messages| - 1]];
    }
  }

  lemma {:induction false} ReadDumpKeepsOk(netns: NetnsId, items: seq<DumpItem>)
    ensures var d := ReadDump(netns, items); d.DumpState? ==> TopologyOk(d.candidate) && d.candidate.netns == netns
  {
    hide TopologyOk, Apply;
    if items == [] {
      EmptyOk(netns);
    } else {
      ReadDumpKeepsOk(netns, items[..|items| - 1]);
      var before := ReadDump(netns, items[..|items| - 1]);
      if before.DumpState? && items[|items| - 1].Dumped? { ApplyKeepsOk(before.candidate, items[|items| - 1].message); }
    }
  }

  function Messages(items: seq<DumpItem>): seq<Message> {
    if items == [] then []
    else Messages(items[..|items| - 1]) + (if items[|items| - 1].Dumped? then [items[|items| - 1].message] else [])
  }

  lemma {:induction false} DumpIsItsMessages(netns: NetnsId, items: seq<DumpItem>)
    ensures var d := ReadDump(netns, items);
            d.DumpState? ==> ApplyAll(EmptyTopology(netns), Messages(items)).Folded?
                             && d.candidate == ApplyAll(EmptyTopology(netns), Messages(items)).topology
  {
    hide Apply, ApplyAll;
    if items == [] {
      NothingApplied(EmptyTopology(netns));
    } else {
      DumpIsItsMessages(netns, items[..|items| - 1]);
      if items[|items| - 1].Dumped? {
        OneMoreApplied(EmptyTopology(netns), Messages(items[..|items| - 1]), items[|items| - 1].message);
      } else {
        assert Messages(items) == Messages(items[..|items| - 1]);
      }
    }
  }

  lemma NothingApplied(t: Topology)
    ensures ApplyAll(t, []) == Folded(t, false)
  {
  }

  lemma OneMoreApplied(t: Topology, messages: seq<Message>, m: Message)
    ensures var before := ApplyAll(t, messages);
            before.Folded? ==>
              var (u, result) := Apply(before.topology, m);
              ApplyAll(t, messages + [m]) == if Failure(result) then FoldFailed else Folded(u, before.changed || result == Changed)
  {
    hide Apply;
    assert (messages + [m])[..|messages + [m]| - 1] == messages;
  }

  /** What a dump commits depends on nothing but the messages of the dump, whatever was known before. */
  lemma CommitIsTheDump(t: Topology, items: seq<DumpItem>)
    requires Reconciled(t, items).1
    ensures var u := Reconciled(t, items).0;
            var r := ApplyAll(EmptyTopology(t.netns), Messages(items));
            && r.Folded? && SameFacts(u, r.topology)
            && u.authoritative && !u.partial && !u.degraded && u.generation == t.generation + 1
            && Racing !in items && DumpDone(false) in items
  {
    DumpIsItsMessages(t.netns, items);
    DumpHistory(t.netns, items);
  }

  lemma {:induction false} DumpHistory(netns: NetnsId, items: seq<DumpItem>)
    ensures var d := ReadDump(netns, items);
            d.DumpState? ==> (d.raced <==> Racing in items) && (d.complete <==> DumpDone(false) in items)
                             && DumpDone(true) !in items
  {
    hide Apply;
    if items != [] {
      DumpHistory(netns, items[..|items| - 1]);
      assert items == items[..|items| - 1] + [items[|items| - 1]];
    }
  }

  // ---------- Runs ----------

  lemma NextKeeps(t: Topology, s: Step)
    requires TopologyOk(t)
    ensures var u := Next(t, s);
            && TopologyOk(u) && u.netns == t.netns
            && (t.authoritative ==> u.authoritative)
            && (u.generation == t.generation + 1 || (u.generation == t.generation && SameFacts(t, u)))
  {
    match s {
      case Notify(messages) =>
        ApplyAllKeepsOk(t, messages);
        var r := ApplyAll(t, messages);
        hide ApplyAll;
        if r.Folded? { FlagsDoNotMatter(r.topology, r.topology.(degraded := false, generation := t.generation + 1)); }
      case Resync(items) =>
        ReadDumpKeepsOk(t.netns, items);
        hide ReadDump;
        var d := ReadDump(t.netns, items);
        if d.DumpState? { FlagsDoNotMatter(d.candidate, Committed(t, d.candidate)); }
        FlagsDoNotMatter(t, Marked(t));
      case Mark => FlagsDoNotMatter(t, Marked(t));
    }
  }

  function Run(t: Topology, steps: seq<Step>): Topology {
    if steps == [] then t else Next(Run(t, steps[..|steps| - 1]), steps[|steps| - 1])
  }

  /**
   * Over every run the topology stays well formed, its generation never falls, and its links, addresses and routes
   * are the same whenever the generation is.
   */
  lemma {:induction false} FactsChangeWithGeneration(netns: NetnsId, steps: seq<Step>, more: seq<Step>)
    ensures var t := Run(EmptyTopology(netns), steps);
            var u := Run(t, more);
            && TopologyOk(t) && t.netns == netns && TopologyOk(u) && u.netns == netns
            && t.generation <= u.generation && (t.generation == u.generation ==> SameFacts(t, u))
            && (t.authoritative ==> u.authoritative)
  {
    EmptyOk(netns);
    RunKeeps(EmptyTopology(netns), steps);
    RunKeeps(Run(EmptyTopology(netns), steps), more);
  }

  lemma {:induction false} RunKeeps(t: Topology, steps: seq<Step>)
    requires TopologyOk(t)
    ensures var u := Run(t, steps);
            && TopologyOk(u) && u.netns == t.netns && (t.authoritative ==> u.authoritative)
            && t.generation <= u.generation && (t.generation == u.generation ==> SameFacts(t, u))
  {
    hide TopologyOk, Next;
    if steps != [] {
      RunKeeps(t, steps[..|steps| - 1]);
      NextKeeps(Run(t, steps[..|steps| - 1]), steps[|steps| - 1]);
    }
  }

  // ---------- When a batch is not its fold ----------

  /** The type a link has after a batch that reports no change. */
  function LastType(messages: seq<Message>, ifindex: nat, before: nat): nat {
    if messages == [] then before
    else
      var last := messages[|messages| - 1];
      if last.LinkMessage? && last.link.present && last.link.ifindex == ifindex then last.link.linkType
      else LastType(messages[..|messages| - 1], ifindex, before)
  }

  predicate TypesKept(t: Topology, messages: seq<Message>) {
    forall i :: i in t.links ==> LastType(messages, i, t.links[i].linkType) == t.links[i].linkType
  }

  lemma LinkTypeOnly(t: Topology, m: Message, i: nat)
    requires TopologyOk(t) && Apply(t, m).1 == NoChange && i in t.links
    ensures var u := Apply(t, m).0;
            i in u.links && u.links[i] == t.links[i].(linkType :=
              if m.LinkMessage? && m.link.present && m.link.ifindex == i then m.link.linkType else t.links[i].linkType)
  {
    hide AddressesOk, RoutesOk;
    match m {
      case LinkMessage(f) =>
        hide Keep, Uses;
        if f.netns == t.netns && f.present && f.ifindex == i {
          assert f == t.links[i].(linkType := f.linkType);
        }
      case _ => hide LinkDiffers, Keep, Identity, Names;
    }
  }

  lemma {:induction false} UnchangedTypes(t: Topology, messages: seq<Message>, i: nat)
    requires TopologyOk(t) && i in t.links
    ensures var r := ApplyAll(t, messages);
            r.Folded? && !r.changed ==>
              i in r.topology.links && r.topology.links[i] == t.links[i].(linkType := LastType(messages, i, t.links[i].linkType))
  {
    hide TopologyOk, Apply;
    if messages != [] {
      UnchangedTypes(t, messages[..|messages| - 1], i);
      ApplyAllKeepsOk(t, messages[..|messages| - 1]);
      var before := ApplyAll(t, messages[..|messages| - 1]);
      if before.Folded? && !before.changed && Apply(before.topology, messages[|messages| - 1]).1 == NoChange {
        LinkTypeOnly(before.topology, messages[|messages| - 1], i);
      }
    }
  }

  /** A batch that succeeds has the effect of its fold exactly when it reports a change or leaves every link its type. */
  lemma BatchEqualsFoldIff(t: Topology, messages: seq<Message>)
    requires TopologyOk(t) && Batch(t, messages).1
    ensures var r := ApplyAll(t, messages);
            r.Folded? && (SameFacts(Batch(t, messages).0, r.topology) <==> r.changed || TypesKept(t, messages))
  {
    BatchIsFoldOrNothing(t, messages);
    hide TopologyOk, ApplyAll, LastType, Batch;
    var r := ApplyAll(t, messages);
    if !r.changed {
      forall i | i in t.links
        ensures i in r.topology.links && r.topology.links[i] == t.links[i].(linkType := LastType(messages, i, t.links[i].linkType))
      {
        UnchangedTypes(t, messages, i);
      }
      assert t.links.Keys == r.topology.links.Keys;
    }
  }

  function SomeLink(netns: NetnsId, linkType: nat): LinkFact {
    LinkFact(netns, 1, "wlan0", 1, 6, 1, true, linkType, true)
  }

  /** A reachable topology and a batch that would only change a link's type: it succeeds and is dropped. */
  lemma NewTypeIsDropped(netns: NetnsId)
    ensures var t := Run(EmptyTopology(netns), [Notify([LinkMessage(SomeLink(netns, 1))])]);
            var messages := [LinkMessage(SomeLink(netns, 2))];
            && Batch(t, messages) == (t, true)
            && ApplyAll(t, messages).Folded? && !SameFacts(t, ApplyAll(t, messages).topology)
  {
    var (m1, m2) := (LinkMessage(SomeLink(netns, 1)), LinkMessage(SomeLink(netns, 2)));
    var t0 := EmptyTopology(netns);
    NothingApplied(t0);
    OneMoreApplied(t0, [], m1);
    assert [] + [m1] == [m1] && [] + [m2] == [m2];
    var t := Next(t0, Notify([m1]));
    assert t.links == map[1 := SomeLink(netns, 1)] && t.netns == netns;
    assert [Notify([m1])][..0] == [];
    assert Run(t0, []) == t0 && Run(t0, [Notify([m1])]) == t;
    NothingApplied(t);
    OneMoreApplied(t, [], m2);
    assert ApplyAll(t, [m2]).topology.links[1] == SomeLink(netns, 2);
  }

  // ---------- The degraded mark ----------

  /** The step marks an authoritative topology: by itself, or as a dump that a notification raced with. */
  predicate Sets(t: Topology, s: Step) {
    t.authoritative && match s
    case Notify(_) => false
    case Resync(items) =>
      var d := ReadDump(t.netns, items);
      d.DumpState? && d.complete && d.raced
    case Mark => true
  }

  /** The step commits something: a clean dump, or any batch that reports a change. */
  predicate Clears(t: Topology, s: Step) {
    match s
    case Notify(messages) =>
      OtherMessage !in messages && ApplyAll(t, messages).Folded? && ApplyAll(t, messages).changed
    case Resync(items) => Reconciled(t, items).1
    case Mark => false
  }

  predicate SetAt(t: Topology, steps: seq<Step>, i: nat)
    requires i < |steps|
  {
    Sets(Run(t, steps[..i]), steps[i]) && forall j :: i < j < |steps| ==> !Clears(Run(t, steps[..j]), steps[j])
  }

  lemma NextMark(t: Topology, s: Step)
    ensures Next(t, s).degraded <==> Sets(t, s) || (t.degraded && !Clears(t, s))
  {
    hide ApplyAll, ReadDump;
    if s.Notify? { ApplyAllKeepsMark(t, s.messages); }
  }

  lemma {:induction false} ApplyAllKeepsMark(t: Topology, messages: seq<Message>)
    ensures var r := ApplyAll(t, messages); r.Folded? ==> r.topology.degraded == t.degraded
  {
    if messages != [] {
      ApplyAllKeepsMark(t, messages[..|messages| - 1]);
      var before := ApplyAll(t, messages[..|messages| - 1]);
      if before.Folded? { ApplyKeepsMark(before.topology, messages[|messages| - 1]); }
      hide Apply;
    }
  }

  lemma ApplyKeepsMark(t: Topology, m: Message)
    ensures Apply(t, m).0.degraded == t.degraded
  {
    hide Keep, Uses, Identity, Names, LinkDiffers;
  }

  /** The mark is up exactly when some step set it and no later step committed anything. */
  lemma {:induction false} DegradedIff(t: Topology, steps: seq<Step>)
    requires !t.degraded
    ensures Run(t, steps).degraded <==> exists i :: 0 <= i < |steps| && SetAt(t, steps, i)
  {
    if steps != [] {
      var (init, last, n) := (steps[..|steps| - 1], steps[|steps| - 1], |steps| - 1);
      DegradedIff(t, init);
      NextMark(Run(t, init), last);
      assert steps == init + [last];
      hide Next, Sets, Clears;
      forall i | 0 <= i < n
        ensures SetAt(t, steps, i) <==> SetAt(t, init, i) && !Clears(Run(t, init), last)
      {
        SetEarlier(t, init, last, i);
      }
      assert SetAt(t, steps, n) <==> Sets(Run(t, init), last);
    }
  }

  lemma SetEarlier(t: Topology, init: seq<Step>, last: Step, i: nat)
    requires i < |init|
    ensures SetAt(t, init + [last], i) <==> SetAt(t, init, i) && !Clears(Run(t, init), last)
  {
    hide Run, Sets, Clears;
    var steps := init + [last];
    assert forall j :: 0 <= j <= |init| ==> steps[..j] == init[..j];
    assert init[..|init|] == init;
    if SetAt(t, steps, i) {
      assert !Clears(Run(t, steps[..|init|]), steps[|init|]);
      assert forall j :: i < j < |init| ==> !Clears(Run(t, steps[..j]), steps[j]) ==> !Clears(Run(t, init[..j]), init[j]);
    }
  }

  /** A mark is forgotten with the next unrelated change, without any new dump. */
  lemma MarkIsForgotten(netns: NetnsId)
    ensures var steps := [Resync([DumpDone(false)]), Mark, Notify([LinkMessage(SomeLink(netns, 1))])];
            && Run(EmptyTopology(netns), steps[..2]).degraded
            && Run(EmptyTopology(netns), steps).authoritative && !Run(EmptyTopology(netns), steps).degraded
  {
    var t0 := EmptyTopology(netns);
    var (s1, s2, s3) := (Resync([DumpDone(false)]), Mark, Notify([LinkMessage(SomeLink(netns, 1))]));
    var steps := [s1, s2, s3];
    assert steps[..2] == [s1, s2] && [s1, s2][..1] == [s1] && [s1][..0] == [] && steps[..|steps| - 1] == steps[..2];
    assert [DumpDone(false)][..0] == [];
    assert ReadDump(netns, []) == DumpState(t0, false, false);
    assert ReadDump(netns, [DumpDone(false)]) == DumpState(t0, true, false);
    var t1 := Committed(t0, t0);
    assert Run(t0, []) == t0 && Run(t0, [s1]) == t1;
    var t2 := t1.(degraded := true);
    assert Run(t0, [s1, s2]) == t2;
    NothingApplied(t2);
    OneMoreApplied(t2, [], LinkMessage(SomeLink(netns, 1)));
    assert [] + [LinkMessage(SomeLink(netns, 1))] == [LinkMessage(SomeLink(netns, 1))];
    assert ApplyAll(t2, s3.messages).changed && !Next(t2, s3).degraded && Next(t2, s3).authoritative;
  }
}
