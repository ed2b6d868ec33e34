/** The topology edited in place, and the collector that commits it. */
module Netlink {
  import opened Entities
  import opened TopologyModel
  import opened TopologyProofs
  import opened UplinkPolicy
  import opened Collector

  class TopologyState {
    const netns: NetnsId
    var links: map<nat, LinkFact>
    var addresses: seq<AddressFact>
    var routes: seq<RouteFact>
    var authoritative: bool
    var partial: bool
    var degraded: bool
    var generation: nat

    function Snapshot(): Topology
      reads this
    {
      Topology(netns, links, addresses, routes, authoritative, partial, degraded, generation)
    }

    constructor (t: Topology)
      ensures Snapshot() == t
    {
      netns, links, addresses, routes := t.netns, t.links, t.addresses, t.routes;
      authoritative, partial, degraded, generation := t.authoritative, t.partial, t.degraded, t.generation;
    }

    method Replace(t: Topology)
      requires t.netns == netns
      modifies this
      ensures Snapshot() == t
    {
      links, addresses, routes := t.links, t.addresses, t.routes;
      authoritative, partial, degraded, generation := t.authoritative, t.partial, t.degraded, t.generation;
    }

    method EraseAddressesOn(ifindex: nat)
      modifies this`addresses
      ensures addresses == Keep(old(addresses), (a: AddressFact) => a.ifindex != ifindex)
    {
      var kept := [];
      for i := 0 to |addresses|
        invariant kept == Keep(addresses[..i], (a: AddressFact) => a.ifindex != ifindex) && addresses == old(addresses)
      {
        assert addresses[..i + 1][..i] == addresses[..i];
        if addresses[i].ifindex != ifindex { kept := kept + [addresses[i]]; }
      }
      assert addresses[..|addresses|] == addresses;
      addresses := kept;
    }

    method EraseRoutesUsing(ifindex: nat)
      modifies this`routes
      ensures routes == Keep(old(routes), (r: RouteFact) => !Uses(r, ifindex))
    {
      hide Uses;
      var kept := [];
      for i := 0 to |routes|
        invariant kept == Keep(routes[..i], (r: RouteFact) => !Uses(r, ifindex)) && routes == old(routes)
      {
        assert routes[..i + 1][..i] == routes[..i];
        if !Uses(routes[i], ifindex) { kept := kept + [routes[i]]; }
      }
      assert routes[..|routes|] == routes;
      routes := kept;
    }

    method ApplyLinkFact(f: LinkFact) returns (result: ApplyResult)
      modifies this`links, this`addresses, this`routes
      ensures (Snapshot(), result) == ApplyLink(old(Snapshot()), f)
    {
      hide Uses, Keep;
      if f.netns != netns { return Invalid; }
      if !f.present {
        var known := f.ifindex in links;
        links := links - {f.ifindex};
        var (a, r) := (|addresses|, |routes|);
        EraseAddressesOn(f.ifindex);
        EraseRoutesUsing(f.ifindex);
        return if known || |addresses| != a || |routes| != r then Changed else NoChange;
      }
      var changed := f.ifindex !in links || LinkDiffers(links[f.ifindex], f);
      links := links[f.ifindex := f];
      result := if changed then Changed else NoChange;
    }

    method ApplyAddressFact(f: AddressFact) returns (result: ApplyResult)
      modifies this`addresses
      ensures (Snapshot(), result) == ApplyAddress(old(Snapshot()), f)
    {
      if f.netns != netns { return Invalid; }
      var i := 0;
      while i < |addresses| && !SameAddress(addresses[i], f)
        invariant i <= |addresses| && forall j :: 0 <= j < i ==> !SameAddress(addresses[j], f)
      {
        i := i + 1;
      }
      assert i == FindAddress(addresses, f);
      hide SameAddress, FindAddress;
      if !f.present {
        if i == |addresses| { return NoChange; }
        addresses := addresses[..i] + addresses[i + 1..];
        return Changed;
      }
      if i == |addresses| {
        addresses := addresses + [f];
        return Changed;
      }
      if addresses[i] == f { return NoChange; }
      addresses := addresses[i := f];
      result := Changed;
    }

    method FindMatching(f: RouteFact) returns (found: seq<nat>)
      ensures found == Matching(routes, f)
    {
      hide Names;
      found := [];
      for i := 0 to |routes|
        invariant found == Matching(routes[..i], f)
      {
        assert routes[..i + 1][..i] == routes[..i];
        if Names(f, routes[i]) { found := found + [i]; }
      }
      assert routes[..|routes|] == routes;
    }

    method ApplyRouteFact(given: RouteFact) returns (result: ApplyResult)
      modifies this`routes
      ensures (Snapshot(), result) == ApplyRoute(old(Snapshot()), given)
    {
      hide Names, Identity;
      var f := given.(multipath := SortHops(given.multipath));
      if f.netns != netns { return Invalid; }
      if !f.present {
        if f.prefix != 0 && HasDestination !in f.attributes { return AmbiguousDelete; }
        var found := FindMatching(f);
        if found == [] { return NoChange; }
        if |found| != 1 { return AmbiguousDelete; }
        assert found[0] in found;
        routes := routes[..found[0]] + routes[found[0] + 1..];
        return Changed;
      }
      var i := 0;
      while i < |routes| && Identity(routes[i]) != Identity(f)
        invariant i <= |routes| && forall j :: 0 <= j < i ==> Identity(routes[j]) != Identity(f)
      {
        i := i + 1;
      }
      assert i < |routes| <==> HasIdentity(routes, f);
      if i < |routes| { return NoChange; }
      routes := routes + [f];
      result := Changed;
    }

    method ApplyChecked(m: Message) returns (result: ApplyResult)
      modifies this`links, this`addresses, this`routes
      ensures (Snapshot(), result) == Apply(old(Snapshot()), m)
    {
      hide ApplyLink, ApplyAddress, ApplyRoute;
      match m {
        case LinkMessage(f) => result := ApplyLinkFact(f);
        case AddressMessage(f) => result := ApplyAddressFact(f);
        case RouteMessage(f) => result := ApplyRouteFact(f);
        case OtherMessage => result := Invalid;
      }
    }
  }

  /** `less` is the order of printed route identities. */
  class NetlinkCollector {
    const less: IdentityOrder
    const state: TopologyState
    var selected: Selection

    /** The selected uplink is the one of the current facts, taken without the degraded mark. */
    ghost predicate Consistent()
      reads this, state
    {
      && StrictTotal(less) && TopologyOk(state.Snapshot())
      && (state.generation > 0 ==> Selects(state.Snapshot().(degraded := false), less, selected))
    }

    constructor (netns: NetnsId, less: IdentityOrder)
      requires StrictTotal(less)
      ensures state.Snapshot() == EmptyTopology(netns) && this.less == less && fresh(state)
      ensures Consistent()
    {
      this.less := less;
      state := new TopologyState(EmptyTopology(netns));
      selected := Selection(None, false, false, Unavailable, None);
      new;
      EmptyOk(netns);
    }

    method Commit(t: Topology)
      requires StrictTotal(less) && TopologyOk(t) && t.netns == state.netns && !t.degraded
      modifies this, state
      ensures state.Snapshot() == t
      ensures Consistent()
    {
      hide StrictTotal, TopologyOk, Selects;
      state.Replace(t);
      selected := Select(t, less);
      assert t.(degraded := false) == t;
    }

    /** The whole batch takes effect, or none of it does. */
    method ProcessBatch(messages: seq<Message>) returns (ok: bool)
      requires Consistent()
      modifies this, state
      ensures (state.Snapshot(), ok) == Batch(old(state.Snapshot()), messages)
      ensures Consistent()
    {
      hide StrictTotal, TopologyOk, Selects, Apply, ApplyAll;
      for i := 0 to |messages|
        invariant forall j :: 0 <= j < i ==> messages[j] != OtherMessage
      {
        if messages[i] == OtherMessage { return false; }
      }
      var before := state.Snapshot();
      var candidate := new TopologyState(before);
      var changed := false;
      NothingApplied(before);
      for i := 0 to |messages|
        invariant fresh(candidate) && state.Snapshot() == before && unchanged(this) && unchanged(state)
        invariant ApplyAll(before, messages[..i]) == Folded(candidate.Snapshot(), changed)
      {
        OneMoreApplied(before, messages[..i], messages[i]);
        assert messages[..i + 1] == messages[..i] + [messages[i]];
        var result := candidate.ApplyChecked(messages[i]);
        if result == Invalid || result == AmbiguousDelete {
          FailureIsFinal(before, messages, i + 1);
          return false;
        }
        changed := changed || result == Changed;
      }
      assert messages[..|messages|] == messages;
      if changed {
        var after := candidate.Snapshot().(degraded := false, generation := before.generation + 1);
        ApplyAllKeepsOk(before, messages);
        FlagsDoNotMatter(candidate.Snapshot(), after);
        Commit(after);
      }
      ok := true;
    }

    method MarkDegraded()
      requires Consistent()
      modifies state
      ensures state.Snapshot() == Marked(old(state.Snapshot()))
      ensures Consistent()
    {
      hide StrictTotal, TopologyOk, Selects;
      FlagsDoNotMatter(state.Snapshot(), Marked(state.Snapshot()));
      if state.authoritative { state.degraded := true; }
      assert state.Snapshot().(degraded := false) == old(state.Snapshot()).(degraded := false);
    }

    /** A dump replaces the topology only if it was complete, undisturbed and free of errors. */
    method ReconcileDump(items: seq<DumpItem>) returns (ok: bool)
      requires Consistent()
      modifies this, state
      ensures (state.Snapshot(), ok) == Reconciled(old(state.Snapshot()), items)
      ensures Consistent()
    {
      hide StrictTotal, TopologyOk, Selects, Apply, ReadDump;
      var candidate := new TopologyState(EmptyTopology(state.netns));
      var (complete, raced) := (false, false);
      NothingRead(state.netns);
      for i := 0 to |items|
        invariant fresh(candidate) && unchanged(this) && unchanged(state)
        invariant ReadDump(state.netns, items[..i]) == DumpState(candidate.Snapshot(), complete, raced)
      {
        ReadOneMore(state.netns, items[..i], items[i]);
        assert items[..i + 1] == items[..i] + [items[i]];
        match items[i] {
          case Racing => raced := true;
          case DumpDone(interrupted) =>
            if interrupted {
              ReadFailureIsFinal(state.netns, items, i + 1);
              return false;
            }
            complete := true;
          case Dumped(m) =>
            var result := candidate.ApplyChecked(m);
            if result != Changed && result != NoChange {
              ReadFailureIsFinal(state.netns, items, i + 1);
              return false;
            }
        }
      }
      assert items[..|items|] == items;
      if !complete { return false; }
      if raced {
        MarkDegraded();
        return false;
      }
      var after := Committed(state.Snapshot(), candidate.Snapshot());
      ReadDumpKeepsOk(state.netns, items);
      FlagsDoNotMatter(candidate.Snapshot(), after);
      Commit(after);
      ok := true;
    }
  }

  lemma {:induction false} FailureIsFinal(t: Topology, messages: seq<Message>, i: nat)
    requires i <= |messages| && ApplyAll(t, messages[..i]).FoldFailed?
    ensures ApplyAll(t, messages).FoldFailed?
  {
    if i == |messages| {
      assert messages[..i] == messages;
    } else {
      assert messages[..|messages| - 1][..i] == messages[..i];
      FailureIsFinal(t, messages[..|messages| - 1], i);
    }
  }

  lemma NothingRead(netns: NetnsId)
    ensures ReadDump(netns, []) == DumpState(EmptyTopology(netns), false, false)
  {
  }

  lemma ReadOneMore(netns: NetnsId, items: seq<DumpItem>, last: DumpItem)
    ensures var before := ReadDump(netns, items);
            before.DumpState? ==>
              ReadDump(netns, items + [last]) ==
              match last
              case Racing => before.(raced := true)
              case DumpDone(interrupted) => if interrupted then DumpFailed else before.(complete := true)
              case Dumped(m) =>
                var (u, result) := Apply(before.candidate, m);
                if Failure(result) then DumpFailed else before.(candidate := u)
  {
    hide Apply;
    assert (items + [last])[..|items + [last]| - 1] == items;
  }

  lemma {:induction false} ReadFailureIsFinal(netns: NetnsId, items: seq<DumpItem>, i: nat)
    requires i <= |items| && ReadDump(netns, items[..i]).DumpFailed?
    ensures ReadDump(netns, items).DumpFailed?
  {
    if i == |items| {
      assert items[..i] == items;
    } else {
      assert items[..|items| - 1][..i] == items[..i];
      ReadFailureIsFinal(netns, items[..|items| - 1], i);
    }
  }

  /** After an empty dump and a mark, the selection made at the dump is no longer what the marked topology calls for. */
  lemma SelectionOutlivesMark(netns: NetnsId, less: IdentityOrder)
    ensures var t := Run(EmptyTopology(netns), [Resync([DumpDone(false)]), Mark]);
            var r := Selection(None, false, false, Unavailable, None);
            t.degraded && Selects(t.(degraded := false), less, r) && !Selects(t, less, r)
  {
    var t0 := EmptyTopology(netns);
    var s1 := Resync([DumpDone(false)]);
    assert [s1, Mark][..1] == [s1] && [s1][..0] == [] && [DumpDone(false)][..0] == [];
    NothingRead(netns);
    assert ReadDump(netns, [DumpDone(false)]) == DumpState(t0, true, false);
    var t1 := Committed(t0, t0);
    assert Run(t0, []) == t0 && Run(t0, [s1]) == t1 && Run(t0, [s1, Mark]) == t1.(degraded := true);
    var t := t1.(degraded := true);
    assert forall c :: !IsCandidate(t, c) && !IsCandidate(t1, c);
    hide IsCandidate;
    assert t.(degraded := false) == t1;
    DegradedMattersIff(t, less, Selection(None, false, false, Unavailable, None));
  }
}
