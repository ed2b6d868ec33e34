/** The blocks the source runs under its mutexes, as methods that update the guarded fields in place. */
module EventBus {
  import opened Entities
  import opened BusModel
  import opened BusProofs

  /** What `queue_mutex` guards. The dispatcher's position is only needed to state the invariant. */
  class EventQueue {
    const capacity: nat
    var queue: seq<Event>
    var nextSequence: nat
    var counters: Counters
    var started: bool
    var stopping: bool
    var stopped: bool
    var joinClaimed: bool
    var joined: bool

    function State(): Core
      reads this
    {
      Core(capacity, queue, nextSequence, counters, started, stopping, stopped, joinClaimed, joined)
    }

    constructor (capacity: nat)
      requires capacity > 0
      ensures State() == Fresh(capacity) && CoreOk(State(), NotStarted)
    {
      this.capacity := capacity;
      queue, nextSequence := [], 1;
      counters := Counters(0, 0, 0, 0, 0, 0, seq(KINDS, _ => 0), seq(KINDS, _ => 0), seq(SOURCES, _ => 0));
      started, stopping, stopped, joinClaimed, joined := false, false, false, false, false;
      new;
      SumOfZeros(KINDS);
      SumOfZeros(SOURCES);
    }

    method Start() returns (ok: bool)
      modifies this`started
      ensures State() == if old(started) || stopped then old(State()) else old(State()).(started := true)
      ensures ok == (if old(started) then !stopping else !stopped)
    {
      if started && !stopping { return true; }
      if started || stopped { return false; }
      started := true;
      ok := true;
    }

    method Drop(e: Event)
      modifies this`counters
      ensures State() == Dropped(old(State()), e)
    {
      counters := counters.(drops := counters.drops + 1, droppedByKind := Bump(counters.droppedByKind, KindIndex(e.kind)));
    }

    /** Remove the first queued event with the same key, if there is one. */
    method EraseCoalescing(e: Event) returns (erased: bool)
      modifies this`queue, this`counters
      ensures var i := FirstCoalescing(old(queue), e);
              && erased == (i < |old(queue)|)
              && State() == if erased then Coalesced(old(State()), i) else old(State())
    {
      var i := 0;
      while i < |queue| && !Coalesces(queue[i], e)
        invariant i <= |queue|
        invariant forall j :: 0 <= j < i ==> !Coalesces(queue[j], e)
      {
        i := i + 1;
      }
      erased := i < |queue|;
      if erased {
        queue := queue[..i] + queue[i + 1..];
        counters := counters.(coalesces := counters.coalesces + 1);
      }
    }

    method Publish(e: Event, ghost d: Dispatcher) returns (r: PublishResult)
      requires CoreOk(State(), d)
      modifies this`queue, this`counters, this`nextSequence
      ensures (State(), r) == BusModel.Publish(old(State()), e)
      ensures CoreOk(State(), d)
    {
      PublishKeepsCore(State(), d, e);
      hide CoreOk, KindIndex, SourceIndex;
      if !started || stopping || stopped {
        Drop(e);
        return PublishResult(false, false, 0);
      }
      var coalesced := false;
      if |queue| == capacity {
        if Replaceable(e) { coalesced := EraseCoalescing(e); }
        if !coalesced {
          Drop(e);
          return PublishResult(false, false, 0);
        }
      }
      var sequence := nextSequence;
      nextSequence := nextSequence + 1;
      queue := queue + [e.(sequence := sequence)];
      counters := counters.(accepted := counters.accepted + 1,
        acceptedByKind := Bump(counters.acceptedByKind, KindIndex(e.kind)),
        acceptedBySource := Bump(counters.acceptedBySource, SourceIndex(e.source)),
        highWater := if counters.highWater < |queue| then |queue| else counters.highWater);
      r := PublishResult(true, coalesced, sequence);
    }

    /** The first part of `stop`, up to the point where the caller joins, waits or returns. */
    method SignalStop(caller: Thread) returns (next: Pc)
      modifies this`stopping, this`joinClaimed
      ensures forall b: Bus :: b.core == old(State()) && PcOf(b, caller) == Idle ==>
                Stopping(b, caller).core == State() && PcOf(Stopping(b, caller), caller) == next
    {
      if !started || joined { return Idle; }
      stopping := true;
      if caller == DISPATCHER { return Idle; }
      if joinClaimed { return AwaitingJoined; }
      joinClaimed := true;
      next := Joining;
    }

    /** The dispatcher's step from waiting to holding the oldest event, on every bus with this queue. */
    method PopFront() returns (e: Event)
      requires queue != []
      modifies this`queue
      ensures forall b: Bus :: b.core == old(State()) && b.disp == Waiting ==>
                Enabled(b, Pop) && NextBus(b, Pop) == b.(core := State(), disp := Popped(e))
      ensures CoreOk(old(State()), Waiting) ==> CoreOk(State(), Popped(e))
    {
      e := queue[0];
      queue := queue[1..];
    }
  }

  /** What a subscriber's own mutex guards. */
  class SubscriberRecord {
    const filter: Filter
    var active: bool
    var inFlight: nat
    var executing: Option<Thread>

    function State(): Subscriber
      reads this
    {
      Subscriber(filter, active, inFlight, executing)
    }

    constructor (filter: Filter)
      ensures State() == Subscriber(filter, true, 0, None)
    {
      this.filter := filter;
      active, inFlight, executing := true, 0, None;
    }

    /** Whether the dispatcher may call: its `BeginCall` or `SkipCall` step, on every bus about to call this subscriber. */
    method Enter() returns (run: bool)
      modifies this
      ensures forall b: Bus :: AtCall(b, Ready) && b.subs[Target(b)] == old(State()) ==>
                var step := if run then BeginCall else SkipCall;
                && Enabled(b, step) && NextBus(b, step).subs == b.subs[Target(b) := State()]
                && (CallRunning(NextBus(b, step), Target(b)) <==> run)
    {
      if !active {
        assert forall b: Bus :: AtCall(b, Ready) && b.subs[Target(b)] == State() ==> b.subs[Target(b) := State()] == b.subs;
        assert forall b: Bus :: AtCall(b, Ready) && Enabled(b, SkipCall) ==> NextBus(b, SkipCall).disp.phase == Ready;
        return false;
      }
      inFlight := inFlight + 1;
      executing := Some(DISPATCHER);
      run := true;
    }

    /** The end of a call: the dispatcher's `LeaveCall` step, after which no callback is running. */
    method Leave()
      requires inFlight > 0
      modifies this
      ensures forall b: Bus :: AtCall(b, Returned) && b.subs[Target(b)] == old(State()) ==>
                && Enabled(b, LeaveCall) && NextBus(b, LeaveCall).subs == b.subs[Target(b) := State()]
                && forall id :: !CallRunning(NextBus(b, LeaveCall), id)
    {
      inFlight := inFlight - 1;
      executing := None;
    }

    /** The `UnsubDeactivate` step of the calling thread, on every bus where it has found this subscriber. */
    method Deactivate(caller: Thread) returns (mustWait: bool)
      modifies this`active
      ensures forall b: Bus, id: nat ::
                PcOf(b, caller) == UnsubFound(id) && id in b.subs && b.subs[id] == old(State()) ==>
                && Enabled(b, UnsubDeactivate(caller)) && NextBus(b, UnsubDeactivate(caller)).subs == b.subs[id := State()]
                && PcOf(NextBus(b, UnsubDeactivate(caller)), caller) == if mustWait then UnsubWaiting(id) else Idle
    {
      active := false;
      mustWait := executing != Some(caller);
    }
  }

  /** The handle a caller owns; it can be moved but not copied. */
  class Subscription {
    var id: nat

    constructor (id: nat)
      ensures this.id == id
    {
      this.id := id;
    }

    /** Gives up the id before the bus is asked: the calling thread's `UnsubTake` step. No later call finds it here. */
    method TakeId() returns (taken: nat)
      modifies this
      ensures id == 0
      ensures forall b: Bus, t: Thread :: MayAct(b, t) && (old(id) == 0 || old(id) in b.handles) ==>
                && Enabled(b, UnsubTake(t, taken)) && PcOf(NextBus(b, UnsubTake(t, taken)), t) == UnsubCalling(old(id))
                && NextBus(b, UnsubTake(t, taken)).handles == b.handles - {old(id)}
    {
      taken := id;
      id := 0;
    }

    /** Moving takes the other handle's id away from it. */
    method MoveFrom(other: Subscription)
      requires other != this && id == 0
      modifies this, other
      ensures id == old(other.id) && other.id == 0
    {
      id := other.id;
      other.id := 0;
    }
  }
}
