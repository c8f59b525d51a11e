/**
 * Routing and dispatch of spot interruption warnings
 * (parsl_ephemeral_provider/compute/spot_interruption.py). The monitor runs in its own thread;
 * modes register and deregister instances and fleets at any moment in between.
 */
module InterruptionMonitor {
  import opened Collections

  type InstanceId = string
  type FleetId = string
  type Handler = nat

  /**
   * An entry of the event queue. `message` identifies the received SQS message of the advance
   * track; the post-facto EC2 poll queues entries without one.
   */
  datatype Event =
    | InstanceEvent(message: Option<nat>, instance: InstanceId)
    | FleetEvent(message: Option<nat>, fleet: FleetId, instances: seq<InstanceId>)

  datatype Call = Call(handler: Handler, event: Event)

  /** `fleetOrder` is the insertion order of the fleet dictionary, in which fleets are tried. */
  datatype Registry = Registry(
    instances: map<InstanceId, Handler>, fleetOrder: seq<FleetId>, fleets: map<FleetId, Handler>)

  function PutFleet(r: Registry, f: FleetId, h: Handler): Registry {
    r.(fleetOrder := if f in r.fleets then r.fleetOrder else r.fleetOrder + [f], fleets := r.fleets[f := h])
  }

  function DropFleet(r: Registry, f: FleetId): Registry {
    r.(fleetOrder := Without(r.fleetOrder, {f}), fleets := r.fleets - {f})
  }

  /** Which instances EC2 lists for a fleet; an API error lists none. */
  type Membership = FleetId -> set<InstanceId>

  function FirstOwner(members: Membership, fleets: seq<FleetId>, i: InstanceId): (r: Option<FleetId>)
    ensures r.Some? ==> r.value in fleets && i in members(r.value)
    ensures r.None? ==> forall f :: f in fleets ==> i !in members(f)
  {
    if fleets == [] then None
    else if i in members(fleets[0]) then Some(fleets[0])
    else FirstOwner(members, fleets[1..], i)
  }

  /** Where one warning goes when nobody interferes: its own entry, its fleet's entry, or nowhere. */
  function Routed(r: Registry, members: Membership, m: nat, i: InstanceId): seq<Event> {
    if i in r.instances then [InstanceEvent(Some(m), i)]
    else match FirstOwner(members, r.fleetOrder, i)
         case Some(f) => [FleetEvent(Some(m), f, [i])]
         case None => []
  }

  function HandlerOf(r: Registry, e: Event): Option<Handler> {
    match e
    case InstanceEvent(_, i) => if i in r.instances then Some(r.instances[i]) else None
    case FleetEvent(_, f, _) => if f in r.fleets then Some(r.fleets[f]) else None
  }

  /** The calls a queue leads to when the registry stays put. */
  function CallsFor(r: Registry, queue: seq<Event>): seq<Call> {
    if queue == [] then []
    else (var h := HandlerOf(r, queue[0]); if h.Some? then [Call(h.value, queue[0])] else []) + CallsFor(r, queue[1..])
  }

  /** The instance or the fleet an event is for has a handler. */
  ghost predicate Registered(r: Registry, e: Event) {
    match e
    case InstanceEvent(_, i) => i in r.instances
    case FleetEvent(_, f, _) => f in r.fleets
  }

  /** `h` is the handler registered for the instance or the fleet of `e`, or none when there is none. */
  ghost predicate Owns(r: Registry, e: Event, h: Option<Handler>) {
    match e
    case InstanceEvent(_, i) => if i in r.instances then h == Some(r.instances[i]) else h.None?
    case FleetEvent(_, f, _) => if f in r.fleets then h == Some(r.fleets[f]) else h.None?
  }

  /** The k-th call is for the entry at position `at[k]`, with the handler registered for it. */
  ghost predicate MadeAt(r: Registry, queue: seq<Event>, made: seq<Call>, at: seq<nat>) {
    && |made| == |at|
    && (forall k :: 0 <= k < |at| ==>
         at[k] < |queue| && made[k].event == queue[at[k]] && Owns(r, queue[at[k]], Some(made[k].handler)))
  }

  /** From position `from` on, `at` holds those whose instance or fleet is registered. */
  ghost predicate OfRegistered(r: Registry, queue: seq<Event>, at: seq<nat>, from: nat) {
    && (forall n: nat :: n in at ==> from <= n < |queue|)
    && (forall n: nat :: from <= n < |queue| ==> (n in at <==> Registered(r, queue[n])))
  }

  /**
   * The calls of one drain: in queue order, those at the positions `at`, which are all whose instance
   * or fleet is registered, each with the handler registered for it.
   */
  ghost predicate Drained(r: Registry, queue: seq<Event>, made: seq<Call>, at: seq<nat>) {
    MadeAt(r, queue, made, at) && Increasing(at) && OfRegistered(r, queue, at, 0)
  }

  lemma {:induction false} CallsAreDrained(r: Registry, queue: seq<Event>) returns (at: seq<nat>)
    ensures Drained(r, queue, CallsFor(r, queue), at)
  {
    if queue == [] {
      at := [];
    } else {
      var rest := CallsAreDrained(r, queue[1..]);
      var later := Shifted(rest);
      var h := HandlerOf(r, queue[0]);
      DrainsBehind(r, queue, CallsFor(r, queue[1..]), rest, later);
      if h.Some? {
        at := [0] + later;
        DrainsFirst(r, queue, Call(h.value, queue[0]), CallsFor(r, queue[1..]), later);
      } else {
        at := later;
        assert [] + CallsFor(r, queue[1..]) == CallsFor(r, queue[1..]);
      }
    }
  }

  lemma Shifted(rest: seq<nat>) returns (later: seq<nat>)
    ensures |later| == |rest| && forall k :: 0 <= k < |rest| ==> later[k] == rest[k] + 1
    ensures forall n: nat :: n in later <==> n > 0 && n - 1 in rest
  {
    later := seq(|rest|, k requires 0 <= k < |rest| => rest[k] + 1);
    forall n: nat | n > 0 && n - 1 in rest
      ensures n in later
    {
      var k :| 0 <= k < |rest| && rest[k] == n - 1;
      assert later[k] == n;
    }
  }

  /** The calls for everything behind the front of the queue. */
  lemma DrainsBehind(r: Registry, queue: seq<Event>, made: seq<Call>, rest: seq<nat>, later: seq<nat>)
    requires queue != [] && Drained(r, queue[1..], made, rest)
    requires |later| == |rest| && forall k :: 0 <= k < |rest| ==> later[k] == rest[k] + 1
    requires forall n: nat :: n in later <==> n > 0 && n - 1 in rest
    ensures MadeAt(r, queue, made, later) && Increasing(later) && OfRegistered(r, queue, later, 1)
  {
    forall n: nat | 1 <= n < |queue|
      ensures n in later <==> Registered(r, queue[n])
    {
      assert queue[n] == queue[1..][n - 1];
    }
  }

  lemma IncreasingFromZero(later: seq<nat>)
    requires Increasing(later) && forall n: nat :: n in later ==> 1 <= n
    ensures Increasing([0] + later)
  {
    forall k, l | 0 <= k < l < |[0] + later|
      ensures ([0] + later)[k] < ([0] + later)[l]
    {
      assert ([0] + later)[l] == later[l - 1] && later[l - 1] in later;
      if k > 0 {
        assert ([0] + later)[k] == later[k - 1];
      }
    }
  }

  lemma MadeFirst(r: Registry, queue: seq<Event>, first: Call, made: seq<Call>, later: seq<nat>)
    requires queue != [] && MadeAt(r, queue, made, later)
    requires first.event == queue[0] && Owns(r, queue[0], Some(first.handler))
    ensures MadeAt(r, queue, [first] + made, [0] + later)
  {
  }

  lemma DrainsFirst(r: Registry, queue: seq<Event>, first: Call, made: seq<Call>, later: seq<nat>)
    requires queue != [] && MadeAt(r, queue, made, later) && Increasing(later) && OfRegistered(r, queue, later, 1)
    requires first.event == queue[0] && Owns(r, queue[0], Some(first.handler))
    ensures Drained(r, queue, [first] + made, [0] + later)
  {
    MadeFirst(r, queue, first, made, later);
    IncreasingFromZero(later);
    assert forall n: nat :: n in [0] + later <==> n == 0 || n in later;
  }

  /** A received message; a body that does not parse or names no instance carries None. */
  datatype Message = Message(id: nat, body: Option<InstanceId>)

  function RoutedAll(r: Registry, members: Membership, messages: seq<Message>): seq<Event> {
    if messages == [] then []
    else (if messages[0].body.Some? then Routed(r, members, messages[0].id, messages[0].body.value) else [])
         + RoutedAll(r, members, messages[1..])
  }

  /** The entry a warning about `i` gets: its own, or that of the first registered fleet that lists it. */
  ghost predicate EntryFor(r: Registry, members: Membership, m: nat, i: InstanceId, e: Event) {
    if i in r.instances then e == InstanceEvent(Some(m), i)
    else exists k: nat :: k < |r.fleetOrder| && i in members(r.fleetOrder[k])
           && (forall l :: 0 <= l < k ==> i !in members(r.fleetOrder[l]))
           && e == FleetEvent(Some(m), r.fleetOrder[k], [i])
  }

  ghost predicate Routable(r: Registry, members: Membership, message: Message) {
    message.body.Some? && (message.body.value in r.instances
                           || exists f :: f in r.fleetOrder && message.body.value in members(f))
  }

  /** The entries of the first `n` messages: one for each, at the positions `at`,
    that names an instance someone owns. */
  ghost predicate Entries(r: Registry, members: Membership, messages: seq<Message>, queued: seq<Event>, at: seq<nat>,
          n: nat)
    requires n <= |messages|
  {
    && |queued| == |at| && Increasing(at)
    && (forall k :: 0 <= k < |at| ==>
         && at[k] < n && messages[at[k]].body.Some?
         && EntryFor(r, members, messages[at[k]].id, messages[at[k]].body.value, queued[k]))
    && (forall k: nat :: k < n ==> (k in at <==> Routable(r, members, messages[k])))
  }

  lemma {:induction false} FirstOwnerAt(members: Membership, fleets: seq<FleetId>, i: InstanceId) returns (k: nat)
    requires FirstOwner(members, fleets, i).Some?
    ensures k < |fleets| && FirstOwner(members, fleets, i) == Some(fleets[k]) && i in members(fleets[k])
    ensures forall l :: 0 <= l < k ==> i !in members(fleets[l])
  {
    if i in members(fleets[0]) {
      k := 0;
    } else {
      var later := FirstOwnerAt(members, fleets[1..], i);
      k := later + 1;
    }
  }

  function RoutedOne(r: Registry, members: Membership, message: Message): seq<Event> {
    if message.body.Some? then Routed(r, members, message.id, message.body.value) else []
  }

  lemma RoutedIsEntry(r: Registry, members: Membership, message: Message)
    ensures Routable(r, members, message) ==>
              var routed := RoutedOne(r, members, message);
              |routed| == 1 && EntryFor(r, members, message.id, message.body.value, routed[0])
    ensures !Routable(r, members, message) ==> RoutedOne(r, members, message) == []
  {
    if message.body.Some? && message.body.value !in r.instances
       && FirstOwner(members, r.fleetOrder, message.body.value).Some? {
      var k := FirstOwnerAt(members, r.fleetOrder, message.body.value);
      assert r.fleetOrder[k] in r.fleetOrder;
    }
  }

  lemma EntriesMore(r: Registry, members: Membership, messages: seq<Message>, queued: seq<Event>, at: seq<nat>, n: nat,
          e: Event)
    requires n < |messages| && Entries(r, members, messages, queued, at, n)
    ensures !Routable(r, members, messages[n]) ==> Entries(r, members, messages, queued, at, n + 1)
    ensures Routable(r, members, messages[n]) && EntryFor(r, members, messages[n].id, messages[n].body.value, e) ==>
              Entries(r, members, messages, queued + [e], at + [n], n + 1)
  {
    IncreasingSnoc(at, n);
    assert forall k: nat :: k in at + [n] <==> k in at || k == n;
    assert n !in at;
  }

  lemma {:induction false} RoutedAllSnoc(r: Registry, members: Membership, a: seq<Message>, message: Message)
    ensures RoutedAll(r, members, a + [message]) == RoutedAll(r, members, a) + RoutedOne(r, members, message)
  {
    if a == [] {
      assert [message][1..] == [];
    } else {
      assert (a + [message])[1..] == a[1..] + [message];
      RoutedAllSnoc(r, members, a[1..], message);
    }
  }

  lemma EntryNext(r: Registry, members: Membership, messages: seq<Message>, earlier: seq<nat>, n: nat)
      returns (at: seq<nat>)
    requires n < |messages| && Entries(r, members, messages, RoutedAll(r, members, messages[..n]), earlier, n)
    ensures Entries(r, members, messages, RoutedAll(r, members, messages[..n + 1]), at, n + 1)
  {
    var queued, routed := RoutedAll(r, members, messages[..n]), RoutedOne(r, members, messages[n]);
    assert messages[..n + 1] == messages[..n] + [messages[n]];
    RoutedAllSnoc(r, members, messages[..n], messages[n]);
    RoutedIsEntry(r, members, messages[n]);
    if Routable(r, members, messages[n]) {
      at := earlier + [n];
      EntriesMore(r, members, messages, queued, earlier, n, routed[0]);
      assert queued + [routed[0]] == queued + routed;
    } else {
      at := earlier;
      EntriesMore(r, members, messages, queued, earlier, n, InstanceEvent(None, ""));
      assert queued + [] == queued;
    }
  }

  lemma {:induction false} RoutedAreEntries(r: Registry, members: Membership, messages: seq<Message>, n: nat)
      returns (at: seq<nat>)
    requires n <= |messages|
    ensures Entries(r, members, messages, RoutedAll(r, members, messages[..n]), at, n)
  {
    if n == 0 {
      at := [];
    } else {
      var earlier := RoutedAreEntries(r, members, messages, n - 1);
      at := EntryNext(r, members, messages, earlier, n - 1);
    }
  }

  lemma AllRoutedAreEntries(r: Registry, members: Membership, messages: seq<Message>) returns (at: seq<nat>)
    ensures Entries(r, members, messages, RoutedAll(r, members, messages), at, |messages|)
  {
    at := RoutedAreEntries(r, members, messages, |messages|);
    assert messages[..|messages|] == messages;
  }

  class SpotInterruptionMonitor {
    var instanceHandlers: map<InstanceId, Handler>
    var fleetOrder: seq<FleetId>
    var fleetHandlers: map<FleetId, Handler>
    var eventQueue: seq<Event>
    var calls: seq<Call>

    ghost function Handlers(): Registry
      reads this
    {
      Registry(instanceHandlers, fleetOrder, fleetHandlers)
    }

    constructor ()
      ensures Handlers() == Registry(map[], [], map[]) && eventQueue == [] && calls == []
    {
      instanceHandlers, fleetOrder, fleetHandlers, eventQueue, calls := map[], [], map[], [], [];
    }

    method RegisterInstance(i: InstanceId, h: Handler)
      modifies this`instanceHandlers
      ensures instanceHandlers == old(instanceHandlers)[i := h]
    {
      instanceHandlers := instanceHandlers[i := h];
    }

    method RegisterFleet(f: FleetId, h: Handler)
      modifies this`fleetOrder, this`fleetHandlers
      ensures Handlers() == PutFleet(old(Handlers()), f, h)
      ensures fleetHandlers == old(fleetHandlers)[f := h]
      ensures fleetOrder == if f in old(fleetHandlers) then old(fleetOrder) else old(fleetOrder) + [f]
    {
      if f !in fleetHandlers {
        fleetOrder := fleetOrder + [f];
      }
      fleetHandlers := fleetHandlers[f := h];
    }

    method DeregisterInstance(i: InstanceId)
      modifies this`instanceHandlers
      ensures instanceHandlers == old(instanceHandlers) - {i}
    {
      if i in instanceHandlers {
        instanceHandlers := instanceHandlers - {i};
      }
      assert i !in old(instanceHandlers) ==> old(instanceHandlers) - {i} == old(instanceHandlers);
    }

    method DeregisterFleet(f: FleetId)
      requires forall g :: g in fleetOrder ==> g in fleetHandlers
      modifies this`fleetOrder, this`fleetHandlers
      ensures Handlers() == DropFleet(old(Handlers()), f)
      ensures fleetHandlers == old(fleetHandlers) - {f} && fleetOrder == Without(old(fleetOrder), {f})
    {
      if f in fleetHandlers {
        fleetHandlers := fleetHandlers - {f};
        fleetOrder := Without(fleetOrder, {f});
      } else {
        WithoutAbsent(fleetOrder, f);
        assert fleetHandlers - {f} == fleetHandlers;
      }
    }

    /** `_queue_warning`: the instance itself, else the first registered fleet that lists it. */
    method QueueWarning(m: nat, i: InstanceId, members: Membership)
      modifies this`eventQueue
      ensures eventQueue == old(eventQueue) + Routed(Handlers(), members, m, i)
    {
      if i in instanceHandlers {
        eventQueue := eventQueue + [InstanceEvent(Some(m), i)];
        return;
      }
      var fleetIds := fleetOrder;
      for k := 0 to |fleetIds|
        invariant eventQueue == old(eventQueue)
        invariant FirstOwner(members, fleetIds, i) == FirstOwner(members, fleetIds[k..], i)
      {
        if i in members(fleetIds[k]) {
          eventQueue := eventQueue + [FleetEvent(Some(m), fleetIds[k], [i])];
          return;
        }
      }
      assert eventQueue + [] == eventQueue;
    }

    /** `_poll_warning_queue`: every message is deleted first, usable or not, then routed. */
    method PollWarningQueue(messages: seq<Message>, members: Membership) returns (ghost at: seq<nat>)
      modifies this`eventQueue
      ensures old(eventQueue) <= eventQueue
      ensures Entries(Handlers(), members, messages, eventQueue[|old(eventQueue)|..], at, |messages|)
      ensures eventQueue == old(eventQueue) + RoutedAll(Handlers(), members, messages)
    {
      RouteMessages(messages, members);
      at := AllRoutedAreEntries(Handlers(), members, messages);
    }

    method RouteMessages(messages: seq<Message>, members: Membership)
      modifies this`eventQueue
      ensures eventQueue == old(eventQueue) + RoutedAll(Handlers(), members, messages)
    {
      for k := 0 to |messages|
        invariant eventQueue + RoutedAll(Handlers(), members, messages[k..]) ==
                    old(eventQueue) + RoutedAll(Handlers(), members, messages)
      {
        if messages[k].body.Some? {
          QueueWarning(messages[k].id, messages[k].body.value, members);
        }
      }
      assert messages[|messages|..] == [];
    }

    /** `_process_interruption_events`: drains the queue in order; a raising handler was called. */
    method ProcessInterruptionEvents() returns (ghost at: seq<nat>)
      modifies this`eventQueue, this`calls
      ensures eventQueue == [] && old(calls) <= calls
      ensures Drained(Handlers(), old(eventQueue), calls[|old(calls)|..], at)
      ensures calls == old(calls) + CallsFor(Handlers(), old(eventQueue))
    {
      at := CallsAreDrained(Handlers(), eventQueue);
      while eventQueue != []
        invariant calls + CallsFor(Handlers(), eventQueue) == old(calls) + CallsFor(Handlers(), old(eventQueue))
        decreases |eventQueue|
      {
        var event := eventQueue[0];
        eventQueue := eventQueue[1..];
        match event {
          case InstanceEvent(_, i) =>
            if i in instanceHandlers {
              calls := calls + [Call(instanceHandlers[i], event)];
            }
          case FleetEvent(_, f, _) =>
            if f in fleetHandlers {
              calls := calls + [Call(fleetHandlers[f], event)];
            }
        }
      }
      assert calls == old(calls) + CallsFor(Handlers(), old(eventQueue));
    }
  }

  // ---------------------------------------------------------------- interleavings

  /** Where the monitor thread is: between steps, trying fleets for a warning, or holding an event. */
  datatype Pc = Idle | Trying(message: nat, warned: InstanceId, fleetIds: seq<FleetId>) | Holding(event: Event)

  /** One dequeued event and the handler it found, if any. */
  datatype Processed = Processed(event: Event, handler: Option<Handler>)

  /** `routed` and `done` record, in order, everything ever queued and everything ever dequeued. */
  datatype State = State(
    reg: Registry, queue: seq<Event>, pc: Pc, seen: set<nat>, routed: seq<Event>, done: seq<Processed>)

  const START := State(Registry(map[], [], map[]), [], Idle, {}, [], [])

  datatype Step =
    | RegisterInstance(i: InstanceId, h: Handler)
    | RegisterFleet(f: FleetId, h: Handler)
    | DeregisterInstance(i: InstanceId)
    | DeregisterFleet(f: FleetId)
    | Receive(message: Message)
    | TryFleets(members: Membership)
    | PollFinds(event: Event)
    | Take
    | Dispatch

  ghost predicate Enabled(s: State, step: Step) {
    match step
    case Receive(message) => s.pc.Idle? && message.id !in s.seen
    case TryFleets(_) => s.pc.Trying?
    case PollFinds(e) => s.pc.Idle? && e.message.None?
    case Take => s.pc.Idle? && s.queue != []
    case Dispatch => s.pc.Holding?
    case _ => true
  }

  function Queue(s: State, e: Event): State {
    s.(queue := s.queue + [e], routed := s.routed + [e])
  }

  function Next(s: State, step: Step): State
    requires Enabled(s, step)
  {
    match step
    case RegisterInstance(i, h) => s.(reg := s.reg.(instances := s.reg.instances[i := h]))
    case RegisterFleet(f, h) => s.(reg := PutFleet(s.reg, f, h))
    case DeregisterInstance(i) => s.(reg := s.reg.(instances := s.reg.instances - {i}))
    case DeregisterFleet(f) => s.(reg := DropFleet(s.reg, f))
    case Receive(message) =>
      var t := s.(seen := s.seen + {message.id});
      if message.body.None? then t
      else if message.body.value in s.reg.instances then Queue(t, InstanceEvent(Some(message.id), message.body.value))
      else t.(pc := Trying(message.id, message.body.value, s.reg.fleetOrder))
    case TryFleets(members) =>
      var t := s.(pc := Idle);
      (match FirstOwner(members, s.pc.fleetIds, s.pc.warned)
       case Some(f) => Queue(t, FleetEvent(Some(s.pc.message), f, [s.pc.warned]))
       case None => t)
    case PollFinds(e) => Queue(s, e)
    case Take => s.(queue := s.queue[1..], pc := Holding(s.queue[0]))
    case Dispatch => s.(pc := Idle, done := s.done + [Processed(s.pc.event, HandlerOf(s.reg, s.pc.event))])
  }

  datatype Run = Run(states: seq<State>, steps: seq<Step>)

  ghost predicate IsRun(r: Run) {
    && |r.states| == |r.steps| + 1 && r.states[0] == START
    && forall k :: 0 <= k < |r.steps| ==>
         Enabled(r.states[k], r.steps[k]) && r.states[k + 1] == Next(r.states[k], r.steps[k])
  }

  function Events(done: seq<Processed>): seq<Event> {
    seq(|done|, k requires 0 <= k < |done| => done[k].event)
  }

  function Held(pc: Pc): seq<Event> {
    if pc.Holding? then [pc.event] else []
  }

  /** Nothing is lost, duplicated or overtaken between the queueing of an event and its dispatch. */
  ghost predicate Conserved(s: State) {
    Events(s.done) + Held(s.pc) + s.queue == s.routed
  }

  /** Each message is queued at most once, and only after it was received. */
  ghost predicate OncePerMessage(s: State) {
    && (forall a, b :: 0 <= a < b < |s.routed| && s.routed[a].message.Some? ==>
         s.routed[a].message != s.routed[b].message)
    && (forall a :: 0 <= a < |s.routed| && s.routed[a].message.Some? ==> s.routed[a].message.value in s.seen)
    && (s.pc.Trying? ==> s.pc.message in s.seen && forall a :: 0 <= a < |s.routed| ==>
         s.routed[a].message != Some(s.pc.message))
  }

  lemma QueueConserves(s: State, e: Event)
    requires Conserved(s)
    ensures Conserved(Queue(s, e))
  {
    assert Events(s.done) + Held(s.pc) + (s.queue + [e]) == (Events(s.done) + Held(s.pc) + s.queue) + [e];
  }

  lemma StepGrows(s: State, step: Step)
    requires Enabled(s, step)
    ensures s.routed <= Next(s, step).routed && s.done <= Next(s, step).done
  {
  }

  lemma StepKeepsMessagesApart(s: State, step: Step)
    requires OncePerMessage(s) && Enabled(s, step)
    ensures OncePerMessage(Next(s, step))
  {
  }

  lemma TakeConserves(s: State)
    requires Conserved(s) && s.pc.Idle? && s.queue != []
    ensures Conserved(Next(s, Take))
  {
    assert s.queue == [s.queue[0]] + s.queue[1..];
    Associates(Events(s.done), [s.queue[0]], s.queue[1..]);
  }

  lemma DispatchConserves(s: State)
    requires Conserved(s) && s.pc.Holding?
    ensures Conserved(Next(s, Dispatch))
  {
    assert Events(Next(s, Dispatch).done) == Events(s.done) + [s.pc.event];
  }

  lemma StepConserves(s: State, step: Step)
    requires Conserved(s) && Enabled(s, step)
    ensures Conserved(Next(s, step))
  {
    match step
    case Receive(message) =>
      if message.body.Some? {
        QueueConserves(s, InstanceEvent(Some(message.id), message.body.value));
      }
    case TryFleets(members) =>
      var owner := FirstOwner(members, s.pc.fleetIds, s.pc.warned);
      if owner.Some? {
        QueueConserves(s, FleetEvent(Some(s.pc.message), owner.value, [s.pc.warned]));
      }
    case PollFinds(e) => QueueConserves(s, e);
    case Take => TakeConserves(s);
    case Dispatch => DispatchConserves(s);
    case _ =>
  }

  lemma {:induction false} RunConserves(r: Run, k: nat)
    requires IsRun(r) && k < |r.states|
    ensures Conserved(r.states[k]) && OncePerMessage(r.states[k])
  {
    if k > 0 {
      RunConserves(r, k - 1);
      StepConserves(r.states[k - 1], r.steps[k - 1]);
      StepKeepsMessagesApart(r.states[k - 1], r.steps[k - 1]);
    }
  }

  lemma {:induction false} HistoryGrows(r: Run, i: nat, k: nat)
    requires IsRun(r) && i <= k < |r.states|
    ensures r.states[i].routed <= r.states[k].routed && r.states[i].done <= r.states[k].done
  {
    if i < k {
      HistoryGrows(r, i, k - 1);
      StepGrows(r.states[k - 1], r.steps[k - 1]);
    }
  }

  /**
   * Dispatch is first in, first out, and draining loses nothing: the events dequeued so far are a
   * prefix of the events queued, and once the queue is empty with none in hand they are all of them.
   */
  lemma DispatchIsFifo(r: Run, k: nat)
    requires IsRun(r) && k < |r.states|
    ensures var s := r.states[k];
            && Events(s.done) <= s.routed
            && (s.queue == [] && !s.pc.Holding? ==> Events(s.done) == s.routed)
  {
    RunConserves(r, k);
  }

  /** Each received message leads to at most one handler call, whatever registers in between. */
  lemma AtMostOneCall(r: Run, k: nat, a: nat, b: nat, m: nat)
    requires IsRun(r) && k < |r.states|
    requires a < |r.states[k].done| && b < |r.states[k].done|
    requires r.states[k].done[a].event.message == Some(m) == r.states[k].done[b].event.message
    ensures a == b
  {
    RunConserves(r, k);
    var s := r.states[k];
    assert Events(s.done)[a] == s.routed[a] && Events(s.done)[b] == s.routed[b];
  }

  /**
   * A message queued at step `i` and dispatched at step `p` is called exactly once, there and then,
   * with the handler registered for its instance or fleet at that moment, and never if there is none.
   */
  lemma ExactlyOneCallIfRegistered(r: Run, i: nat, p: nat, n: nat, m: nat)
    requires IsRun(r) && i < p < n < |r.states|
    requires r.states[i].routed < r.states[i + 1].routed &&
               r.states[i + 1].routed[|r.states[i].routed|].message == Some(m)
    requires r.steps[p].Dispatch? && r.states[p].pc.Holding? && r.states[p].pc.event.message == Some(m)
    ensures var e, d := r.states[i + 1].routed[|r.states[i].routed|], r.states[n].done;
            var x := |r.states[p].done|;
            && x < |d| && d[x].event == e && Owns(r.states[p].reg, e, d[x].handler)
            && (forall y :: 0 <= y < |d| && d[y].event.message == Some(m) ==> y == x)
  {
    HistoryGrows(r, p + 1, n);
    HistoryGrows(r, i + 1, n);
    HistoryGrows(r, p, n);
    RunConserves(r, p);
    RunConserves(r, n);
    var x, s := |r.states[p].done|, r.states[n];
    assert r.states[p + 1].done[x] == Processed(r.states[p].pc.event, HandlerOf(r.states[p].reg, r.states[p].pc.event));
    assert Events(s.done)[x] == s.routed[x];
    forall y: nat | y < |s.done| && s.done[y].event.message == Some(m)
      ensures y == x
    {
      AtMostOneCall(r, n, x, y, m);
    }
  }

  // ---------------------------------------------------------------- from receipt to dispatch

  /** The monitor takes one step, or something else does. */
  ghost predicate Moves(s: State, t: State) {
    t == s || exists step :: Enabled(s, step) && t == Next(s, step)
  }

  ghost predicate IsTrace(states: seq<State>) {
    && states != [] && states[0] == START
    && forall k :: 0 <= k < |states| - 1 ==> Moves(states[k], states[k + 1])
  }

  lemma RunIsTrace(r: Run)
    requires IsRun(r)
    ensures IsTrace(r.states)
  {
    forall k | 0 <= k < |r.states| - 1
      ensures Moves(r.states[k], r.states[k + 1])
    {
      assert Enabled(r.states[k], r.steps[k]);
    }
  }

  lemma MoveConserves(s: State, t: State)
    requires Conserved(s) && OncePerMessage(s) && Moves(s, t)
    ensures Conserved(t) && OncePerMessage(t)
  {
    if t != s {
      var step :| Enabled(s, step) && t == Next(s, step);
      StepConserves(s, step);
      StepKeepsMessagesApart(s, step);
    }
  }

  lemma {:induction false} TraceConserves(states: seq<State>, k: nat)
    requires IsTrace(states) && k < |states|
    ensures Conserved(states[k]) && OncePerMessage(states[k])
  {
    if k > 0 {
      TraceConserves(states, k - 1);
      MoveConserves(states[k - 1], states[k]);
    }
  }

  ghost predicate Extends(s: State, t: State) {
    s.routed <= t.routed && s.done <= t.done
  }

  lemma ExtendsFurther(s: State, t: State, u: State)
    requires Extends(s, t) && Extends(t, u)
    ensures Extends(s, u)
  {
  }

  lemma MoveExtends(s: State, t: State)
    requires Moves(s, t)
    ensures Extends(s, t)
  {
    if t != s {
      var step :| Enabled(s, step) && t == Next(s, step);
      StepGrows(s, step);
    }
  }

  lemma {:induction false} TraceGrows(states: seq<State>, i: nat, k: nat)
    requires IsTrace(states) && i <= k < |states|
    ensures Extends(states[i], states[k])
  {
    if i < k {
      TraceGrows(states, i, k - 1);
      MoveExtends(states[k - 1], states[k]);
      ExtendsFurther(states[i], states[k - 1], states[k]);
    }
  }

  /** What was received as `m` warns about `i`; if its fleets are still being tried, it is these. */
  ghost predicate Awaits(s: State, m: nat, i: InstanceId, fleetIds: seq<FleetId>) {
    m in s.seen && (s.pc.Trying? && s.pc.message == m ==> s.pc == Trying(m, i, fleetIds))
  }

  lemma MoveKeepsAwaits(s: State, t: State, m: nat, i: InstanceId, fleetIds: seq<FleetId>)
    requires Awaits(s, m, i, fleetIds) && Moves(s, t)
    ensures Awaits(t, m, i, fleetIds)
  {
  }

  /** A warning about `i` is received as message `m` at step `a`. */
  ghost predicate Receives(states: seq<State>, a: nat, m: nat, i: InstanceId) {
    && a + 1 < |states| && Enabled(states[a], Receive(Message(m, Some(i))))
    && states[a + 1] == Next(states[a], Receive(Message(m, Some(i))))
  }

  lemma {:induction false} AwaitedFrom(states: seq<State>, a: nat, k: nat, m: nat, i: InstanceId)
    requires IsTrace(states) && Receives(states, a, m, i) && a < k < |states|
    ensures Awaits(states[k], m, i, states[a].reg.fleetOrder)
  {
    if k > a + 1 {
      AwaitedFrom(states, a, k - 1, m, i);
      MoveKeepsAwaits(states[k - 1], states[k], m, i, states[a].reg.fleetOrder);
    }
  }

  /** It is routed at step `b`: at once, or when EC2 has answered which fleets its instance is in. */
  ghost predicate Routes(states: seq<State>, a: nat, b: nat, m: nat, i: InstanceId, members: Membership) {
    && Receives(states, a, m, i) && a <= b && b + 1 < |states|
    && (if i in states[a].reg.instances then b == a
        else a < b && states[b].pc.Trying? && states[b].pc.message == m
             && states[b + 1] == Next(states[b], TryFleets(members)))
  }

  /** The registry at receipt decides whether a warning is queued, and for whom, whatever happens meanwhile. */
  lemma RoutingIsByRegistration(states: seq<State>, a: nat, b: nat, m: nat, i: InstanceId, members: Membership)
    requires IsTrace(states) && Routes(states, a, b, m, i, members)
    ensures states[b + 1].routed == states[b].routed + Routed(states[a].reg, members, m, i)
  {
    if a < b {
      AwaitedFrom(states, a, b, m, i);
    }
    assert states[b].routed + [] == states[b].routed;
  }

  /** An entry of the history of dispatches was made where the history was that short. */
  lemma {:induction false} DispatchedWhere(states: seq<State>, n: nat, x: nat) returns (p: nat)
    requires IsTrace(states) && n < |states| && x < |states[n].done|
    ensures p < n && |states[p].done| == x && states[p].pc.Holding? && states[p + 1] == Next(states[p], Dispatch)
    ensures states[n].done[x].event == states[p].pc.event
    ensures Owns(states[p].reg, states[p].pc.event, states[n].done[x].handler)
  {
    assert n > 0;
    assert Moves(states[n - 1], states[n]);
    TraceGrows(states, n - 1, n);
    if x < |states[n - 1].done| {
      p := DispatchedWhere(states, n - 1, x);
    } else {
      p := n - 1;
    }
  }

  lemma OneEntry(s: State, x: nat, y: nat, m: nat)
    requires Conserved(s) && OncePerMessage(s) && x < |s.done| && y < |s.done|
    requires s.done[x].event.message == Some(m) == s.done[y].event.message
    ensures x == y
  {
    assert Events(s.done)[x] == s.routed[x] && Events(s.done)[y] == s.routed[y];
  }

  /** An event queued at step `b` is dispatched exactly once by the time the queue is drained. */
  lemma QueuedIsDispatchedOnce(states: seq<State>, b: nat, n: nat, e: Event, m: nat) returns (p: nat)
    requires IsTrace(states) && b < n < |states| && e.message == Some(m)
    requires states[b + 1].routed == states[b].routed + [e]
    requires states[n].queue == [] && !states[n].pc.Holding?
    ensures b < p < n && states[p].pc.Holding? && states[p].pc.event == e && states[p + 1] == Next(states[p], Dispatch)
    ensures var x, d := |states[p].done|, states[n].done;
            && x < |d| && d[x].event == e && Owns(states[p].reg, e, d[x].handler)
            && (forall y :: 0 <= y < |d| && d[y].event.message == Some(m) ==> y == x)
  {
    var x, s := |states[b].routed|, states[n];
    TraceGrows(states, b + 1, n);
    TraceConserves(states, n);
    assert Events(s.done) == s.routed && Events(s.done)[x] == e;
    p := DispatchedWhere(states, n, x);
    DispatchedAfter(states, b, p, e);
    forall y: nat | y < |s.done| && s.done[y].event.message == Some(m)
      ensures y == x
    {
      OneEntry(s, x, y, m);
    }
  }

  lemma DispatchedAfter(states: seq<State>, b: nat, p: nat, e: Event)
    requires IsTrace(states) && b < |states| && p < |states| && states[p].pc.Holding?
    requires |states[p].done| == |states[b].routed|
    ensures b < p
  {
    TraceConserves(states, p);
    assert |Events(states[p].done) + Held(states[p].pc) + states[p].queue| > |states[p].done|;
    if p <= b {
      TraceGrows(states, p, b);
    }
  }

  /**
   * From receipt to call. If the owner of instance `i` is registered when the warning about it is
   * received, it is queued for that owner; and once the queue is drained it has been dispatched
   * exactly once, to the handler the owner had at that moment, whatever registered meanwhile.
   */
  lemma RegisteredWarningIsCalledOnce(states: seq<State>, a: nat, b: nat, n: nat, m: nat, i: InstanceId,
          members: Membership) returns (p: nat)
    requires IsTrace(states) && Routes(states, a, b, m, i, members) && b < n < |states|
    requires i in states[a].reg.instances || FirstOwner(members, states[a].reg.fleetOrder, i).Some?
    requires states[n].queue == [] && !states[n].pc.Holding?
    ensures var routed := Routed(states[a].reg, members, m, i);
            |routed| == 1 && states[b + 1].routed == states[b].routed + routed
    ensures b < p < n
    ensures var e := Routed(states[a].reg, members, m, i)[0];
            var x, d := |states[p].done|, states[n].done;
            && states[p].pc.Holding? && states[p].pc.event == e
            && states[p + 1] == Next(states[p], Dispatch)
            && x < |d| && d[x].event == e && Owns(states[p].reg, e, d[x].handler)
            && (forall y :: 0 <= y < |d| && d[y].event.message == Some(m) ==> y == x)
  {
    RoutingIsByRegistration(states, a, b, m, i, members);
    p := QueuedIsDispatchedOnce(states, b, n, Routed(states[a].reg, members, m, i)[0], m);
  }
}
