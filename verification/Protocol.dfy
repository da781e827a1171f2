// The tracker as a state machine: tracked threads, the gatherer and the resolver, one atomic action at a time.
//
// A thread appends to a buffer it shares with the gatherer, under a lock. When the buffer is full it takes it,
// releases the lock and only then sends it over a bounded channel. The gatherer serves the channel and, in
// regular passes, locks one buffer after the other, drains the channel under each lock, and swaps the buffer
// out. New frames go to the resolver, whose answers come back over another bounded channel.
module Protocol {
  import opened Frames
  import opened TrackTypes
  import opened GlobalTree
  import opened Gathering
  import opened Writer

  // The least capacity of a buffer that has ever been pushed to, and the bound of both bounded channels.
  const CAPACITY: nat := 1024
  const CHANNEL_BOUND: nat := 64

  datatype Lock = Unlocked | OwnerHolds | GathererHolds

  datatype Buffer = Buffer(items: seq<Timed>, capacity: nat)

  // A tracked thread. `calls` and `pushed` are its history; `pending` is what the current call has still to
  // push; `hand` is a buffer that was taken and not yet sent.
  datatype Thread = Thread(registered: bool, dead: bool, calls: seq<Call>, log: Log, pending: seq<Instr>,
                           pushed: seq<Timed>, lock: Lock, shared: Buffer, hand: Option<seq<Timed>>)

  datatype Flush = Flush(thread: ThreadId, buffer: seq<Timed>)

  // Where the gatherer is. In a pass, i is the position in the list of registered threads.
  datatype Place =
    | Idle
    | FirstDrain
    | AtState(i: nat)
    | Draining(i: nat)
    | Drained(i: nat)
    | Shipping(i: nat, sawDead: bool)
    | Resolving
    | Done

  datatype Request = Resolve(info: StackInfo) | Shutdown

  datatype State = State(
    now: Time, tracking: bool, stopRequested: bool,
    threads: map<ThreadId, Thread>,
    registrations: seq<ThreadId>, channel: seq<Flush>,
    // gatherer
    place: Place, final: bool, passTime: Time, states: seq<ThreadId>, local: Buffer,
    g: Gathered, events: seq<Event>,
    // history: what each thread had in its hand when the channel was seen empty under its lock in this pass
    handoffs: map<ThreadId, seq<Timed>>,
    // history: how much each thread had pushed when its buffer was swapped out in this pass
    served: map<ThreadId, nat>,
    details: seq<StackInfo>, detailsCapacity: nat,
    // resolver
    queue: seq<Request>, working: Option<StackInfo>, resolved: seq<StackInfo>, resolverUp: bool)

  function HandOf(th: Thread): seq<Timed> {
    if th.hand.Some? then th.hand.value else []
  }

  const NEW_THREAD: Thread := Thread(false, false, [], [], [], [], Unlocked, Buffer([], 0), None)

  const INITIAL: State := State(0, true, false, map[], [], [], Idle, false, 0, [], Buffer([], 0), START, [],
                                map[], map[], [], 0, [], None, [], true)

  datatype Action =
    // time and the program
    | Advance(elapsed: Time) | Spawn(t: ThreadId) | Stop
    // tracked thread t
    | Begin(t: ThreadId, c: Call) | Push(t: ThreadId, capacity: nat) | Release(t: ThreadId) | Take(t: ThreadId)
    | Send(t: ThreadId) | Die(t: ThreadId)
    // gatherer, between passes
    | ReceiveData | ReceiveRegistration | ReceiveResolved(capacity: nat) | StartPass(final: bool, capacity: nat)
    // gatherer, in a pass
    | DrainOne | DrainEmpty | LockState | Swap | Ship | EndPass
    // gatherer, after the final pass
    | LastResolved(capacity: nat) | Finish
    // resolver
    | ResolverTake | ResolverSend | ResolverQuit

  // ---------------------------------------------------------------------------------------------
  // Growing a vector as Vec::reserve may: at least to the asked size, never below what it has.

  predicate Grown(length: nat, before: nat, after: nat) {
    if before < CAPACITY then after >= length + (CAPACITY - before) && after >= before else after == before
  }

  // ---------------------------------------------------------------------------------------------
  // When an action can happen

  predicate OwnerCan(s: State, a: Action) {
    match a
    case Begin(t, c) =>
      t in s.threads && var th := s.threads[t];
      s.tracking && th.registered && !th.dead && th.pending == [] && th.hand.None? && !th.lock.OwnerHolds?
    case Push(t, capacity) =>
      t in s.threads && var th := s.threads[t];
      && th.pending != [] && th.hand.None? && th.lock.Unlocked?
      && Grown(|th.shared.items|, th.shared.capacity, capacity)
    case Release(t) =>
      t in s.threads && var th := s.threads[t];
      th.lock.OwnerHolds? && |th.shared.items| != th.shared.capacity
    case Take(t) =>
      t in s.threads && var th := s.threads[t];
      th.lock.OwnerHolds? && |th.shared.items| == th.shared.capacity
    case Send(t) => t in s.threads && s.threads[t].hand.Some? && |s.channel| < CHANNEL_BOUND
    case Die(t) =>
      t in s.threads && var th := s.threads[t];
      th.registered && !th.dead && th.pending == [] && th.hand.None? && th.lock.Unlocked?
    case _ => false
  }

  predicate GathererCan(s: State, a: Action) {
    match a
    case ReceiveData => s.place.Idle? && s.channel != []
    case ReceiveRegistration => s.place.Idle? && s.registrations != [] && s.registrations[0] in s.threads
    case ReceiveResolved(capacity) =>
      s.place.Idle? && s.resolved != [] && Grown(|s.details|, s.detailsCapacity, capacity)
    case StartPass(final, capacity) => s.place.Idle? && (final ==> s.stopRequested) && capacity >= CAPACITY
    case DrainOne => (s.place.FirstDrain? || s.place.Draining?) && s.channel != []
    case DrainEmpty =>
      && s.channel == []
      && (s.place.FirstDrain?
          || (s.place.Draining? && s.place.i < |s.states| && s.states[s.place.i] in s.threads))
    case LockState =>
      && s.place.AtState? && s.place.i < |s.states| && s.states[s.place.i] in s.threads
      && s.threads[s.states[s.place.i]].lock.Unlocked?
    case Swap => s.place.Drained? && s.place.i < |s.states| && s.states[s.place.i] in s.threads
    case Ship => s.place.Shipping? && s.place.i < |s.states|
    case EndPass => s.place.AtState? && s.place.i >= |s.states|
    case LastResolved(capacity) =>
      s.place.Resolving? && s.resolved != [] && Grown(|s.details|, s.detailsCapacity, capacity)
    case Finish => s.place.Resolving? && s.resolved == [] && !s.resolverUp
    case _ => false
  }

  predicate ResolverCan(s: State, a: Action) {
    match a
    case ResolverTake => s.resolverUp && s.working.None? && s.queue != [] && s.queue[0].Resolve?
    case ResolverSend => s.resolverUp && s.working.Some? && |s.resolved| < CHANNEL_BOUND
    case ResolverQuit => s.resolverUp && s.working.None? && s.queue != [] && s.queue[0].Shutdown?
    case _ => false
  }

  predicate WorldCan(s: State, a: Action) {
    match a
    case Advance(_) => true
    case Spawn(t) => s.tracking && t !in s.threads
    case Stop => true
    case _ => false
  }

  predicate Can(s: State, a: Action) {
    WorldCan(s, a) || OwnerCan(s, a) || GathererCan(s, a) || ResolverCan(s, a)
  }

  // ---------------------------------------------------------------------------------------------
  // What an action does

  function Put(s: State, t: ThreadId, th: Thread): State {
    s.(threads := s.threads[t := th])
  }

  function OwnerStep(s: State, a: Action): State
    requires OwnerCan(s, a)
  {
    var th := s.threads[a.t];
    match a
    case Begin(t, c) =>
      var e := EncodeCall(th.log, c);
      Put(s, t, th.(calls := th.calls + [c], log := e.log, pending := e.instrs))
    case Push(t, capacity) =>
      var x := Timed(th.pending[0], s.now);
      Put(s, t, th.(pending := th.pending[1..], pushed := th.pushed + [x], lock := OwnerHolds,
                    shared := Buffer(th.shared.items + [x], capacity)))
    case Release(t) => Put(s, t, th.(lock := Unlocked))
    case Take(t) => Put(s, t, th.(lock := Unlocked, shared := Buffer([], 0), hand := Some(th.shared.items)))
    case Send(t) => Put(s, t, th.(hand := None)).(channel := s.channel + [Flush(t, th.hand.value)])
    case Die(t) => Put(s, t, th.(dead := true))
  }

  // The requests that go with the records retained in a buffer.
  function InfosOf(xs: seq<Timed>): seq<StackInfo> {
    if xs == [] then []
    else
      var x := xs[|xs| - 1];
      InfosOf(xs[..|xs| - 1]) + if x.instr.Stack? then [StackInfo(x.time, x.instr.index, x.instr.ip)] else []
  }

  lemma {:induction false} InfosOfAppend(a: seq<Timed>, b: seq<Timed>)
    ensures InfosOf(a + b) == InfosOf(a) + InfosOf(b)
  {
    if b == [] {
      assert a + b == a;
    } else {
      assert (a + b)[..|a + b| - 1] == a + b[..|b| - 1];
      InfosOfAppend(a, b[..|b| - 1]);
    }
  }

  function Requests(infos: seq<StackInfo>): seq<Request> {
    seq(|infos|, i requires 0 <= i < |infos| => Resolve(infos[i]))
  }

  // The gatherer handles an event: it writes to the wire and asks for the symbols of what it newly retained.
  function Handle(v: Variant, s: State, e: Event): State {
    var g := Process(v, s.g, e);
    var asked := if e.Delivered? && |g.wire| > |s.g.wire| && g.wire[|s.g.wire|].Instructions?
                 then InfosOf(g.wire[|s.g.wire|].buffer) else [];
    s.(g := g, events := s.events + [e], queue := s.queue + Requests(asked))
  }

  function HandleData(v: Variant, s: State): State
    requires s.channel != []
  {
    Handle(v, s, Delivered(s.channel[0].thread, s.channel[0].buffer)).(channel := s.channel[1..])
  }

  // Collect resolved frames; write them out when the vector is full.
  function HandleDetails(v: Variant, s: State, capacity: nat): State
    requires s.resolved != []
  {
    var details := s.details + [s.resolved[0]];
    var s' := s.(resolved := s.resolved[1..], details := details, detailsCapacity := capacity);
    if |details| == capacity then Handle(v, s', Detailed(details)).(details := [], detailsCapacity := 0) else s'
  }

  function ShipLocal(v: Variant, s: State): State
    requires s.place.Shipping? && s.place.i < |s.states|
  {
    var i, t := s.place.i, s.states[s.place.i];
    var s' := Handle(v, s, Delivered(t, s.local.items)).(local := s.local.(items := []));
    if s.place.sawDead then Handle(v, s', Removed(t)).(states := s.states[..i] + s.states[i + 1..], place := AtState(i))
    else s'.(place := AtState(i + 1))
  }

  function GathererStep(v: Variant, s: State, a: Action): State
    requires GathererCan(s, a)
  {
    match a
    case ReceiveData => HandleData(v, s)
    case ReceiveRegistration =>
      var t := s.registrations[0];
      Put(Handle(v, s, Registered(t)), t, s.threads[t].(registered := true))
        .(registrations := s.registrations[1..], states := s.states + [t])
    case ReceiveResolved(capacity) => HandleDetails(v, s, capacity)
    case StartPass(final, capacity) =>
      s.(place := FirstDrain, final := final, local := Buffer([], capacity), handoffs := map[], served := map[])
    case DrainOne => HandleData(v, s)
    case DrainEmpty =>
      if s.place.FirstDrain? then s.(place := AtState(0), passTime := s.now)
      else
        var t := s.states[s.place.i];
        s.(place := Drained(s.place.i), handoffs := s.handoffs[t := HandOf(s.threads[t])])
    case LockState =>
      var t := s.states[s.place.i];
      Put(s, t, s.threads[t].(lock := GathererHolds)).(place := Draining(s.place.i))
    case Swap =>
      var t := s.states[s.place.i];
      var th := s.threads[t];
      Put(s, t, th.(lock := Unlocked, shared := s.local))
        .(local := th.shared, place := Shipping(s.place.i, th.dead), served := s.served[t := |th.pushed|])
    case Ship => ShipLocal(v, s)
    case EndPass =>
      var s' := Handle(v, s, Ticked(s.passTime));
      if s.final then s'.(place := Resolving, queue := s'.queue + [Shutdown]) else s'.(place := Idle)
    case LastResolved(capacity) => HandleDetails(v, s, capacity)
    case Finish =>
      if s.details != [] then Handle(v, s, Detailed(s.details)).(details := [], detailsCapacity := 0, place := Done)
      else s.(place := Done)
  }

  function ResolverStep(s: State, a: Action): State
    requires ResolverCan(s, a)
  {
    match a
    case ResolverTake => s.(working := Some(s.queue[0].info), queue := s.queue[1..])
    case ResolverSend => s.(working := None, resolved := s.resolved + [s.working.value])
    case ResolverQuit => s.(resolverUp := false, queue := s.queue[1..])
  }

  function WorldStep(s: State, a: Action): State
    requires WorldCan(s, a)
  {
    match a
    case Advance(elapsed) => s.(now := s.now + elapsed)
    case Spawn(t) => Put(s, t, NEW_THREAD).(registrations := s.registrations + [t])
    case Stop => s.(tracking := false, stopRequested := true)
  }

  function Do(v: Variant, s: State, a: Action): State
    requires Can(s, a)
  {
    if WorldCan(s, a) then WorldStep(s, a)
    else if OwnerCan(s, a) then OwnerStep(s, a)
    else if GathererCan(s, a) then GathererStep(v, s, a)
    else ResolverStep(s, a)
  }

  // ---------------------------------------------------------------------------------------------
  // What a step of the gatherer changes, leaving open what it processes

  // s' differs from s in what processing writes, besides the changes already made in `changed`.
  ghost predicate Processed(changed: State, s': State) {
    s' == changed.(events := s'.events, g := s'.g, queue := s'.queue)
  }

  ghost predicate Moves(s: State, s': State, a: Action) {
    match a
    case ReceiveData => TakesMessage(s, s')
    case DrainOne => TakesMessage(s, s')
    case ReceiveRegistration =>
      && s.registrations != [] && s.registrations[0] in s.threads
      && var t := s.registrations[0];
         Processed(s.(threads := s.threads[t := s.threads[t].(registered := true)],
                      registrations := s.registrations[1..], states := s.states + [t]), s')
    case ReceiveResolved(_) => TakesAnswer(s, s')
    case LastResolved(_) => TakesAnswer(s, s')
    case StartPass(final, capacity) =>
      s' == s.(place := FirstDrain, final := final, local := Buffer([], capacity), handoffs := map[], served := map[])
    case DrainEmpty =>
      if s.place.FirstDrain? then s' == s.(place := AtState(0), passTime := s.now)
      else
        && s.place.Draining? && s.place.i < |s.states| && s.states[s.place.i] in s.threads
        && var t := s.states[s.place.i];
           s' == s.(place := Drained(s.place.i), handoffs := s.handoffs[t := HandOf(s.threads[t])])
    case LockState =>
      && s.place.AtState? && s.place.i < |s.states| && s.states[s.place.i] in s.threads
      && var t := s.states[s.place.i];
         s' == s.(threads := s.threads[t := s.threads[t].(lock := GathererHolds)], place := Draining(s.place.i))
    case Swap =>
      && s.place.Drained? && s.place.i < |s.states| && s.states[s.place.i] in s.threads
      && var t := s.states[s.place.i];
         var th := s.threads[t];
         s' == s.(threads := s.threads[t := th.(lock := Unlocked, shared := s.local)], local := th.shared,
                  place := Shipping(s.place.i, th.dead), served := s.served[t := |th.pushed|])
    case Ship =>
      && s.place.Shipping? && s.place.i < |s.states|
      && var i := s.place.i;
         Processed(s.(local := s.local.(items := []),
                      states := if s.place.sawDead then s.states[..i] + s.states[i + 1..] else s.states,
                      place := AtState(if s.place.sawDead then i else i + 1)), s')
    case EndPass => Processed(s.(place := if s.final then Resolving else Idle), s')
    case Finish => Processed(s.(place := Done, details := [], detailsCapacity := s'.detailsCapacity), s')
    case _ => false
  }

  ghost predicate TakesMessage(s: State, s': State) {
    s.channel != [] && Processed(s.(channel := s.channel[1..]), s')
  }

  ghost predicate TakesAnswer(s: State, s': State) {
    && s.resolved != []
    && Processed(s.(resolved := s.resolved[1..], details := s'.details, detailsCapacity := s'.detailsCapacity), s')
  }

  lemma GathererMoves(v: Variant, s: State, a: Action)
    requires GathererCan(s, a)
    ensures Moves(s, GathererStep(v, s, a), a)
  {
    hide Handle, HandleDetails, ShipLocal, Grown;
    match a
    case ReceiveData => HandleIsProcessed(v, s, Delivered(s.channel[0].thread, s.channel[0].buffer));
    case DrainOne => HandleIsProcessed(v, s, Delivered(s.channel[0].thread, s.channel[0].buffer));
    case ReceiveRegistration => RegistrationMoves(v, s);
    case ReceiveResolved(_) => HandleDetailsMoves(v, s, a);
    case LastResolved(_) => HandleDetailsMoves(v, s, a);
    case Ship => ShipMoves(v, s);
    case EndPass => HandleIsProcessed(v, s, Ticked(s.passTime));
    case Finish => HandleIsProcessed(v, s, Detailed(s.details));
    case StartPass(_, _) =>
    case DrainEmpty =>
    case LockState =>
    case Swap =>
  }

  lemma HandleIsProcessed(v: Variant, s: State, e: Event)
    ensures Processed(s, Handle(v, s, e)) && Handle(v, s, e).events == s.events + [e]
  {
  }

  lemma ShipMoves(v: Variant, s: State)
    requires GathererCan(s, Ship)
    ensures Moves(s, ShipLocal(v, s), Ship)
  {
  }

  lemma RegistrationMoves(v: Variant, s: State)
    requires GathererCan(s, ReceiveRegistration)
    ensures Moves(s, GathererStep(v, s, ReceiveRegistration), ReceiveRegistration)
  {
  }

  lemma HandleDetailsMoves(v: Variant, s: State, a: Action)
    requires GathererCan(s, a) && (a.ReceiveResolved? || a.LastResolved?)
    ensures Moves(s, HandleDetails(v, s, a.capacity), a)
  {
  }

  function DetailEvents(s: State, capacity: nat): seq<Event> {
    if s.resolved != [] && |s.details| + 1 == capacity then [Detailed(s.details + [s.resolved[0]])] else []
  }

  function ShipmentEvents(s: State): seq<Event> {
    if s.place.Shipping? && s.place.i < |s.states| then
      var t := s.states[s.place.i];
      [Delivered(t, s.local.items)] + if s.place.sawDead then [Removed(t)] else []
    else []
  }

  // The events a step of the gatherer adds to its history.
  function NewEvents(s: State, a: Action): seq<Event> {
    match a
    case ReceiveData => if s.channel == [] then [] else [Delivered(s.channel[0].thread, s.channel[0].buffer)]
    case DrainOne => if s.channel == [] then [] else [Delivered(s.channel[0].thread, s.channel[0].buffer)]
    case ReceiveRegistration => if s.registrations == [] then [] else [Registered(s.registrations[0])]
    case ReceiveResolved(capacity) => DetailEvents(s, capacity)
    case LastResolved(capacity) => DetailEvents(s, capacity)
    case Ship => ShipmentEvents(s)
    case EndPass => [Ticked(s.passTime)]
    case Finish => if s.details != [] then [Detailed(s.details)] else []
    case _ => []
  }

  lemma GathererEvents(v: Variant, s: State, a: Action)
    requires GathererCan(s, a)
    ensures GathererStep(v, s, a).events == s.events + NewEvents(s, a)
  {
    hide Handle, HandleDetails, ShipLocal, Grown, DetailEvents, ShipmentEvents;
    match a
    case Ship => ShipEvents(v, s);
    case ReceiveResolved(capacity) => HandleDetailsEvents(v, s, capacity);
    case LastResolved(capacity) => HandleDetailsEvents(v, s, capacity);
    case ReceiveData => HandleIsProcessed(v, s, Delivered(s.channel[0].thread, s.channel[0].buffer));
    case DrainOne => HandleIsProcessed(v, s, Delivered(s.channel[0].thread, s.channel[0].buffer));
    case ReceiveRegistration => HandleIsProcessed(v, s, Registered(s.registrations[0]));
    case EndPass => HandleIsProcessed(v, s, Ticked(s.passTime));
    case Finish => HandleIsProcessed(v, s, Detailed(s.details));
    case _ => QuietEvents(v, s, a);
  }

  lemma QuietEvents(v: Variant, s: State, a: Action)
    requires GathererCan(s, a) && (a.StartPass? || a.DrainEmpty? || a.LockState? || a.Swap?)
    ensures GathererStep(v, s, a).events == s.events + NewEvents(s, a)
  {
    assert s.events + [] == s.events;
  }

  lemma ShipEvents(v: Variant, s: State)
    requires s.place.Shipping? && s.place.i < |s.states|
    ensures ShipLocal(v, s).events == s.events + ShipmentEvents(s)
  {
    hide Handle;
    var t := s.states[s.place.i];
    HandleIsProcessed(v, s, Delivered(t, s.local.items));
    HandleIsProcessed(v, Handle(v, s, Delivered(t, s.local.items)).(local := s.local.(items := [])), Removed(t));
  }

  lemma HandleDetailsEvents(v: Variant, s: State, capacity: nat)
    requires s.resolved != []
    ensures HandleDetails(v, s, capacity).events == s.events + DetailEvents(s, capacity)
  {
    hide Handle;
    var details := s.details + [s.resolved[0]];
    var s' := s.(resolved := s.resolved[1..], details := details, detailsCapacity := capacity);
    if |details| == capacity {
      HandleIsProcessed(v, s', Detailed(details));
    } else {
      assert s'.events == s.events + [];
    }
  }

  // The gatherer touches nothing of a thread but its lock, its shared buffer and the mark that it is registered.
  ghost predicate KeepsThreads(s: State, s': State) {
    && s'.threads.Keys == s.threads.Keys
    && forall t | t in s.threads ::
         s'.threads[t] == s.threads[t].(registered := s'.threads[t].registered, lock := s'.threads[t].lock,
                                        shared := s'.threads[t].shared)
  }

  lemma KeepsOthers(s: State, s': State, t: ThreadId)
    requires t in s.threads && t in s'.threads && s'.threads == s.threads[t := s'.threads[t]]
    requires s'.threads[t] == s.threads[t].(registered := s'.threads[t].registered, lock := s'.threads[t].lock,
                                            shared := s'.threads[t].shared)
    ensures KeepsThreads(s, s')
  {
  }

  lemma ThreadsStay(s: State, s': State, a: Action)
    requires Moves(s, s', a) && !a.ReceiveRegistration? && !a.LockState? && !a.Swap?
    ensures s'.now == s.now && s'.threads == s.threads
  {
    match a
    case ReceiveData =>
    case ReceiveResolved(_) =>
    case StartPass(_, _) =>
    case DrainOne =>
    case DrainEmpty =>
    case Ship =>
    case EndPass =>
    case LastResolved(_) =>
    case Finish =>
  }

  lemma MovesKeepsThreads(s: State, s': State, a: Action)
    requires Moves(s, s', a)
    ensures KeepsThreads(s, s') && s'.now == s.now
  {
    match a
    case ReceiveRegistration => KeepsOthers(s, s', s.registrations[0]);
    case LockState => KeepsOthers(s, s', s.states[s.place.i]);
    case Swap => KeepsOthers(s, s', s.states[s.place.i]);
    case _ => ThreadsStay(s, s', a);
  }

  // ---------------------------------------------------------------------------------------------
  // What the steps of everybody else leave alone

  ghost predicate NotGatherers(s: State, s': State) {
    && s.now <= s'.now
    && s'.place == s.place && s'.final == s.final && s'.passTime == s.passTime && s'.states == s.states
    && s'.local == s.local && s'.g == s.g && s'.events == s.events
    && s'.details == s.details && s'.detailsCapacity == s.detailsCapacity
  }

  lemma OwnerNotGatherers(s: State, a: Action)
    requires OwnerCan(s, a)
    ensures NotGatherers(s, OwnerStep(s, a))
  {
    hide Grown;
    match a
    case Begin(_, _) =>
    case Push(_, _) =>
    case Release(_) =>
    case Take(_) =>
    case Send(_) =>
    case Die(_) =>
  }

  lemma WorldNotGatherers(s: State, a: Action)
    requires WorldCan(s, a)
    ensures NotGatherers(s, WorldStep(s, a))
  {
  }

  lemma ResolverNotGatherers(s: State, a: Action)
    requires ResolverCan(s, a)
    ensures NotGatherers(s, ResolverStep(s, a))
  {
  }

  lemma OthersNotGatherers(v: Variant, s: State, a: Action)
    requires Can(s, a) && (WorldCan(s, a) || OwnerCan(s, a) || !GathererCan(s, a))
    ensures NotGatherers(s, Do(v, s, a))
  {
    hide NotGatherers, WorldStep, WorldCan, OwnerStep, OwnerCan, GathererStep, GathererCan, ResolverStep, ResolverCan;
    if WorldCan(s, a) {
      WorldNotGatherers(s, a);
    } else if OwnerCan(s, a) {
      OwnerNotGatherers(s, a);
    } else {
      ResolverNotGatherers(s, a);
    }
  }

  // ---------------------------------------------------------------------------------------------
  // Runs

  // A run as the actions taken from the initial state; Final is the state it leads to.
  ghost predicate IsRun(v: Variant, run: seq<Action>) {
    run == [] || (IsRun(v, run[..|run| - 1]) && Can(Final(v, run[..|run| - 1]), run[|run| - 1]))
  }

  ghost function Final(v: Variant, run: seq<Action>): State {
    if run == [] then INITIAL
    else
      var s, a := Final(v, run[..|run| - 1]), run[|run| - 1];
      if Can(s, a) then Do(v, s, a) else s
  }

  lemma {:induction false} RunSnoc(v: Variant, run: seq<Action>, a: Action)
    requires IsRun(v, run) && Can(Final(v, run), a)
    ensures IsRun(v, run + [a]) && Final(v, run + [a]) == Do(v, Final(v, run), a)
  {
    assert (run + [a])[..|run|] == run;
  }

  // A step of the gatherer and the events it adds.
  lemma Gathers(v: Variant, run: seq<Action>, a: Action) returns (longer: seq<Action>)
    requires IsRun(v, run) && GathererCan(Final(v, run), a)
    ensures longer == run + [a] && IsRun(v, longer) && Moves(Final(v, run), Final(v, longer), a)
    ensures Final(v, longer).events == Final(v, run).events + NewEvents(Final(v, run), a)
  {
    RunSnoc(v, run, a);
    longer := run + [a];
    GathererMoves(v, Final(v, run), a);
    GathererEvents(v, Final(v, run), a);
  }

  lemma OwnerActs(v: Variant, run: seq<Action>, a: Action) returns (longer: seq<Action>)
    requires IsRun(v, run) && OwnerCan(Final(v, run), a)
    ensures longer == run + [a] && IsRun(v, longer) && Final(v, longer) == OwnerStep(Final(v, run), a)
  {
    RunSnoc(v, run, a);
    longer := run + [a];
  }
}
