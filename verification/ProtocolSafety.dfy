// What every step of the tracker keeps: no instruction is lost, duplicated or reordered on its way to the wire,
// threads live and die in order, and the gatherer never panics.
module ProtocolSafety {
  import opened TrackTypes
  import opened GlobalTree
  import opened Gathering
  import opened Writer
  import opened Protocol
  import opened WireOrder

  // ---------------------------------------------------------------------------------------------
  // One thread by itself

  // What it pushed and has still to push encodes its calls.
  ghost predicate OwnerLogs(th: Thread) {
    th.log == EncodeAll(th.calls).log && Bare(th.pushed) + th.pending == EncodeAll(th.calls).instrs
  }

  // Vectors are empty without memory, or have at least the minimal capacity and room left.
  predicate HasRoom(b: Buffer) {
    (b.items == [] && b.capacity == 0) || (|b.items| < b.capacity && CAPACITY <= b.capacity)
  }

  ghost predicate OwnerState(th: Thread) {
    // It is busy only while it is registered and alive.
    && (!th.registered ==> th.calls == [] && th.pending == [] && th.pushed == [] && !th.dead)
    && (th.dead ==> th.pending == [] && th.hand.None? && !th.lock.OwnerHolds?)
    // A taken buffer leaves an empty one behind until it is sent.
    && (th.hand.Some? ==> th.shared.items == [] && th.hand.value != [] && !th.lock.OwnerHolds?)
    // Buffers are full only inside the critical section that fills them.
    && (if th.lock.OwnerHolds? then 0 < |th.shared.items| <= th.shared.capacity && CAPACITY <= th.shared.capacity
        else HasRoom(th.shared))
  }

  ghost predicate OwnerOk(th: Thread) {
    OwnerLogs(th) && OwnerState(th)
  }

  lemma BeginState(th: Thread, c: Call)
    requires OwnerState(th) && th.registered && !th.dead
    ensures var e := EncodeCall(th.log, c);
            OwnerState(th.(calls := th.calls + [c], log := e.log, pending := e.instrs))
  {
    hide EncodeCall;
  }

  lemma PushState(th: Thread, x: Timed, capacity: nat)
    requires OwnerState(th) && th.pending != [] && th.hand.None? && th.lock.Unlocked?
    requires Grown(|th.shared.items|, th.shared.capacity, capacity)
    ensures OwnerState(th.(pending := th.pending[1..], pushed := th.pushed + [x], lock := OwnerHolds,
                           shared := Buffer(th.shared.items + [x], capacity)))
  {
  }

  lemma ReleaseState(th: Thread)
    requires OwnerState(th) && th.lock.OwnerHolds? && |th.shared.items| != th.shared.capacity
    ensures OwnerState(th.(lock := Unlocked))
  {
  }

  lemma TakeState(th: Thread)
    requires OwnerState(th) && th.lock.OwnerHolds?
    ensures OwnerState(th.(lock := Unlocked, shared := Buffer([], 0), hand := Some(th.shared.items)))
  {
  }

  lemma SendState(th: Thread)
    requires OwnerState(th)
    ensures OwnerState(th.(hand := None))
  {
  }

  lemma DieState(th: Thread)
    requires OwnerState(th) && th.registered && th.pending == [] && th.hand.None? && th.lock.Unlocked?
    ensures OwnerState(th.(dead := true))
  {
  }

  lemma OwnerStepState(s: State, a: Action)
    requires OwnerCan(s, a) && OwnerState(s.threads[a.t])
    ensures OwnerState(OwnerStep(s, a).threads[a.t])
  {
    hide EncodeCall, Grown, HasRoom, OwnerState;
    match a
    case Begin(t, c) => BeginState(s.threads[t], c);
    case Push(t, capacity) => PushState(s.threads[t], Timed(s.threads[t].pending[0], s.now), capacity);
    case Release(t) => ReleaseState(s.threads[t]);
    case Take(t) => TakeState(s.threads[t]);
    case Send(t) => SendState(s.threads[t]);
    case Die(t) => DieState(s.threads[t]);
  }

  lemma OwnerStepLogs(s: State, a: Action)
    requires OwnerCan(s, a) && OwnerLogs(s.threads[a.t])
    ensures OwnerLogs(OwnerStep(s, a).threads[a.t])
  {
    var th := s.threads[a.t];
    if a.Begin? {
      EncodeSnoc(th.calls, a.c);
      assert Bare(th.pushed) + [] == Bare(th.pushed);
    } else if a.Push? {
      PushLogs(th.pushed, th.pending, s.now);
    }
  }

  lemma PushLogs(pushed: seq<Timed>, pending: seq<Instr>, now: Time)
    requires pending != []
    ensures Bare(pushed + [Timed(pending[0], now)]) + pending[1..] == Bare(pushed) + pending
  {
  }

  lemma OwnerStepOk(s: State, a: Action)
    requires OwnerCan(s, a) && OwnerOk(s.threads[a.t])
    ensures OwnerOk(OwnerStep(s, a).threads[a.t])
  {
    OwnerStepState(s, a);
    OwnerStepLogs(s, a);
  }

  // ---------------------------------------------------------------------------------------------
  // The channel

  function InChannel(channel: seq<Flush>, t: ThreadId): seq<Timed> {
    if channel == [] then []
    else (if channel[0].thread == t then channel[0].buffer else []) + InChannel(channel[1..], t)
  }

  lemma {:induction false} InChannelSnoc(channel: seq<Flush>, m: Flush, t: ThreadId)
    ensures InChannel(channel + [m], t) == InChannel(channel, t) + if m.thread == t then m.buffer else []
  {
    if channel == [] {
      assert channel + [m] == [m];
    } else {
      assert (channel + [m])[1..] == channel[1..] + [m];
      InChannelSnoc(channel[1..], m, t);
      Associate(if channel[0].thread == t then channel[0].buffer else [], InChannel(channel[1..], t),
                if m.thread == t then m.buffer else []);
    }
  }

  // ---------------------------------------------------------------------------------------------
  // The invariant

  // The gatherer holds the lock of t.
  predicate Holding(s: State, t: ThreadId) {
    (s.place.Draining? || s.place.Drained?) && s.place.i < |s.states| && s.states[s.place.i] == t
  }

  ghost predicate Structure(s: State) {
    && (forall i, j | 0 <= i < j < |s.states| :: s.states[i] != s.states[j])
    && (forall i, j | 0 <= i < j < |s.registrations| :: s.registrations[i] != s.registrations[j])
    && (forall t | t in s.states :: t in s.threads)
    && (forall t | t in s.registrations :: t in s.threads)
    && (forall m | m in s.channel :: m.thread in s.threads && m.buffer != [])
    && (s.place.AtState? ==> s.place.i <= |s.states|)
    && (s.place.Draining? || s.place.Drained? || s.place.Shipping? ==> s.place.i < |s.states|)
    && (!s.place.Shipping? ==> s.local.items == [])
    && HasRoom(s.local)
  }

  // What the gatherer carries for t between unlocking and writing.
  function Carried(s: State, t: ThreadId): seq<Timed> {
    if s.place.Shipping? && s.place.i < |s.states| && s.states[s.place.i] == t then s.local.items else []
  }

  // First in, first out: what was processed, what the gatherer carries, what is in the channel, in the thread's
  // hand and in its shared buffer is, in this order, exactly what the thread pushed.
  ghost predicate Fifo(s: State, t: ThreadId)
    requires t in s.threads
  {
    var th := s.threads[t];
    Sent(s.events, t) + (Carried(s, t) + (InChannel(s.channel, t) + (HandOf(th) + th.shared.items))) == th.pushed
  }

  // Nothing of t is left anywhere, and nothing will come.
  ghost predicate Silent(s: State, t: ThreadId)
    requires t in s.threads
  {
    s.threads[t].dead && InChannel(s.channel, t) == [] && s.threads[t].shared.items == []
  }

  // Where t stands in its life.
  ghost predicate Standing(s: State, t: ThreadId)
    requires t in s.threads
  {
    var th := s.threads[t];
    && (th.registered <==> Registered(t) in s.events)
    && (t in s.registrations <==> !th.registered)
    && (t in s.states <==> th.registered && !Gone(s.events, t))
    && (Gone(s.events, t) ==> Silent(s, t))
    && (th.lock.GathererHolds? <==> Holding(s, t))
    // Under its lock, once the channel was seen empty, nothing of t can be in the channel ahead of its buffer.
    && (s.place.Drained? && Holding(s, t) ==>
          (th.shared.items != [] || th.dead ==> InChannel(s.channel, t) == []))
    // A thread seen dead under its lock has nothing left but what the gatherer carries.
    && (s.place.Shipping? && s.place.sawDead && s.place.i < |s.states| && s.states[s.place.i] == t ==> Silent(s, t))
  }

  // What has been processed so far, and by which threads.
  ghost predicate History(events: seq<Event>, known: set<ThreadId>) {
    && Orderly(events) && Lives(events)
    && forall t :: t !in known ==> Sent(events, t) == [] && Registered(t) !in events && !Gone(events, t)
  }

  ghost predicate ThreadInv(s: State, t: ThreadId)
    requires t in s.threads
  {
    OwnerOk(s.threads[t]) && Fifo(s, t) && Standing(s, t)
  }

  ghost predicate Inv(s: State) {
    && Structure(s)
    && History(s.events, s.threads.Keys)
    && forall t | t in s.threads :: ThreadInv(s, t)
  }

  // ---------------------------------------------------------------------------------------------
  // Steps of tracked threads

  // A step of thread t touches its own record and may append one message of its own to the channel.
  ghost predicate OwnStep(s: State, s': State, t: ThreadId) {
    && t in s.threads && t in s'.threads
    && s'.threads == s.threads[t := s'.threads[t]]
    && s' == s.(threads := s'.threads, channel := s'.channel)
    && (s'.channel == s.channel
        || (|s'.channel| > 0 && s'.channel == s.channel + [Flush(t, s'.channel[|s'.channel| - 1].buffer)]
            && s'.channel[|s'.channel| - 1].buffer != []))
  }

  lemma OwnerStepIsOwn(s: State, a: Action)
    requires OwnerCan(s, a) && OwnerState(s.threads[a.t])
    ensures OwnStep(s, OwnerStep(s, a), a.t)
  {
    hide Grown, HasRoom;
  }

  lemma InvStructure(s: State)
    requires Inv(s)
    ensures Structure(s) && Orderly(s.events)
  {
  }

  lemma InvOwner(s: State, t: ThreadId)
    requires Inv(s) && t in s.threads
    ensures ThreadInv(s, t) && OwnerState(s.threads[t]) && Fifo(s, t) && Standing(s, t)
  {
  }

  lemma InvOwnStep(s: State, a: Action)
    requires Inv(s) && OwnerCan(s, a)
    ensures a.t in s.threads && ThreadInv(s, a.t) && OwnerState(s.threads[a.t]) && OwnStep(s, OwnerStep(s, a), a.t)
  {
    InvOwner(s, a.t);
    OwnerStepIsOwn(s, a);
  }

  lemma OwnStepStructure(s: State, s': State, t: ThreadId)
    requires OwnStep(s, s', t) && Structure(s)
    ensures Structure(s')
  {
  }

  lemma OwnStepOther(s: State, s': State, t: ThreadId, u: ThreadId)
    requires OwnStep(s, s', t) && u != t && u in s.threads && ThreadInv(s, u)
    ensures ThreadInv(s', u)
  {
    hide OwnerOk, Sent, Gone;
    if s'.channel != s.channel {
      InChannelSnoc(s.channel, s'.channel[|s'.channel| - 1], u);
    }
    assert s'.threads[u] == s.threads[u] && Carried(s', u) == Carried(s, u);
  }

  lemma OwnerStepFlow(s: State, a: Action)
    requires OwnerCan(s, a) && OwnerOk(s.threads[a.t]) && Fifo(s, a.t)
    ensures Fifo(OwnerStep(s, a), a.t)
  {
    hide OwnerLogs, EncodeCall, Grown, HasRoom, Sent;
    var s' := OwnerStep(s, a);
    var th, th' := s.threads[a.t], s'.threads[a.t];
    var before, carried, channel := Sent(s.events, a.t), Carried(s, a.t), InChannel(s.channel, a.t);
    assert Carried(s', a.t) == carried;
    match a
    case Push(t, capacity) =>
      var x := Timed(th.pending[0], s.now);
      assert before + (carried + (channel + (HandOf(th) + (th.shared.items + [x]))))
          == before + (carried + (channel + (HandOf(th) + th.shared.items))) + [x];
    case Take(t) =>
      assert HandOf(th') + th'.shared.items == HandOf(th) + th.shared.items;
    case Send(t) =>
      InChannelSnoc(s.channel, Flush(t, th.hand.value), t);
      assert InChannel(s'.channel, t) + (HandOf(th') + th'.shared.items)
          == channel + (HandOf(th) + th.shared.items);
    case _ =>
  }

  lemma OwnerStepStanding(s: State, a: Action)
    requires OwnerCan(s, a) && OwnerOk(s.threads[a.t]) && Standing(s, a.t)
    ensures Standing(OwnerStep(s, a), a.t)
  {
    hide OwnerLogs, EncodeCall, Grown, HasRoom;
    if a.Send? {
      InChannelSnoc(s.channel, Flush(a.t, s.threads[a.t].hand.value), a.t);
    }
  }

  lemma OwnerStepSelf(s: State, a: Action)
    requires OwnerCan(s, a) && ThreadInv(s, a.t)
    ensures ThreadInv(OwnerStep(s, a), a.t)
  {
    OwnerStepOk(s, a);
    OwnerStepFlow(s, a);
    OwnerStepStanding(s, a);
  }

  lemma OwnStepInv(s: State, s': State, t: ThreadId)
    requires Inv(s) && OwnStep(s, s', t) && ThreadInv(s', t)
    ensures Inv(s')
  {
    hide ThreadInv, History, Structure;
    OwnStepStructure(s, s', t);
    assert s'.threads.Keys == s.threads.Keys;
    forall u | u in s'.threads
      ensures ThreadInv(s', u)
    {
      if u != t {
        OwnStepOther(s, s', t, u);
      }
    }
  }

  lemma OwnerStepInv(s: State, a: Action)
    requires Inv(s) && OwnerCan(s, a)
    ensures Inv(OwnerStep(s, a))
  {
    assert ThreadInv(s, a.t);
    OwnerStepIsOwn(s, a);
    OwnerStepSelf(s, a);
    OwnStepInv(s, OwnerStep(s, a), a.t);
  }

  // ---------------------------------------------------------------------------------------------
  // Steps of the gatherer

  // What may happen next to a known thread.
  ghost predicate MayFollow(events: seq<Event>, e: Event, known: set<ThreadId>) {
    && (e.Registered? ==> e.thread in known && e !in events)
    && (e.Delivered? || e.Removed? ==>
          e.thread in known && Registered(e.thread) in events && !Gone(events, e.thread))
    && (e.Delivered? ==> SelfContained(Bare(Sent(events, e.thread) + e.buffer)))
  }

  lemma HistorySnoc(events: seq<Event>, known: set<ThreadId>, e: Event)
    requires History(events, known)
    requires MayFollow(events, e, known)
    ensures History(events + [e], known)
  {
    assert (events + [e])[..|events|] == events;
    if e.Delivered? {
      SentSnoc(events, e, e.thread);
    }
    forall t | t !in known
      ensures Sent(events + [e], t) == [] && Registered(t) !in events + [e] && !Gone(events + [e], t)
    {
      SentSnoc(events, e, t);
    }
  }

  // Whatever has been processed from a thread is self-contained.
  lemma PushedSelfContained(th: Thread, done: seq<Timed>, rest: seq<Timed>)
    requires OwnerLogs(th) && done + rest == th.pushed
    ensures SelfContained(Bare(done))
  {
    EncodeSpec(th.calls);
    BareAppend(done, rest);
    assert EncodeAll(th.calls).instrs == Bare(done) + (Bare(rest) + th.pending);
    SelfContainedPrefix(Bare(done), Bare(rest) + th.pending);
  }

  // Processing an event leaves everything but the gatherer's own history alone.
  lemma HandleIs(v: Variant, s: State, e: Event)
    ensures var s' := Handle(v, s, e);
            s'.events == s.events + [e] && s' == s.(events := s'.events, g := s'.g, queue := s'.queue)
  {
  }

  // An event that concerns no thread changes the standing of none.
  lemma QuietEvent(s: State, s': State, e: Event, t: ThreadId)
    requires t in s.threads && t in s'.threads && s'.threads[t] == s.threads[t] && ThreadInv(s, t)
    requires s'.events == s.events || (s'.events == s.events + [e] && (e.Ticked? || e.Detailed?))
    requires s'.registrations == s.registrations && s'.channel == s.channel && s'.states == s.states
    requires !s.place.Draining? && !s.place.Drained? && !s.place.Shipping?
    requires !s'.place.Draining? && !s'.place.Drained? && !s'.place.Shipping?
    ensures ThreadInv(s', t)
  {
    if s'.events != s.events {
      SentSnoc(s.events, e, t);
    }
  }

  lemma QuietInv(s: State, s': State, e: Event)
    requires Inv(s) && Structure(s') && s'.threads == s.threads
    requires s'.events == s.events || (s'.events == s.events + [e] && (e.Ticked? || e.Detailed?))
    requires s'.registrations == s.registrations && s'.channel == s.channel && s'.states == s.states
    requires !s.place.Draining? && !s.place.Drained? && !s.place.Shipping?
    requires !s'.place.Draining? && !s'.place.Drained? && !s'.place.Shipping?
    ensures Inv(s')
  {
    if s'.events != s.events {
      HistorySnoc(s.events, s.threads.Keys, e);
    }
    forall t | t in s'.threads
      ensures ThreadInv(s', t)
    {
      QuietEvent(s, s', e, t);
    }
  }

  // --- taking a message from the channel

  lemma HandleDataThread(v: Variant, s: State, t: ThreadId)
    requires s.channel != [] && t in s.threads && ThreadInv(s, t) && !s.place.Drained? && !s.place.Shipping?
    ensures ThreadInv(HandleData(v, s), t)
  {
    var s', m := HandleData(v, s), s.channel[0];
    var th := s.threads[t];
    SentSnoc(s.events, Delivered(m.thread, m.buffer), t);
    var rest := InChannel(s'.channel, t) + (HandOf(th) + th.shared.items);
    var mine := if m.thread == t then m.buffer else [];
    assert InChannel(s.channel, t) == mine + InChannel(s'.channel, t);
    assert Sent(s'.events, t) == Sent(s.events, t) + mine;
    MoveFront(Sent(s.events, t), mine, InChannel(s'.channel, t), HandOf(th) + th.shared.items);
  }

  lemma MoveFront(a: seq<Timed>, b: seq<Timed>, c: seq<Timed>, d: seq<Timed>)
    ensures a + ([] + (b + c + d)) == a + b + ([] + (c + d))
  {
  }

  lemma HandleDataInv(v: Variant, s: State)
    requires Inv(s) && s.channel != [] && !s.place.Drained? && !s.place.Shipping?
    ensures Inv(HandleData(v, s))
  {
    var s', m := HandleData(v, s), s.channel[0];
    HandleIs(v, s, Delivered(m.thread, m.buffer));
    var th := s.threads[m.thread];
    assert ThreadInv(s, m.thread);
    DeliveredFromChannel(s);
    HistorySnoc(s.events, s.threads.Keys, Delivered(m.thread, m.buffer));
    assert Structure(s') by {
      assert forall x :: x in s'.channel ==> x in s.channel;
    }
    forall t | t in s'.threads
      ensures ThreadInv(s', t)
    {
      HandleDataThread(v, s, t);
    }
  }

  // A message in the channel is the next thing its thread pushed, and the thread is on the books.
  lemma DeliveredFromChannel(s: State)
    requires Structure(s) && s.channel != [] && s.channel[0].thread in s.threads
    requires ThreadInv(s, s.channel[0].thread) && !s.place.Shipping?
    ensures var m := s.channel[0];
            && Registered(m.thread) in s.events && !Gone(s.events, m.thread)
            && SelfContained(Bare(Sent(s.events, m.thread) + m.buffer))
  {
    var m := s.channel[0];
    var th := s.threads[m.thread];
    var done, rest := Sent(s.events, m.thread), InChannel(s.channel[1..], m.thread);
    MoveFront(done, m.buffer, rest, HandOf(th) + th.shared.items);
    assert th.pushed == done + m.buffer + ([] + (rest + (HandOf(th) + th.shared.items)));
    assert m in s.channel;
    PushedSelfContained(th, done + m.buffer, [] + (rest + (HandOf(th) + th.shared.items)));
  }

  // --- registering a thread

  ghost predicate RegisterStep(s: State, s': State, t: ThreadId) {
    && s.place.Idle? && s.registrations != [] && t == s.registrations[0] && t in s.threads
    && s'.events == s.events + [Registered(t)]
    && s'.threads == s.threads[t := s.threads[t].(registered := true)]
    && s'.registrations == s.registrations[1..] && s'.states == s.states + [t]
    && s'.place == s.place && s'.local == s.local && s'.channel == s.channel
  }

  lemma RegisterStructure(s: State, s': State, t: ThreadId)
    requires Structure(s) && RegisterStep(s, s', t) && t !in s.states
    ensures Structure(s')
  {
    assert forall u :: u in s'.registrations ==> u in s.registrations;
  }

  // The head of the queue does not come back.
  lemma QueueTail(queue: seq<ThreadId>)
    requires queue != [] && forall i, j | 0 <= i < j < |queue| :: queue[i] != queue[j]
    ensures queue[0] !in queue[1..]
  {
  }

  lemma RegisterStanding(s: State, s': State, t: ThreadId)
    requires Structure(s) && RegisterStep(s, s', t) && Standing(s, t) && !s.threads[t].dead
    ensures Standing(s', t) && t !in s.states && Registered(t) !in s.events
  {
    SentSnoc(s.events, Registered(t), t);
    QueueTail(s.registrations);
    assert t in s.registrations;
    assert t !in s'.registrations && t in s'.states;
  }

  lemma RegisterSelf(s: State, s': State, t: ThreadId)
    requires Structure(s) && RegisterStep(s, s', t) && ThreadInv(s, t)
    ensures ThreadInv(s', t) && t !in s.states && Registered(t) !in s.events
  {
    assert t in s.registrations && !s.threads[t].registered;
    RegisterStanding(s, s', t);
    SentSnoc(s.events, Registered(t), t);
    assert Sent(s'.events, t) == Sent(s.events, t);
  }

  lemma RegisterOther(s: State, s': State, t: ThreadId, u: ThreadId)
    requires RegisterStep(s, s', t) && u in s.threads && u != t && ThreadInv(s, u)
    ensures ThreadInv(s', u)
  {
    SentSnoc(s.events, Registered(t), u);
    assert s'.threads[u] == s.threads[u];
    assert Sent(s'.events, u) == Sent(s.events, u) && (Gone(s'.events, u) <==> Gone(s.events, u));
    assert u in s'.registrations <==> u in s.registrations by {
      assert s.registrations == [t] + s'.registrations;
    }
  }

  lemma RegisterInv(s: State, s': State, t: ThreadId)
    requires Inv(s) && RegisterStep(s, s', t)
    ensures Inv(s')
  {
    hide ThreadInv, Structure, History;
    assert ThreadInv(s, t);
    RegisterSelf(s, s', t);
    RegisterStructure(s, s', t);
    HistorySnoc(s.events, s.threads.Keys, Registered(t));
    assert s'.threads.Keys == s.threads.Keys;
    forall u | u in s'.threads
      ensures ThreadInv(s', u)
    {
      if u != t {
        RegisterOther(s, s', t, u);
      }
    }
  }

  // --- locking, draining under the lock, swapping

  ghost predicate Relocated(s: State, s': State) {
    && s'.threads.Keys == s.threads.Keys
    && s'.events == s.events
    && s'.registrations == s.registrations && s'.channel == s.channel && s'.states == s.states
  }

  ghost predicate LockStep(s: State, s': State, t: ThreadId) {
    && s.place.AtState? && s.place.i < |s.states| && s.states[s.place.i] == t && t in s.threads
    && s.threads[t].lock.Unlocked?
    && Relocated(s, s')
    && s'.threads == s.threads[t := s.threads[t].(lock := GathererHolds)]
    && s'.local == s.local && s'.place == Draining(s.place.i)
  }

  lemma LockThread(s: State, s': State, t: ThreadId, u: ThreadId)
    requires Structure(s) && LockStep(s, s', t) && u in s.threads && ThreadInv(s, u)
    ensures ThreadInv(s', u)
  {
  }

  lemma LockInv(s: State, s': State, t: ThreadId)
    requires Inv(s) && LockStep(s, s', t)
    ensures Inv(s')
  {
    hide ThreadInv, History;
    forall u | u in s'.threads
      ensures ThreadInv(s', u)
    {
      LockThread(s, s', t, u);
    }
  }

  ghost predicate DrainedStep(s: State, s': State) {
    && s.channel == [] && s'.threads == s.threads && Relocated(s, s') && s'.local == s.local
    && (s.place.FirstDrain? ==> s'.place == AtState(0))
    && (s.place.Draining? ==> s'.place == Drained(s.place.i))
    && (s.place.FirstDrain? || s.place.Draining?)
  }

  lemma DrainedThread(s: State, s': State, t: ThreadId)
    requires Structure(s) && DrainedStep(s, s') && t in s.threads && ThreadInv(s, t)
    ensures ThreadInv(s', t)
  {
    assert InChannel(s.channel, t) == [];
    assert Holding(s', t) <==> Holding(s, t);
    assert Carried(s', t) == Carried(s, t);
  }

  lemma DrainedInv(s: State, s': State)
    requires Inv(s) && DrainedStep(s, s')
    ensures Inv(s')
  {
    forall t | t in s'.threads
      ensures ThreadInv(s', t)
    {
      DrainedThread(s, s', t);
    }
  }

  ghost predicate SwapStep(s: State, s': State, t: ThreadId) {
    && s.place.Drained? && s.place.i < |s.states| && s.states[s.place.i] == t && t in s.threads
    && Relocated(s, s')
    && s'.threads == s.threads[t := s.threads[t].(lock := Unlocked, shared := s.local)]
    && s'.local == s.threads[t].shared && s'.place == Shipping(s.place.i, s.threads[t].dead)
  }

  lemma MoveItems(done: seq<Timed>, items: seq<Timed>)
    ensures done + ([] + ([] + ([] + items))) == done + (items + ([] + ([] + [])))
  {
  }

  lemma SwapSelf(s: State, s': State, t: ThreadId)
    requires Structure(s) && SwapStep(s, s', t) && ThreadInv(s, t)
    ensures ThreadInv(s', t)
  {
    var th := s.threads[t];
    assert Holding(s, t);
    assert Fifo(s', t) by {
      if th.shared.items == [] {
        assert Carried(s', t) == [];
      } else {
        assert InChannel(s.channel, t) == [] && HandOf(th) == [];
        MoveItems(Sent(s.events, t), th.shared.items);
      }
    }
    assert OwnerOk(s'.threads[t]);
  }

  lemma SwapOther(s: State, s': State, t: ThreadId, u: ThreadId)
    requires Structure(s) && SwapStep(s, s', t) && u in s.threads && u != t && ThreadInv(s, u)
    ensures ThreadInv(s', u)
  {
    assert s'.threads[u] == s.threads[u];
  }

  lemma SwapInv(s: State, s': State, t: ThreadId)
    requires Inv(s) && SwapStep(s, s', t)
    ensures Inv(s')
  {
    hide ThreadInv, History;
    InvOwner(s, t);
    assert Holding(s, t);
    SwapSelf(s, s', t);
    forall u | u in s'.threads
      ensures ThreadInv(s', u)
    {
      if u != t {
        SwapOther(s, s', t, u);
      }
    }
  }

  // --- shipping what was swapped out

  // The buffer is written; a thread seen dead is still on the list.
  ghost predicate ShipStep(s: State, s': State, t: ThreadId) {
    && s.place.Shipping? && s.place.i < |s.states| && s.states[s.place.i] == t && t in s.threads
    && s'.events == s.events + [Delivered(t, s.local.items)]
    && s'.threads == s.threads && s'.registrations == s.registrations && s'.channel == s.channel
    && s'.states == s.states && s'.local == s.local.(items := [])
  }

  lemma ShipSelf(s: State, s': State, t: ThreadId)
    requires Structure(s) && ShipStep(s, s', t) && ThreadInv(s, t)
    requires s'.place == s.place || (!s.place.sawDead && s'.place == AtState(s.place.i + 1))
    ensures ThreadInv(s', t)
  {
    SentSnoc(s.events, Delivered(t, s.local.items), t);
    var th := s.threads[t];
    assert Fifo(s', t) by {
      var rest := InChannel(s.channel, t) + (HandOf(th) + th.shared.items);
      assert Sent(s.events, t) + (s.local.items + rest) == Sent(s.events, t) + s.local.items + ([] + rest);
    }
    assert Standing(s', t);
  }

  lemma ShipOther(s: State, s': State, t: ThreadId, u: ThreadId)
    requires Structure(s) && ShipStep(s, s', t) && u in s.threads && u != t && ThreadInv(s, u)
    requires s'.place == s.place || (!s.place.sawDead && s'.place == AtState(s.place.i + 1))
    ensures ThreadInv(s', u)
  {
    SentSnoc(s.events, Delivered(t, s.local.items), u);
    assert Sent(s'.events, u) == Sent(s.events, u) && Carried(s', u) == [] == Carried(s, u);
  }

  // What the gatherer carries is the next thing its thread pushed.
  lemma {:induction false} CarriedIsNext(s: State, t: ThreadId)
    requires Structure(s) && s.place.Shipping? && s.states[s.place.i] == t && t in s.threads && ThreadInv(s, t)
    ensures t in s.states && SelfContained(Bare(Sent(s.events, t) + s.local.items))
  {
    var th := s.threads[t];
    var done, rest := Sent(s.events, t), InChannel(s.channel, t) + (HandOf(th) + th.shared.items);
    assert Carried(s, t) == s.local.items;
    assert th.pushed == done + (s.local.items + rest);
    assert done + (s.local.items + rest) == done + s.local.items + rest;
    PushedSelfContained(th, done + s.local.items, rest);
  }

  lemma ShipInv(s: State, s': State, t: ThreadId)
    requires Inv(s) && ShipStep(s, s', t)
    requires s'.place == s.place || (!s.place.sawDead && s'.place == AtState(s.place.i + 1))
    ensures Inv(s')
  {
    hide ThreadInv, History, SelfContained;
    InvOwner(s, t);
    CarriedIsNext(s, t);
    assert t in s.states;
    HistorySnoc(s.events, s.threads.Keys, Delivered(t, s.local.items));
    forall u | u in s'.threads
      ensures ThreadInv(s', u)
    {
      if u == t {
        ShipSelf(s, s', t);
      } else {
        ShipOther(s, s', t, u);
      }
    }
  }

  // A dead thread leaves the list.
  ghost predicate RemoveStep(s: State, s': State, t: ThreadId) {
    && s.place.Shipping? && s.place.sawDead && s.place.i < |s.states| && s.states[s.place.i] == t && t in s.threads
    && s.local.items == []
    && s'.events == s.events + [Removed(t)]
    && s'.threads == s.threads && s'.registrations == s.registrations && s'.channel == s.channel
    && s'.states == s.states[..s.place.i] + s.states[s.place.i + 1..]
    && s'.local == s.local && s'.place == AtState(s.place.i)
  }

  lemma RemoveAt(xs: seq<ThreadId>, i: nat)
    requires i < |xs| && forall j, k | 0 <= j < k < |xs| :: xs[j] != xs[k]
    ensures var ys := xs[..i] + xs[i + 1..];
            && (forall j, k | 0 <= j < k < |ys| :: ys[j] != ys[k])
            && (forall x :: x in ys <==> x in xs && x != xs[i])
  {
    var ys := xs[..i] + xs[i + 1..];
    forall x
      ensures x in ys <==> x in xs && x != xs[i]
    {
      if x in xs && x != xs[i] {
        var j :| 0 <= j < |xs| && xs[j] == x;
        assert ys[if j < i then j else j - 1] == x;
      }
    }
  }

  lemma RemoveThread(s: State, s': State, t: ThreadId, u: ThreadId)
    requires Structure(s) && RemoveStep(s, s', t) && u in s.threads && ThreadInv(s, u)
    ensures ThreadInv(s', u)
  {
    hide OwnerOk;
    RemoveAt(s.states, s.place.i);
    SentSnoc(s.events, Removed(t), u);
    assert Sent(s'.events, u) == Sent(s.events, u) && Carried(s', u) == [] == Carried(s, u);
    assert Fifo(s', u);
  }

  lemma RemoveInv(s: State, s': State, t: ThreadId)
    requires Inv(s) && RemoveStep(s, s', t)
    ensures Inv(s')
  {
    hide ThreadInv, History;
    InvOwner(s, t);
    assert t in s.states;
    RemoveAt(s.states, s.place.i);
    HistorySnoc(s.events, s.threads.Keys, Removed(t));
    assert Structure(s');
    forall u | u in s'.threads
      ensures ThreadInv(s', u)
    {
      RemoveThread(s, s', t, u);
    }
  }

  // --- all of them

  lemma ShipLocalInv(v: Variant, s: State)
    requires Inv(s) && s.place.Shipping? && s.place.i < |s.states|
    ensures Inv(ShipLocal(v, s))
  {
    var t := s.states[s.place.i];
    assert t in s.states;
    if s.place.sawDead {
      ShipDeadInv(v, s, t);
    } else {
      ShipLiveInv(v, s, t);
    }
  }

  lemma ShipLiveInv(v: Variant, s: State, t: ThreadId)
    requires Inv(s) && s.place.Shipping? && !s.place.sawDead && s.place.i < |s.states| && s.states[s.place.i] == t
    requires t in s.threads
    ensures Inv(ShipLocal(v, s))
  {
    HandleIs(v, s, Delivered(t, s.local.items));
    ShipInv(s, ShipLocal(v, s), t);
  }

  lemma ShipDeadInv(v: Variant, s: State, t: ThreadId)
    requires Inv(s) && s.place.Shipping? && s.place.sawDead && s.place.i < |s.states| && s.states[s.place.i] == t
    requires t in s.threads
    ensures Inv(ShipLocal(v, s))
  {
    hide ThreadInv, History, Standing, OwnerState;
    HandleIs(v, s, Delivered(t, s.local.items));
    var s1 := Handle(v, s, Delivered(t, s.local.items)).(local := s.local.(items := []));
    ShipInv(s, s1, t);
    HandleIs(v, s1, Removed(t));
    RemoveInv(s1, ShipLocal(v, s), t);
  }

  lemma HandleDetailsInv(v: Variant, s: State, capacity: nat)
    requires Inv(s) && s.resolved != [] && (s.place.Idle? || s.place.Resolving?)
    ensures Inv(HandleDetails(v, s, capacity))
  {
    var details := s.details + [s.resolved[0]];
    var s' := s.(resolved := s.resolved[1..], details := details, detailsCapacity := capacity);
    QuietInv(s, s', Ticked(0));
    HandleIs(v, s', Detailed(details));
    if |details| == capacity {
      QuietInv(s', HandleDetails(v, s, capacity), Detailed(details));
    }
  }

  lemma StartPassInv(v: Variant, s: State, a: Action)
    requires Inv(s) && GathererCan(s, a) && a.StartPass?
    ensures Inv(GathererStep(v, s, a))
  {
    QuietInv(s, GathererStep(v, s, a), Ticked(0));
  }

  lemma BetweenPassesInv(v: Variant, s: State, a: Action)
    requires Inv(s) && GathererCan(s, a) && (a.ReceiveData? || a.ReceiveRegistration? || a.StartPass?)
    ensures Inv(GathererStep(v, s, a))
  {
    hide Inv, HandleDetails, ShipLocal;
    if a.ReceiveData? {
      HandleDataInv(v, s);
    } else if a.ReceiveRegistration? {
      var t := s.registrations[0];
      HandleIs(v, s, Registered(t));
      RegisterInv(s, GathererStep(v, s, a), t);
    } else {
      StartPassInv(v, s, a);
    }
  }

  lemma DrainEmptyIs(v: Variant, s: State)
    requires Structure(s) && GathererCan(s, DrainEmpty)
    ensures DrainedStep(s, GathererStep(v, s, DrainEmpty))
  {
  }

  lemma LockStateIs(v: Variant, s: State)
    requires Structure(s) && GathererCan(s, LockState)
    ensures LockStep(s, GathererStep(v, s, LockState), s.states[s.place.i])
  {
  }

  lemma SwapIs(v: Variant, s: State)
    requires Structure(s) && GathererCan(s, Swap)
    ensures SwapStep(s, GathererStep(v, s, Swap), s.states[s.place.i])
  {
  }

  lemma InPassInv(v: Variant, s: State, a: Action)
    requires Inv(s) && GathererCan(s, a) && (a.DrainEmpty? || a.LockState? || a.Swap?)
    ensures Inv(GathererStep(v, s, a))
  {
    InvStructure(s);
    hide Inv, Structure, GathererStep, DrainedStep, LockStep, SwapStep;
    match a
    case DrainEmpty =>
      DrainEmptyIs(v, s);
      DrainedInv(s, GathererStep(v, s, a));
    case LockState =>
      LockStateIs(v, s);
      LockInv(s, GathererStep(v, s, a), s.states[s.place.i]);
    case Swap =>
      SwapIs(v, s);
      SwapInv(s, GathererStep(v, s, a), s.states[s.place.i]);
  }

  lemma AfterPassInv(s: State, s': State, e: Event)
    requires Inv(s) && (s.place.AtState? || s.place.Resolving?) && (e.Ticked? || e.Detailed?)
    requires s' == s.(place := s'.place, queue := s'.queue, details := s'.details,
                      detailsCapacity := s'.detailsCapacity, events := s'.events, g := s'.g)
    requires s'.events == s.events || s'.events == s.events + [e]
    requires s'.place.Idle? || s'.place.Resolving? || s'.place.Done?
    ensures Inv(s')
  {
    hide ThreadInv, History;
    QuietInv(s, s', e);
  }

  lemma EndPassInv(v: Variant, s: State)
    requires Inv(s) && GathererCan(s, EndPass)
    ensures Inv(GathererStep(v, s, EndPass))
  {
    hide Inv, ThreadInv, Handle;
    HandleIs(v, s, Ticked(s.passTime));
    AfterPassInv(s, GathererStep(v, s, EndPass), Ticked(s.passTime));
  }

  lemma FinishInv(v: Variant, s: State)
    requires Inv(s) && GathererCan(s, Finish)
    ensures Inv(GathererStep(v, s, Finish))
  {
    hide Inv, ThreadInv, Handle;
    HandleIs(v, s, Detailed(s.details));
    if s.details == [] {
      assert GathererStep(v, s, Finish) == s.(place := Done);
    }
    AfterPassInv(s, GathererStep(v, s, Finish), Detailed(s.details));
  }

  lemma GathererStepInv(v: Variant, s: State, a: Action)
    requires Inv(s) && GathererCan(s, a)
    ensures Inv(GathererStep(v, s, a))
  {
    hide Inv, HandleData, HandleDetails, ShipLocal, Handle, Grown;
    match a
    case ReceiveResolved(capacity) => HandleDetailsInv(v, s, capacity);
    case LastResolved(capacity) => HandleDetailsInv(v, s, capacity);
    case EndPass => EndPassInv(v, s);
    case Finish => FinishInv(v, s);
    case ReceiveData => BetweenPassesInv(v, s, a);
    case ReceiveRegistration => BetweenPassesInv(v, s, a);
    case StartPass(_, _) => BetweenPassesInv(v, s, a);
    case DrainOne => HandleDataInv(v, s);
    case Ship => ShipLocalInv(v, s);
    case _ => InPassInv(v, s, a);
  }

  // ---------------------------------------------------------------------------------------------
  // The rest of the world, and whole runs

  lemma SpawnInv(s: State, t: ThreadId)
    requires Inv(s) && WorldCan(s, Spawn(t))
    ensures Inv(WorldStep(s, Spawn(t)))
  {
    var s' := WorldStep(s, Spawn(t));
    assert s'.threads.Keys == s.threads.Keys + {t};
    SpawnFresh(s, t);
    forall u | u in s'.threads
      ensures ThreadInv(s', u)
    {
      if u != t {
        SpawnOther(s, t, u);
      }
    }
  }

  lemma SpawnOther(s: State, t: ThreadId, u: ThreadId)
    requires WorldCan(s, Spawn(t)) && u in s.threads && u != t && ThreadInv(s, u)
    ensures ThreadInv(WorldStep(s, Spawn(t)), u)
  {
  }

  lemma SpawnFresh(s: State, t: ThreadId)
    requires Inv(s) && WorldCan(s, Spawn(t))
    ensures ThreadInv(WorldStep(s, Spawn(t)), t) && Structure(WorldStep(s, Spawn(t)))
  {
    assert t !in s.registrations && t !in s.states;
    SpawnStructure(s, t);
    SpawnOwner(s, t);
    SpawnStanding(s, t);
  }

  lemma SpawnStructure(s: State, t: ThreadId)
    requires Structure(s) && t !in s.registrations && t !in s.threads
    ensures Structure(Put(s, t, NEW_THREAD).(registrations := s.registrations + [t]))
  {
  }

  lemma {:induction false} SpawnOwner(s: State, t: ThreadId)
    requires Inv(s) && t !in s.threads
    ensures var s' := Put(s, t, NEW_THREAD).(registrations := s.registrations + [t]);
            OwnerOk(s'.threads[t]) && Fifo(s', t) && Carried(s', t) == [] && InChannel(s'.channel, t) == []
  {
    NothingInChannel(s.channel, t);
    assert Bare([]) + [] == [];
  }

  lemma SpawnStanding(s: State, t: ThreadId)
    requires Inv(s) && t !in s.threads
    ensures Standing(Put(s, t, NEW_THREAD).(registrations := s.registrations + [t]), t)
  {
    NothingInChannel(s.channel, t);
    SpawnOwner(s, t);
    assert t !in s.states;
  }

  lemma {:induction false} NothingInChannel(channel: seq<Flush>, t: ThreadId)
    requires forall m | m in channel :: m.thread != t
    ensures InChannel(channel, t) == []
  {
    if channel != [] {
      assert channel[0] in channel;
      assert forall m :: m in channel[1..] ==> m in channel;
      NothingInChannel(channel[1..], t);
    }
  }

  // Time, the stop request and the resolver's own steps touch nothing that the invariant mentions.
  ghost predicate Unaffected(s: State, s': State) {
    && s'.threads == s.threads && s'.registrations == s.registrations && s'.channel == s.channel
    && s'.place == s.place && s'.states == s.states && s'.local == s.local
    && s'.events == s.events
  }

  lemma UnaffectedInv(s: State, s': State)
    requires Inv(s) && Unaffected(s, s')
    ensures Inv(s')
  {
    forall t | t in s'.threads
      ensures ThreadInv(s', t)
    {
      assert ThreadInv(s, t);
    }
  }

  lemma StepInv(v: Variant, s: State, a: Action)
    requires Inv(s) && Can(s, a)
    ensures Inv(Do(v, s, a))
  {
    hide Inv, OwnerStep, OwnerCan, GathererStep, GathererCan;
    if WorldCan(s, a) {
      if a.Spawn? {
        SpawnInv(s, a.t);
      } else {
        UnaffectedInv(s, WorldStep(s, a));
      }
    } else if OwnerCan(s, a) {
      OwnerStepInv(s, a);
    } else if GathererCan(s, a) {
      GathererStepInv(v, s, a);
    } else {
      UnaffectedInv(s, ResolverStep(s, a));
    }
  }

  // In every state of every run, under every interleaving, the invariant holds.
  lemma {:induction false} RunInv(v: Variant, run: seq<Action>)
    requires IsRun(v, run)
    ensures Inv(Final(v, run))
  {
    if run == [] {
      assert Gather(v, []) == START;
    } else {
      RunInv(v, run[..|run| - 1]);
      StepInv(v, Final(v, run[..|run| - 1]), run[|run| - 1]);
    }
  }
}
