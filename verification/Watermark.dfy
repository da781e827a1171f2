// What an announced time promises about the data already shipped.
//
// When the gatherer announces time T at the end of a pass, everything pushed before T is on the wire, except
// what a thread had taken from its buffer and not yet sent at the moment the gatherer, holding that thread's
// lock, saw the channel empty.
module Watermark {
  import opened TrackTypes
  import opened GlobalTree
  import opened Gathering
  import opened WireOrder
  import opened Protocol
  import opened ProtocolSafety
  import opened ShutdownTheorems

  // The buffers of t on their way to the gatherer: in the channel, and in its hand.
  function InMessages(channel: seq<Flush>, t: ThreadId): seq<seq<Timed>> {
    if channel == [] then []
    else (if channel[0].thread == t then [channel[0].buffer] else []) + InMessages(channel[1..], t)
  }

  function OnTheWay(s: State, t: ThreadId): seq<seq<Timed>>
    requires t in s.threads
  {
    InMessages(s.channel, t) + if s.threads[t].hand.Some? then [s.threads[t].hand.value] else []
  }

  lemma SameWay(s: State, s': State, t: ThreadId)
    requires t in s.threads && t in s'.threads
    requires s'.channel == s.channel && s'.threads[t].hand == s.threads[t].hand
    ensures OnTheWay(s', t) == OnTheWay(s, t)
  {
  }

  function Joined(buffers: seq<seq<Timed>>): seq<Timed> {
    if buffers == [] then [] else buffers[0] + Joined(buffers[1..])
  }

  lemma {:induction false} InMessagesSnoc(channel: seq<Flush>, m: Flush, t: ThreadId)
    ensures InMessages(channel + [m], t) == InMessages(channel, t) + if m.thread == t then [m.buffer] else []
  {
    if channel == [] {
      assert channel + [m] == [m];
    } else {
      assert (channel + [m])[1..] == channel[1..] + [m];
      InMessagesSnoc(channel[1..], m, t);
      Associate(if channel[0].thread == t then [channel[0].buffer] else [], InMessages(channel[1..], t),
                if m.thread == t then [m.buffer] else []);
    }
  }

  lemma {:induction false} JoinedAppend(a: seq<seq<Timed>>, b: seq<seq<Timed>>)
    ensures Joined(a + b) == Joined(a) + Joined(b)
  {
    if a == [] {
      assert a + b == b;
    } else {
      assert (a + b)[1..] == a[1..] + b;
      JoinedAppend(a[1..], b);
      Associate(a[0], Joined(a[1..]), Joined(b));
    }
  }

  lemma {:induction false} JoinedChannel(channel: seq<Flush>, t: ThreadId)
    ensures Joined(InMessages(channel, t)) == InChannel(channel, t)
  {
    if channel != [] {
      JoinedChannel(channel[1..], t);
      var m := if channel[0].thread == t then [channel[0].buffer] else [];
      JoinedAppend(m, InMessages(channel[1..], t));
      assert m != [] ==> m[1..] == [] && Joined(m) == m[0];
    }
  }

  lemma {:induction false} JoinedOnTheWay(s: State, t: ThreadId)
    requires t in s.threads
    ensures Joined(OnTheWay(s, t)) == InChannel(s.channel, t) + HandOf(s.threads[t])
  {
    JoinedChannel(s.channel, t);
    var hand := if s.threads[t].hand.Some? then [s.threads[t].hand.value] else [];
    JoinedAppend(InMessages(s.channel, t), hand);
    assert hand != [] ==> hand[1..] == [] && Joined(hand) == hand[0];
  }

  ghost predicate NotBefore(xs: seq<Timed>, time: Time) {
    forall i | 0 <= i < |xs| :: time <= xs[i].time
  }

  ghost predicate NoneBefore(buffers: seq<seq<Timed>>, time: Time) {
    forall i | 0 <= i < |buffers| :: NotBefore(buffers[i], time)
  }

  ghost predicate Sorted(xs: seq<Timed>) {
    forall i, j | 0 <= i < j < |xs| :: xs[i].time <= xs[j].time
  }

  ghost predicate InPass(s: State) {
    s.place.AtState? || s.place.Draining? || s.place.Drained? || s.place.Shipping?
  }

  // The buffers on the way were filled at the pass time or later, except perhaps the first one, which is then
  // the one t had in its hand.
  ghost predicate LateOnlyFirst(way: seq<seq<Timed>>, handoff: seq<Timed>, time: Time) {
    NoneBefore(way, time) || (way != [] && way[0] == handoff && NoneBefore(way[1..], time))
  }

  ghost predicate Marked(s: State, t: ThreadId)
    requires t in s.threads && t in s.handoffs
  {
    && LateOnlyFirst(OnTheWay(s, t), s.handoffs[t], s.passTime)
    && ((s.place.Drained? && Holding(s, t)) || NotBefore(s.threads[t].shared.items, s.passTime))
    && Sorted(s.handoffs[t])
  }

  // How many positions of the list were seen with an empty channel in this pass.
  function Visited(s: State): nat {
    if s.place.Drained? then s.place.i + 1 else Served(s)
  }

  ghost predicate Marks(s: State) {
    && (InPass(s) ==> s.passTime <= s.now && LastTick(s.events) <= s.passTime)
    && (InPass(s) ==> forall t | t in s.handoffs :: t in s.threads && Marked(s, t))
    && (InPass(s) ==> forall j | 0 <= j < |s.states| && j < Visited(s) :: s.states[j] in s.handoffs)
    && (s.place.FirstDrain? ==> s.handoffs == map[])
  }

  // Clocks only go forward.
  ghost predicate Clocks(s: State) {
    && LastTick(s.events) <= s.now && TicksForward(s.events)
    && (forall t | t in s.threads :: Stamped(s.threads[t].pushed, s.now))
  }

  ghost predicate Stamped(pushed: seq<Timed>, now: Time) {
    Sorted(pushed) && forall i | 0 <= i < |pushed| :: pushed[i].time <= now
  }

  // ---------------------------------------------------------------------------------------------
  // Steps

  lemma OwnerStepClocks(s: State, a: Action)
    requires Clocks(s) && OwnerCan(s, a)
    ensures Clocks(OwnerStep(s, a))
  {
    OwnerPushes(s, a);
    hide OwnerStep, OwnerCan, LastTick, TicksForward;
    var s' := OwnerStep(s, a);
    forall t | t in s'.threads
      ensures Stamped(s'.threads[t].pushed, s'.now)
    {
      assert Stamped(s.threads[t].pushed, s.now);
    }
  }

  function JustPushed(s: State, a: Action): seq<Timed>
    requires OwnerCan(s, a)
  {
    if a.Push? then [Timed(s.threads[a.t].pending[0], s.now)] else []
  }

  // A step of a thread leaves the clock and the wire alone; what it pushes is stamped with the clock.
  lemma OwnerPushes(s: State, a: Action)
    requires OwnerCan(s, a)
    ensures var s' := OwnerStep(s, a);
            && s'.now == s.now && s'.events == s.events && s'.threads.Keys == s.threads.Keys
            && (forall t | t in s.threads && t != a.t :: s'.threads[t].pushed == s.threads[t].pushed)
            && s'.threads[a.t].pushed == s.threads[a.t].pushed + JustPushed(s, a)
  {
    hide Grown;
    match a
    case Begin(_, _) =>
    case Push(t, _) =>
    case Release(_) =>
    case Take(_) =>
    case Send(_) =>
    case Die(_) =>
  }

  // How a step of t changes what is on its way and in its buffer.
  lemma OwnerStepMarked(s: State, a: Action)
    requires OwnerCan(s, a) && Standing(s, a.t) && a.t in s.handoffs && Marked(s, a.t) && s.passTime <= s.now
    requires OwnerState(s.threads[a.t])
    ensures Marked(OwnerStep(s, a), a.t)
  {
    var s' := OwnerStep(s, a);
    if a.Send? {
      InMessagesSnoc(s.channel, Flush(a.t, s.threads[a.t].hand.value), a.t);
      assert OnTheWay(s', a.t) == OnTheWay(s, a.t);
    } else if a.Take? {
      var items := s.threads[a.t].shared.items;
      assert OnTheWay(s', a.t) == OnTheWay(s, a.t) + [items];
      LateSnoc(OnTheWay(s, a.t), items, s.handoffs[a.t], s.passTime);
    } else {
      assert OnTheWay(s', a.t) == OnTheWay(s, a.t);
    }
  }

  lemma LateSnoc(way: seq<seq<Timed>>, items: seq<Timed>, handoff: seq<Timed>, time: Time)
    requires LateOnlyFirst(way, handoff, time) && NotBefore(items, time)
    ensures LateOnlyFirst(way + [items], handoff, time)
  {
    if !NoneBefore(way, time) {
      assert (way + [items])[1..] == way[1..] + [items];
    }
  }

  lemma OwnStepMarked(s: State, s': State, t: ThreadId, u: ThreadId)
    requires OwnStep(s, s', t) && u != t && u in s.threads && u in s.handoffs && Marked(s, u)
    ensures Marked(s', u)
  {
    if s'.channel != s.channel {
      InMessagesSnoc(s.channel, s'.channel[|s'.channel| - 1], u);
    }
    assert OnTheWay(s', u) == OnTheWay(s, u);
  }

  lemma OwnStepMarks(s: State, s': State, t: ThreadId)
    requires Marks(s) && OwnStep(s, s', t) && (InPass(s) && t in s.handoffs ==> Marked(s', t))
    ensures Marks(s')
  {
    if InPass(s) {
      forall u | u in s'.handoffs
        ensures u in s'.threads && Marked(s', u)
      {
        if u != t {
          OwnStepMarked(s, s', t, u);
        }
      }
    }
  }

  lemma OwnerStepMarks(s: State, a: Action)
    requires Inv(s) && Marks(s) && OwnerCan(s, a)
    ensures Marks(OwnerStep(s, a))
  {
    hide Inv, ThreadInv, OwnerStep, OwnerState, OwnStep, Standing, Marks, Marked;
    InvOwnStep(s, a);
    InvOwner(s, a.t);
    if InPass(s) && a.t in s.handoffs {
      MarksMarked(s, a.t);
      OwnerStepMarked(s, a);
    }
    OwnStepMarks(s, OwnerStep(s, a), a.t);
  }

  lemma LateTail(way: seq<seq<Timed>>, handoff: seq<Timed>, time: Time)
    requires LateOnlyFirst(way, handoff, time) && way != []
    ensures NoneBefore(way[1..], time)
  {
  }

  // Taking a message from the channel takes the first buffer of its thread.
  lemma DrainMarked(s: State, s': State, t: ThreadId)
    requires GathererCan(s, DrainOne) && Moves(s, s', DrainOne)
    requires t in s.threads && t in s.handoffs && Marked(s, t)
    ensures t in s'.threads && t in s'.handoffs && Marked(s', t)
  {
    if s.channel[0].thread == t {
      LateTail(OnTheWay(s, t), s.handoffs[t], s.passTime);
      assert OnTheWay(s', t) == OnTheWay(s, t)[1..];
    } else {
      assert OnTheWay(s', t) == OnTheWay(s, t);
    }
  }

  // A buffer in a thread's hand is a stretch of what it pushed.
  lemma HandSorted(s: State, t: ThreadId)
    requires t in s.threads && Fifo(s, t) && Sorted(s.threads[t].pushed)
    ensures Sorted(HandOf(s.threads[t]))
  {
    var th := s.threads[t];
    var front := Sent(s.events, t) + (Carried(s, t) + InChannel(s.channel, t));
    Middle(Sent(s.events, t), Carried(s, t), InChannel(s.channel, t), HandOf(th), th.shared.items);
    forall i, j | 0 <= i < j < |HandOf(th)|
      ensures HandOf(th)[i].time <= HandOf(th)[j].time
    {
      assert th.pushed[|front| + i] == HandOf(th)[i] && th.pushed[|front| + j] == HandOf(th)[j];
    }
  }

  lemma Middle(a: seq<Timed>, b: seq<Timed>, c: seq<Timed>, d: seq<Timed>, e: seq<Timed>)
    ensures a + (b + (c + (d + e))) == a + (b + c) + d + e
  {
  }

  lemma SeenEmptyMarked(s: State, s': State, t: ThreadId)
    requires Structure(s) && GathererCan(s, DrainEmpty) && s.place.Draining? && Moves(s, s', DrainEmpty)
    requires t in s.threads && t in s'.threads && t in s'.handoffs
    requires Fifo(s, t) && Standing(s, t) && Sorted(s.threads[t].pushed)
    requires t in s.handoffs ==> Marked(s, t)
    ensures t in s'.threads && Marked(s', t)
  {
    if t == s.states[s.place.i] {
      HandSorted(s, t);
      assert Holding(s', t);
      assert InMessages(s'.channel, t) == [];
    } else {
      assert OnTheWay(s', t) == OnTheWay(s, t) && !Holding(s, t) && !Holding(s', t);
    }
  }

  lemma SwapMarked(s: State, s': State, t: ThreadId)
    requires Structure(s) && GathererCan(s, Swap) && Moves(s, s', Swap)
    requires t in s.threads && t in s.handoffs && Marked(s, t)
    ensures t in s'.threads && t in s'.handoffs && Marked(s', t)
  {
    assert OnTheWay(s', t) == OnTheWay(s, t);
    if t != s.states[s.place.i] {
      assert !Holding(s, t);
    }
  }

  lemma MovesMarked(s: State, s': State, a: Action, t: ThreadId)
    requires Inv(s) && Marks(s) && Clocks(s) && GathererCan(s, a) && Moves(s, s', a) && InPass(s) && InPass(s')
    requires t in s'.handoffs
    ensures t in s'.threads && Marked(s', t)
  {
    hide Marked, Moves, Inv;
    InvStructure(s);
    if a.DrainEmpty? {
      EmptyMarked(s, s', t);
    } else {
      HandoffsStay(s, s', a);
      if a.DrainOne? {
        DrainMarked(s, s', t);
      } else if a.Swap? {
        SwapMarked(s, s', t);
      } else {
        QuietMarked(s, s', a, t);
      }
    }
  }

  lemma HandoffsStay(s: State, s': State, a: Action)
    requires GathererCan(s, a) && Moves(s, s', a) && InPass(s) && InPass(s') && !a.DrainEmpty?
    ensures s'.handoffs == s.handoffs
  {
    match a
    case DrainOne =>
    case LockState =>
    case Swap =>
    case Ship =>
    case _ =>
  }

  lemma MarksMarked(s: State, t: ThreadId)
    requires Marks(s) && InPass(s) && t in s.handoffs
    ensures t in s.threads && Marked(s, t) && s.passTime <= s.now
  {
    hide Marked;
  }

  lemma KnownHandoffs(s: State, s': State, t: ThreadId)
    requires Marks(s) && GathererCan(s, DrainEmpty) && Moves(s, s', DrainEmpty) && InPass(s) && t in s'.handoffs
    ensures t in s.threads && t in s'.threads && (t in s.handoffs ==> Marked(s, t))
  {
    hide Marks, Marked, HandOf;
    assert s'.threads == s.threads;
    if t in s.handoffs {
      MarksMarked(s, t);
    } else {
      assert s.place.Draining? && t == s.states[s.place.i];
    }
  }

  lemma EmptyMarked(s: State, s': State, t: ThreadId)
    requires Inv(s) && Marks(s) && Clocks(s) && GathererCan(s, DrainEmpty) && Moves(s, s', DrainEmpty) && InPass(s)
    requires t in s'.handoffs
    ensures t in s'.threads && Marked(s', t)
  {
    hide Marked, Inv, ThreadInv, LastTick, TicksForward, Sorted, Moves;
    KnownHandoffs(s, s', t);
    InvStructure(s);
    assert s.states[s.place.i] in s.states;
    InvOwner(s, t);
    assert Stamped(s.threads[t].pushed, s.now);
    SeenEmptyMarked(s, s', t);
  }

  lemma QuietMarked(s: State, s': State, a: Action, t: ThreadId)
    requires GathererCan(s, a) && Moves(s, s', a) && InPass(s) && InPass(s')
    requires !a.DrainOne? && !a.DrainEmpty? && !a.Swap? && t in s.threads && t in s.handoffs && Marked(s, t)
    ensures t in s'.threads && t in s'.handoffs && Marked(s', t)
  {
    assert a.LockState? || a.Ship?;
    assert OnTheWay(s', t) == OnTheWay(s, t);
    assert s'.threads[t].shared == s.threads[t].shared && !s.place.Drained?;
  }

  lemma MovesVisited(s: State, s': State, a: Action)
    requires Structure(s) && Marks(s) && GathererCan(s, a) && Moves(s, s', a) && InPass(s) && InPass(s')
    ensures forall j | 0 <= j < |s'.states| && j < Visited(s') :: s'.states[j] in s'.handoffs
  {
    hide Marked;
    forall j | 0 <= j < |s'.states| && j < Visited(s')
      ensures s'.states[j] in s'.handoffs
    {
      StillVisited(s, s', a, j);
    }
  }

  lemma StillVisited(s: State, s': State, a: Action, j: nat)
    requires Structure(s) && Marks(s) && GathererCan(s, a) && Moves(s, s', a) && InPass(s) && InPass(s')
    requires j < |s'.states| && j < Visited(s')
    ensures s'.states[j] in s'.handoffs
  {
    hide Marks, HasRoom;
    match a
    case DrainOne => MarksVisited(s, j);
    case DrainEmpty => if j != s.place.i { MarksVisited(s, j); }
    case LockState => MarksVisited(s, j);
    case Swap => MarksVisited(s, j);
    case Ship => MarksVisited(s, j);
    case _ =>
  }

  lemma MarksVisited(s: State, j: nat)
    requires Marks(s) && InPass(s) && j < |s.states| && j < Visited(s)
    ensures s.states[j] in s.handoffs
  {
    hide Marked;
  }

  lemma MovesMarks(s: State, s': State, a: Action)
    requires Inv(s) && Marks(s) && Clocks(s) && GathererCan(s, a) && Moves(s, s', a)
    requires InPass(s') ==> LastTick(s'.events) == LastTick(s.events)
    ensures Marks(s')
  {
    if InPass(s') && InPass(s) {
      StayMarks(s, s', a);
    } else {
      BoundaryMarks(s, s', a);
    }
  }

  lemma StayMarks(s: State, s': State, a: Action)
    requires Inv(s) && Marks(s) && Clocks(s) && GathererCan(s, a) && Moves(s, s', a) && InPass(s) && InPass(s')
    requires LastTick(s'.events) == LastTick(s.events)
    ensures Marks(s')
  {
    hide Inv, Marked, Moves, Clocks, GathererCan;
    InvStructure(s);
    MovesVisited(s, s', a);
    PassTimeStays(s, s', a);
    forall t | t in s'.handoffs
      ensures t in s'.threads && Marked(s', t)
    {
      MovesMarked(s, s', a, t);
    }
  }

  lemma PassTimeStays(s: State, s': State, a: Action)
    requires GathererCan(s, a) && Moves(s, s', a) && InPass(s) && InPass(s')
    ensures s'.passTime == s.passTime && s'.now == s.now
  {
    match a
    case DrainOne =>
    case DrainEmpty =>
    case LockState =>
    case Swap =>
    case Ship =>
    case _ =>
  }

  // Before and after a pass, and when it begins.
  lemma BoundaryMarks(s: State, s': State, a: Action)
    requires Marks(s) && Clocks(s) && GathererCan(s, a) && Moves(s, s', a) && !(InPass(s) && InPass(s'))
    requires InPass(s') ==> LastTick(s'.events) == LastTick(s.events)
    ensures Marks(s')
  {
    hide Marked, Moves, Grown, TicksForward, Stamped;
    if InPass(s') {
      EntersPass(s, s', a);
    } else if s'.place.FirstDrain? {
      FirstHandoffs(s, s', a);
    }
  }

  // A pass proper is entered when its first drain has seen the channel empty.
  lemma EntersPass(s: State, s': State, a: Action)
    requires GathererCan(s, a) && Moves(s, s', a) && !InPass(s) && InPass(s')
    ensures s.place.FirstDrain? && s' == s.(place := AtState(0), passTime := s.now)
  {
    hide Grown;
  }

  lemma FirstHandoffs(s: State, s': State, a: Action)
    requires GathererCan(s, a) && Moves(s, s', a) && s'.place.FirstDrain?
    requires s.place.FirstDrain? ==> s.handoffs == map[]
    ensures s'.handoffs == map[]
  {
    match a
    case StartPass(_, _) =>
    case DrainOne =>
    case DrainEmpty =>
    case _ =>
  }

  // Only the end of a pass announces a time.
  lemma StepTicks(s: State, a: Action)
    requires GathererCan(s, a) && TicksForward(s.events) && LastTick(s.events) <= s.now
    requires a.EndPass? ==> LastTick(s.events) <= s.passTime <= s.now
    ensures var events := s.events + NewEvents(s, a);
            && TicksForward(events) && LastTick(events) <= s.now
            && (!a.EndPass? ==> LastTick(events) == LastTick(s.events))
  {
    if a.EndPass? {
      TickSnoc(s.events, Ticked(s.passTime));
    } else {
      OnlyEndPassTicks(s, a);
      QuietTicks(s.events, NewEvents(s, a));
    }
  }

  lemma OnlyEndPassTicks(s: State, a: Action)
    requires !a.EndPass?
    ensures forall i | 0 <= i < |NewEvents(s, a)| :: !NewEvents(s, a)[i].Ticked?
  {
  }

  lemma {:induction false} QuietTicks(events: seq<Event>, more: seq<Event>)
    requires forall i | 0 <= i < |more| :: !more[i].Ticked?
    ensures LastTick(events + more) == LastTick(events)
    ensures TicksForward(events + more) <==> TicksForward(events)
  {
    if more == [] {
      assert events + more == events;
    } else {
      assert (events + more) == (events + more[..|more| - 1]) + [more[|more| - 1]];
      QuietTicks(events, more[..|more| - 1]);
      TickSnoc(events + more[..|more| - 1], more[|more| - 1]);
    }
  }

  lemma {:induction false} TickSnoc(events: seq<Event>, e: Event)
    ensures LastTick(events + [e]) == if e.Ticked? then e.time else LastTick(events)
    ensures TicksForward(events + [e]) <==> TicksForward(events) && (e.Ticked? ==> LastTick(events) <= e.time)
  {
    assert (events + [e])[..|events|] == events;
  }

  lemma MovesStamped(s: State, s': State, a: Action)
    requires GathererCan(s, a) && Moves(s, s', a) && forall t | t in s.threads :: Stamped(s.threads[t].pushed, s.now)
    ensures s'.now == s.now && forall t | t in s'.threads :: Stamped(s'.threads[t].pushed, s'.now)
  {
    MovesKeepsThreads(s, s', a);
    hide Stamped, Moves, GathererCan;
    forall t | t in s'.threads
      ensures Stamped(s'.threads[t].pushed, s'.now)
    {
      assert Stamped(s.threads[t].pushed, s.now);
    }
  }

  // Steps that leave buffers, hands and the gatherer alone.
  ghost predicate Bystander(s: State, s': State) {
    && s.now <= s'.now
    && s'.channel == s.channel && s'.place == s.place && s'.states == s.states && s'.handoffs == s.handoffs
    && s'.passTime == s.passTime && s'.events == s.events && s'.served == s.served
    && (forall t | t in s.threads :: t in s'.threads && s'.threads[t] == s.threads[t])
    && (forall t | t in s'.threads && t !in s.threads :: s'.threads[t] == NEW_THREAD)
  }

  lemma BystanderMarks(s: State, s': State)
    requires Marks(s) && Clocks(s) && Bystander(s, s')
    ensures Marks(s') && Clocks(s')
  {
    forall t | t in s'.threads
      ensures Stamped(s'.threads[t].pushed, s'.now)
    {
      assert t in s.threads ==> Stamped(s.threads[t].pushed, s.now);
    }
    if InPass(s) {
      forall t | t in s'.handoffs
        ensures t in s'.threads && Marked(s', t)
      {
        assert Marked(s, t);
        assert OnTheWay(s', t) == OnTheWay(s, t);
      }
    }
  }

  lemma LeavesPass(s: State, s': State)
    requires Moves(s, s', EndPass)
    ensures !InPass(s')
  {
  }

  lemma GathererMarks(s: State, s': State, a: Action)
    requires Inv(s) && Marks(s) && Clocks(s) && GathererCan(s, a)
    requires Moves(s, s', a) && s'.events == s.events + NewEvents(s, a)
    ensures Marks(s') && Clocks(s')
  {
    hide Inv, Marked, Stamped, NewEvents, Moves;
    StepTicks(s, a);
    if a.EndPass? {
      LeavesPass(s, s');
    }
    MovesMarks(s, s', a);
    MovesStamped(s, s', a);
  }

  lemma WorldIsBystander(s: State, a: Action)
    requires Inv(s) && WorldCan(s, a)
    ensures Bystander(s, WorldStep(s, a))
  {
  }

  lemma ResolverIsBystander(s: State, a: Action)
    requires ResolverCan(s, a)
    ensures Bystander(s, ResolverStep(s, a))
  {
  }

  lemma StepMarks(v: Variant, s: State, a: Action)
    requires Inv(s) && Marks(s) && Clocks(s) && Can(s, a)
    ensures Marks(Do(v, s, a)) && Clocks(Do(v, s, a))
  {
    hide Inv, Marks, Clocks, GathererStep, OwnerStep, OwnerCan, GathererCan, WorldCan, WorldStep, ResolverStep,
         ResolverCan, NewEvents, Moves;
    if WorldCan(s, a) {
      WorldIsBystander(s, a);
      BystanderMarks(s, WorldStep(s, a));
    } else if OwnerCan(s, a) {
      OwnerStepMarks(s, a);
      OwnerStepClocks(s, a);
    } else if GathererCan(s, a) {
      GathererMoves(v, s, a);
      GathererEvents(v, s, a);
      GathererMarks(s, GathererStep(v, s, a), a);
    } else {
      ResolverIsBystander(s, a);
      BystanderMarks(s, ResolverStep(s, a));
    }
  }

  lemma {:induction false} RunMarks(v: Variant, run: seq<Action>)
    requires IsRun(v, run)
    ensures Marks(Final(v, run)) && Clocks(Final(v, run))
  {
    if run != [] {
      RunMarks(v, run[..|run| - 1]);
      RunInv(v, run[..|run| - 1]);
      StepMarks(v, Final(v, run[..|run| - 1]), run[|run| - 1]);
    }
  }

  // ---------------------------------------------------------------------------------------------
  // The announcement

  // What t pushed and the gatherer has not processed.
  function Unshipped(s: State, t: ThreadId): seq<Timed>
    requires t in s.threads
  {
    InChannel(s.channel, t) + HandOf(s.threads[t]) + s.threads[t].shared.items
  }

  // The buffer t had in its hand when the gatherer saw the channel empty under its lock is still on its way,
  // and was begun before the announced time.
  ghost predicate LateHandoff(s: State, t: ThreadId)
    requires t in s.threads
  {
    && t in s.handoffs && s.handoffs[t] != [] && s.handoffs[t][0].time < s.passTime
    && OnTheWay(s, t) != [] && OnTheWay(s, t)[0] == s.handoffs[t]
  }

  // When a time is about to be announced, all data pushed before it has been shipped if and only if no such
  // hand-off is in flight, and whatever is late belongs to one.
  lemma {:induction false} WatermarkExactly(v: Variant, run: seq<Action>, t: ThreadId)
    requires IsRun(v, run) && GathererCan(Final(v, run), EndPass) && t in Final(v, run).threads
    ensures var s := Final(v, run);
            var late := Unshipped(s, t);
            && s.threads[t].pushed == Sent(s.events, t) + late
            && (NotBefore(late, s.passTime) <==> !LateHandoff(s, t))
            && forall i | 0 <= i < |late| && late[i].time < s.passTime ::
                 t in s.handoffs && i < |s.handoffs[t]| && late[i] == s.handoffs[t][i]
  {
    RunInv(v, run);
    RunMarks(v, run);
    EndOfPass(Final(v, run), t);
  }

  lemma {:induction false} EndOfPass(s: State, t: ThreadId)
    requires Inv(s) && Marks(s) && GathererCan(s, EndPass) && t in s.threads
    ensures var late := Unshipped(s, t);
            && s.threads[t].pushed == Sent(s.events, t) + late
            && (NotBefore(late, s.passTime) <==> !LateHandoff(s, t))
            && forall i | 0 <= i < |late| && late[i].time < s.passTime ::
                 t in s.handoffs && i < |s.handoffs[t]| && late[i] == s.handoffs[t][i]
  {
    assert ThreadInv(s, t);
    NothingCarried(s, t);
    if t in s.states {
      OnTheList(s, t);
    } else {
      OffTheList(s, t);
    }
  }

  // Between the turns of two threads the gatherer carries nothing.
  lemma {:induction false} NothingCarried(s: State, t: ThreadId)
    requires GathererCan(s, EndPass) && t in s.threads && Fifo(s, t)
    ensures s.threads[t].pushed == Sent(s.events, t) + Unshipped(s, t)
  {
    assert Carried(s, t) == [];
    Ungroup(Sent(s.events, t), InChannel(s.channel, t), HandOf(s.threads[t]), s.threads[t].shared.items);
  }

  // Every thread on the list has been served by the end of the pass.
  lemma OnTheList(s: State, t: ThreadId)
    requires Marks(s) && GathererCan(s, EndPass) && t in s.threads && t in s.states
    ensures t in s.handoffs
    ensures var late := Unshipped(s, t);
            && (NotBefore(late, s.passTime) <==> !LateHandoff(s, t))
            && forall i | 0 <= i < |late| && late[i].time < s.passTime ::
                 i < |s.handoffs[t]| && late[i] == s.handoffs[t][i]
  {
    hide LateOnlyFirst, Sorted, NotBefore, OnTheWay, Joined;
    var j :| 0 <= j < |s.states| && s.states[j] == t;
    assert Visited(s) >= |s.states|;
    assert t in s.handoffs && Marked(s, t);
    JoinedOnTheWay(s, t);
    LateOnly(OnTheWay(s, t), s.handoffs[t], s.passTime, s.threads[t].shared.items);
  }

  // A thread that is not on the list has nothing unprocessed.
  lemma OffTheList(s: State, t: ThreadId)
    requires Inv(s) && t in s.threads && t !in s.states
    ensures Unshipped(s, t) == [] && OnTheWay(s, t) == []
  {
    assert ThreadInv(s, t);
    var th := s.threads[t];
    if !th.registered {
      assert |th.pushed| == 0;
      var rest := InChannel(s.channel, t) + (HandOf(th) + th.shared.items);
      assert |Carried(s, t) + rest| == 0;
      assert |rest| == 0;
    }
    NothingOnTheWay(s, t);
  }

  lemma Ungroup(a: seq<Timed>, c: seq<Timed>, d: seq<Timed>, e: seq<Timed>)
    ensures a + ([] + (c + (d + e))) == a + (c + d + e)
  {
  }

  lemma {:induction false} NothingOnTheWay(s: State, t: ThreadId)
    requires Inv(s) && t in s.threads && InChannel(s.channel, t) == [] && HandOf(s.threads[t]) == []
    ensures OnTheWay(s, t) == []
  {
    assert ThreadInv(s, t);
    NoMessages(s.channel, t);
  }

  lemma {:induction false} NoMessages(channel: seq<Flush>, t: ThreadId)
    requires InChannel(channel, t) == [] && forall m | m in channel :: m.buffer != []
    ensures InMessages(channel, t) == []
  {
    if channel != [] {
      assert channel[0] in channel;
      assert |InChannel(channel, t)| == 0;
      assert forall m :: m in channel[1..] ==> m in channel;
      NoMessages(channel[1..], t);
    }
  }

  lemma {:induction false} JoinedNotBefore(buffers: seq<seq<Timed>>, time: Time)
    requires NoneBefore(buffers, time)
    ensures NotBefore(Joined(buffers), time)
  {
    if buffers != [] {
      assert NotBefore(buffers[0], time);
      forall i | 0 <= i < |buffers[1..]|
        ensures NotBefore(buffers[1..][i], time)
      {
        assert buffers[1..][i] == buffers[i + 1];
      }
      JoinedNotBefore(buffers[1..], time);
    }
  }

  lemma {:induction false} LateOnly(way: seq<seq<Timed>>, handoff: seq<Timed>, time: Time, items: seq<Timed>)
    requires LateOnlyFirst(way, handoff, time) && NotBefore(items, time) && Sorted(handoff)
    ensures var late := Joined(way) + items;
            && (NotBefore(late, time) <==> !(handoff != [] && handoff[0].time < time && way != [] && way[0] == handoff))
            && forall i | 0 <= i < |late| && late[i].time < time :: i < |handoff| && late[i] == handoff[i]
  {
    var late := Joined(way) + items;
    if NoneBefore(way, time) {
      JoinedNotBefore(way, time);
      if way != [] && way[0] == handoff {
        assert NotBefore(way[0], time);
      }
    } else {
      JoinedNotBefore(way[1..], time);
      assert late == handoff + (Joined(way[1..]) + items);
      assert handoff != [] && late[0] == handoff[0];
      if NotBefore(handoff, time) {
        FirstDecides(way, time);
        assert false;
      }
      var i :| 0 <= i < |handoff| && handoff[i].time < time;
      assert handoff[0].time <= handoff[i].time;
    }
  }

  lemma FirstDecides(way: seq<seq<Timed>>, time: Time)
    requires way != [] && NoneBefore(way[1..], time) && NotBefore(way[0], time)
    ensures NoneBefore(way, time)
  {
    forall i | 0 <= i < |way|
      ensures NotBefore(way[i], time)
    {
      if i > 0 {
        assert way[i] == way[1..][i - 1];
      }
    }
  }
}
