// The order of messages on the wire: life cycles of threads and timestamps.
module WireOrder {
  import opened TrackTypes
  import opened GlobalTree
  import opened Gathering

  // Each thread is created once, its buffers come after that and before its destruction, and it is destroyed
  // at most once.
  ghost predicate WireLives(wire: seq<Message>) {
    forall i | 0 <= i < |wire| ::
      && (wire[i].CreateThread? ==> wire[i] !in wire[..i])
      && (wire[i].Instructions? || wire[i].DestroyThread? ==>
            CreateThread(wire[i].thread) in wire[..i] && DestroyThread(wire[i].thread) !in wire[..i])
  }

  // The same order of the events that the wire reports.
  ghost predicate Lives(events: seq<Event>) {
    events == [] ||
    var front, e := events[..|events| - 1], events[|events| - 1];
    && Lives(front)
    && (e.Registered? ==> e !in front)
    && (e.Delivered? || e.Removed? ==> Registered(e.thread) in front && !Gone(front, e.thread))
  }

  // The timestamp of the last message that carries one.
  function LastStamp(wire: seq<Message>): Time {
    if wire == [] then 0
    else
      var m := wire[|wire| - 1];
      if m.Instructions? || m.Timestamp? then m.timestamp else LastStamp(wire[..|wire| - 1])
  }

  // Timestamps never decrease, and a buffer is stamped with the last announced time.
  ghost predicate WireStamps(wire: seq<Message>) {
    forall i | 0 <= i < |wire| ::
      && (wire[i].Timestamp? ==> LastStamp(wire[..i]) <= wire[i].timestamp)
      && (wire[i].Instructions? ==> LastStamp(wire[..i]) == wire[i].timestamp)
  }

  ghost predicate MayWrite(wire: seq<Message>, m: Message) {
    && (m.CreateThread? ==> m !in wire)
    && (m.Instructions? || m.DestroyThread? ==> CreateThread(m.thread) in wire && DestroyThread(m.thread) !in wire)
  }

  lemma WriteLives(wire: seq<Message>, m: Message)
    requires WireLives(wire) && MayWrite(wire, m)
    ensures WireLives(wire + [m])
  {
    var after := wire + [m];
    forall i | 0 <= i < |after|
      ensures MayWrite(after[..i], after[i])
    {
      if i < |wire| {
        assert after[..i] == wire[..i];
      } else {
        assert after[..i] == wire;
      }
    }
  }

  lemma {:induction false} WriteStamps(wire: seq<Message>, m: Message)
    requires WireStamps(wire)
    requires m.Timestamp? ==> LastStamp(wire) <= m.timestamp
    requires m.Instructions? ==> LastStamp(wire) == m.timestamp
    ensures WireStamps(wire + [m])
    ensures LastStamp(wire + [m]) == if m.Instructions? || m.Timestamp? then m.timestamp else LastStamp(wire)
  {
    var after := wire + [m];
    assert after[..|wire|] == wire;
    forall i | 0 <= i < |after|
      ensures after[i].Timestamp? ==> LastStamp(after[..i]) <= after[i].timestamp
      ensures after[i].Instructions? ==> LastStamp(after[..i]) == after[i].timestamp
    {
      if i < |wire| {
        assert after[..i] == wire[..i];
      }
    }
  }

  // The threads the wire knows are the threads the gatherer knows.
  ghost predicate SameThreads(wire: seq<Message>, events: seq<Event>) {
    forall t: ThreadId ::
      && (CreateThread(t) in wire <==> Registered(t) in events)
      && (DestroyThread(t) in wire <==> Gone(events, t))
  }

  lemma ProcessLives(v: Variant, g: Gathered, events: seq<Event>, e: Event)
    requires g.ok && WireLives(g.wire) && SameThreads(g.wire, events)
    requires e.Registered? ==> e !in events
    requires e.Delivered? || e.Removed? ==> Registered(e.thread) in events && !Gone(events, e.thread)
    requires Process(v, g, e).ok
    ensures WireLives(Process(v, g, e).wire) && SameThreads(Process(v, g, e).wire, events + [e])
  {
    var g' := Process(v, g, e);
    if g'.wire != g.wire {
      var m := g'.wire[|g.wire|];
      assert g'.wire == g.wire + [m];
      WriteLives(g.wire, m);
    }
  }

  // On the wire of every orderly history threads live and die in order.
  lemma {:induction false} GatherLives(v: Variant, events: seq<Event>)
    requires Orderly(events) && Lives(events)
    ensures WireLives(Gather(v, events).wire) && SameThreads(Gather(v, events).wire, events)
  {
    if events != [] {
      var front, e := events[..|events| - 1], events[|events| - 1];
      assert events == front + [e];
      GatherLives(v, front);
      GatherSteady(v, front);
      GatherSteady(v, events);
      ProcessLives(v, Gather(v, front), front, e);
    }
  }

  // The times of the passes, which never go back.
  function LastTick(events: seq<Event>): Time {
    if events == [] then 0
    else
      var e := events[|events| - 1];
      if e.Ticked? then e.time else LastTick(events[..|events| - 1])
  }

  ghost predicate TicksForward(events: seq<Event>) {
    events == [] ||
    var front, e := events[..|events| - 1], events[|events| - 1];
    TicksForward(front) && (e.Ticked? ==> LastTick(front) <= e.time)
  }

  lemma ProcessStamps(v: Variant, g: Gathered, e: Event)
    requires g.ok && WireStamps(g.wire) && LastStamp(g.wire) == g.timestamp && Process(v, g, e).ok
    requires e.Ticked? ==> g.timestamp <= e.time
    ensures var g' := Process(v, g, e);
            && WireStamps(g'.wire) && LastStamp(g'.wire) == g'.timestamp
            && g'.timestamp == if e.Ticked? then e.time else g.timestamp
  {
    var g' := Process(v, g, e);
    if g'.wire != g.wire {
      var m := g'.wire[|g.wire|];
      assert g'.wire == g.wire + [m];
      WriteStamps(g.wire, m);
    }
  }

  // Timestamps on the wire never decrease, and every buffer carries the last announced time.
  lemma {:induction false} GatherStamps(v: Variant, events: seq<Event>)
    requires Orderly(events) && TicksForward(events)
    ensures var g := Gather(v, events);
            WireStamps(g.wire) && LastStamp(g.wire) == g.timestamp == LastTick(events)
  {
    if events != [] {
      var front, e := events[..|events| - 1], events[|events| - 1];
      assert events == front + [e];
      GatherStamps(v, front);
      GatherSteady(v, front);
      GatherSteady(v, events);
      ProcessStamps(v, Gather(v, front), e);
    }
  }

  // Details travel in batches, each stamped with the time of its first frame.
  ghost predicate DetailsStamped(wire: seq<Message>) {
    forall m: Message | m in wire && m.StackDetails? :: m.infos != [] && m.timestamp == m.infos[0].time
  }

  lemma {:induction false} GatherDetails(v: Variant, events: seq<Event>)
    requires forall e: Event | e in events && e.Detailed? :: e.infos != []
    ensures DetailsStamped(Gather(v, events).wire)
  {
    if events != [] {
      var front, e := events[..|events| - 1], events[|events| - 1];
      assert forall x: Event | x in front :: x in events;
      GatherDetails(v, front);
      ProcessDetails(v, Gather(v, front), e);
    }
  }

  lemma ProcessDetails(v: Variant, g: Gathered, e: Event)
    requires DetailsStamped(g.wire) && (e.Detailed? ==> e.infos != [])
    ensures DetailsStamped(Process(v, g, e).wire)
  {
    var written := ProcessWrites(v, g, e);
  }
}
