// The gatherer as a function of what reaches it: every event in order, and the wire it writes.
module Gathering {
  import opened Frames
  import opened TrackTypes
  import opened GlobalTree
  import opened Translation

  datatype Event =
    | Registered(thread: ThreadId)
    | Delivered(thread: ThreadId, buffer: seq<Timed>)
    | Removed(thread: ThreadId)
    | Ticked(time: Time)
    | Detailed(infos: seq<StackInfo>)

  // `ok` is false once the gatherer has panicked.
  datatype Gathered = Gathered(ok: bool, log: Log, tables: map<ThreadId, seq<nat>>, timestamp: Time,
                               wire: seq<Message>)

  const START: Gathered := Gathered(true, [], map[], 0, [])

  // The numbering table of a thread; an unknown thread gets a fresh one.
  function Table(tables: map<ThreadId, seq<nat>>, thread: ThreadId): seq<nat> {
    if thread in tables then tables[thread] else [0]
  }

  function Process(v: Variant, g: Gathered, e: Event): Gathered {
    if !g.ok then g
    else match e
      case Registered(thread) => g.(wire := g.wire + [CreateThread(thread)])
      case Delivered(thread, buffer) =>
        if buffer == [] then g
        else
          var r := Translate(v, g.log, Table(g.tables, thread), buffer);
          if !r.ok then g.(ok := false)
          else Gathered(true, r.log, g.tables[thread := r.table], g.timestamp,
                        g.wire + [Instructions(g.timestamp, thread, r.out)])
      case Removed(thread) => g.(tables := g.tables - {thread}, wire := g.wire + [DestroyThread(thread)])
      case Ticked(time) => g.(timestamp := time, wire := g.wire + [Timestamp(time)])
      case Detailed(infos) =>
        g.(wire := g.wire + [StackDetails(if infos == [] then 0 else infos[0].time, infos)])
  }

  function Gather(v: Variant, events: seq<Event>): Gathered {
    if events == [] then START
    else Process(v, Gather(v, events[..|events| - 1]), events[|events| - 1])
  }

  lemma {:induction false} GatherSnoc(v: Variant, events: seq<Event>, e: Event)
    ensures Gather(v, events + [e]) == Process(v, Gather(v, events), e)
  {
    assert (events + [e])[..|events|] == events;
  }

  // ---------------------------------------------------------------------------------------------
  // Input and output per thread

  // Everything delivered from a thread.
  function Sent(events: seq<Event>, thread: ThreadId): seq<Timed> {
    if events == [] then []
    else
      var e := events[|events| - 1];
      Sent(events[..|events| - 1], thread) +
      if e.Delivered? && e.thread == thread then e.buffer else []
  }

  ghost predicate Gone(events: seq<Event>, thread: ThreadId) {
    Removed(thread) in events
  }

  // Every thread's instructions are self-contained, and nothing arrives from a removed thread.
  ghost predicate Orderly(events: seq<Event>) {
    events == [] ||
    var front, e := events[..|events| - 1], events[|events| - 1];
    && Orderly(front)
    && (e.Delivered? ==> !Gone(front, e.thread) && SelfContained(Bare(Sent(events, e.thread))))
  }

  // The buffers written to the wire, of one thread or of all.
  function WireOf(wire: seq<Message>, thread: ThreadId): seq<Timed> {
    if wire == [] then []
    else
      var m := wire[|wire| - 1];
      WireOf(wire[..|wire| - 1], thread) +
      if m.Instructions? && m.thread == thread then m.buffer else []
  }

  function Stream(wire: seq<Message>): seq<Timed> {
    if wire == [] then []
    else
      var m := wire[|wire| - 1];
      Stream(wire[..|wire| - 1]) + if m.Instructions? then m.buffer else []
  }

  // The frames whose details are on the wire.
  function Written(wire: seq<Message>): seq<StackInfo> {
    if wire == [] then []
    else
      var m := wire[|wire| - 1];
      Written(wire[..|wire| - 1]) + if m.StackDetails? then m.infos else []
  }

  lemma {:induction false} WireSnoc(wire: seq<Message>, m: Message, thread: ThreadId)
    ensures WireOf(wire + [m], thread) ==
            WireOf(wire, thread) + if m.Instructions? && m.thread == thread then m.buffer else []
    ensures Stream(wire + [m]) == Stream(wire) + if m.Instructions? then m.buffer else []
  {
    assert (wire + [m])[..|wire|] == wire;
  }

  lemma {:induction false} WrittenSnoc(wire: seq<Message>, m: Message)
    ensures Written(wire + [m]) == Written(wire) + if m.StackDetails? then m.infos else []
  {
    assert (wire + [m])[..|wire|] == wire;
  }

  // An event writes at most one message, of its own kind.
  lemma ProcessWrites(v: Variant, g: Gathered, e: Event) returns (written: seq<Message>)
    ensures Process(v, g, e).wire == g.wire + written && |written| <= 1
    ensures written != [] ==>
              && (written[0].Instructions? <==> e.Delivered?)
              && (written[0].StackDetails? <==> e.Detailed?)
              && (e.Detailed? ==> written[0].infos == e.infos)
    ensures e.Detailed? && g.ok ==> written != []
  {
    var g' := Process(v, g, e);
    written := g'.wire[|g.wire|..];
  }

  // Events other than a delivery leave the frames and the buffers on the wire alone.
  lemma {:induction false} ProcessOther(v: Variant, g: Gathered, e: Event, thread: ThreadId)
    requires !e.Delivered? || e.buffer == []
    ensures var g' := Process(v, g, e);
            && g'.log == g.log && g'.ok == g.ok
            && WireOf(g'.wire, thread) == WireOf(g.wire, thread) && Stream(g'.wire) == Stream(g.wire)
  {
    var g' := Process(v, g, e);
    if g'.wire != g.wire {
      WireSnoc(g.wire, g'.wire[|g'.wire| - 1], thread);
    }
  }

  ghost function Local(events: seq<Event>, thread: ThreadId): Log {
    LogOf(Bare(Sent(events, thread)))
  }

  // ---------------------------------------------------------------------------------------------
  // The gatherer never panics and every live thread's numbering stays aligned

  ghost predicate Steady(v: Variant, g: Gathered, events: seq<Event>) {
    && g.ok && GlobalOk(v, g.log)
    && forall t :: !Gone(events, t) ==> Aligned(v, g.log, Table(g.tables, t), Local(events, t))
  }

  lemma StartAligned(v: Variant)
    ensures Aligned(v, [], [0], [])
  {
  }

  lemma {:induction false} GatherSteady(v: Variant, events: seq<Event>)
    requires Orderly(events)
    ensures Steady(v, Gather(v, events), events)
  {
    if events == [] {
      StartAligned(v);
      assert Bare([]) == [];
    } else {
      var front, e := events[..|events| - 1], events[|events| - 1];
      assert events == front + [e];
      GatherSteady(v, front);
      ProcessSteady(v, Gather(v, front), front, e);
    }
  }

  lemma {:induction false} SentSnoc(events: seq<Event>, e: Event, thread: ThreadId)
    ensures Sent(events + [e], thread) ==
            Sent(events, thread) + if e.Delivered? && e.thread == thread then e.buffer else []
    ensures Gone(events, thread) ==> Gone(events + [e], thread)
    ensures Gone(events + [e], thread) ==> Gone(events, thread) || e == Removed(thread)
  {
    assert (events + [e])[..|events|] == events;
  }

  lemma {:induction false} ProcessSteady(v: Variant, g: Gathered, events: seq<Event>, e: Event)
    requires Steady(v, g, events) && Orderly(events + [e])
    ensures Steady(v, Process(v, g, e), events + [e])
  {
    var after := events + [e];
    var g' := Process(v, g, e);
    assert after[..|events|] == events;
    if e.Delivered? {
      DeliverSteady(v, g, events, e.thread, e.buffer);
    } else {
      forall t | !Gone(after, t)
        ensures Aligned(v, g'.log, Table(g'.tables, t), Local(after, t))
      {
        SentSnoc(events, e, t);
        assert Sent(after, t) == Sent(events, t);
        assert e != Removed(t);
      }
    }
  }

  lemma {:induction false} DeliverSteady(v: Variant, g: Gathered, events: seq<Event>, thread: ThreadId,
                                         buffer: seq<Timed>)
    requires Steady(v, g, events) && !Gone(events, thread)
    requires SelfContained(Bare(Sent(events + [Delivered(thread, buffer)], thread)))
    ensures Steady(v, Process(v, g, Delivered(thread, buffer)), events + [Delivered(thread, buffer)])
  {
    var e := Delivered(thread, buffer);
    var g' := Process(v, g, e);
    var done := Bare(Sent(events, thread));
    SentSnoc(events, e, thread);
    BareAppend(Sent(events, thread), buffer);
    TranslateAligned(v, g.log, Table(g.tables, thread), done, buffer);
    forall t | !Gone(events + [e], t)
      ensures Aligned(v, g'.log, Table(g'.tables, t), Local(events + [e], t))
    {
      SentSnoc(events, e, t);
      if t != thread {
        assert Sent(events + [e], t) == Sent(events, t);
        AlignedStable(v, g.log, g'.log, Table(g.tables, t), Local(events, t));
      } else if buffer == [] {
        assert Sent(events + [e], t) == Sent(events, t);
      }
    }
  }
}
