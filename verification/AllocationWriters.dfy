// The objects through which a tracked thread logs its allocator calls.
module AllocationWriters {
  import opened Frames
  import opened TrackTypes
  import opened TraceTrees
  import opened Writer
  import opened Protocol
  import opened ProtocolSafety
  import opened ThreadStates

  class Clock {
    var now: Time

    constructor ()
      ensures now == 0
    {
      now := 0;
    }

    method Elapsed() returns (time: Time)
      modifies this
      ensures old(now) <= now == time
    {
      time := now;
    }
  }

  // The handle's sending end of the data channel.
  class GatherHandle {
    var sent: seq<Flush>

    constructor ()
      ensures sent == []
    {
      sent := [];
    }

    method Send(flush: Flush)
      modifies this
      ensures sent == old(sent) + [flush]
    {
      sent := sent + [flush];
    }
  }

  // Times that never go back, within [from, to].
  ghost predicate Forward(from: Time, xs: seq<Timed>, to: Time) {
    && from <= to
    && (forall i | 0 <= i < |xs| :: from <= xs[i].time <= to)
    && forall i, j | 0 <= i < j < |xs| :: xs[i].time <= xs[j].time
  }

  lemma ForwardAppend(a: Time, xs: seq<Timed>, b: Time, ys: seq<Timed>, c: Time)
    requires Forward(a, xs, b) && Forward(b, ys, c)
    ensures Forward(a, xs + ys, c)
  {
  }

  class TraceBuffer {
    const handle: GatherHandle
    const state: ThreadState
    const clock: Clock

    // Everything that was ever pushed.
    ghost var pushed: seq<Timed>

    // Between pushes the buffer has room, or is a fresh one.
    ghost predicate Valid()
      reads this, state
    {
      HasRoom(state.buffer)
    }

    // What is on its way to the gatherer, oldest first: what was sent, then what is in the buffer.
    ghost function Outgoing(): seq<Timed>
      reads state, handle
    {
      InChannel(handle.sent, state.thread) + state.buffer.items
    }

    constructor (handle: GatherHandle, thread: ThreadId, clock: Clock)
      ensures Valid() && fresh(state) && state.thread == thread && state.buffer.items == [] && !state.dead
      ensures this.handle == handle && this.clock == clock && pushed == []
    {
      this.handle, this.clock := handle, clock;
      state := new ThreadState(thread);
      pushed := [];
    }

    // Append a timestamped instruction; a buffer that is full is taken and sent.
    method Push(instr: Instr)
      requires Valid()
      modifies this, state`buffer, handle, clock
      ensures Valid() && old(clock.now) <= clock.now
      ensures var x := Timed(instr, clock.now);
              && pushed == old(pushed) + [x] && Outgoing() == old(Outgoing()) + [x]
              && if handle.sent == old(handle.sent) then
                   state.buffer.items == old(state.buffer.items) + [x] && CAPACITY <= state.buffer.capacity
                 else
                   && state.buffer == Buffer([], 0) && |old(state.buffer.items)| + 1 >= CAPACITY
                   && handle.sent == old(handle.sent) + [Flush(state.thread, old(state.buffer.items) + [x])]
      ensures old(state.buffer.capacity) >= CAPACITY ==>
                (handle.sent != old(handle.sent) <==> |old(state.buffer.items)| + 1 == old(state.buffer.capacity))
    {
      var buffer := state.buffer;
      if buffer.capacity < CAPACITY {
        var capacity := Reserve(|buffer.items|, buffer.capacity);
        buffer := buffer.(capacity := capacity);
      }
      var time := clock.Elapsed();
      var x := Timed(instr, time);
      buffer := buffer.(items := buffer.items + [x]);
      pushed := pushed + [x];
      state.buffer := buffer;
      if |buffer.items| == buffer.capacity {
        state.buffer := Buffer([], 0);
        InChannelSnoc(handle.sent, Flush(state.thread, buffer.items), state.thread);
        handle.Send(Flush(state.thread, buffer.items));
      }
    }
  }

  class AllocationWriter {
    const traceTree: TraceTree
    const traceBuffer: TraceBuffer

    // The calls handled so far.
    ghost var calls: seq<Call>

    // The trie and everything pushed are what the calls call for.
    ghost predicate Valid()
      reads this, traceTree, traceTree.repr, traceBuffer, traceBuffer.state
    {
      && {this, traceBuffer, traceBuffer.state, traceBuffer.handle, traceBuffer.clock} !! traceTree.repr
      && traceTree.Valid() && traceBuffer.Valid()
      && EncodeAll(calls) == Encoded(traceTree.log, Bare(traceBuffer.pushed))
    }

    constructor (handle: GatherHandle, thread: ThreadId, clock: Clock)
      ensures Valid() && calls == [] && fresh(traceTree) && fresh(traceTree.repr)
      ensures fresh(traceBuffer) && fresh(traceBuffer.state)
      ensures traceBuffer.handle == handle && traceBuffer.state.thread == thread && traceBuffer.clock == clock
    {
      traceTree := new TraceTree();
      traceBuffer := new TraceBuffer(handle, thread, clock);
      calls := [];
    }

    // Instructions pushed one after the other.
    method PushAll(instrs: seq<Instr>)
      requires traceBuffer.Valid()
      modifies traceBuffer, traceBuffer.state`buffer, traceBuffer.handle, traceBuffer.clock
      ensures traceBuffer.Valid()
      ensures Pushes(old(traceBuffer.pushed), traceBuffer.pushed, instrs,
                     old(traceBuffer.clock.now), traceBuffer.clock.now)
      ensures Pushes(old(traceBuffer.Outgoing()), traceBuffer.Outgoing(), instrs,
                     old(traceBuffer.clock.now), traceBuffer.clock.now)
    {
      ghost var more := [];
      var i := 0;
      while i < |instrs|
        invariant 0 <= i <= |instrs| && traceBuffer.Valid()
        invariant traceBuffer.pushed == old(traceBuffer.pushed) + more
        invariant traceBuffer.Outgoing() == old(traceBuffer.Outgoing()) + more
        invariant Bare(more) == instrs[..i] && Forward(old(traceBuffer.clock.now), more, traceBuffer.clock.now)
      {
        traceBuffer.Push(instrs[i]);
        more := more + [Timed(instrs[i], traceBuffer.clock.now)];
        i := i + 1;
      }
      assert Bare(more) == instrs;
    }

    // The index of a trace; frames seen for the first time are logged.
    method AllocIndex(trace: seq<Ip>) returns (idx: nat)
      requires Valid()
      modifies traceTree, traceTree.repr, traceBuffer, traceBuffer.state`buffer, traceBuffer.handle, traceBuffer.clock
      ensures traceTree.Valid() && traceBuffer.Valid()
      ensures old(traceTree.repr) <= traceTree.repr && fresh(traceTree.repr - old(traceTree.repr))
      ensures Interned(traceTree.log, idx) == Walk(old(traceTree.log), 0, Normal(trace))
      ensures Pushes(old(traceBuffer.pushed), traceBuffer.pushed, Announce(traceTree.log, |old(traceTree.log)|),
                     old(traceBuffer.clock.now), traceBuffer.clock.now)
      ensures Pushes(old(traceBuffer.Outgoing()), traceBuffer.Outgoing(),
                     Announce(traceTree.log, |old(traceTree.log)|), old(traceBuffer.clock.now), traceBuffer.clock.now)
    {
      var announced;
      idx, announced := traceTree.Index(trace);
      PushAll(announced);
    }

    // The events of a call. A reallocation frees the old block before it allocates the new one.
    method PushEvents(c: Call, traceIndex: nat)
      requires traceBuffer.Valid()
      modifies traceBuffer, traceBuffer.state`buffer, traceBuffer.handle, traceBuffer.clock
      ensures traceBuffer.Valid()
      ensures Pushes(old(traceBuffer.pushed), traceBuffer.pushed, EventsOf(c, traceIndex),
                     old(traceBuffer.clock.now), traceBuffer.clock.now)
      ensures Pushes(old(traceBuffer.Outgoing()), traceBuffer.Outgoing(), EventsOf(c, traceIndex),
                     old(traceBuffer.clock.now), traceBuffer.clock.now)
    {
      match c {
        case Alloc(ptr, size, _) => PushAll([Allocate(ptr, size, traceIndex)]);
        case Dealloc(ptr, size, _) => PushAll([Deallocate(ptr, size, traceIndex)]);
        case Realloc(ptr, newPtr, size, newSize, _) =>
          PushAll([Deallocate(ptr, size, traceIndex), Allocate(newPtr, newSize, traceIndex)]);
      }
    }

    // An allocator call: its new frames are logged, then its events.
    method HandleCall(c: Call)
      requires Valid()
      modifies this, traceTree, traceTree.repr, traceBuffer, traceBuffer.state`buffer, traceBuffer.handle,
               traceBuffer.clock
      ensures Valid() && calls == old(calls) + [c]
      ensures old(traceTree.repr) <= traceTree.repr && fresh(traceTree.repr - old(traceTree.repr))
      ensures Pushes(old(traceBuffer.Outgoing()), traceBuffer.Outgoing(), EncodeCall(old(traceTree.log), c).instrs,
                     old(traceBuffer.clock.now), traceBuffer.clock.now)
    {
      hide Numbered, Walk, Announce, EventsOf, Pushes, AsU32, Normal, HasRoom, InChannel;
      ghost var p0, o0, t0 := traceBuffer.pushed, traceBuffer.Outgoing(), traceBuffer.clock.now;
      var idx := AllocIndex(c.trace);
      ghost var p1, o1, t1 := traceBuffer.pushed, traceBuffer.Outgoing(), traceBuffer.clock.now;
      ghost var announced := Announce(traceTree.log, |old(traceTree.log)|);
      var traceIndex := AsU32(idx);
      PushEvents(c, traceIndex);
      PushesAppend(p0, p1, traceBuffer.pushed, announced, EventsOf(c, traceIndex), t0, t1, traceBuffer.clock.now);
      PushesAppend(o0, o1, traceBuffer.Outgoing(), announced, EventsOf(c, traceIndex), t0, t1, traceBuffer.clock.now);
      EncodeSnoc(calls, c);
      calls := calls + [c];
    }

    // The end of the thread.
    method Drop()
      requires Valid()
      modifies traceBuffer.state`dead
      ensures Valid() && traceBuffer.state.dead && traceBuffer.Outgoing() == old(traceBuffer.Outgoing())
    {
      traceBuffer.state.dead := true;
    }
  }

  // after is before followed by instrs, timestamped in order between two moments.
  ghost predicate Pushes(before: seq<Timed>, after: seq<Timed>, instrs: seq<Instr>, from: Time, to: Time) {
    && before <= after && Bare(after[|before|..]) == instrs
    && Forward(from, after[|before|..], to)
  }

  lemma PushesAppend(a: seq<Timed>, b: seq<Timed>, c: seq<Timed>, x: seq<Instr>, y: seq<Instr>,
                     from: Time, mid: Time, to: Time)
    requires Pushes(a, b, x, from, mid) && Pushes(b, c, y, mid, to)
    ensures Pushes(a, c, x + y, from, to) && Bare(c) == Bare(a) + (x + y)
  {
    assert c[|a|..] == b[|a|..] + c[|b|..];
    BareAppend(b[|a|..], c[|b|..]);
    ForwardAppend(from, b[|a|..], mid, c[|b|..], to);
    assert c == a + c[|a|..];
    BareAppend(a, c[|a|..]);
  }
}
