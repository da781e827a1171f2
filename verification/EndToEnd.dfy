// From allocator calls to verdicts: trie, hand-off, translation, wire and matcher together.
module EndToEnd {
  import opened Frames
  import opened TrackTypes
  import opened GlobalTree
  import opened Translation
  import opened Gathering
  import opened StreamTheorems
  import opened WireOrder
  import opened Writer
  import opened Protocol
  import opened ProtocolSafety
  import opened TrackerTheorems
  import opened ShutdownTheorems
  import opened Watermark
  import opened Matcher
  import opened Windows
  import opened Reader
  import opened Sharding

  // ---------------------------------------------------------------------------------------------
  // What the analysis receives for one pointer

  // An allocation event, when it was pushed, and the timestamp of the message that carried it.
  datatype CallEvent = CallEvent(op: Op, time: Time, stamp: Time)

  function OpsIn(evs: seq<CallEvent>): seq<Op> {
    seq(|evs|, i requires 0 <= i < |evs| => evs[i].op)
  }

  function TimesIn(evs: seq<CallEvent>): seq<Time> {
    seq(|evs|, i requires 0 <= i < |evs| => evs[i].time)
  }

  function StampsIn(evs: seq<CallEvent>): seq<Time> {
    seq(|evs|, i requires 0 <= i < |evs| => evs[i].stamp)
  }

  // The events on the wire, decoded against the announced frames.
  function EventOf(log: Log, x: Timed, stamp: Time): seq<CallEvent> {
    if x.instr.Stack? then [] else [CallEvent(OpOf(log, x.instr)[0], x.time, stamp)]
  }

  function BufferEvents(log: Log, xs: seq<Timed>, stamp: Time): seq<CallEvent> {
    if xs == [] then [] else BufferEvents(log, xs[..|xs| - 1], stamp) + EventOf(log, xs[|xs| - 1], stamp)
  }

  function MessageEvents(log: Log, m: Message, t: ThreadId): seq<CallEvent> {
    if m.Instructions? && m.thread == t then BufferEvents(log, m.buffer, m.timestamp) else []
  }

  function WireEvents(log: Log, wire: seq<Message>, t: ThreadId): seq<CallEvent> {
    if wire == [] then []
    else WireEvents(log, wire[..|wire| - 1], t) + MessageEvents(log, wire[|wire| - 1], t)
  }

  // The events of one pointer, in order.
  function OnPtr(evs: seq<CallEvent>, ptr: nat): (sub: seq<CallEvent>)
    ensures forall i | 0 <= i < |sub| :: sub[i].op.ptr == ptr
  {
    if evs == [] then []
    else OnPtr(evs[..|evs| - 1], ptr) + if evs[|evs| - 1].op.ptr == ptr then [evs[|evs| - 1]] else []
  }

  function PtrOps(ops: seq<Op>, ptr: nat): seq<Op> {
    if ops == [] then []
    else PtrOps(ops[..|ops| - 1], ptr) + if ops[|ops| - 1].ptr == ptr then [ops[|ops| - 1]] else []
  }

  lemma {:induction false} OnPtrOps(evs: seq<CallEvent>, ptr: nat)
    ensures OpsIn(OnPtr(evs, ptr)) == PtrOps(OpsIn(evs), ptr)
  {
    if evs != [] {
      assert OpsIn(evs)[..|evs| - 1] == OpsIn(evs[..|evs| - 1]);
      OnPtrOps(evs[..|evs| - 1], ptr);
    }
  }

  lemma {:induction false} OnPtrAppend(a: seq<CallEvent>, b: seq<CallEvent>, ptr: nat)
    ensures OnPtr(a + b, ptr) == OnPtr(a, ptr) + OnPtr(b, ptr)
  {
    if b == [] {
      assert a + b == a;
    } else {
      assert (a + b)[..|a + b| - 1] == a + b[..|b| - 1];
      OnPtrAppend(a, b[..|b| - 1], ptr);
    }
  }

  lemma {:induction false} OfPtrAppend(a: seq<Input>, b: seq<Input>, ptr: nat)
    ensures OfPtr(a + b, ptr) == OfPtr(a, ptr) + OfPtr(b, ptr)
  {
    if b == [] {
      assert a + b == a;
    } else {
      assert (a + b)[..|a + b| - 1] == a + b[..|b| - 1];
      OfPtrAppend(a, b[..|b| - 1], ptr);
    }
  }

  // The decoded events are the meaning of the thread's buffers, with their times.
  lemma {:induction false} BufferEventsAre(log: Log, xs: seq<Timed>, stamp: Time)
    ensures OpsIn(BufferEvents(log, xs, stamp)) == Meaning(log, Bare(xs))
    ensures TimesIn(BufferEvents(log, xs, stamp)) == EventTimes(xs)
  {
    if xs != [] {
      var front, x := xs[..|xs| - 1], xs[|xs| - 1];
      BufferEventsAre(log, front, stamp);
      assert Bare(xs) == Bare(front) + [x.instr];
      Snoc(Bare(front), x.instr);
      EventIs(log, x, stamp);
      InAppend(BufferEvents(log, front, stamp), EventOf(log, x, stamp));
    }
  }

  lemma EventIs(log: Log, x: Timed, stamp: Time)
    ensures OpsIn(EventOf(log, x, stamp)) == OpOf(log, x.instr)
    ensures TimesIn(EventOf(log, x, stamp)) == if x.instr.Stack? then [] else [x.time]
  {
  }

  lemma InAppend(a: seq<CallEvent>, b: seq<CallEvent>)
    ensures OpsIn(a + b) == OpsIn(a) + OpsIn(b) && TimesIn(a + b) == TimesIn(a) + TimesIn(b)
  {
  }

  lemma {:induction false} WireEventsAre(log: Log, wire: seq<Message>, t: ThreadId)
    ensures OpsIn(WireEvents(log, wire, t)) == Meaning(log, Bare(WireOf(wire, t)))
    ensures TimesIn(WireEvents(log, wire, t)) == EventTimes(WireOf(wire, t))
  {
    if wire != [] {
      var front, m := wire[..|wire| - 1], wire[|wire| - 1];
      WireEventsAre(log, front, t);
      InAppend(WireEvents(log, front, t), MessageEvents(log, m, t));
      if m.Instructions? && m.thread == t {
        BufferEventsAre(log, m.buffer, m.timestamp);
        BareAppend(WireOf(front, t), m.buffer);
        MeaningAppend(log, Bare(WireOf(front, t)), Bare(m.buffer));
        EventTimesAppend(WireOf(front, t), m.buffer);
      } else {
        assert WireOf(front, t) + [] == WireOf(front, t);
      }
    }
  }

  // The matcher's inputs for a pointer are these events of thread t.
  ghost predicate Carries(log: Log, t: ThreadId, sub: seq<Input>, evs: seq<CallEvent>) {
    && |sub| == |evs|
    && forall i | 0 <= i < |sub| ::
         && !sub[i].instr.Stack? && sub[i].thread == t
         && OpOf(log, sub[i].instr) == [evs[i].op]
         && sub[i].time == evs[i].time && sub[i].bucket == RoundUp(evs[i].stamp)
  }

  // What the source reads from a wire.
  function InputsOfWire(wire: seq<Message>): seq<Input> {
    InputsOfAll(BatchesOf(wire))
  }

  function MessageInputs(m: Message): seq<Input> {
    if m.Instructions? then InputsOf(m.timestamp, DataOf(m)) else []
  }

  lemma InputsSnoc(wire: seq<Message>, m: Message)
    ensures InputsOfWire(wire + [m]) == InputsOfWire(wire) + MessageInputs(m)
  {
    assert (wire + [m])[..|wire|] == wire;
    if m.Instructions? {
      InputsOfAllAppend(BatchesOf(wire), [Batch(m.timestamp, DataOf(m))]);
      assert [Batch(m.timestamp, DataOf(m))][..0] == [];
      assert InputsOfAll([Batch(m.timestamp, DataOf(m))]) == InputsOf(m.timestamp, DataOf(m));
    } else {
      assert BatchesOf(wire) + [] == BatchesOf(wire);
    }
  }

  // One buffer of thread t.
  lemma {:induction false} BufferCarries(log: Log, t: ThreadId, time: Time, xs: seq<Timed>, ptr: nat)
    ensures Carries(log, t, OfPtr(InputsOf(time, DataOf(Instructions(time, t, xs))), ptr),
                    OnPtr(BufferEvents(log, xs, time), ptr))
  {
    if xs != [] {
      var front, x := xs[..|xs| - 1], xs[|xs| - 1];
      BufferCarries(log, t, time, front, ptr);
      var ins, e := InputsOf(time, DataOf(Instructions(time, t, front))), Input(x.time, t, x.instr, RoundUp(time));
      assert InputsOf(time, DataOf(Instructions(time, t, xs))) == ins + [e];
      assert (ins + [e])[..|ins|] == ins;
      OnPtrAppend(BufferEvents(log, front, time), EventOf(log, x, time), ptr);
      CarriesOne(log, t, OfPtr(ins, ptr), OnPtr(BufferEvents(log, front, time), ptr), x, time, ptr);
    }
  }

  lemma {:induction false} CarriesOne(log: Log, t: ThreadId, sub: seq<Input>, evs: seq<CallEvent>, x: Timed,
                                      stamp: Time, ptr: nat)
    requires Carries(log, t, sub, evs)
    ensures var e := Input(x.time, t, x.instr, RoundUp(stamp));
            Carries(log, t, sub + if Names(e, ptr) then [e] else [], evs + OnPtr(EventOf(log, x, stamp), ptr))
  {
    OnPtrOne(log, x, stamp, ptr);
  }

  lemma {:induction false} OnPtrOne(log: Log, x: Timed, stamp: Time, ptr: nat)
    ensures OnPtr(EventOf(log, x, stamp), ptr) ==
            if !x.instr.Stack? && x.instr.ptr == ptr then EventOf(log, x, stamp) else []
  {
    if !x.instr.Stack? {
      var c := EventOf(log, x, stamp)[0];
      assert EventOf(log, x, stamp) == [c] && [c][..0] == [];
      assert OpOf(log, x.instr)[0].ptr == x.instr.ptr;
    }
  }

  lemma CarriesAppend(log: Log, t: ThreadId, a: seq<Input>, x: seq<CallEvent>, b: seq<Input>, y: seq<CallEvent>)
    requires Carries(log, t, a, x) && Carries(log, t, b, y)
    ensures Carries(log, t, a + b, x + y)
  {
  }

  lemma {:induction false} MessageCarries(log: Log, m: Message, t: ThreadId, ptr: nat)
    requires forall u: ThreadId | u != t :: OnPtr(MessageEvents(log, m, u), ptr) == []
    ensures Carries(log, t, OfPtr(MessageInputs(m), ptr), OnPtr(MessageEvents(log, m, t), ptr))
  {
    if m.Instructions? {
      BufferCarries(log, m.thread, m.timestamp, m.buffer, ptr);
      assert m == Instructions(m.timestamp, m.thread, m.buffer);
      assert m.thread != t ==> OnPtr(MessageEvents(log, m, m.thread), ptr) == [];
    }
  }

  // If no other thread's buffers name the pointer, the matcher receives thread t's events of it, in order.
  lemma {:induction false} WireCarries(log: Log, wire: seq<Message>, t: ThreadId, ptr: nat)
    requires forall u: ThreadId | u != t :: OnPtr(WireEvents(log, wire, u), ptr) == []
    ensures Carries(log, t, OfPtr(InputsOfWire(wire), ptr), OnPtr(WireEvents(log, wire, t), ptr))
  {
    if wire != [] {
      var front, m := wire[..|wire| - 1], wire[|wire| - 1];
      assert wire == front + [m];
      InputsSnoc(front, m);
      forall u: ThreadId | u != t
        ensures OnPtr(WireEvents(log, front, u), ptr) == [] && OnPtr(MessageEvents(log, m, u), ptr) == []
      {
        assert OnPtr(WireEvents(log, wire, u), ptr) == [];
        OnPtrAppend(WireEvents(log, front, u), MessageEvents(log, m, u), ptr);
      }
      WireCarries(log, front, t, ptr);
      MessageCarries(log, m, t, ptr);
      OfPtrAppend(InputsOfWire(front), MessageInputs(m), ptr);
      OnPtrAppend(WireEvents(log, front, t), MessageEvents(log, m, t), ptr);
      CarriesAppend(log, t, OfPtr(InputsOfWire(front), ptr), OnPtr(WireEvents(log, front, t), ptr),
                    OfPtr(MessageInputs(m), ptr), OnPtr(MessageEvents(log, m, t), ptr));
    }
  }

  // ---------------------------------------------------------------------------------------------
  // A whole run

  // A run with one stop whose final pass starts when every registered thread is settled, up to the end.
  ghost predicate Complete(v: Variant, before: seq<Action>, capacity: nat, after: seq<Action>) {
    var run := before + [StartPass(true, capacity)] + after;
    && IsRun(v, run)
    && (var s := Final(v, before); forall u | u in s.threads && s.threads[u].registered :: Settled(s.threads[u]))
    && var s := Final(v, run);
       && s.place.Done? && |s.g.log| < TWO_32
       && forall u | u in s.threads :: |s.threads[u].log| < TWO_32
  }

  ghost function End(v: Variant, before: seq<Action>, capacity: nat, after: seq<Action>): State {
    Final(v, before + [StartPass(true, capacity)] + after)
  }

  // All calls of a thread; a thread that does not exist made none.
  ghost function CallOps(s: State, t: ThreadId): seq<Op> {
    if t in s.threads then OpsOf(s.threads[t].calls) else []
  }

  ghost function PushedBy(s: State, t: ThreadId): seq<Timed> {
    if t in s.threads then s.threads[t].pushed else []
  }

  // The wire carries every thread's events, stacks rendered, with the times at which they were pushed.
  lemma {:induction false} WireIsCalls(v: Variant, before: seq<Action>, capacity: nat, after: seq<Action>, t: ThreadId)
    requires Complete(v, before, capacity, after)
    ensures var s := End(v, before, capacity, after);
            && SameOps(v, s.g.log, CallOps(s, t), Meaning(s.g.log, Bare(WireOf(s.g.wire, t))))
            && EventTimes(WireOf(s.g.wire, t)) == EventTimes(PushedBy(s, t))
  {
    var run := before + [StartPass(true, capacity)] + after;
    var s := Final(v, run);
    RunInv(v, run);
    RunMirrors(v, run);
    GatherFaithful(v, s.events, t);
    if t in s.threads {
      EverythingDelivered(v, before, capacity, after, t);
      assert ThreadInv(s, t);
      DeliveredOps(s, t);
    } else {
      assert Sent(s.events, t) == [];
      assert Bare([]) == [];
    }
  }

  // The times on the wire never go back, so the source delivers every buffer at its own timestamp.
  lemma {:induction false} SourceDeliversWire(v: Variant, run: seq<Action>, pieces: seq<seq<Message>>)
    requires IsRun(v, run) && Concatenated(pieces) == Final(v, run).g.wire
    ensures ReadPieces(pieces).batches == BatchesOf(Final(v, run).g.wire)
  {
    RunInv(v, run);
    RunMirrors(v, run);
    RunMarks(v, run);
    GatherStamps(v, Final(v, run).events);
    PiecesReadAtMessageTimes(pieces);
  }

  // The events of the calls a thread made: what was called, when it was pushed, and when the message that carried
  // it to the analysis was stamped.
  ghost predicate CallsMade(s: State, t: ThreadId, calls: seq<CallEvent>) {
    && OpsIn(calls) == CallOps(s, t) && TimesIn(calls) == EventTimes(PushedBy(s, t))
    && StampsIn(calls) == StampsIn(WireEvents(s.g.log, s.g.wire, t))
  }

  // The same events, stacks rendered.
  ghost predicate SameEvents(v: Variant, log: Log, calls: seq<CallEvent>, wire: seq<CallEvent>) {
    && |calls| == |wire|
    && forall i | 0 <= i < |calls| ::
         && calls[i] == CallEvent(wire[i].op.(path := calls[i].op.path), wire[i].time, wire[i].stamp)
         && Renders(v, log, calls[i].op.path, wire[i].op.path)
  }

  lemma {:induction false} SameEventsOnPtr(v: Variant, log: Log, calls: seq<CallEvent>, wire: seq<CallEvent>, ptr: nat)
    requires SameEvents(v, log, calls, wire)
    ensures SameEvents(v, log, OnPtr(calls, ptr), OnPtr(wire, ptr))
  {
    if calls != [] {
      SameEventsOnPtr(v, log, calls[..|calls| - 1], wire[..|wire| - 1], ptr);
    }
  }

  lemma CallsOf(v: Variant, before: seq<Action>, capacity: nat, after: seq<Action>, t: ThreadId)
    returns (calls: seq<CallEvent>)
    requires Complete(v, before, capacity, after)
    ensures var s := End(v, before, capacity, after);
            CallsMade(s, t, calls) && SameEvents(v, s.g.log, calls, WireEvents(s.g.log, s.g.wire, t))
  {
    var s := End(v, before, capacity, after);
    WireIsCalls(v, before, capacity, after, t);
    WireEventsAre(s.g.log, s.g.wire, t);
    calls := Restored(v, s.g.log, CallOps(s, t), WireEvents(s.g.log, s.g.wire, t));
  }

  // The events on the wire with the stacks of the calls.
  lemma Restored(v: Variant, log: Log, ops: seq<Op>, wire: seq<CallEvent>) returns (calls: seq<CallEvent>)
    requires SameOps(v, log, ops, OpsIn(wire))
    ensures SameEvents(v, log, calls, wire)
    ensures OpsIn(calls) == ops && TimesIn(calls) == TimesIn(wire) && StampsIn(calls) == StampsIn(wire)
  {
    calls := seq(|ops|, i requires 0 <= i < |ops| => CallEvent(ops[i], wire[i].time, wire[i].stamp));
    forall i | 0 <= i < |calls|
      ensures calls[i].op == wire[i].op.(path := calls[i].op.path)
      ensures Renders(v, log, calls[i].op.path, wire[i].op.path)
    {
      assert OpsIn(wire)[i] == wire[i].op;
    }
  }

  // The only thread whose calls name the pointer.
  ghost predicate OnlyUser(s: State, t: ThreadId, ptr: nat) {
    forall u: ThreadId | u != t :: PtrOps(CallOps(s, u), ptr) == []
  }

  // For a pointer that only thread t uses, the matcher receives t's calls in program order, stacks rendered.
  lemma PointerCarriesCalls(v: Variant, before: seq<Action>, capacity: nat, after: seq<Action>, t: ThreadId, ptr: nat)
    returns (calls: seq<CallEvent>)
    requires Complete(v, before, capacity, after) && OnlyUser(End(v, before, capacity, after), t, ptr)
    ensures var s := End(v, before, capacity, after);
            && CallsMade(s, t, calls)
            && Follows(v, s.g.log, t, OfPtr(InputsOfWire(s.g.wire), ptr), OnPtr(calls, ptr))
  {
    var s := End(v, before, capacity, after);
    forall u: ThreadId | u != t
      ensures OnPtr(WireEvents(s.g.log, s.g.wire, u), ptr) == []
    {
      NotOnPtr(v, before, capacity, after, u, ptr);
    }
    WireCarries(s.g.log, s.g.wire, t, ptr);
    calls := CallsOf(v, before, capacity, after, t);
    var wire := WireEvents(s.g.log, s.g.wire, t);
    SameEventsOnPtr(v, s.g.log, calls, wire, ptr);
    CarriedFollow(v, s.g.log, t, OfPtr(InputsOfWire(s.g.wire), ptr), OnPtr(wire, ptr), OnPtr(calls, ptr));
  }

  // A thread that does not use the pointer has no events of it on the wire.
  lemma {:induction false} NotOnPtr(v: Variant, before: seq<Action>, capacity: nat, after: seq<Action>, u: ThreadId,
                                    ptr: nat)
    requires Complete(v, before, capacity, after) && PtrOps(CallOps(End(v, before, capacity, after), u), ptr) == []
    ensures var s := End(v, before, capacity, after); OnPtr(WireEvents(s.g.log, s.g.wire, u), ptr) == []
  {
    var s := End(v, before, capacity, after);
    var calls := CallsOf(v, before, capacity, after, u);
    OnPtrOps(calls, ptr);
    assert |OpsIn(OnPtr(calls, ptr))| == 0;
    SameEventsOnPtr(v, s.g.log, calls, WireEvents(s.g.log, s.g.wire, u), ptr);
  }

  // ---------------------------------------------------------------------------------------------
  // Verdicts on calls

  // The verdicts on one thread's events of one pointer, in program order. A freed block is counted in the window
  // of the message that carried the free.
  datatype CallVerdict =
    | Freed(size: nat, window: Time)
    | AllocatedTwice(first: CallEvent, second: CallEvent)
    | FreedTwice(call: CallEvent)

  function LastCallVerdict(calls: seq<CallEvent>): seq<CallVerdict> {
    if calls == [] then []
    else
      var c := calls[|calls| - 1];
      var live := |calls| > 1 && calls[|calls| - 2].op.isAlloc;
      if c.op.isAlloc then (if live then [AllocatedTwice(calls[|calls| - 2], c)] else [])
      else if live then [Freed(c.op.size, RoundUp(c.stamp))] else [FreedTwice(c)]
  }

  function CallVerdicts(calls: seq<CallEvent>): seq<CallVerdict> {
    if calls == [] then [] else CallVerdicts(calls[..|calls| - 1]) + LastCallVerdict(calls)
  }

  // A report about an event of thread t names when it was pushed, and its stack as the receiver reads it.
  ghost predicate Describes(v: Variant, log: Log, t: ThreadId, info: AllocInfo, c: CallEvent) {
    info.thread == t && info.time == c.time && Renders(v, log, c.op.path, PathOf(log, info.traceIndex))
  }

  ghost predicate Reports(v: Variant, log: Log, t: ThreadId, ptr: nat, m: MatchEvent, c: CallVerdict) {
    if m.Pair? then c == Freed(m.size, m.bucket) && m.allocThread == t && m.deallocThread == t
    else if m.error.DoubleAlloc? then
      && c.AllocatedTwice? && m.error.ptr == ptr
      && Describes(v, log, t, m.error.earlier, c.first) && Describes(v, log, t, m.error.later, c.second)
    else if m.error.DoubleFree? then
      c.FreedTwice? && m.error.ptr == ptr && Describes(v, log, t, m.error.info, c.call)
    else false
  }

  ghost predicate ReportAll(v: Variant, log: Log, t: ThreadId, ptr: nat, out: seq<MatchEvent>, cs: seq<CallVerdict>) {
    |out| == |cs| && forall i | 0 <= i < |out| :: Reports(v, log, t, ptr, out[i], cs[i])
  }

  // Inputs that carry the calls, element by element.
  ghost predicate Follows(v: Variant, log: Log, t: ThreadId, sub: seq<Input>, calls: seq<CallEvent>) {
    && |sub| == |calls|
    && forall i | 0 <= i < |sub| :: FollowsOne(v, log, t, sub[i], calls[i])
  }

  ghost predicate FollowsOne(v: Variant, log: Log, t: ThreadId, e: Input, c: CallEvent) {
    && !e.instr.Stack? && e.instr.Allocate? == c.op.isAlloc && e.instr.size == c.op.size
    && e.bucket == RoundUp(c.stamp) && Describes(v, log, t, InfoOf(e), c)
  }

  lemma CarriedFollow(v: Variant, log: Log, t: ThreadId, sub: seq<Input>, wire: seq<CallEvent>, calls: seq<CallEvent>)
    requires Carries(log, t, sub, wire) && SameEvents(v, log, calls, wire)
    ensures Follows(v, log, t, sub, calls)
  {
    forall i | 0 <= i < |sub|
      ensures FollowsOne(v, log, t, sub[i], calls[i])
    {
      assert OpOf(log, sub[i].instr)[0] == wire[i].op;
      assert Renders(v, log, calls[i].op.path, wire[i].op.path);
    }
  }

  lemma LastVerdictReports(v: Variant, log: Log, t: ThreadId, ptr: nat, sub: seq<Input>, calls: seq<CallEvent>)
    requires Follows(v, log, t, sub, calls) && forall i | 0 <= i < |sub| :: Names(sub[i], ptr)
    ensures ReportAll(v, log, t, ptr, LastVerdict(sub, ptr), LastCallVerdict(calls))
  {
    if |sub| > 1 {
      assert FollowsOne(v, log, t, sub[|sub| - 2], calls[|sub| - 2]);
    }
  }

  lemma {:induction false} VerdictsReport(v: Variant, log: Log, t: ThreadId, ptr: nat, sub: seq<Input>,
                                          calls: seq<CallEvent>)
    requires Follows(v, log, t, sub, calls) && forall i | 0 <= i < |sub| :: Names(sub[i], ptr)
    ensures ReportAll(v, log, t, ptr, Verdicts(sub, ptr), CallVerdicts(calls))
  {
    hide Reports, LastVerdict, LastCallVerdict, FollowsOne, Names;
    if sub != [] {
      VerdictsReport(v, log, t, ptr, sub[..|sub| - 1], calls[..|calls| - 1]);
      LastVerdictReports(v, log, t, ptr, sub, calls);
    }
  }

  // What is left outstanding of the calls is the last one, if it allocates.
  ghost predicate OutstandingIsLast(v: Variant, log: Log, t: ThreadId, left: Option<AllocInfo>, calls: seq<CallEvent>) {
    && (left.Some? <==> calls != [] && calls[|calls| - 1].op.isAlloc)
    && (left.Some? ==> Describes(v, log, t, left.value, calls[|calls| - 1]))
  }

  // End to end: for a pointer that only one thread uses, the analysis judges that thread's calls in program
  // order. The verdicts on the pointer are those on the calls, one by one, with the times at which the calls were
  // logged, their stacks as the receiver reads them, and the windows of the messages that carried them; and what
  // is left outstanding is the last call, if it allocates.
  lemma {:induction false} VerdictsAreOnCalls(v: Variant, before: seq<Action>, capacity: nat, after: seq<Action>,
                                              t: ThreadId, ptr: nat) returns (calls: seq<CallEvent>)
    requires Complete(v, before, capacity, after) && OnlyUser(End(v, before, capacity, after), t, ptr)
    ensures var s := End(v, before, capacity, after);
            var sub := OfPtr(InputsOfWire(s.g.wire), ptr);
            && CallsMade(s, t, calls)
            && ReportAll(v, s.g.log, t, ptr, Verdicts(sub, ptr), CallVerdicts(OnPtr(calls, ptr)))
            && OutstandingIsLast(v, s.g.log, t, Outstanding(sub), OnPtr(calls, ptr))
  {
    var s := End(v, before, capacity, after);
    var sub := OfPtr(InputsOfWire(s.g.wire), ptr);
    calls := PointerCarriesCalls(v, before, capacity, after, t, ptr);
    VerdictsReport(v, s.g.log, t, ptr, sub, OnPtr(calls, ptr));
  }

  // ---------------------------------------------------------------------------------------------
  // Errors about one pointer in the whole output

  predicate ErrorOn(m: MatchEvent, ptr: nat) {
    m.Error? && m.error.ptr == ptr
  }

  lemma {:induction false} VerdictsName(sub: seq<Input>, ptr: nat)
    requires forall i | 0 <= i < |sub| :: Names(sub[i], ptr)
    ensures forall i | 0 <= i < |Verdicts(sub, ptr)| && Verdicts(sub, ptr)[i].Error? ::
              ErrorOn(Verdicts(sub, ptr)[i], ptr) && !Verdicts(sub, ptr)[i].error.Leak?
  {
    if sub != [] {
      VerdictsName(sub[..|sub| - 1], ptr);
    }
  }

  lemma JudgedElsewhere(es: seq<Input>, ptr: nat, m: MatchEvent)
    requires m.Error? && m.error.ptr != ptr
    ensures Judged(es, m)(ptr) == 0
  {
    VerdictsName(OfPtr(es, ptr), ptr);
    assert m !in Verdicts(OfPtr(es, ptr), ptr);
  }

  // The errors reported about a pointer are those of its own events.
  lemma ErrorsOfPointer(es: seq<Input>, m: MatchEvent)
    requires m.Error?
    ensures Output(es)[m] == Judged(es, m)(m.error.ptr)
  {
    var n := Bound(es) + m.error.ptr + 1;
    assert PointersBelow(es, Bound(es));
    OutputIsJudged(es, n, m);
    forall ptr | 0 <= ptr < n && ptr != m.error.ptr
      ensures Judged(es, m)(ptr) == 0
    {
      JudgedElsewhere(es, ptr, m);
    }
    SumOfOne(Judged(es, m), m.error.ptr, n);
  }

  // Allocate, free, allocate, free, ...
  ghost predicate Alternates(ops: seq<Op>) {
    forall i | 0 <= i < |ops| :: ops[i].isAlloc <==> i % 2 == 0
  }

  lemma {:induction false} AlternatingVerdicts(calls: seq<CallEvent>)
    requires Alternates(OpsIn(calls))
    ensures forall i | 0 <= i < |CallVerdicts(calls)| :: CallVerdicts(calls)[i].Freed?
  {
    if calls != [] {
      var n := |calls| - 1;
      assert OpsIn(calls)[..n] == OpsIn(calls[..n]);
      AlternatingVerdicts(calls[..n]);
      assert OpsIn(calls)[n] == calls[n].op && (n > 0 ==> OpsIn(calls)[n - 1] == calls[n - 1].op);
    }
  }

  // If the calls on the pointer alternate between allocating and freeing it, then the workers of the analysis,
  // however many and however pointers are routed, report no double allocation and no double free of it, and
  // one leak if the last call allocates, none otherwise.
  lemma {:induction false} AlternatingCallsAreClean(v: Variant, before: seq<Action>, capacity: nat,
                                                    after: seq<Action>, t: ThreadId, ptr: nat,
                                                    shards: seq<seq<Input>>, route: nat -> nat, m: MatchEvent)
    returns (calls: seq<CallEvent>)
    requires Complete(v, before, capacity, after) && OnlyUser(End(v, before, capacity, after), t, ptr)
    requires Alternates(PtrOps(CallOps(End(v, before, capacity, after), t), ptr))
    requires Exchanged(InputsOfWire(End(v, before, capacity, after).g.wire), shards, route)
    requires ErrorOn(m, ptr)
    ensures var s := End(v, before, capacity, after);
            var sub := OfPtr(InputsOfWire(s.g.wire), ptr);
            && CallsMade(s, t, calls)
            && ShardsOutput(shards)[m] == (if m.error.Leak? && Outstanding(sub) == Some(m.error.info) then 1 else 0)
            && OutstandingIsLast(v, s.g.log, t, Outstanding(sub), OnPtr(calls, ptr))
  {
    var s := End(v, before, capacity, after);
    calls := VerdictsAreOnCalls(v, before, capacity, after, t, ptr);
    OnPtrOps(calls, ptr);
    AlternatingVerdicts(OnPtr(calls, ptr));
    ShardingIsInvisible(InputsOfWire(s.g.wire), shards, route);
    ErrorsOfPointer(InputsOfWire(s.g.wire), m);
    NoErrorReported(v, s.g.log, t, ptr, Verdicts(OfPtr(InputsOfWire(s.g.wire), ptr), ptr),
                    CallVerdicts(OnPtr(calls, ptr)), m);
  }

  lemma NoErrorReported(v: Variant, log: Log, t: ThreadId, ptr: nat, out: seq<MatchEvent>, cs: seq<CallVerdict>,
                        m: MatchEvent)
    requires ReportAll(v, log, t, ptr, out, cs) && m.Error? && forall i | 0 <= i < |cs| :: cs[i].Freed?
    ensures m !in out
  {
    forall i | 0 <= i < |out|
      ensures out[i] != m
    {
      assert Reports(v, log, t, ptr, out[i], cs[i]);
    }
  }
}
