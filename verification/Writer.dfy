// What a tracked thread logs for its allocator calls.
module Writer {
  import opened Frames
  import opened TrackTypes
  import opened TraceTrees

  datatype Call =
    | Alloc(ptr: nat, size: nat, trace: seq<Ip>)
    | Dealloc(ptr: nat, size: nat, trace: seq<Ip>)
    | Realloc(ptr: nat, newPtr: nat, size: nat, newSize: nat, trace: seq<Ip>)

  // The allocation events of a call; both events of a reallocation have its stack.
  function OpsOfCall(c: Call): seq<Op> {
    var path := Normal(c.trace);
    match c
    case Alloc(ptr, size, _) => [Op(true, ptr, size, path)]
    case Dealloc(ptr, size, _) => [Op(false, ptr, size, path)]
    case Realloc(ptr, newPtr, size, newSize, _) => [Op(false, ptr, size, path), Op(true, newPtr, newSize, path)]
  }

  function OpsOf(calls: seq<Call>): seq<Op> {
    if calls == [] then [] else OpsOf(calls[..|calls| - 1]) + OpsOfCall(calls[|calls| - 1])
  }

  function EventsOf(c: Call, traceIndex: nat): seq<Instr> {
    match c
    case Alloc(ptr, size, _) => [Allocate(ptr, size, traceIndex)]
    case Dealloc(ptr, size, _) => [Deallocate(ptr, size, traceIndex)]
    case Realloc(ptr, newPtr, size, newSize, _) =>
      [Deallocate(ptr, size, traceIndex), Allocate(newPtr, newSize, traceIndex)]
  }

  // A thread's trie and everything it has logged.
  datatype Encoded = Encoded(log: Log, instrs: seq<Instr>)

  function EncodeCall(log: Log, c: Call): Encoded {
    var r := Walk(log, 0, Normal(c.trace));
    Encoded(r.log, Announce(r.log, |log|) + EventsOf(c, AsU32(r.index)))
  }

  function EncodeAll(calls: seq<Call>): Encoded {
    if calls == [] then Encoded([], [])
    else
      var before := EncodeAll(calls[..|calls| - 1]);
      var e := EncodeCall(before.log, calls[|calls| - 1]);
      Encoded(e.log, before.instrs + e.instrs)
  }

  lemma {:induction false} EncodeSnoc(calls: seq<Call>, c: Call)
    ensures var before, e := EncodeAll(calls), EncodeCall(EncodeAll(calls).log, c);
            EncodeAll(calls + [c]) == Encoded(e.log, before.instrs + e.instrs)
  {
    assert (calls + [c])[..|calls|] == calls;
  }

  // The announcements of new frames extend a self-contained log.
  lemma {:induction false} AnnounceExtends(done: seq<Instr>, log: Log, longer: Log)
    requires SelfContained(done) && LogOf(done) == log && log <= longer && WellFormed(longer)
    ensures SelfContained(done + Announce(longer, |log|)) && LogOf(done + Announce(longer, |log|)) == longer
    decreases |longer|
  {
    if longer == log {
      assert done + Announce(longer, |log|) == done;
    } else {
      var front, e := longer[..|longer| - 1], longer[|longer| - 1];
      assert longer == front + [e];
      AnnounceExtends(done, log, front);
      AnnounceOne(done, front, e, |log|);
    }
  }

  lemma {:induction false} AnnounceOne(done: seq<Instr>, front: Log, e: Edge, from: nat)
    requires SelfContained(done + Announce(front, from)) && LogOf(done + Announce(front, from)) == front
    requires from <= |front| && WellFormed(front + [e])
    ensures var all := done + Announce(front + [e], from);
            SelfContained(all) && LogOf(all) == front + [e]
  {
    AnnounceStep(front, front + [e], from);
    ExtendOne(done, Announce(front, from), front, e);
  }

  lemma ExtendOne(done: seq<Instr>, more: seq<Instr>, log: Log, e: Edge)
    requires SelfContained(done + more) && LogOf(done + more) == log && WellFormed(log + [e])
    ensures var all := done + (more + [Stack(e.ip, e.parent, |log| + 1)]);
            SelfContained(all) && LogOf(all) == log + [e]
  {
    var x := Stack(e.ip, e.parent, |log| + 1);
    assert done + (more + [x]) == done + more + [x];
    assert (log + [e])[|log|] == e;
    Snoc(done + more, x);
  }

  // Announcements are not events.
  lemma {:induction false} AnnounceSilent(log: Log, longer: Log, from: nat)
    ensures Meaning(log, Announce(longer, from)) == []
  {
    if |longer| > from {
      var front, e := longer[..|longer| - 1], longer[|longer| - 1];
      AnnounceSilent(log, front, from);
      Snoc(Announce(front, from), Stack(e.ip, e.parent, |longer|));
    }
  }

  // A self-contained log stays so when events on known frames follow.
  lemma {:induction false} EventExtends(done: seq<Instr>, x: Instr)
    requires SelfContained(done) && !x.Stack? && x.traceIndex <= |LogOf(done)|
    ensures SelfContained(done + [x]) && LogOf(done + [x]) == LogOf(done)
  {
    Snoc(done, x);
    assert LogOf(done) + EdgesOf(x) == LogOf(done);
  }

  lemma {:induction false} EventsExtend(done: seq<Instr>, c: Call, traceIndex: nat)
    requires SelfContained(done) && traceIndex <= |LogOf(done)|
    ensures var all := done + EventsOf(c, traceIndex);
            SelfContained(all) && LogOf(all) == LogOf(done)
  {
    var first := EventsOf(c, traceIndex)[0];
    EventExtends(done, first);
    if c.Realloc? {
      var second := EventsOf(c, traceIndex)[1];
      EventExtends(done + [first], second);
      OneByOne(done, first, second);
    }
  }

  lemma OneByOne<T>(done: seq<T>, first: T, second: T)
    ensures done + [first] + [second] == done + [first, second]
  {
  }

  ghost predicate Encodes(e: Encoded, ops: seq<Op>) {
    && WellFormed(e.log) && Distinct(e.log)
    && SelfContained(e.instrs) && LogOf(e.instrs) == e.log
    && (|e.log| < TWO_32 ==> Meaning(e.log, e.instrs) == ops)
  }

  lemma {:induction false} EventsMean(log: Log, c: Call, traceIndex: nat)
    requires PathOf(log, traceIndex) == Normal(c.trace)
    ensures Meaning(log, EventsOf(c, traceIndex)) == OpsOfCall(c)
  {
    var first := EventsOf(c, traceIndex)[0];
    MeaningOf(log, [], first);
    assert [] + [first] == [first];
    if c.Realloc? {
      var second := EventsOf(c, traceIndex)[1];
      MeaningOf(log, [first], second);
      OneByOne([], first, second);
    }
  }

  lemma {:induction false} MeaningOf(log: Log, xs: seq<Instr>, x: Instr)
    ensures Meaning(log, xs + [x]) == Meaning(log, xs) + OpOf(log, x)
  {
    Snoc(xs, x);
  }

  lemma EncodeCallMeans(before: Encoded, ops: seq<Op>, c: Call)
    requires Encodes(before, ops) && |EncodeCall(before.log, c).log| < TWO_32
    ensures var e := EncodeCall(before.log, c);
            Meaning(e.log, before.instrs + e.instrs) == ops + OpsOfCall(c)
  {
    var path := Normal(c.trace);
    var r := Walk(before.log, 0, path);
    WalkSpec(before.log, 0, path);
    SmallAsU32(r.index);
    var announced, events := Announce(r.log, |before.log|), EventsOf(c, r.index);
    MeaningAppend(r.log, before.instrs, announced + events);
    MeaningAppend(r.log, announced, events);
    AnnounceSilent(r.log, r.log, |before.log|);
    EventsMean(r.log, c, r.index);
    SelfContainedInRange(before.instrs);
    MeaningPrefix(before.log, r.log, before.instrs);
  }

  lemma {:induction false} EncodeCallLogs(log: Log, instrs: seq<Instr>, c: Call)
    requires WellFormed(log) && Distinct(log) && SelfContained(instrs) && LogOf(instrs) == log
    ensures var e := EncodeCall(log, c);
            && WellFormed(e.log) && Distinct(e.log)
            && SelfContained(instrs + e.instrs) && LogOf(instrs + e.instrs) == e.log
  {
    var r := Walk(log, 0, Normal(c.trace));
    WalkSpec(log, 0, Normal(c.trace));
    AnnounceExtends(instrs, log, r.log);
    Associate(instrs, Announce(r.log, |log|), EventsOf(c, AsU32(r.index)));
    SmallAsU32(r.index);
    EventsExtend(instrs + Announce(r.log, |log|), c, AsU32(r.index));
  }

  lemma EncodeCallSpec(before: Encoded, ops: seq<Op>, c: Call)
    requires Encodes(before, ops)
    ensures var e := EncodeCall(before.log, c);
            Encodes(Encoded(e.log, before.instrs + e.instrs), ops + OpsOfCall(c))
  {
    EncodeCallLogs(before.log, before.instrs, c);
    if |EncodeCall(before.log, c).log| < TWO_32 {
      EncodeCallMeans(before, ops, c);
    }
  }

  // Over any sequence of calls the log is a complete encoding of the trie: frames numbered from 1 in order,
  // parents first, the announced frames being exactly the frames of the trie; and, as long as indices fit 32
  // bits, every event decodes to the null-free stack of its call, outermost frame first.
  lemma {:induction false} EncodeSpec(calls: seq<Call>)
    ensures Encodes(EncodeAll(calls), OpsOf(calls))
  {
    if calls != [] {
      EncodeSpec(calls[..|calls| - 1]);
      EncodeCallSpec(EncodeAll(calls[..|calls| - 1]), OpsOf(calls[..|calls| - 1]), calls[|calls| - 1]);
    }
  }

  function TracesOf(calls: seq<Call>): seq<seq<Ip>> {
    seq(|calls|, i requires 0 <= i < |calls| => calls[i].trace)
  }

  // The trie is the one the interner builds for the traces of the calls.
  lemma {:induction false} EncodeIsSession(calls: seq<Call>)
    ensures EncodeAll(calls).log == RunSession(TracesOf(calls)).log
  {
    if calls != [] {
      var front := calls[..|calls| - 1];
      EncodeIsSession(front);
      assert TracesOf(calls)[..|calls| - 1] == TracesOf(front);
    }
  }
}
