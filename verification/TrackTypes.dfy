// The instruction and wire formats shared by the tracker and the analysis.
module TrackTypes {
  import opened Frames

  type ThreadId = nat

  type Time = nat

  datatype Option<T> = None | Some(value: T)

  // One thread-local trace instruction.
  datatype Instr =
    | Stack(ip: Ip, parent: nat, index: nat)
    | Allocate(ptr: nat, size: nat, traceIndex: nat)
    | Deallocate(ptr: nat, size: nat, traceIndex: nat)

  datatype Timed = Timed(instr: Instr, time: Time)

  // A frame announced for symbol resolution; the symbol itself is not modelled.
  datatype StackInfo = StackInfo(time: Time, index: nat, ip: Ip)

  datatype Message =
    | Instructions(timestamp: Time, thread: ThreadId, buffer: seq<Timed>)
    | Timestamp(timestamp: Time)
    | CreateThread(thread: ThreadId)
    | DestroyThread(thread: ThreadId)
    | StackDetails(timestamp: Time, infos: seq<StackInfo>)

  // Trace indices travel as 32-bit values: the conversion keeps the low 32 bits.
  const TWO_32: nat := 0x1_0000_0000

  function AsU32(n: nat): nat {
    n % TWO_32
  }

  lemma SmallAsU32(n: nat)
    ensures AsU32(n) <= n
    ensures n < TWO_32 ==> AsU32(n) == n
  {
  }

  // Indices are kept up to 0xFFFF_FFFF and wrap around beyond.
  lemma TruncatesAt32Bits()
    ensures AsU32(0xFFFF_FFFF) == 0xFFFF_FFFF && AsU32(0x1_0000_0000) == 0 && AsU32(0x1_0000_0007) == 7
  {
  }

  lemma Associate<T>(a: seq<T>, b: seq<T>, c: seq<T>)
    ensures a + b + c == a + (b + c)
  {
  }

  function Bare(xs: seq<Timed>): seq<Instr> {
    seq(|xs|, i requires 0 <= i < |xs| => xs[i].instr)
  }

  lemma BareAppend(a: seq<Timed>, b: seq<Timed>)
    ensures Bare(a + b) == Bare(a) + Bare(b)
  {
  }

  // ---------------------------------------------------------------------------------------------
  // What a sequence of instructions says

  function EdgesOf(x: Instr): Log {
    if x.Stack? then [Edge(x.ip, x.parent)] else []
  }

  // The frames announced by a sequence of instructions, in order.
  function LogOf(xs: seq<Instr>): Log {
    if xs == [] then [] else LogOf(xs[..|xs| - 1]) + EdgesOf(xs[|xs| - 1])
  }

  lemma {:induction false} LogOfAppend(a: seq<Instr>, b: seq<Instr>)
    ensures LogOf(a + b) == LogOf(a) + LogOf(b)
  {
    if b == [] {
      assert a + b == a;
    } else {
      assert (a + b)[..|a + b| - 1] == a + b[..|b| - 1];
      LogOfAppend(a, b[..|b| - 1]);
    }
  }

  // After n frames: a frame is numbered n + 1, and every reference is backwards.
  predicate Backward(n: nat, x: Instr) {
    match x
    case Stack(_, parent, index) => parent <= n && index == n + 1
    case Allocate(_, _, traceIndex) => traceIndex <= n
    case Deallocate(_, _, traceIndex) => traceIndex <= n
  }

  // Frames are numbered consecutively from 1 and every reference is backwards: the numbering a receiver may
  // reconstruct by counting.
  predicate SelfContained(xs: seq<Instr>) {
    xs == [] ||
    (SelfContained(xs[..|xs| - 1]) && Backward(|LogOf(xs[..|xs| - 1])|, xs[|xs| - 1]))
  }

  lemma {:induction false} Snoc(xs: seq<Instr>, x: Instr)
    ensures LogOf(xs + [x]) == LogOf(xs) + EdgesOf(x)
    ensures SelfContained(xs + [x]) <==> SelfContained(xs) && Backward(|LogOf(xs)|, x)
    ensures forall log :: Meaning(log, xs + [x]) == Meaning(log, xs) + OpOf(log, x)
  {
    assert (xs + [x])[..|xs|] == xs;
  }

  lemma {:induction false} SelfContainedPrefix(a: seq<Instr>, b: seq<Instr>)
    requires SelfContained(a + b)
    ensures SelfContained(a)
  {
    if b == [] {
      assert a + b == a;
    } else {
      assert (a + b)[..|a + b| - 1] == a + b[..|b| - 1];
      SelfContainedPrefix(a, b[..|b| - 1]);
    }
  }

  lemma {:induction false} SelfContainedWellFormed(xs: seq<Instr>)
    requires SelfContained(xs)
    ensures WellFormed(LogOf(xs))
  {
    if xs != [] {
      SelfContainedWellFormed(xs[..|xs| - 1]);
    }
  }

  // An allocation event with its stack spelled out.
  datatype Op = Op(isAlloc: bool, ptr: nat, size: nat, path: seq<Ip>)

  function OpOf(log: Log, x: Instr): seq<Op> {
    match x
    case Stack(_, _, _) => []
    case Allocate(ptr, size, traceIndex) => [Op(true, ptr, size, PathOf(log, traceIndex))]
    case Deallocate(ptr, size, traceIndex) => [Op(false, ptr, size, PathOf(log, traceIndex))]
  }

  // The allocation events of xs, their trace indices read against the frames in log.
  function Meaning(log: Log, xs: seq<Instr>): seq<Op> {
    if xs == [] then []
    else Meaning(log, xs[..|xs| - 1]) + OpOf(log, xs[|xs| - 1])
  }

  lemma {:induction false} MeaningAppend(log: Log, a: seq<Instr>, b: seq<Instr>)
    ensures Meaning(log, a + b) == Meaning(log, a) + Meaning(log, b)
  {
    if b == [] {
      assert a + b == a;
    } else {
      assert (a + b)[..|a + b| - 1] == a + b[..|b| - 1];
      MeaningAppend(log, a, b[..|b| - 1]);
    }
  }

  // Every trace index of xs names a frame of log.
  predicate InRange(log: Log, xs: seq<Instr>) {
    forall i | 0 <= i < |xs| :: !xs[i].Stack? ==> xs[i].traceIndex <= |log|
  }

  lemma {:induction false} MeaningPrefix(log: Log, longer: Log, xs: seq<Instr>)
    requires log <= longer && InRange(log, xs)
    ensures Meaning(longer, xs) == Meaning(log, xs)
  {
    if xs != [] {
      MeaningPrefix(log, longer, xs[..|xs| - 1]);
      var last := xs[|xs| - 1];
      if !last.Stack? {
        PathOfPrefix(log, longer, last.traceIndex);
      }
    }
  }

  lemma {:induction false} SelfContainedInRange(xs: seq<Instr>)
    requires SelfContained(xs)
    ensures InRange(LogOf(xs), xs)
  {
    if xs != [] {
      SelfContainedInRange(xs[..|xs| - 1]);
    }
  }
}
