// Pairing frees with allocations by pointer.
module Matcher {
  import opened TrackTypes
  import opened Windows

  datatype AllocInfo = AllocInfo(time: Time, thread: ThreadId, traceIndex: nat)

  datatype AllocError =
    | DoubleAlloc(ptr: nat, earlier: AllocInfo, later: AllocInfo)
    | DoubleFree(ptr: nat, info: AllocInfo)
    | Leak(ptr: nat, info: AllocInfo)

  datatype MatchEvent =
    | Pair(allocThread: ThreadId, deallocThread: ThreadId, bucket: Time, size: nat)
    | Error(error: AllocError)

  // An event as the matcher receives it, with the window of the batch it arrives in.
  datatype Input = Input(time: Time, thread: ThreadId, instr: Instr, bucket: Time)

  function InfoOf(e: Input): AllocInfo
    requires !e.instr.Stack?
  {
    AllocInfo(e.time, e.thread, e.instr.traceIndex)
  }

  type Stash = map<nat, AllocInfo>

  datatype Matched = Matched(stash: Stash, out: seq<MatchEvent>)

  function Emitted(stash: Stash, e: Input): seq<MatchEvent> {
    match e.instr
    case Stack(_, _, _) => []
    case Allocate(ptr, _, _) =>
      if ptr in stash then [Error(DoubleAlloc(ptr, stash[ptr], InfoOf(e)))] else []
    case Deallocate(ptr, size, _) =>
      if ptr in stash then [Pair(stash[ptr].thread, e.thread, e.bucket, size)]
      else [Error(DoubleFree(ptr, InfoOf(e)))]
  }

  function Stashed(stash: Stash, e: Input): Stash {
    match e.instr
    case Stack(_, _, _) => stash
    case Allocate(ptr, _, _) => stash[ptr := InfoOf(e)]
    case Deallocate(ptr, _, _) => stash - {ptr}
  }

  // The matcher from a given stash.
  function MatchFrom(stash: Stash, es: seq<Input>): Matched {
    if es == [] then Matched(stash, [])
    else
      var m := MatchFrom(stash, es[..|es| - 1]);
      Matched(Stashed(m.stash, es[|es| - 1]), m.out + Emitted(m.stash, es[|es| - 1]))
  }

  function MatchAll(es: seq<Input>): Matched {
    MatchFrom(map[], es)
  }

  // How the stream is cut into batches does not matter.
  lemma {:induction false} MatchFromAppend(stash: Stash, a: seq<Input>, b: seq<Input>)
    ensures var m, n := MatchFrom(stash, a), MatchFrom(MatchFrom(stash, a).stash, b);
            MatchFrom(stash, a + b) == Matched(n.stash, m.out + n.out)
  {
    if b == [] {
      assert a + b == a;
    } else {
      assert (a + b)[..|a + b| - 1] == a + b[..|b| - 1];
      var m := MatchFrom(stash, a);
      var n := MatchFrom(m.stash, b[..|b| - 1]);
      MatchFromAppend(stash, a, b[..|b| - 1]);
      Associate(m.out, n.out, Emitted(n.stash, b[|b| - 1]));
    }
  }

  // Every allocation still outstanding, each once.
  ghost function LeakBag(stash: Stash): multiset<MatchEvent> {
    multiset(set ptr | ptr in stash :: Error(Leak(ptr, stash[ptr])))
  }

  // ---------------------------------------------------------------------------------------------
  // The operator

  // One batch: the message's timely time and its data.
  function InputsOf(time: Time, data: seq<(Time, ThreadId, Instr)>): seq<Input> {
    seq(|data|, i requires 0 <= i < |data| => Input(data[i].0, data[i].1, data[i].2, RoundUp(time)))
  }

  datatype Batch = Batch(time: Time, data: seq<(Time, ThreadId, Instr)>)

  // Everything an activation reads.
  function InputsOfAll(batches: seq<Batch>): seq<Input> {
    if batches == [] then []
    else
      var last := batches[|batches| - 1];
      InputsOfAll(batches[..|batches| - 1]) + InputsOf(last.time, last.data)
  }

  // The operator is activated with the batches that have arrived and its input frontier, None once it is empty.
  datatype Activation = Activation(batches: seq<Batch>, frontier: Option<Time>)

  // The operator's state by value.
  datatype Operator = Operator(stash: Stash, leakCapability: Option<Time>)

  // What one activation does. The order in which leaks come out is open.
  ghost predicate Activates(o: Operator, a: Activation, o': Operator, out: seq<MatchEvent>) {
    var m := MatchFrom(o.stash, InputsOfAll(a.batches));
    if a.frontier.None? && o.leakCapability.Some? then
      multiset(out) == multiset(m.out) + LeakBag(m.stash) && o' == Operator(map[], None)
    else
      && out == m.out && o'.stash == m.stash
      && o'.leakCapability ==
         if a.frontier.Some? && o.leakCapability.Some? && o.leakCapability.value < a.frontier.value then a.frontier
         else o.leakCapability
  }

  class PointerMatcher {
    var stash: Stash
    // The time at which leaks may still be emitted; None once they have been.
    var leakCapability: Option<Time>

    ghost function State(): Operator
      reads this
    {
      Operator(stash, leakCapability)
    }

    constructor (defaultTime: Time)
      ensures State() == Operator(map[], Some(defaultTime))
    {
      stash := map[];
      leakCapability := Some(defaultTime);
    }

    // One batch.
    method OnData(time: Time, data: seq<(Time, ThreadId, Instr)>) returns (out: seq<MatchEvent>)
      modifies this`stash
      ensures Matched(stash, out) == MatchFrom(old(stash), InputsOf(time, data))
    {
      out := [];
      ghost var inputs := InputsOf(time, data);
      var bucket := RoundUp(time);
      var i := 0;
      while i < |data|
        invariant 0 <= i <= |data|
        invariant Matched(stash, out) == MatchFrom(old(stash), inputs[..i])
      {
        var (eventTime, thread, instr) := data[i];
        assert inputs[..i + 1][..i] == inputs[..i];
        assert inputs[i] == Input(eventTime, thread, instr, bucket);
        match instr {
          case Allocate(ptr, size, traceIndex) =>
            var info := AllocInfo(eventTime, thread, traceIndex);
            if ptr in stash {
              out := out + [Error(DoubleAlloc(ptr, stash[ptr], info))];
            }
            stash := stash[ptr := info];
          case Deallocate(ptr, size, traceIndex) =>
            if ptr in stash {
              out := out + [Pair(stash[ptr].thread, thread, bucket, size)];
              stash := stash - {ptr};
            } else {
              out := out + [Error(DoubleFree(ptr, AllocInfo(eventTime, thread, traceIndex)))];
              assert stash - {ptr} == stash;
            }
          case Stack(_, _, _) =>
        }
        i := i + 1;
      }
      assert inputs[..i] == inputs;
    }

    // The input frontier moved. On the empty frontier the outstanding allocations are reported, the first time.
    method OnFrontier(frontier: Option<Time>) returns (out: seq<MatchEvent>)
      modifies this
      ensures Activates(old(State()), Activation([], frontier), State(), out)
    {
      assert InputsOfAll([]) == [];
      out := [];
      if frontier.None? {
        if leakCapability.Some? {
          leakCapability := None;
          while stash != map[]
            invariant leakCapability.None?
            invariant multiset(out) + LeakBag(stash) == LeakBag(old(stash))
            decreases |stash|
          {
            var ptr :| ptr in stash;
            LeakOne(stash, ptr);
            out := out + [Error(Leak(ptr, stash[ptr]))];
            stash := stash - {ptr};
          }
          assert LeakBag(stash) == multiset{};
        }
      } else if leakCapability.Some? && leakCapability.value < frontier.value {
        leakCapability := frontier;
      }
    }

    method Activate(a: Activation) returns (out: seq<MatchEvent>)
      modifies this
      ensures Activates(old(State()), a, State(), out)
    {
      out := [];
      var i := 0;
      while i < |a.batches|
        invariant 0 <= i <= |a.batches|
        invariant Matched(stash, out) == MatchFrom(old(stash), InputsOfAll(a.batches[..i]))
        invariant leakCapability == old(leakCapability)
      {
        var more := OnData(a.batches[i].time, a.batches[i].data);
        assert a.batches[..i + 1][..i] == a.batches[..i];
        MatchFromAppend(old(stash), InputsOfAll(a.batches[..i]), InputsOf(a.batches[i].time, a.batches[i].data));
        out := out + more;
        i := i + 1;
      }
      assert a.batches[..i] == a.batches;
      var leaks := OnFrontier(a.frontier);
      out := out + leaks;
    }
  }

  // ---------------------------------------------------------------------------------------------
  // The whole life of the operator

  // States and outputs over a sequence of activations. Timely promises that no data follows an empty frontier.
  ghost predicate Lifetime(states: seq<Operator>, acts: seq<Activation>, outs: seq<seq<MatchEvent>>) {
    && |states| == |acts| + 1 && |outs| == |acts|
    && states[0].stash == map[] && states[0].leakCapability.Some?
    && (forall i | 0 <= i < |acts| :: Activates(states[i], acts[i], states[i + 1], outs[i]))
    && (forall i, j | 0 <= i < j < |acts| && acts[i].frontier.None? ::
          acts[j].frontier.None? && acts[j].batches == [])
  }

  function AllBatches(acts: seq<Activation>): seq<Batch> {
    if acts == [] then [] else AllBatches(acts[..|acts| - 1]) + acts[|acts| - 1].batches
  }

  ghost function AllOut(outs: seq<seq<MatchEvent>>): multiset<MatchEvent> {
    if outs == [] then multiset{} else AllOut(outs[..|outs| - 1]) + multiset(outs[|outs| - 1])
  }

  lemma {:induction false} InputsOfAllAppend(a: seq<Batch>, b: seq<Batch>)
    ensures InputsOfAll(a + b) == InputsOfAll(a) + InputsOfAll(b)
  {
    if b == [] {
      assert a + b == a;
    } else {
      assert (a + b)[..|a + b| - 1] == a + b[..|b| - 1];
      InputsOfAllAppend(a, b[..|b| - 1]);
      Associate(InputsOfAll(a), InputsOfAll(b[..|b| - 1]), InputsOf(b[|b| - 1].time, b[|b| - 1].data));
    }
  }

  // Over its life the operator reports what the stream so far calls for, however it was cut into batches and
  // activations, and, once the input is exhausted, each outstanding allocation exactly once.
  lemma {:induction false} LeaksOnce(states: seq<Operator>, acts: seq<Activation>, outs: seq<seq<MatchEvent>>)
    requires Lifetime(states, acts, outs)
    ensures var m := MatchAll(InputsOfAll(AllBatches(acts)));
            var exhausted := acts != [] && acts[|acts| - 1].frontier.None?;
            && AllOut(outs) == multiset(m.out) + (if exhausted then LeakBag(m.stash) else multiset{})
            && states[|acts|].stash == (if exhausted then map[] else m.stash)
            && (states[|acts|].leakCapability.None? <==> exhausted)
  {
    if acts == [] {
      assert InputsOfAll([]) == [];
    } else {
      var n := |acts| - 1;
      LeaksOnce(states[..n + 1], acts[..n], outs[..n]);
      assert Activates(states[n], acts[n], states[n + 1], outs[n]);
      InputsOfAllAppend(AllBatches(acts[..n]), acts[n].batches);
      var before, more := InputsOfAll(AllBatches(acts[..n])), InputsOfAll(acts[n].batches);
      MatchFromAppend(map[], before, more);
      LeaksOnceStep(states[n], acts[n], states[n + 1], outs[n], MatchAll(before), AllOut(outs[..n]),
                    n > 0 && acts[n - 1].frontier.None?);
    }
  }

  // One activation, after m was matched and, if `exhausted`, the leaks were reported.
  lemma LeaksOnceStep(o: Operator, a: Activation, o': Operator, out: seq<MatchEvent>, m: Matched,
                      total: multiset<MatchEvent>, exhausted: bool)
    requires Activates(o, a, o', out) && (exhausted ==> a.frontier.None? && a.batches == [])
    requires total == multiset(m.out) + if exhausted then LeakBag(m.stash) else multiset{}
    requires o.stash == (if exhausted then map[] else m.stash) && (o.leakCapability.None? <==> exhausted)
    ensures var n := MatchFrom(m.stash, InputsOfAll(a.batches));
            && total + multiset(out) ==
               multiset(m.out + n.out) + (if a.frontier.None? then LeakBag(n.stash) else multiset{})
            && o'.stash == (if a.frontier.None? then map[] else n.stash)
            && (o'.leakCapability.None? <==> a.frontier.None?)
  {
    var n := MatchFrom(m.stash, InputsOfAll(a.batches));
    if exhausted {
      assert n == Matched(m.stash, []) && out == [];
      assert m.out + n.out == m.out;
    }
  }

  // The leak capability follows the input frontier: until the input is exhausted it is the highest of the time
  // at which the operator was built and the frontiers seen so far.
  lemma {:induction false} CapabilityFollows(states: seq<Operator>, acts: seq<Activation>,
                                             outs: seq<seq<MatchEvent>>)
    requires Lifetime(states, acts, outs)
    requires forall i | 0 <= i < |acts| :: acts[i].frontier.Some?
    ensures var c := states[|acts|].leakCapability;
            && c.Some? && states[0].leakCapability.value <= c.value
            && (forall i | 0 <= i < |acts| :: acts[i].frontier.value <= c.value)
            && (c == states[0].leakCapability || exists i | 0 <= i < |acts| :: acts[i].frontier == c)
  {
    if acts != [] {
      var n := |acts| - 1;
      CapabilityFollows(states[..n + 1], acts[..n], outs[..n]);
      assert Activates(states[n], acts[n], states[n + 1], outs[n]);
      var c := states[n + 1].leakCapability;
      if c != acts[n].frontier && c != states[0].leakCapability {
        var i :| 0 <= i < n && acts[..n][i].frontier == states[n].leakCapability;
        assert acts[i].frontier == c;
      }
    }
  }

  lemma LeakBagHas(stash: Stash, m: MatchEvent)
    ensures LeakBag(stash)[m] ==
            if m.Error? && m.error.Leak? && m.error.ptr in stash && stash[m.error.ptr] == m.error.info then 1 else 0
  {
    var leaks := set ptr | ptr in stash :: Error(Leak(ptr, stash[ptr]));
    assert m in leaks <==>
      m.Error? && m.error.Leak? && m.error.ptr in stash && stash[m.error.ptr] == m.error.info;
  }

  lemma LeakOne(stash: Stash, ptr: nat)
    requires ptr in stash
    ensures LeakBag(stash) == multiset{Error(Leak(ptr, stash[ptr]))} + LeakBag(stash - {ptr})
    ensures |stash - {ptr}| < |stash|
  {
    var rest := stash - {ptr};
    forall m: MatchEvent
      ensures LeakBag(stash)[m] == multiset{Error(Leak(ptr, stash[ptr]))}[m] + LeakBag(rest)[m]
    {
      LeakBagHas(stash, m);
      LeakBagHas(rest, m);
    }
    assert stash.Keys == rest.Keys + {ptr};
    assert |stash.Keys| == |rest.Keys| + 1;
  }
}
