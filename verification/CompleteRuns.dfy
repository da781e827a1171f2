// A complete run of two threads, to which the end-to-end results apply.
module CompleteRuns {
  import opened TrackTypes
  import opened GlobalTree
  import opened Gathering
  import opened StreamTheorems
  import opened TreeIdentity
  import opened Writer
  import opened Protocol
  import opened ProtocolSafety
  import opened TrackerTheorems
  import opened EndToEnd
  import opened Completion
  import opened Misattribution

  // Frames pushed by two threads, when no other thread delivered anything.
  lemma {:induction false} PushesOfTwo(events: seq<Event>, a: ThreadId, b: ThreadId)
    requires a != b && forall t: ThreadId | t != a && t != b :: Sent(events, t) == []
    ensures |Pushes(events)| <= |Sent(events, a)| + |Sent(events, b)|
  {
    if events != [] {
      var front, e := events[..|events| - 1], events[|events| - 1];
      assert events == front + [e];
      forall t: ThreadId | t != a && t != b
        ensures Sent(front, t) == []
      {
        assert Sent(events, t) == [];
      }
      PushesOfTwo(front, a, b);
      if e.Delivered? {
        FewFrames(Bare(e.buffer));
        if e.thread != a && e.thread != b {
          assert Sent(events, e.thread) == Sent(front, e.thread) + e.buffer;
          assert |e.buffer| == 0;
        }
      }
    }
  }

  lemma {:induction false} FewFrames(xs: seq<Instr>)
    ensures |LogOf(xs)| <= |xs|
  {
    if xs != [] {
      FewFrames(xs[..|xs| - 1]);
    }
  }

  // What a thread that made one call and has nothing left to push has logged.
  lemma OneCallLogs(s: State, t: ThreadId, c: Call)
    requires Inv(s) && t in s.threads && s.threads[t].calls == [c] && s.threads[t].pending == []
    ensures s.threads[t].log == EncodeCall([], c).log
    ensures |s.threads[t].pushed| == |EncodeCall([], c).instrs|
  {
    hide EncodeCall, Standing, Fifo, OwnerState;
    InvOwner(s, t);
    CallLogs(c);
    EncodeSnoc([], c);
    assert [] + [c] == [c];
    assert [] + EncodeCall([], c).instrs == EncodeCall([], c).instrs;
    assert Bare(s.threads[t].pushed) + [] == Bare(s.threads[t].pushed);
  }

  // There are complete runs in which two threads make calls.
  lemma {:induction false} TwoThreadsComplete(v: Variant) returns (before: seq<Action>, after: seq<Action>)
    ensures Complete(v, before, CAPACITY, after)
    ensures var s := End(v, before, CAPACITY, after);
            s.threads.Keys == {1, 2} && s.threads[1].calls == [DEEP] && s.threads[2].calls == [SHALLOW]
  {
    hide IsRun, Inv, Called, EncodeCall;
    var run := TwoCalls(v);
    TwoCalled(Final(v, run));
    before, after := CanComplete(v, run, {});
    var all := before + [StartPass(true, CAPACITY)] + after;
    RunInv(v, all);
    RunMirrors(v, all);
    SmallEnough(v, Final(v, run), Final(v, all));
  }

  lemma TwoCalled(s: State)
    requires 1 in s.threads && 2 in s.threads && Called(s.threads[1], DEEP) && Called(s.threads[2], SHALLOW)
    ensures s.threads[1].calls == [DEEP] && s.threads[2].calls == [SHALLOW]
  {
  }

  lemma {:induction false} SmallEnough(v: Variant, s: State, s': State)
    requires s.threads.Keys == {1, 2} && s.threads[1].calls == [DEEP] && s.threads[2].calls == [SHALLOW]
    requires Completed(s, s', {}) && Inv(s') && Mirrors(v, s')
    ensures |s'.g.log| < TWO_32 && forall u | u in s'.threads :: |s'.threads[u].log| < TWO_32
    ensures s'.threads.Keys == {1, 2} && s'.threads[1].calls == [DEEP] && s'.threads[2].calls == [SHALLOW]
  {
    hide EncodeCall, ThreadInv;
    assert 1 in s.threads && 2 in s.threads;
    InvStructure(s');
    DeepEncodes();
    ShallowEncodes();
    OneCallLogs(s', 1, DEEP);
    OneCallLogs(s', 2, SHALLOW);
    RetainedBounded(v, s'.events);
    PushesOfTwo(s'.events, 1, 2);
  }
}
