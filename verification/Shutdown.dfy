// The final pass delivers everything, once.
module ShutdownTheorems {
  import opened TrackTypes
  import opened GlobalTree
  import opened Gathering
  import opened StreamTheorems
  import opened Writer
  import opened Protocol
  import opened ProtocolSafety
  import opened TrackerTheorems

  // A thread between two allocator calls: nothing left to push, nothing in its hand, not in its lock.
  ghost predicate Settled(th: Thread) {
    th.pending == [] && th.hand.None? && !th.lock.OwnerHolds?
  }

  // How many positions of the list the pass has served.
  function Served(s: State): nat {
    match s.place
    case AtState(i) => i
    case Draining(i) => i
    case Drained(i) => i
    case Shipping(i, _) => i + 1
    case Resolving => |s.states|
    case Done => |s.states|
    case _ => 0
  }

  // The final pass, or what follows it, while no thread does anything any more.
  ghost predicate Closing(s: State) {
    && !s.tracking && s.final && !s.place.Idle?
    && (forall t | t in s.threads :: Settled(s.threads[t]))
    && (!s.place.FirstDrain? ==> s.channel == [])
    && (forall j | 0 <= j < |s.states| && j < Served(s) ::
          s.states[j] in s.threads && s.threads[s.states[j]].shared.items == [])
  }

  lemma OwnerStepClosing(s: State, a: Action)
    requires Closing(s) && OwnerCan(s, a)
    ensures Closing(OwnerStep(s, a))
  {
    assert Settled(s.threads[a.t]);
    assert a.Die?;
  }

  lemma MovesClosing(s: State, s': State, a: Action)
    requires Structure(s) && Closing(s) && GathererCan(s, a) && Moves(s, s', a)
    ensures Closing(s')
  {
    hide Closing, Moves, GathererCan;
    match a
    case Ship => ShipClosing(s, s');
    case Swap => TurnClosing(s, s', a);
    case LockState => TurnClosing(s, s', a);
    case _ => OtherClosing(s, s', a);
  }

  lemma OtherClosing(s: State, s': State, a: Action)
    requires Closing(s) && GathererCan(s, a) && Moves(s, s', a) && !a.Ship? && !a.Swap? && !a.LockState?
    requires s.place.Draining? ==> s.place.i < |s.states|
    ensures Closing(s')
  {
    hide Settled;
    match a
    case DrainOne =>
    case DrainEmpty =>
    case EndPass =>
    case LastResolved(_) =>
    case Finish =>
    case _ =>
  }

  lemma ShipClosing(s: State, s': State)
    requires Closing(s) && GathererCan(s, Ship) && Moves(s, s', Ship)
    ensures Closing(s')
  {
    forall j | 0 <= j < |s'.states| && j < Served(s')
      ensures s'.states[j] in s'.threads && s'.threads[s'.states[j]].shared.items == []
    {
      assert s'.states[j] == s.states[j];
    }
  }

  lemma TurnClosing(s: State, s': State, a: Action)
    requires Structure(s) && Closing(s) && GathererCan(s, a) && Moves(s, s', a) && (a.Swap? || a.LockState?)
    ensures Closing(s')
  {
    hide HasRoom;
    assert s'.states == s.states;
    assert forall t | t in s'.threads :: t in s.threads && Settled(s.threads[t]);
  }

  lemma WorldStepClosing(s: State, a: Action)
    requires Closing(s) && WorldCan(s, a)
    ensures Closing(WorldStep(s, a))
  {
  }

  lemma ResolverStepClosing(s: State, a: Action)
    requires Closing(s) && ResolverCan(s, a)
    ensures Closing(ResolverStep(s, a))
  {
  }

  lemma StepClosing(v: Variant, s: State, a: Action)
    requires Inv(s) && Closing(s) && Can(s, a)
    ensures Closing(Do(v, s, a))
  {
    hide Inv, Closing, GathererStep, OwnerStep, OwnerCan, GathererCan, ResolverStep, WorldStep, Moves;
    if WorldCan(s, a) {
      WorldStepClosing(s, a);
    } else if OwnerCan(s, a) {
      OwnerStepClosing(s, a);
    } else if GathererCan(s, a) {
      GathererMoves(v, s, a);
      InvStructure(s);
      MovesClosing(s, GathererStep(v, s, a), a);
    } else {
      ResolverStepClosing(s, a);
    }
  }

  // ---------------------------------------------------------------------------------------------
  // Runs that contain the final pass

  lemma {:induction false} RunPrefix(v: Variant, before: seq<Action>, after: seq<Action>)
    requires IsRun(v, before + after)
    ensures IsRun(v, before)
  {
    if after == [] {
      assert before + after == before;
    } else {
      assert (before + after)[..|before + after| - 1] == before + after[..|after| - 1];
      RunPrefix(v, before, after[..|after| - 1]);
    }
  }

  lemma {:induction false} RunClosing(v: Variant, before: seq<Action>, after: seq<Action>)
    requires IsRun(v, before + after) && Closing(Final(v, before))
    ensures Closing(Final(v, before + after))
  {
    if after == [] {
      assert before + after == before;
    } else {
      var run, front := before + after, before + after[..|after| - 1];
      assert run[..|run| - 1] == front;
      RunPrefix(v, front, [after[|after| - 1]]);
      assert front + [after[|after| - 1]] == run;
      RunClosing(v, before, after[..|after| - 1]);
      RunInv(v, front);
      StepClosing(v, Final(v, front), after[|after| - 1]);
    }
  }

  // The stop request ends tracking.
  lemma {:induction false} StoppedMeansNotTracking(v: Variant, run: seq<Action>)
    requires IsRun(v, run)
    ensures Final(v, run).stopRequested ==> !Final(v, run).tracking
  {
    if run != [] {
      var s, a := Final(v, run[..|run| - 1]), run[|run| - 1];
      StoppedMeansNotTracking(v, run[..|run| - 1]);
      OnlyStopStops(v, s, a);
    }
  }

  // What only the program's own calls change: which threads there are, what they called, and whether it goes on.
  ghost predicate SameProgram(s: State, s': State) {
    && s'.tracking == s.tracking && s'.stopRequested == s.stopRequested && s'.threads.Keys == s.threads.Keys
    && forall t | t in s.threads :: s'.threads[t].calls == s.threads[t].calls && s'.threads[t].log == s.threads[t].log
  }

  lemma OwnerSameProgram(s: State, a: Action)
    requires OwnerCan(s, a) && !a.Begin?
    ensures SameProgram(s, OwnerStep(s, a))
  {
    hide Grown;
    match a
    case Push(_, _) =>
    case Release(_) =>
    case Take(_) =>
    case Send(_) =>
    case Die(_) =>
  }

  lemma MovesSameProgram(s: State, s': State, a: Action)
    requires Moves(s, s', a)
    ensures SameProgram(s, s')
  {
    hide Moves;
    MovesKeepsThreads(s, s', a);
    MovesNoStop(s, s', a);
  }

  lemma OtherSameProgram(v: Variant, s: State, a: Action)
    requires Can(s, a) && !a.Begin? && !a.Spawn? && !a.Stop?
    ensures SameProgram(s, Do(v, s, a))
  {
    hide SameProgram, OwnerStep, OwnerCan, GathererStep, GathererCan, Moves;
    if WorldCan(s, a) {
      AdvanceSameProgram(s, a);
    } else if OwnerCan(s, a) {
      OwnerSameProgram(s, a);
    } else if GathererCan(s, a) {
      GathererMoves(v, s, a);
      MovesSameProgram(s, GathererStep(v, s, a), a);
    } else {
      ResolverSameProgram(s, a);
    }
  }

  lemma AdvanceSameProgram(s: State, a: Action)
    requires WorldCan(s, a) && !a.Spawn? && !a.Stop?
    ensures SameProgram(s, WorldStep(s, a))
  {
  }

  lemma ResolverSameProgram(s: State, a: Action)
    requires ResolverCan(s, a)
    ensures SameProgram(s, ResolverStep(s, a))
  {
  }

  // Once tracking is off no thread starts and no call is recorded any more.
  lemma {:induction false} StoppedStaysStopped(v: Variant, before: seq<Action>, after: seq<Action>)
    requires IsRun(v, before + after) && !Final(v, before).tracking
    ensures var s, s' := Final(v, before), Final(v, before + after);
            && !s'.tracking && s'.threads.Keys == s.threads.Keys
            && forall t | t in s.threads :: s'.threads[t].calls == s.threads[t].calls
  {
    if after == [] {
      assert before + after == before;
    } else {
      hide SameProgram, GathererStep, OwnerStep;
      var run, front, a := before + after, before + after[..|after| - 1], after[|after| - 1];
      assert run[..|run| - 1] == front;
      StoppedStaysStopped(v, before, after[..|after| - 1]);
      StoppedStep(v, Final(v, front), a);
    }
  }

  lemma StoppedStep(v: Variant, s: State, a: Action)
    requires !s.tracking && Can(s, a)
    ensures var s' := Do(v, s, a);
            && !s'.tracking && s'.threads.Keys == s.threads.Keys
            && forall t | t in s.threads :: s'.threads[t].calls == s.threads[t].calls
  {
    hide OwnerStep, GathererStep, Grown;
    if !a.Stop? {
      OtherSameProgram(v, s, a);
    }
  }

  lemma OnlyStopStops(v: Variant, s: State, a: Action)
    requires Can(s, a)
    ensures a.Stop? || (Do(v, s, a).stopRequested == s.stopRequested && Do(v, s, a).tracking == s.tracking)
    ensures a.Stop? ==> !Do(v, s, a).tracking
  {
    hide Moves, GathererStep, Grown;
    if GathererCan(s, a) {
      GathererMoves(v, s, a);
      MovesNoStop(s, GathererStep(v, s, a), a);
    }
  }

  lemma MovesNoStop(s: State, s': State, a: Action)
    requires Moves(s, s', a)
    ensures s'.stopRequested == s.stopRequested && s'.tracking == s.tracking
  {
    match a
    case LockState =>
    case Swap =>
    case DrainEmpty =>
    case StartPass(_, _) =>
    case ReceiveRegistration =>
    case Ship =>
    case EndPass =>
    case _ =>
  }

  // A thread that has not been accepted yet is settled.
  lemma UnregisteredSettled(s: State, t: ThreadId)
    requires t in s.threads && ThreadInv(s, t) && !s.threads[t].registered
    ensures Settled(s.threads[t])
  {
    var th := s.threads[t];
    var rest := Carried(s, t) + (InChannel(s.channel, t) + (HandOf(th) + th.shared.items));
    assert |Sent(s.events, t) + rest| == 0;
    assert |HandOf(th) + th.shared.items| == 0;
  }

  lemma {:induction false} FinalPassCloses(v: Variant, before: seq<Action>, capacity: nat)
    requires IsRun(v, before + [StartPass(true, capacity)])
    requires var s := Final(v, before);
             forall t | t in s.threads && s.threads[t].registered :: Settled(s.threads[t])
    ensures Closing(Final(v, before + [StartPass(true, capacity)]))
  {
    var run, a := before + [StartPass(true, capacity)], StartPass(true, capacity);
    assert run[..|run| - 1] == before;
    var s := Final(v, before);
    RunInv(v, before);
    StoppedMeansNotTracking(v, before);
    assert GathererCan(s, a);
    assert Final(v, run) == GathererStep(v, s, a);
    forall t | t in s.threads
      ensures Settled(s.threads[t])
    {
      assert ThreadInv(s, t);
      if !s.threads[t].registered {
        UnregisteredSettled(s, t);
      }
    }
  }

  // Exactly once: if every registered thread is settled when the final pass starts, then when the gatherer is
  // done each thread's whole sequence of instructions has been processed, in order, and nothing else.
  lemma {:induction false} EverythingDelivered(v: Variant, before: seq<Action>, capacity: nat, after: seq<Action>,
                                               t: ThreadId)
    requires IsRun(v, before + [StartPass(true, capacity)] + after)
    requires var s := Final(v, before);
             forall u | u in s.threads && s.threads[u].registered :: Settled(s.threads[u])
    requires var s := Final(v, before + [StartPass(true, capacity)] + after); s.place.Done? && t in s.threads
    ensures var s := Final(v, before + [StartPass(true, capacity)] + after);
            Sent(s.events, t) == s.threads[t].pushed && s.threads[t].pending == []
  {
    var start := before + [StartPass(true, capacity)];
    var s := Final(v, start + after);
    RunPrefix(v, start, after);
    FinalPassCloses(v, before, capacity);
    RunClosing(v, start, after);
    RunInv(v, start + after);
    assert ThreadInv(s, t);
    NothingLeft(s, t);
  }

  lemma {:induction false} NothingLeft(s: State, t: ThreadId)
    requires Inv(s) && Closing(s) && s.place.Done? && t in s.threads && ThreadInv(s, t)
    ensures Sent(s.events, t) == s.threads[t].pushed && s.threads[t].pending == []
  {
    hide Inv, OwnerLogs, Gone;
    var th := s.threads[t];
    assert Settled(th);
    if t in s.states {
      var j :| 0 <= j < |s.states| && s.states[j] == t;
      assert th.shared.items == [];
    } else if th.registered {
      assert Gone(s.events, t);
    } else {
      UnregisteredSettled(s, t);
      assert th.pushed == [];
    }
    assert Carried(s, t) == [] && InChannel(s.channel, t) == [] && HandOf(th) == [];
    assert th.pushed == [] ==> |Sent(s.events, t)| == 0;
    assert th.shared.items == [] ==>
      Sent(s.events, t) + ([] + ([] + ([] + th.shared.items))) == Sent(s.events, t);
  }

  // So the receiver decodes every call of every thread: with the documented tree, exactly the calls made.
  lemma {:induction false} DocumentedTraceIsComplete(before: seq<Action>, capacity: nat, after: seq<Action>,
                                                     t: ThreadId)
    requires IsRun(UnderParent, before + [StartPass(true, capacity)] + after)
    requires var s := Final(UnderParent, before);
             forall u | u in s.threads && s.threads[u].registered :: Settled(s.threads[u])
    requires var s := Final(UnderParent, before + [StartPass(true, capacity)] + after);
             s.place.Done? && t in s.threads && |s.g.log| < TWO_32 && |s.threads[t].log| < TWO_32
    ensures var s := Final(UnderParent, before + [StartPass(true, capacity)] + after);
            Meaning(s.g.log, Bare(WireOf(s.g.wire, t))) == OpsOf(s.threads[t].calls)
  {
    var run := before + [StartPass(true, capacity)] + after;
    var s := Final(UnderParent, run);
    EverythingDelivered(UnderParent, before, capacity, after, t);
    RunInv(UnderParent, run);
    RunMirrors(UnderParent, run);
    assert ThreadInv(s, t);
    DeliveredOps(s, t);
    DocumentedPreservesMeaning(s.events, t);
  }

  // What was delivered of a thread that is through are all events of its calls.
  lemma {:induction false} DeliveredOps(s: State, t: ThreadId)
    requires t in s.threads && ThreadInv(s, t) && |s.threads[t].log| < TWO_32
    requires Sent(s.events, t) == s.threads[t].pushed && s.threads[t].pending == []
    ensures Meaning(Local(s.events, t), Bare(Sent(s.events, t))) == OpsOf(s.threads[t].calls)
  {
    var rest := SentOfThread(s, t);
    SentOps(s.threads[t], Bare(Sent(s.events, t)), rest);
  }

  // With the tree as written the events are complete and in order too; each stack is right if and only if it is
  // empty or the first push of its outermost instruction pointer, in the order the gatherer processed pushes,
  // was a push below the root.
  lemma {:induction false} AsWrittenTraceIsComplete(before: seq<Action>, capacity: nat, after: seq<Action>, t: ThreadId)
    requires IsRun(AsWritten, before + [StartPass(true, capacity)] + after)
    requires var s := Final(AsWritten, before);
             forall u | u in s.threads && s.threads[u].registered :: Settled(s.threads[u])
    requires var s := Final(AsWritten, before + [StartPass(true, capacity)] + after);
             s.place.Done? && t in s.threads && |s.g.log| < TWO_32 && |s.threads[t].log| < TWO_32
    ensures var s := Final(AsWritten, before + [StartPass(true, capacity)] + after);
            var wire, ops := Meaning(s.g.log, Bare(WireOf(s.g.wire, t))), OpsOf(s.threads[t].calls);
            && |wire| == |ops|
            && forall i | 0 <= i < |ops| ::
                 && wire[i] == ops[i].(path := wire[i].path)
                 && (wire[i].path == ops[i].path <==>
                     ops[i].path == [] || FirstAtRoot(Pushes(s.events), ops[i].path[0]))
  {
    hide Inv, ThreadInv, Settled, IsRun, Meaning, OpsOf, FirstAtRoot;
    var run := before + [StartPass(true, capacity)] + after;
    var s := Final(AsWritten, run);
    EverythingDelivered(AsWritten, before, capacity, after, t);
    RunInv(AsWritten, run);
    RunMirrors(AsWritten, run);
    InvStructure(s);
    InvOwner(s, t);
    DeliveredOps(s, t);
    GatherFaithful(AsWritten, s.events, t);
    forall i | 0 <= i < |OpsOf(s.threads[t].calls)|
      ensures var wire, ops := Meaning(s.g.log, Bare(WireOf(s.g.wire, t))), OpsOf(s.threads[t].calls);
              && |wire| == |ops| && wire[i] == ops[i].(path := wire[i].path)
              && (wire[i].path == ops[i].path <==>
                  ops[i].path == [] || FirstAtRoot(Pushes(s.events), ops[i].path[0]))
    {
      AsWrittenExactly(s.events, t, i);
    }
  }
}
