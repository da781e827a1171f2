// Frames on their way through the resolver: announced, resolved and written exactly once, in order.
module Resolution {
  import opened TrackTypes
  import opened GlobalTree
  import opened Translation
  import opened Gathering
  import opened StreamTheorems
  import opened Protocol
  import opened ProtocolSafety
  import opened TrackerTheorems
  import opened FrameTimes

  // The frames in a queue of requests.
  function Asked(queue: seq<Request>): seq<StackInfo> {
    if queue == [] then []
    else (if queue[0].Resolve? then [queue[0].info] else []) + Asked(queue[1..])
  }

  function InWork(s: State): seq<StackInfo> {
    if s.working.Some? then [s.working.value] else []
  }

  lemma {:induction false} AskedAppend(a: seq<Request>, b: seq<Request>)
    ensures Asked(a + b) == Asked(a) + Asked(b)
  {
    if a == [] {
      assert a + b == b;
    } else {
      assert (a + b)[1..] == a[1..] + b;
      AskedAppend(a[1..], b);
      var first := if a[0].Resolve? then [a[0].info] else [];
      Associate(first, Asked(a[1..]), Asked(b));
    }
  }

  lemma {:induction false} AskedRequests(infos: seq<StackInfo>)
    ensures Asked(Requests(infos)) == infos
    decreases |infos|
  {
    if infos != [] {
      assert Requests(infos)[1..] == Requests(infos[1..]);
      AskedRequests(infos[1..]);
    }
  }

  // Written, collected, resolved, in work and asked for: together, in this order, all announced frames.
  ghost predicate Pipeline(s: State) {
    Written(s.g.wire) + (s.details + (s.resolved + (InWork(s) + Asked(s.queue)))) == InfosOf(Stream(s.g.wire))
  }

  // The shutdown request is the last one, sent after the final pass, and ends the resolver.
  ghost predicate Closedown(s: State) {
    && (forall i | 0 <= i < |s.queue| :: s.queue[i].Shutdown? ==>
          i == |s.queue| - 1 && (s.place.Resolving? || s.place.Done?))
    && (s.place.Resolving? && s.resolverUp ==> s.queue != [] && s.queue[|s.queue| - 1].Shutdown?)
    && (!s.resolverUp ==> s.queue == [] && s.working.None? && (s.place.Resolving? || s.place.Done?))
    && (s.place.Done? ==> !s.resolverUp && s.resolved == [] && s.details == [])
  }

  // ---------------------------------------------------------------------------------------------
  // Steps

  // A stretch of processing announced the frames `more`, asked for them, and wrote the details `written`.
  ghost predicate Grows(s: State, s': State, written: seq<StackInfo>, more: seq<StackInfo>) {
    && Written(s'.g.wire) == Written(s.g.wire) + written
    && InfosOf(Stream(s'.g.wire)) == InfosOf(Stream(s.g.wire)) + more
    && s'.queue == s.queue + Requests(more)
  }

  lemma NoGrowth(s: State)
    ensures Grows(s, s, [], [])
  {
  }

  lemma {:induction false} WriteGrows(wire: seq<Message>, m: Message)
    ensures Written(wire + [m]) == Written(wire) + if m.StackDetails? then m.infos else []
    ensures InfosOf(Stream(wire + [m])) == InfosOf(Stream(wire)) + if m.Instructions? then InfosOf(m.buffer) else []
  {
    WrittenSnoc(wire, m);
    WireSnoc(wire, m, 0);
    if m.Instructions? {
      InfosOfAppend(Stream(wire), m.buffer);
    } else {
      assert Stream(wire) + [] == Stream(wire);
    }
  }

  lemma HandleGrows(v: Variant, s: State, e: Event) returns (more: seq<StackInfo>)
    requires e.Detailed? ==> s.g.ok
    ensures Grows(s, Handle(v, s, e), if e.Detailed? then e.infos else [], more)
    ensures !e.Delivered? ==> more == []
  {
    hide Process, Written, Stream, InfosOf;
    var written := ProcessWrites(v, s.g, e);
    more := [];
    if written != [] {
      assert s.g.wire + written == s.g.wire + [written[0]];
      WriteGrows(s.g.wire, written[0]);
      if e.Delivered? {
        more := InfosOf(written[0].buffer);
      }
    } else {
      assert s.g.wire + written == s.g.wire;
    }
  }

  // What a step of the gatherer adds.
  ghost predicate StepGrows(s: State, s': State, a: Action, written: seq<StackInfo>, more: seq<StackInfo>) {
    && Written(s'.g.wire) == Written(s.g.wire) + written
    && InfosOf(Stream(s'.g.wire)) == InfosOf(Stream(s.g.wire)) + more
    && s'.queue == s.queue + Requests(more) + (if a.EndPass? && s.final then [Shutdown] else [])
    && written + s'.details
       == s.details + (if (a.ReceiveResolved? || a.LastResolved?) && s.resolved != [] then [s.resolved[0]] else [])
    && (s.place.Resolving? ==> more == [])
  }

  lemma CollectGrows(v: Variant, s: State, a: Action) returns (written: seq<StackInfo>)
    requires s.g.ok && (a.ReceiveResolved? || a.LastResolved?) && GathererCan(s, a)
    ensures StepGrows(s, HandleDetails(v, s, a.capacity), a, written, [])
  {
    hide Handle, Written, InfosOf, Stream;
    var details := s.details + [s.resolved[0]];
    var s1 := s.(resolved := s.resolved[1..], details := details, detailsCapacity := a.capacity);
    written := [];
    NoGrowth(s1);
    HandleIsProcessed(v, s1, Detailed(details));
    if |details| == a.capacity {
      written := details;
      var more := HandleGrows(v, s1, Detailed(details));
    }
    assert s.queue + Requests([]) + [] == s.queue;
  }

  lemma DataGrows(v: Variant, s: State, a: Action) returns (more: seq<StackInfo>)
    requires (a.ReceiveData? || a.DrainOne?) && GathererCan(s, a)
    ensures StepGrows(s, HandleData(v, s), a, [], more)
  {
    hide Handle, Written, InfosOf, Stream;
    HandleIsProcessed(v, s, Delivered(s.channel[0].thread, s.channel[0].buffer));
    more := HandleGrows(v, s, Delivered(s.channel[0].thread, s.channel[0].buffer));
    assert s.queue + Requests(more) + [] == s.queue + Requests(more);
  }

  lemma ShipGrows(v: Variant, s: State) returns (more: seq<StackInfo>)
    requires GathererCan(s, Ship)
    ensures StepGrows(s, ShipLocal(v, s), Ship, [], more)
  {
    hide Handle, Written, InfosOf, Stream, Grows;
    more := HandleGrows(v, s, Delivered(s.states[s.place.i], s.local.items));
    if s.place.sawDead {
      RemovalGrows(v, s, more);
    } else {
      DeliveryGrows(v, s, more);
    }
    ShipMoves(v, s);
    GrowthIsShips(s, ShipLocal(v, s), more);
  }

  lemma GrowthIsShips(s: State, s': State, more: seq<StackInfo>)
    requires GathererCan(s, Ship) && Moves(s, s', Ship) && Grows(s, s', [], more)
    ensures StepGrows(s, s', Ship, [], more)
  {
    hide Written, InfosOf, Stream, Requests;
    assert s.queue + Requests(more) + [] == s.queue + Requests(more);
  }

  lemma DeliveryGrows(v: Variant, s: State, more: seq<StackInfo>)
    requires GathererCan(s, Ship) && !s.place.sawDead
    requires Grows(s, Handle(v, s, Delivered(s.states[s.place.i], s.local.items)), [], more)
    ensures Grows(s, ShipLocal(v, s), [], more)
  {
  }

  lemma RemovalGrows(v: Variant, s: State, more: seq<StackInfo>)
    requires GathererCan(s, Ship) && s.place.sawDead
    requires Grows(s, Handle(v, s, Delivered(s.states[s.place.i], s.local.items)), [], more)
    ensures Grows(s, ShipLocal(v, s), [], more)
  {
    hide Handle, Written, InfosOf, Stream;
    var t := s.states[s.place.i];
    var s1 := Handle(v, s, Delivered(t, s.local.items)).(local := s.local.(items := []));
    var none := HandleGrows(v, s1, Removed(t));
    assert s1.queue + Requests([]) == s1.queue;
  }

  lemma RegistrationGrows(v: Variant, s: State)
    requires s.g.ok && GathererCan(s, ReceiveRegistration)
    ensures StepGrows(s, GathererStep(v, s, ReceiveRegistration), ReceiveRegistration, [], [])
  {
    hide Handle, Written, InfosOf, Stream;
    HandleIsProcessed(v, s, Registered(s.registrations[0]));
    var none := HandleGrows(v, s, Registered(s.registrations[0]));
    assert s.queue + Requests([]) + [] == s.queue + Requests([]);
  }

  lemma EndPassGrows(v: Variant, s: State)
    requires s.g.ok && GathererCan(s, EndPass)
    ensures StepGrows(s, GathererStep(v, s, EndPass), EndPass, [], [])
  {
    hide Handle, Written, InfosOf, Stream;
    HandleIsProcessed(v, s, Ticked(s.passTime));
    var none := HandleGrows(v, s, Ticked(s.passTime));
    assert s.queue + Requests([]) + [] == s.queue + Requests([]);
  }

  lemma FinishGrows(v: Variant, s: State)
    requires s.g.ok && GathererCan(s, Finish)
    ensures StepGrows(s, GathererStep(v, s, Finish), Finish, s.details, [])
  {
    hide Handle, Written, InfosOf, Stream;
    NoGrowth(s);
    assert s.queue + Requests([]) + [] == s.queue + Requests([]);
    if s.details != [] {
      var none := HandleGrows(v, s, Detailed(s.details));
    }
  }

  lemma QuietGrows(v: Variant, s: State, a: Action)
    requires GathererCan(s, a) && (a.StartPass? || a.DrainEmpty? || a.LockState? || a.Swap?)
    ensures StepGrows(s, GathererStep(v, s, a), a, [], [])
  {
    hide Written, InfosOf, Stream, GathererStep;
    NoGrowth(s);
    GathererMoves(v, s, a);
    QuietKeeps(s, GathererStep(v, s, a), a);
    assert s.queue + Requests([]) + [] == s.queue;
  }

  lemma QuietKeeps(s: State, s': State, a: Action)
    requires GathererCan(s, a) && Moves(s, s', a) && (a.StartPass? || a.DrainEmpty? || a.LockState? || a.Swap?)
    ensures s'.g == s.g && s'.queue == s.queue && s'.details == s.details && !s.place.Resolving?
  {
    match a
    case StartPass(_, _) =>
    case DrainEmpty =>
    case LockState =>
    case Swap =>
  }

  lemma GathererGrows(v: Variant, s: State, a: Action) returns (written: seq<StackInfo>, more: seq<StackInfo>)
    requires s.g.ok && GathererCan(s, a)
    ensures StepGrows(s, GathererStep(v, s, a), a, written, more)
  {
    written, more := [], [];
    if a.ReceiveResolved? || a.LastResolved? {
      written := CollectGrows(v, s, a);
    } else if a.ReceiveData? || a.DrainOne? {
      more := DataGrows(v, s, a);
    } else if a.Ship? {
      more := ShipGrows(v, s);
    } else if a.ReceiveRegistration? {
      RegistrationGrows(v, s);
    } else if a.EndPass? {
      EndPassGrows(v, s);
    } else if a.Finish? {
      written := s.details;
      FinishGrows(v, s);
    } else {
      QuietGrows(v, s, a);
    }
  }

  // Moving along the pipeline: from the resolved frames to the details and on to the wire, new frames in at the end.
  lemma Along(w: seq<StackInfo>, d: seq<StackInfo>, r: seq<StackInfo>, k: seq<StackInfo>, q: seq<StackInfo>,
              written: seq<StackInfo>, d': seq<StackInfo>, one: seq<StackInfo>, r': seq<StackInfo>,
              more: seq<StackInfo>)
    requires written + d' == d + one && r == one + r'
    ensures w + written + (d' + (r' + (k + (q + more)))) == w + (d + (r + (k + q))) + more
  {
    var rest := r' + (k + (q + more));
    assert w + written + (d' + rest) == w + (written + d' + rest);
    assert d + one + rest == d + (r + (k + q)) + more;
  }

  lemma {:induction false} AskedGrows(queue: seq<Request>, more: seq<StackInfo>, tail: seq<Request>)
    requires tail == [] || tail == [Shutdown]
    ensures Asked(queue + Requests(more) + tail) == Asked(queue) + more
  {
    AskedAppend(queue, Requests(more));
    AskedAppend(queue + Requests(more), tail);
    AskedRequests(more);
    assert Asked(tail) == [];
  }

  lemma MovesResolved(s: State, s': State, a: Action)
    requires GathererCan(s, a) && Moves(s, s', a)
    ensures s'.working == s.working
    ensures s.resolved == (if a.ReceiveResolved? || a.LastResolved? then [s.resolved[0]] else []) + s'.resolved
  {
    hide Processed;
    if a.ReceiveResolved? || a.LastResolved? {
      AnswerTaken(s, s');
    } else {
      ResolvedStays(s, s', a);
    }
  }

  lemma AnswerTaken(s: State, s': State)
    requires TakesAnswer(s, s')
    ensures s'.working == s.working && s.resolved == [s.resolved[0]] + s'.resolved
  {
  }

  lemma ResolvedStays(s: State, s': State, a: Action)
    requires Moves(s, s', a) && !a.ReceiveResolved? && !a.LastResolved?
    ensures s'.working == s.working && s'.resolved == s.resolved
  {
    match a
    case ReceiveData =>
    case ReceiveRegistration =>
    case StartPass(_, _) =>
    case DrainOne =>
    case DrainEmpty =>
    case LockState =>
    case Swap =>
    case Ship =>
    case EndPass =>
    case Finish =>
  }

  lemma MovesPipeline(s: State, s': State, a: Action, written: seq<StackInfo>, more: seq<StackInfo>)
    requires Pipeline(s) && GathererCan(s, a) && Moves(s, s', a) && StepGrows(s, s', a, written, more)
    ensures Pipeline(s')
  {
    var one := if a.ReceiveResolved? || a.LastResolved? then [s.resolved[0]] else [];
    MovesResolved(s, s', a);
    AskedGrows(s.queue, more, if a.EndPass? && s.final then [Shutdown] else []);
    Along(Written(s.g.wire), s.details, s.resolved, InWork(s), Asked(s.queue),
          written, s'.details, one, s'.resolved, more);
  }

  lemma ResolverPipeline(s: State, a: Action)
    requires Pipeline(s) && ResolverCan(s, a)
    ensures Pipeline(ResolverStep(s, a))
  {
    var s' := ResolverStep(s, a);
    if a.ResolverSend? {
      assert s'.resolved + (InWork(s') + Asked(s'.queue)) == s.resolved + (InWork(s) + Asked(s.queue));
    } else {
      assert InWork(s') + Asked(s'.queue) == InWork(s) + Asked(s.queue);
    }
  }

  lemma MovesClosedown(s: State, s': State, a: Action, more: seq<StackInfo>)
    requires Closedown(s) && GathererCan(s, a) && Moves(s, s', a)
    requires s'.queue == s.queue + Requests(more) + (if a.EndPass? && s.final then [Shutdown] else [])
    requires s.place.Resolving? ==> more == []
    ensures Closedown(s')
  {
    match a
    case ReceiveData =>
    case ReceiveRegistration =>
    case ReceiveResolved(_) =>
    case StartPass(_, _) =>
    case DrainOne =>
    case DrainEmpty =>
    case LockState =>
    case Swap =>
    case Ship =>
    case EndPass =>
    case LastResolved(_) =>
    case Finish =>
  }

  ghost predicate SamePipeline(s: State, s': State) {
    && s'.g == s.g && s'.details == s.details && s'.resolved == s.resolved && s'.working == s.working
    && s'.queue == s.queue && s'.place == s.place && s'.resolverUp == s.resolverUp
  }

  lemma OwnerKeepsPipeline(s: State, a: Action)
    requires OwnerCan(s, a)
    ensures SamePipeline(s, OwnerStep(s, a))
  {
    hide Grown;
    match a
    case Begin(_, _) =>
    case Push(_, _) =>
    case Release(_) =>
    case Take(_) =>
    case Send(_) =>
    case Die(_) =>
  }

  lemma StillPipeline(s: State, s': State)
    requires Pipeline(s) && Closedown(s) && SamePipeline(s, s')
    ensures Pipeline(s') && Closedown(s')
  {
  }

  lemma OthersPipeline(s: State, a: Action)
    requires Pipeline(s) && Closedown(s) && (WorldCan(s, a) || OwnerCan(s, a))
    ensures var s' := if WorldCan(s, a) then WorldStep(s, a) else OwnerStep(s, a);
            Pipeline(s') && Closedown(s')
  {
    hide Pipeline, Closedown, OwnerStep, OwnerCan;
    if WorldCan(s, a) {
      StillPipeline(s, WorldStep(s, a));
    } else {
      OwnerKeepsPipeline(s, a);
      StillPipeline(s, OwnerStep(s, a));
    }
  }

  lemma ResolverClosedown(s: State, a: Action)
    requires Closedown(s) && ResolverCan(s, a)
    ensures Closedown(ResolverStep(s, a))
  {
  }

  lemma StepPipeline(v: Variant, s: State, a: Action)
    requires s.g.ok && Pipeline(s) && Closedown(s) && Can(s, a)
    ensures Pipeline(Do(v, s, a)) && Closedown(Do(v, s, a))
  {
    hide Pipeline, Closedown, StepGrows, Moves, GathererStep, OwnerStep, GathererCan, OwnerCan, ResolverStep, WorldStep;
    if WorldCan(s, a) || OwnerCan(s, a) {
      OthersPipeline(s, a);
    } else if GathererCan(s, a) {
      var written, more := GathererGrows(v, s, a);
      GathererMoves(v, s, a);
      MovesPipeline(s, GathererStep(v, s, a), a, written, more);
      MovesClosedown(s, GathererStep(v, s, a), a, more);
    } else {
      ResolverPipeline(s, a);
      ResolverClosedown(s, a);
    }
  }

  // ---------------------------------------------------------------------------------------------
  // Whole runs

  lemma {:induction false} RunPipeline(v: Variant, run: seq<Action>)
    requires IsRun(v, run)
    ensures Pipeline(Final(v, run)) && Closedown(Final(v, run))
  {
    if run != [] {
      var front := run[..|run| - 1];
      RunPipeline(v, front);
      RunInv(v, front);
      RunMirrors(v, front);
      GatherSteady(v, Final(v, front).events);
      StepPipeline(v, Final(v, front), run[|run| - 1]);
    }
  }

  // Announced frames are numbered 1, 2, 3, ...
  lemma {:induction false} InfosNumbered(xs: seq<Timed>)
    requires SelfContained(Bare(xs))
    ensures var infos, log := InfosOf(xs), LogOf(Bare(xs));
            |infos| == |log| && forall k | 0 <= k < |infos| :: infos[k].index == k + 1 && infos[k].ip == log[k].ip
  {
    hide SelfContained;
    if xs != [] {
      var front := xs[..|xs| - 1];
      BareSnoc([], xs);
      Snoc(Bare(front), xs[|xs| - 1].instr);
      InfosNumbered(front);
    }
  }

  // When the gatherer is done, the details on the wire are those of the frames 1, 2, ..., in order, each once, and
  // each stamped with the time at which its frame was first pushed.
  lemma {:induction false} EveryFrameResolvedOnce(v: Variant, run: seq<Action>)
    requires IsRun(v, run) && Final(v, run).place.Done?
    ensures var s := Final(v, run);
            && |Written(s.g.wire)| == |s.g.log|
            && forall k | 0 <= k < |s.g.log| ::
                 Written(s.g.wire)[k].index == k + 1 && Written(s.g.wire)[k].ip == s.g.log[k].ip
    ensures FramesTimed(v, Final(v, run).events, Written(Final(v, run).g.wire))
  {
    var s := Final(v, run);
    WrittenTimed(v, run);
    RunPipeline(v, run);
    RunInv(v, run);
    RunMirrors(v, run);
    StreamAnnounces(v, s.events);
    InfosNumbered(Stream(s.g.wire));
    assert Written(s.g.wire) + ([] + ([] + ([] + []))) == Written(s.g.wire);
  }

  lemma {:induction false} WrittenTimed(v: Variant, run: seq<Action>)
    requires IsRun(v, run) && Final(v, run).place.Done?
    ensures FramesTimed(v, Final(v, run).events, Written(Final(v, run).g.wire))
  {
    hide InfosOf, Written, Stream, FramesTimed, IsRun, Orderly, Inv;
    var s := Final(v, run);
    RunInv(v, run);
    InvStructure(s);
    RunMirrors(v, run);
    RunPipeline(v, run);
    InfosTimed(v, s.events);
    assert Written(s.g.wire) + ([] + ([] + ([] + []))) == Written(s.g.wire);
  }
}
