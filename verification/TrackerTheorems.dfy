// What holds in every reachable state of the tracker.
module TrackerTheorems {
  import opened TrackTypes
  import opened GlobalTree
  import opened Translation
  import opened Gathering
  import opened StreamTheorems
  import opened WireOrder
  import opened Writer
  import opened Protocol
  import opened ProtocolSafety

  // ---------------------------------------------------------------------------------------------
  // The gatherer's state is the history of what reached it

  ghost predicate Mirrors(v: Variant, s: State) {
    s.g == Gather(v, s.events)
  }

  lemma HandleMirrors(v: Variant, s: State, e: Event)
    requires Mirrors(v, s)
    ensures Mirrors(v, Handle(v, s, e))
  {
    GatherSnoc(v, s.events, e);
  }

  lemma StepMirrors(v: Variant, s: State, a: Action)
    requires Mirrors(v, s) && Can(s, a)
    ensures Mirrors(v, Do(v, s, a))
  {
    hide Mirrors, WorldStep, OwnerStep, GathererStep, ResolverStep, WorldCan, OwnerCan, GathererCan, ResolverCan;
    if WorldCan(s, a) || OwnerCan(s, a) || !GathererCan(s, a) {
      OthersMirror(v, s, a);
    } else {
      GathererStepMirrors(v, s, a);
    }
  }

  lemma OthersMirror(v: Variant, s: State, a: Action)
    requires Mirrors(v, s) && Can(s, a) && (WorldCan(s, a) || OwnerCan(s, a) || !GathererCan(s, a))
    ensures Mirrors(v, Do(v, s, a))
  {
    hide Do, Can, WorldCan, OwnerCan, GathererCan;
    OthersNotGatherers(v, s, a);
  }

  lemma ShipMirrors(v: Variant, s: State)
    requires Mirrors(v, s) && GathererCan(s, Ship)
    ensures Mirrors(v, ShipLocal(v, s))
  {
    hide Process, Gather, Handle;
    var t := s.states[s.place.i];
    HandleMirrors(v, s, Delivered(t, s.local.items));
    if s.place.sawDead {
      HandleMirrors(v, Handle(v, s, Delivered(t, s.local.items)).(local := s.local.(items := [])), Removed(t));
    }
  }

  lemma GathererStepMirrors(v: Variant, s: State, a: Action)
    requires Mirrors(v, s) && GathererCan(s, a)
    ensures Mirrors(v, GathererStep(v, s, a))
  {
    hide Mirrors, Grown, HandleData, HandleDetails, ShipLocal;
    match a
    case ReceiveData => HandleDataMirrors(v, s);
    case DrainOne => HandleDataMirrors(v, s);
    case ReceiveResolved(capacity) => HandleDetailsMirrors(v, s, capacity);
    case LastResolved(capacity) => HandleDetailsMirrors(v, s, capacity);
    case Ship => ShipMirrors(v, s);
    case ReceiveRegistration => OneEventMirrors(v, s, a, Registered(s.registrations[0]));
    case EndPass => OneEventMirrors(v, s, a, Ticked(s.passTime));
    case Finish => OneEventMirrors(v, s, a, Detailed(s.details));
    case _ => QuietMirrors(v, s, a);
  }

  lemma HandleDataMirrors(v: Variant, s: State)
    requires Mirrors(v, s) && s.channel != []
    ensures Mirrors(v, HandleData(v, s))
  {
    hide Handle, Gather;
    HandleMirrors(v, s, Delivered(s.channel[0].thread, s.channel[0].buffer));
  }

  lemma OneEventMirrors(v: Variant, s: State, a: Action, e: Event)
    requires Mirrors(v, s) && GathererCan(s, a)
    requires || (a.ReceiveRegistration? && e == Registered(s.registrations[0]))
             || (a.EndPass? && e == Ticked(s.passTime)) || (a.Finish? && e == Detailed(s.details))
    ensures Mirrors(v, GathererStep(v, s, a))
  {
    hide Handle, Gather;
    HandleMirrors(v, s, e);
  }

  lemma QuietMirrors(v: Variant, s: State, a: Action)
    requires Mirrors(v, s) && GathererCan(s, a)
    requires a.StartPass? || a.DrainEmpty? || a.LockState? || a.Swap?
    ensures Mirrors(v, GathererStep(v, s, a))
  {
    hide Gather;
    match a
    case StartPass(_, _) =>
    case DrainEmpty =>
    case LockState =>
    case Swap =>
  }

  lemma HandleDetailsMirrors(v: Variant, s: State, capacity: nat)
    requires Mirrors(v, s) && s.resolved != []
    ensures Mirrors(v, HandleDetails(v, s, capacity))
  {
    var details := s.details + [s.resolved[0]];
    var s' := s.(resolved := s.resolved[1..], details := details, detailsCapacity := capacity);
    HandleMirrors(v, s', Detailed(details));
  }

  lemma {:induction false} RunMirrors(v: Variant, run: seq<Action>)
    requires IsRun(v, run)
    ensures Mirrors(v, Final(v, run))
  {
    if run != [] {
      RunMirrors(v, run[..|run| - 1]);
      StepMirrors(v, Final(v, run[..|run| - 1]), run[|run| - 1]);
    }
  }

  // ---------------------------------------------------------------------------------------------
  // Consequences for every run

  // Neither route loses, duplicates or reorders an instruction.
  lemma {:induction false} InstructionsFlow(v: Variant, run: seq<Action>, t: ThreadId)
    requires IsRun(v, run) && t in Final(v, run).threads
    ensures var s := Final(v, run);
            var th := s.threads[t];
            th.pushed == Sent(s.events, t) + Carried(s, t) + InChannel(s.channel, t) + HandOf(th) + th.shared.items
  {
    RunInv(v, run);
    var s := Final(v, run);
    var th := s.threads[t];
    assert ThreadInv(s, t);
    Rebracket(Sent(s.events, t), Carried(s, t), InChannel(s.channel, t), HandOf(th), th.shared.items);
  }

  lemma Rebracket(a: seq<Timed>, b: seq<Timed>, c: seq<Timed>, d: seq<Timed>, e: seq<Timed>)
    ensures a + (b + (c + (d + e))) == a + b + c + d + e
  {
  }

  // The gatherer never panics: every reference it follows is in range, because the n-th frame it processes of a
  // thread is the thread's n-th frame.
  lemma {:induction false} NeverPanics(v: Variant, run: seq<Action>, t: ThreadId)
    requires IsRun(v, run)
    ensures var s := Final(v, run);
            && s.g.ok
            && (t in s.threads && !Gone(s.events, t) ==>
                  && |Table(s.g.tables, t)| == |LogOf(Bare(Sent(s.events, t)))| + 1
                  && LogOf(Bare(Sent(s.events, t))) <= s.threads[t].log)
  {
    var s := Final(v, run);
    RunInv(v, run);
    RunMirrors(v, run);
    GatherSteady(v, s.events);
    if t in s.threads && !Gone(s.events, t) {
      assert ThreadInv(s, t);
      assert Aligned(v, s.g.log, Table(s.g.tables, t), Local(s.events, t));
      var rest := SentOfThread(s, t);
    }
  }

  // What has been processed of a thread is a prefix of what its calls log.
  lemma SentOfThread(s: State, t: ThreadId) returns (rest: seq<Instr>)
    requires t in s.threads && ThreadInv(s, t)
    ensures EncodeAll(s.threads[t].calls).instrs == Bare(Sent(s.events, t)) + rest
    ensures s.threads[t].log == LogOf(Bare(Sent(s.events, t))) + LogOf(rest)
    ensures SelfContained(Bare(Sent(s.events, t)))
    ensures Sent(s.events, t) == s.threads[t].pushed && s.threads[t].pending == [] ==> rest == []
  {
    var th := s.threads[t];
    hide SelfContained, EncodeAll, OwnerState, Standing, InChannel, Carried, HandOf, Bare, LogOf;
    var sent := Sent(s.events, t);
    var tail := Carried(s, t) + (InChannel(s.channel, t) + (HandOf(th) + th.shared.items));
    BareAppend(sent, tail);
    rest := Bare(tail) + th.pending;
    Associate(Bare(sent), Bare(tail), th.pending);
    LogOfAppend(Bare(sent), rest);
    EncodeSpec(th.calls);
    SelfContainedPrefix(Bare(sent), rest);
    if sent == th.pushed && th.pending == [] {
      assert |tail| == 0;
      BareOfNothing(tail);
    }
  }

  lemma BareOfNothing(xs: seq<Timed>)
    requires |xs| == 0
    ensures Bare(xs) == []
  {
  }

  // The events tell which threads are registered and which of them are no longer on the list.
  lemma KnownStanding(s: State, t: ThreadId)
    requires Inv(s)
    ensures Registered(t) in s.events <==> t in s.threads && s.threads[t].registered
    ensures Gone(s.events, t) <==> t in s.threads && s.threads[t].registered && t !in s.states
  {
    if t in s.threads {
      hide Inv, ThreadInv, OwnerState, Fifo;
      InvOwner(s, t);
    }
  }

  // Every thread is created on the wire before its first buffer and destroyed after its last; once it is
  // removed nothing of it remains anywhere, so its numbering table is never created again.
  lemma {:induction false} ThreadsLiveInOrder(v: Variant, run: seq<Action>, t: ThreadId)
    requires IsRun(v, run)
    ensures var s := Final(v, run);
            && WireLives(s.g.wire)
            && (CreateThread(t) in s.g.wire <==> t in s.threads && s.threads[t].registered)
            && (DestroyThread(t) in s.g.wire <==> t in s.threads && s.threads[t].registered && t !in s.states)
            && (DestroyThread(t) in s.g.wire ==>
                  && t in s.threads && Silent(s, t) && HandOf(s.threads[t]) == [] && Carried(s, t) == []
                  && t !in s.g.tables)
  {
    var s := Final(v, run);
    RunInv(v, run);
    RunMirrors(v, run);
    GatherLives(v, s.events);
    KnownStanding(s, t);
    if DestroyThread(t) in s.g.wire {
      assert Gone(s.events, t);
      assert ThreadInv(s, t);
      NoTableAfterRemoval(v, s.events, t);
    }
  }

  lemma {:induction false} NoTableAfterRemoval(v: Variant, events: seq<Event>, t: ThreadId)
    requires Orderly(events) && Gone(events, t)
    ensures t !in Gather(v, events).tables
  {
    var front, e := events[..|events| - 1], events[|events| - 1];
    assert events == front + [e];
    hide SelfContained, Bare, Aligned, GlobalOk, Local, Sent;
    GatherSteady(v, front);
    GatherSnoc(v, front, e);
    if Gone(front, t) {
      NoTableAfterRemoval(v, front, t);
    } else {
      assert e == Removed(t);
    }
    NoNewTable(v, Gather(v, front), e, t);
  }

  lemma NoNewTable(v: Variant, g: Gathered, e: Event, t: ThreadId)
    requires (e == Removed(t) && g.ok) || (t !in g.tables && (e.Delivered? ==> e.thread != t))
    ensures t !in Process(v, g, e).tables
  {
  }

  ghost predicate NoEmptyDetails(events: seq<Event>) {
    forall e: Event | e in events && e.Detailed? :: e.infos != []
  }

  lemma {:induction false} RunNoEmptyDetails(v: Variant, run: seq<Action>)
    requires IsRun(v, run)
    ensures NoEmptyDetails(Final(v, run).events)
  {
    if run != [] {
      var front, a := run[..|run| - 1], run[|run| - 1];
      RunNoEmptyDetails(v, front);
      StepNoEmptyDetails(v, Final(v, front), a);
    }
  }

  lemma StepNoEmptyDetails(v: Variant, s: State, a: Action)
    requires NoEmptyDetails(s.events) && Can(s, a)
    ensures NoEmptyDetails(Do(v, s, a).events)
  {
    hide GathererStep, OwnerStep, WorldStep, ResolverStep, GathererCan, OwnerCan, WorldCan, ResolverCan, NewEvents;
    if !WorldCan(s, a) && !OwnerCan(s, a) && GathererCan(s, a) {
      GathererEvents(v, s, a);
      NewDetails(s, a);
    } else {
      OthersNotGatherers(v, s, a);
    }
  }

  lemma NewDetails(s: State, a: Action)
    ensures NoEmptyDetails(NewEvents(s, a))
  {
  }

  // In every run, symbol messages are never empty and carry the time of their first frame.
  lemma {:induction false} DetailsAreStamped(v: Variant, run: seq<Action>)
    requires IsRun(v, run)
    ensures DetailsStamped(Final(v, run).g.wire)
  {
    RunMirrors(v, run);
    RunNoEmptyDetails(v, run);
    GatherDetails(v, Final(v, run).events);
  }

  // At every moment, what a receiver decodes from the wire for a thread are the first so many events of the
  // thread's calls, stacks rendered.
  lemma {:induction false} WireDecodesCalls(v: Variant, run: seq<Action>, t: ThreadId)
    requires IsRun(v, run) && t in Final(v, run).threads
    requires |Final(v, run).g.log| < TWO_32 && |Final(v, run).threads[t].log| < TWO_32
    ensures var s := Final(v, run);
            var wire, ops := Meaning(s.g.log, Bare(WireOf(s.g.wire, t))), OpsOf(s.threads[t].calls);
            && |wire| <= |ops|
            && SameOps(v, s.g.log, ops[..|wire|], wire)
            && EventTimes(WireOf(s.g.wire, t)) == EventTimes(Sent(s.events, t))
  {
    var s := Final(v, run);
    var th := s.threads[t];
    RunInv(v, run);
    RunMirrors(v, run);
    assert ThreadInv(s, t);
    GatherFaithful(v, s.events, t);
    var rest := SentOfThread(s, t);
    SentOps(th, Bare(Sent(s.events, t)), rest);
    var ops, sent := OpsOf(th.calls), Meaning(LogOf(Bare(Sent(s.events, t))), Bare(Sent(s.events, t)));
    assert ops[..|sent|] == sent;
  }

  lemma {:induction false} SentOps(th: Thread, sent: seq<Instr>, rest: seq<Instr>)
    requires th.log == EncodeAll(th.calls).log && EncodeAll(th.calls).instrs == sent + rest && |th.log| < TWO_32
    requires SelfContained(sent) && th.log == LogOf(sent) + LogOf(rest)
    ensures OpsOf(th.calls) == Meaning(LogOf(sent), sent) + Meaning(th.log, rest)
  {
    EncodeSpec(th.calls);
    MeaningAppend(th.log, sent, rest);
    SelfContainedInRange(sent);
    MeaningPrefix(LogOf(sent), th.log, sent);
  }
}
