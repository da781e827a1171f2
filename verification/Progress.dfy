// Nobody waits for ever: the tracker never deadlocks, and the shutdown drain ends.
module Progress {
  import opened TrackTypes
  import opened GlobalTree
  import opened Gathering
  import opened Protocol
  import opened ProtocolSafety
  import opened Resolution

  // The thread whose lock the gatherer waits for, if it waits.
  ghost predicate WaitsFor(s: State, t: ThreadId) {
    && s.place.AtState? && s.place.i < |s.states| && s.states[s.place.i] == t && t in s.threads
    && !s.threads[t].lock.Unlocked?
  }

  // Inside its critical section a thread never waits: it can leave at once, with the buffer if it is full.
  lemma OwnersLeaveTheirLock(s: State, t: ThreadId)
    requires Inv(s) && t in s.threads && s.threads[t].lock.OwnerHolds?
    ensures OwnerCan(s, Release(t)) || OwnerCan(s, Take(t))
  {
    assert ThreadInv(s, t);
    HolderLeaves(s, t);
  }

  lemma HolderLeaves(s: State, t: ThreadId)
    requires t in s.threads && s.threads[t].lock.OwnerHolds?
    ensures OwnerCan(s, Release(t)) || OwnerCan(s, Take(t))
  {
    if |s.threads[t].shared.items| == s.threads[t].shared.capacity {
      assert OwnerCan(s, Take(t));
    } else {
      assert OwnerCan(s, Release(t));
    }
  }

  // A thread with work to do waits only for its lock, held by the gatherer, or for room in the channel.
  lemma OwnersWaitForGatherer(s: State, t: ThreadId)
    requires Inv(s) && t in s.threads && (s.threads[t].pending != [] || s.threads[t].hand.Some?)
    ensures || (exists a: Action :: (a.Push? || a.Release? || a.Take? || a.Send?) && a.t == t && OwnerCan(s, a))
            || s.threads[t].lock.GathererHolds?
            || (s.threads[t].hand.Some? && |s.channel| >= CHANNEL_BOUND)
  {
    hide Inv;
    var th := s.threads[t];
    if th.hand.Some? {
      if |s.channel| < CHANNEL_BOUND {
        assert OwnerCan(s, Send(t));
      }
    } else if th.lock.OwnerHolds? {
      OwnersLeaveTheirLock(s, t);
    } else if th.lock.Unlocked? {
      var capacity := if th.shared.capacity < CAPACITY then |th.shared.items| + CAPACITY else th.shared.capacity;
      assert OwnerCan(s, Push(t, capacity));
    }
  }

  // Between passes the gatherer serves whoever asks: exactly those who wait can be received, a pass can always
  // start, and a final one exactly when the stop was requested.
  lemma IdleServes(s: State)
    requires Inv(s) && s.place.Idle?
    ensures GathererCan(s, ReceiveData) <==> s.channel != []
    ensures GathererCan(s, ReceiveRegistration) <==> s.registrations != []
    ensures (exists capacity :: GathererCan(s, ReceiveResolved(capacity))) <==> s.resolved != []
    ensures GathererCan(s, StartPass(false, CAPACITY))
    ensures GathererCan(s, StartPass(true, CAPACITY)) <==> s.stopRequested
  {
    hide Inv;
    InvStructure(s);
    assert s.registrations != [] ==> s.registrations[0] in s.registrations;
    if s.resolved != [] {
      var capacity := if s.detailsCapacity < CAPACITY then |s.details| + CAPACITY else s.detailsCapacity;
      assert GathererCan(s, ReceiveResolved(capacity));
    }
  }

  // The thread whose turn is next: its lock is free, or its owner can leave it.
  lemma LockOrWait(s: State, t: ThreadId)
    requires t in s.threads && ThreadInv(s, t)
    requires s.place.AtState? && s.place.i < |s.states| && s.states[s.place.i] == t
    ensures GathererCan(s, LockState) || (WaitsFor(s, t) && (OwnerCan(s, Release(t)) || OwnerCan(s, Take(t))))
  {
    if s.threads[t].lock.Unlocked? {
      assert GathererCan(s, LockState);
    } else {
      assert !Holding(s, t);
      HolderLeaves(s, t);
    }
  }

  lemma NextTurn(s: State)
    requires Inv(s) && s.place.AtState?
    ensures || GathererCan(s, LockState) || GathererCan(s, EndPass)
            || exists t :: WaitsFor(s, t) && (OwnerCan(s, Release(t)) || OwnerCan(s, Take(t)))
  {
    if s.place.i < |s.states| {
      var t := s.states[s.place.i];
      assert t in s.states;
      assert ThreadInv(s, t);
      LockOrWait(s, t);
    } else {
      assert GathererCan(s, EndPass);
    }
  }

  lemma TurnMovesOn(s: State)
    requires Structure(s) && (s.place.Draining? || s.place.Drained?)
    ensures GathererCan(s, DrainOne) || GathererCan(s, DrainEmpty) || GathererCan(s, Swap)
  {
    assert s.states[s.place.i] in s.states;
  }

  // The gatherer itself can move, or waits for a lock whose holder can leave, or for the resolver.
  lemma GathererMovesOn(s: State)
    requires Inv(s) && Closedown(s) && !s.place.Done?
    ensures || (exists a: Action :: GathererCan(s, a))
            || (exists t :: WaitsFor(s, t) && (OwnerCan(s, Release(t)) || OwnerCan(s, Take(t))))
            || (s.place.Resolving? && s.resolved == [] && exists a: Action :: ResolverCan(s, a))
  {
    match s.place
    case Idle => assert GathererCan(s, StartPass(false, CAPACITY));
    case FirstDrain => assert GathererCan(s, DrainOne) || GathererCan(s, DrainEmpty);
    case AtState(i) => NextTurn(s);
    case Draining(i) => TurnMovesOn(s);
    case Drained(i) => TurnMovesOn(s);
    case Shipping(i, sawDead) => assert GathererCan(s, Ship);
    case Resolving => DrainMovesOn(s);
  }

  // In its own critical section the gatherer never waits either.
  lemma GathererLeavesItsLock(s: State, t: ThreadId)
    requires Inv(s) && t in s.threads && s.threads[t].lock.GathererHolds?
    ensures GathererCan(s, DrainOne) || GathererCan(s, DrainEmpty) || GathererCan(s, Swap)
  {
    assert ThreadInv(s, t);
    HoldersMove(s, t);
  }

  lemma HoldersMove(s: State, t: ThreadId)
    requires t in s.threads && Holding(s, t)
    ensures GathererCan(s, DrainOne) || GathererCan(s, DrainEmpty) || GathererCan(s, Swap)
  {
  }

  // No deadlock: in every reachable state in which the gatherer has not finished, some thread, the gatherer or
  // the resolver can take a step that the program itself asks for.
  lemma {:induction false} NoDeadlock(v: Variant, run: seq<Action>)
    requires IsRun(v, run) && !Final(v, run).place.Done?
    ensures var s := Final(v, run);
            exists a: Action :: GathererCan(s, a) || ResolverCan(s, a) || ((a.Release? || a.Take?) && OwnerCan(s, a))
  {
    var s := Final(v, run);
    RunInv(v, run);
    RunPipeline(v, run);
    GathererMovesOn(s);
    if t :| WaitsFor(s, t) && (OwnerCan(s, Release(t)) || OwnerCan(s, Take(t))) {
      assert (Release(t).Release? && OwnerCan(s, Release(t))) || (Take(t).Take? && OwnerCan(s, Take(t)));
    }
  }

  // ---------------------------------------------------------------------------------------------
  // The shutdown drain

  // What is left to do until the last frame is written.
  function Remaining(s: State): nat {
    3 * |s.queue| + (if s.working.Some? then 2 else 0) + |s.resolved|
    + (if s.resolverUp then 1 else 0) + (if s.place.Done? then 0 else 1)
  }

  lemma DrainMovesOn(s: State)
    requires Closedown(s) && s.place.Resolving?
    ensures (exists a: Action :: GathererCan(s, a)) || (s.resolved == [] && exists a :: ResolverCan(s, a))
  {
    if s.resolved != [] {
      var capacity := if s.detailsCapacity < CAPACITY then |s.details| + CAPACITY else s.detailsCapacity;
      assert GathererCan(s, LastResolved(capacity));
    } else if !s.resolverUp {
      assert GathererCan(s, Finish);
    } else if s.working.Some? {
      assert ResolverCan(s, ResolverSend);
    } else {
      assert ResolverCan(s, ResolverTake) || ResolverCan(s, ResolverQuit);
    }
  }

  // After the final pass every step of the gatherer and of the resolver brings the end nearer, no step of
  // anybody else puts it off, and until the end one of the two can move.
  lemma DrainEnds(v: Variant, s: State, a: Action)
    requires s.place.Resolving? && Can(s, a)
    ensures var s' := Do(v, s, a);
            && (GathererCan(s, a) || ResolverCan(s, a) ==> Remaining(s') < Remaining(s))
            && (!GathererCan(s, a) && !ResolverCan(s, a) ==> Remaining(s') == Remaining(s))
            && (s'.place.Resolving? || s'.place.Done?)
  {
    hide GathererStep, OwnerStep, WorldStep, ResolverStep, GathererCan, ResolverCan, Remaining;
    if WorldCan(s, a) || OwnerCan(s, a) {
      OthersWait(v, s, a);
    } else if GathererCan(s, a) {
      GathererDrains(v, s, a);
    } else {
      ResolverDrains(s, a);
    }
  }

  lemma OthersWait(v: Variant, s: State, a: Action)
    requires s.place.Resolving? && (WorldCan(s, a) || OwnerCan(s, a))
    ensures Remaining(Do(v, s, a)) == Remaining(s) && Do(v, s, a).place == s.place
    ensures !GathererCan(s, a) && !ResolverCan(s, a)
  {
    hide Grown;
  }

  lemma ResolverDrains(s: State, a: Action)
    requires ResolverCan(s, a)
    ensures Remaining(ResolverStep(s, a)) < Remaining(s) && ResolverStep(s, a).place == s.place
    ensures !GathererCan(s, a)
  {
  }

  lemma GathererDrains(v: Variant, s: State, a: Action)
    requires s.place.Resolving? && GathererCan(s, a)
    ensures var s' := GathererStep(v, s, a);
            Remaining(s') < Remaining(s) && (s'.place.Resolving? || s'.place.Done?)
  {
    hide GathererStep;
    GathererQueueStill(v, s, a);
    GathererMoves(v, s, a);
    match a
    case LastResolved(_) =>
    case Finish =>
    case _ =>
  }

  lemma GathererQueueStill(v: Variant, s: State, a: Action)
    requires s.place.Resolving? && GathererCan(s, a)
    ensures GathererStep(v, s, a).queue == s.queue
  {
    hide Handle;
    match a
    case LastResolved(_) =>
      var details := s.details + [s.resolved[0]];
      AsksNothing(v, s.(resolved := s.resolved[1..], details := details, detailsCapacity := a.capacity),
                  Detailed(details));
    case Finish => AsksNothing(v, s, Detailed(s.details));
    case _ =>
  }

  lemma AsksNothing(v: Variant, s: State, e: Event)
    requires !e.Delivered?
    ensures Handle(v, s, e).queue == s.queue
  {
    assert s.queue + Requests([]) == s.queue;
  }

  // ---------------------------------------------------------------------------------------------
  // Everybody does one thing at a time

  // At most one step of a thread is possible at any moment, except that between calls it may make another call or
  // exit.
  lemma OwnersAreSequential(s: State, a: Action, b: Action)
    requires Inv(s) && OwnerCan(s, a) && OwnerCan(s, b) && a.t == b.t
    ensures a.Push? == b.Push? && a.Release? == b.Release? && a.Take? == b.Take? && a.Send? == b.Send?
    ensures a.Begin? || a.Die? <==> b.Begin? || b.Die?
  {
    hide Inv, ThreadInv, Standing, Fifo, HasRoom, Grown;
    InvOwner(s, a.t);
  }

  // Outside its choice between passes, the gatherer's next step is determined.
  lemma GathererIsSequential(s: State, a: Action, b: Action)
    requires GathererCan(s, a) && GathererCan(s, b) && !s.place.Idle?
    ensures a == b || (a.LastResolved? && b.LastResolved?)
  {
    hide Grown;
  }
}
