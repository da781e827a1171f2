// What bounds the tracker's memory: only full buffers travel the channel, both bounded channels stay within their
// bounds, and resolved frames are written as soon as their vector is full.
module Limits {
  import opened TrackTypes
  import opened GlobalTree
  import opened Protocol
  import opened ProtocolSafety

  ghost predicate Full(buffer: seq<Timed>) {
    |buffer| >= CAPACITY
  }

  ghost predicate ChannelsBounded(s: State) {
    && |s.channel| <= CHANNEL_BOUND && |s.resolved| <= CHANNEL_BOUND
    && (forall m | m in s.channel :: Full(m.buffer))
    && (forall t | t in s.threads && s.threads[t].hand.Some? :: Full(s.threads[t].hand.value))
  }

  // The vector of resolved frames has no memory, or room left.
  ghost predicate DetailsRoom(s: State) {
    if s.details == [] then s.detailsCapacity == 0
    else |s.details| < s.detailsCapacity && CAPACITY <= s.detailsCapacity
  }

  // ---------------------------------------------------------------------------------------------
  // The channels

  // The thread's own record.
  lemma OwnerHand(s: State, a: Action)
    requires OwnerCan(s, a) && OwnerState(s.threads[a.t]) && ChannelsBounded(s)
    ensures var hand := OwnerStep(s, a).threads[a.t].hand; hand.Some? ==> Full(hand.value)
  {
    hide Grown, HasRoom;
    match a
    case Begin(_, _) =>
    case Push(_, _) =>
    case Release(_) =>
    case Take(_) =>
    case Send(_) =>
    case Die(_) =>
  }

  lemma OwnerChannel(s: State, a: Action)
    requires OwnerCan(s, a) && ChannelsBounded(s)
    ensures var s' := OwnerStep(s, a);
            && |s'.channel| <= CHANNEL_BOUND && s'.resolved == s.resolved
            && forall m | m in s'.channel :: Full(m.buffer)
  {
    hide Grown, Full;
    match a
    case Send(t) =>
      assert OwnerStep(s, a).channel == s.channel + [Flush(t, s.threads[t].hand.value)];
    case Begin(_, _) => assert OwnerStep(s, a).channel == s.channel;
    case Push(_, _) => assert OwnerStep(s, a).channel == s.channel;
    case Release(_) => assert OwnerStep(s, a).channel == s.channel;
    case Take(_) => assert OwnerStep(s, a).channel == s.channel;
    case Die(_) => assert OwnerStep(s, a).channel == s.channel;
  }

  lemma OwnerBounded(s: State, a: Action)
    requires Inv(s) && OwnerCan(s, a) && ChannelsBounded(s)
    ensures ChannelsBounded(OwnerStep(s, a))
  {
    hide Inv, ThreadInv, OwnerState, Full, OwnerStep, OwnerCan;
    InvOwnStep(s, a);
    OwnerHand(s, a);
    OwnerChannel(s, a);
  }

  // Steps of the gatherer take from the channels and leave the threads' hands alone.
  ghost predicate Receives(s: State, s': State) {
    && s'.threads.Keys == s.threads.Keys
    && (forall t | t in s.threads :: s'.threads[t].hand == s.threads[t].hand)
    && (s'.channel == s.channel || (s.channel != [] && s'.channel == s.channel[1..]))
    && (s'.resolved == s.resolved || (s.resolved != [] && s'.resolved == s.resolved[1..]))
  }

  lemma GathererReceives(s: State, s': State, a: Action)
    requires Moves(s, s', a)
    ensures Receives(s, s')
  {
    hide Moves;
    MovesKeepsThreads(s, s', a);
    GathererTakes(s, s', a);
  }

  lemma GathererTakes(s: State, s': State, a: Action)
    requires Moves(s, s', a)
    ensures s'.channel == s.channel || (s.channel != [] && s'.channel == s.channel[1..])
    ensures s'.resolved == s.resolved || (s.resolved != [] && s'.resolved == s.resolved[1..])
  {
    match a
    case ReceiveData =>
    case ReceiveRegistration =>
    case ReceiveResolved(_) =>
    case StartPass(_, _) =>
    case DrainOne =>
    case DrainEmpty =>
    case LockState =>
    case Swap =>
    case Ship =>
    case EndPass =>
    case LastResolved(_) =>
    case Finish =>
  }

  lemma ReceivesBounded(s: State, s': State)
    requires ChannelsBounded(s) && Receives(s, s')
    ensures ChannelsBounded(s')
  {
    assert forall m | m in s'.channel :: m in s.channel;
  }

  lemma WorldBounded(s: State, a: Action)
    requires WorldCan(s, a) && ChannelsBounded(s)
    ensures ChannelsBounded(WorldStep(s, a))
  {
  }

  lemma ResolverBounded(s: State, a: Action)
    requires ResolverCan(s, a) && ChannelsBounded(s)
    ensures ChannelsBounded(ResolverStep(s, a))
  {
  }

  lemma StepBounded(v: Variant, s: State, a: Action)
    requires Inv(s) && ChannelsBounded(s) && Can(s, a)
    ensures ChannelsBounded(Do(v, s, a))
  {
    hide Inv, ChannelsBounded, OwnerStep, OwnerCan, GathererStep, GathererCan, WorldStep, ResolverStep, Receives, Moves;
    if WorldCan(s, a) {
      WorldBounded(s, a);
    } else if OwnerCan(s, a) {
      OwnerBounded(s, a);
    } else if GathererCan(s, a) {
      GathererMoves(v, s, a);
      GathererReceives(s, GathererStep(v, s, a), a);
      ReceivesBounded(s, GathererStep(v, s, a));
    } else {
      ResolverBounded(s, a);
    }
  }

  // ---------------------------------------------------------------------------------------------
  // The vector of resolved frames

  lemma CollectKeepsRoom(v: Variant, s: State, capacity: nat)
    requires DetailsRoom(s) && s.resolved != [] && Grown(|s.details|, s.detailsCapacity, capacity)
    ensures DetailsRoom(HandleDetails(v, s, capacity))
  {
    hide Handle;
  }

  lemma GathererKeepsRoom(v: Variant, s: State, a: Action)
    requires DetailsRoom(s) && GathererCan(s, a)
    ensures DetailsRoom(GathererStep(v, s, a))
  {
    if a.ReceiveResolved? || a.LastResolved? {
      CollectKeepsRoom(v, s, a.capacity);
    } else if a.Finish? {
      hide Handle;
    } else {
      hide GathererStep, Grown;
      GathererMoves(v, s, a);
      OthersCollectNothing(s, GathererStep(v, s, a), a);
    }
  }

  lemma OthersCollectNothing(s: State, s': State, a: Action)
    requires Moves(s, s', a) && !a.ReceiveResolved? && !a.LastResolved? && !a.Finish?
    ensures s'.details == s.details && s'.detailsCapacity == s.detailsCapacity
  {
    match a
    case ReceiveData =>
    case ReceiveRegistration =>
    case StartPass(_, _) =>
    case DrainOne =>
    case DrainEmpty =>
    case LockState =>
    case Swap =>
    case Ship =>
    case EndPass =>
  }

  lemma StepKeepsRoom(v: Variant, s: State, a: Action)
    requires DetailsRoom(s) && Can(s, a)
    ensures DetailsRoom(Do(v, s, a))
  {
    hide OwnerStep, OwnerCan, GathererStep, GathererCan, WorldStep, WorldCan, ResolverStep, ResolverCan;
    if !WorldCan(s, a) && !OwnerCan(s, a) && GathererCan(s, a) {
      GathererKeepsRoom(v, s, a);
    } else {
      OthersNotGatherers(v, s, a);
    }
  }

  // In every reachable state.
  lemma {:induction false} RunBounded(v: Variant, run: seq<Action>)
    requires IsRun(v, run)
    ensures ChannelsBounded(Final(v, run)) && DetailsRoom(Final(v, run))
  {
    if run != [] {
      hide ChannelsBounded, DetailsRoom;
      var front, a := run[..|run| - 1], run[|run| - 1];
      RunBounded(v, front);
      RunInv(v, front);
      StepBounded(v, Final(v, front), a);
      StepKeepsRoom(v, Final(v, front), a);
    }
  }

  // Messages of at least 1024 instructions, at most 64 of them waiting, and at most 64 resolved frames.
  lemma {:induction false} BoundedInNumbers(v: Variant, run: seq<Action>)
    requires IsRun(v, run)
    ensures var s := Final(v, run);
            && |s.channel| <= 64 && |s.resolved| <= 64
            && (forall m | m in s.channel :: |m.buffer| >= 1024)
            && (s.details != [] ==> |s.details| < s.detailsCapacity)
  {
    hide IsRun;
    RunBounded(v, run);
  }
}
