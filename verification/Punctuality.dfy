// What an announced time promises about data stamped with that very time.
//
// A thread may go on pushing after the gatherer has served it in a pass, while the clock still shows the time
// that the pass is going to announce. So, besides the buffers that were already in a thread's hand, data pushed
// after its thread was served and stamped with the announced time may be late. Nothing else is.
module Punctuality {
  import opened TrackTypes
  import opened GlobalTree
  import opened Gathering
  import opened Protocol
  import opened ProtocolSafety
  import opened ShutdownTheorems
  import opened Watermark

  // How much of a thread is on its way: in the given buffers, or still in its shared buffer.
  function Size(th: Thread, way: seq<seq<Timed>>): nat {
    |Joined(way)| + |th.shared.items|
  }

  ghost predicate Leads(way: seq<seq<Timed>>, handoff: seq<Timed>) {
    way != [] && way[0] == handoff
  }

  // After `served` instructions the thread was served. What is on its way was pushed since, except for the
  // handed-off buffer if that still leads.
  ghost predicate Followed(th: Thread, way: seq<seq<Timed>>, handoff: seq<Timed>, served: nat, time: Time) {
    && served <= |th.pushed|
    && (forall k | served <= k < |th.pushed| :: time <= th.pushed[k].time)
    && (Size(th, way) <= |th.pushed| - served
        || (Leads(way, handoff) && Size(th, way) - |handoff| <= |th.pushed| - served))
  }

  ghost predicate FollowedIn(s: State, t: ThreadId) {
    && t in s.threads && t in s.handoffs && t in s.served
    && Followed(s.threads[t], OnTheWay(s, t), s.handoffs[t], s.served[t], s.passTime)
  }

  // Under its lock, once the channel was seen empty, only the handed-off buffer of a thread is on its way.
  ghost predicate Seen(s: State) {
    s.place.Drained? ==>
      && s.place.i < |s.states| && s.states[s.place.i] in s.threads && s.states[s.place.i] in s.handoffs
      && var t := s.states[s.place.i];
         OnTheWay(s, t) == if s.handoffs[t] == [] then [] else [s.handoffs[t]]
  }

  // The threads served in this pass, among those on the list, are those the pass is past.
  ghost predicate ServedSoFar(s: State) {
    forall j | 0 <= j < |s.states| :: s.states[j] in s.served <==> j < Served(s)
  }

  ghost predicate Turns(s: State) {
    && (s.place.FirstDrain? ==> s.served == map[])
    && (InPass(s) ==> Seen(s) && ServedSoFar(s) && forall t | t in s.served :: FollowedIn(s, t))
  }

  // ---------------------------------------------------------------------------------------------
  // Steps of tracked threads

  lemma OwnerFollowed(s: State, s': State, a: Action, handoff: seq<Timed>, served: nat)
    requires OwnerCan(s, a) && s' == OwnerStep(s, a) && OwnerState(s.threads[a.t]) && s.passTime <= s.now
    requires Followed(s.threads[a.t], OnTheWay(s, a.t), handoff, served, s.passTime)
    ensures a.t in s'.threads && Followed(s'.threads[a.t], OnTheWay(s', a.t), handoff, served, s.passTime)
  {
    hide Followed, OnTheWay, Grown;
    var th, th', way := s.threads[a.t], s'.threads[a.t], OnTheWay(s, a.t);
    match a
    case Push(t, _) =>
      SameWay(s, s', t);
      PushFollowed(th, th', Timed(th.pending[0], s.now), way, handoff, served, s.passTime);
    case Take(t) =>
      TakeWay(s, t);
      TakeFollowed(th, th', way, handoff, served, s.passTime);
    case Send(t) =>
      SendKeepsWay(s, t);
      StillFollowed(th, th', way, handoff, served, s.passTime);
    case _ => QuietFollowed(s, s', a, handoff, served);
  }

  // Steps that touch neither what is on the way, nor the buffer, nor what was pushed.
  lemma QuietFollowed(s: State, s': State, a: Action, handoff: seq<Timed>, served: nat)
    requires OwnerCan(s, a) && s' == OwnerStep(s, a) && (a.Begin? || a.Release? || a.Die?)
    requires Followed(s.threads[a.t], OnTheWay(s, a.t), handoff, served, s.passTime)
    ensures a.t in s'.threads && Followed(s'.threads[a.t], OnTheWay(s', a.t), handoff, served, s.passTime)
  {
    hide Followed, OnTheWay;
    SameWay(s, s', a.t);
    StillFollowed(s.threads[a.t], s'.threads[a.t], OnTheWay(s, a.t), handoff, served, s.passTime);
  }

  lemma PushFollowed(th: Thread, th': Thread, x: Timed, way: seq<seq<Timed>>, handoff: seq<Timed>, served: nat,
                     time: Time)
    requires Followed(th, way, handoff, served, time) && time <= x.time
    requires th'.pushed == th.pushed + [x] && th'.shared.items == th.shared.items + [x]
    ensures Followed(th', way, handoff, served, time)
  {
  }

  lemma TakeFollowed(th: Thread, th': Thread, way: seq<seq<Timed>>, handoff: seq<Timed>, served: nat, time: Time)
    requires Followed(th, way, handoff, served, time) && th'.pushed == th.pushed && th'.shared.items == []
    ensures Followed(th', way + [th.shared.items], handoff, served, time)
  {
    JoinedSnoc(way, th.shared.items);
  }

  lemma StillFollowed(th: Thread, th': Thread, way: seq<seq<Timed>>, handoff: seq<Timed>, served: nat, time: Time)
    requires Followed(th, way, handoff, served, time)
    requires th'.pushed == th.pushed && th'.shared.items == th.shared.items
    ensures Followed(th', way, handoff, served, time)
  {
  }

  lemma TakeWay(s: State, t: ThreadId)
    requires OwnerCan(s, Take(t)) && OwnerState(s.threads[t])
    ensures OnTheWay(OwnerStep(s, Take(t)), t) == OnTheWay(s, t) + [s.threads[t].shared.items]
  {
  }

  lemma {:induction false} JoinedSnoc(way: seq<seq<Timed>>, items: seq<Timed>)
    ensures |Joined(way + [items])| == |Joined(way)| + |items|
  {
    JoinedAppend(way, [items]);
    assert [items][1..] == [];
    assert Joined([items]) == items + [];
  }

  lemma SendKeepsWay(s: State, t: ThreadId)
    requires OwnerCan(s, Send(t))
    ensures OnTheWay(OwnerStep(s, Send(t)), t) == OnTheWay(s, t)
  {
    InMessagesSnoc(s.channel, Flush(t, s.threads[t].hand.value), t);
  }

  // A step of t leaves what is on the way from others alone.
  lemma OthersWay(s: State, s': State, t: ThreadId, u: ThreadId)
    requires OwnStep(s, s', t) && u != t && u in s.threads
    ensures u in s'.threads && s'.threads[u] == s.threads[u] && OnTheWay(s', u) == OnTheWay(s, u)
  {
    if s'.channel != s.channel {
      InMessagesSnoc(s.channel, s'.channel[|s'.channel| - 1], u);
    }
  }

  // While the gatherer is in a thread's lock, the thread can do no more than send.
  lemma HeldOwnerWay(s: State, a: Action)
    requires OwnerCan(s, a) && ThreadInv(s, a.t) && Holding(s, a.t)
    ensures OnTheWay(OwnerStep(s, a), a.t) == OnTheWay(s, a.t)
  {
    if a.Send? {
      SendKeepsWay(s, a.t);
    }
  }

  lemma OwnerSeen(s: State, a: Action)
    requires Inv(s) && OwnerCan(s, a) && Seen(s)
    ensures Seen(OwnerStep(s, a))
  {
    hide Inv, ThreadInv, OwnerStep, OwnerState, OnTheWay;
    InvOwnStep(s, a);
    if s.place.Drained? {
      if s.states[s.place.i] == a.t {
        HeldOwnerWay(s, a);
      } else {
        OthersWay(s, OwnerStep(s, a), a.t, s.states[s.place.i]);
      }
    }
  }

  lemma OwnerTurns(s: State, a: Action)
    requires Inv(s) && Marks(s) && OwnerCan(s, a) && Turns(s)
    ensures Turns(OwnerStep(s, a))
  {
    hide Inv, ThreadInv, OwnerStep, OwnerState, OwnerCan, OnTheWay, Followed, Seen, Marked;
    var s' := OwnerStep(s, a);
    InvOwnStep(s, a);
    if InPass(s) {
      OwnerSeen(s, a);
      forall u | u in s'.served
        ensures FollowedIn(s', u)
      {
        assert FollowedIn(s, u);
        OwnerFollowedIn(s, a, u);
      }
    }
  }

  lemma OwnerFollowedIn(s: State, a: Action, u: ThreadId)
    requires OwnerCan(s, a) && OwnerState(s.threads[a.t]) && OwnStep(s, OwnerStep(s, a), a.t)
    requires FollowedIn(s, u) && s.passTime <= s.now
    ensures FollowedIn(OwnerStep(s, a), u)
  {
    if u == a.t {
      OwnerFollowed(s, OwnerStep(s, a), a, s.handoffs[u], s.served[u]);
    } else {
      OthersWay(s, OwnerStep(s, a), a.t, u);
    }
  }

  // ---------------------------------------------------------------------------------------------
  // Steps of the gatherer

  lemma {:induction false} JoinedTail(way: seq<seq<Timed>>)
    requires way != []
    ensures |Joined(way)| == |way[0]| + |Joined(way[1..])|
  {
  }

  // Taking a message from the channel takes the first buffer of its thread.
  lemma DrainWay(s: State, s': State, t: ThreadId)
    requires s.channel != [] && Processed(s.(channel := s.channel[1..]), s') && t in s.threads
    ensures if s.channel[0].thread == t then OnTheWay(s, t) != [] && OnTheWay(s', t) == OnTheWay(s, t)[1..]
            else OnTheWay(s', t) == OnTheWay(s, t)
  {
    if s.channel[0].thread == t {
      assert OnTheWay(s', t) == OnTheWay(s, t)[1..];
    } else {
      assert OnTheWay(s', t) == OnTheWay(s, t);
    }
  }

  lemma DrainFollowed(s: State, s': State, t: ThreadId)
    requires s.channel != [] && Processed(s.(channel := s.channel[1..]), s') && FollowedIn(s, t)
    ensures FollowedIn(s', t)
  {
    DrainWay(s, s', t);
    if s.channel[0].thread == t {
      JoinedTail(OnTheWay(s, t));
    }
  }

  lemma DrainTurns(s: State, s': State)
    requires GathererCan(s, DrainOne) && Moves(s, s', DrainOne) && Turns(s)
    ensures Turns(s')
  {
    if InPass(s) {
      forall t | t in s'.served
        ensures FollowedIn(s', t)
      {
        assert FollowedIn(s, t);
        DrainFollowed(s, s', t);
      }
    }
  }

  // The channel is seen empty: only what the thread has in its hand is on its way.
  lemma EmptySeen(s: State, s': State)
    requires GathererCan(s, DrainEmpty) && s.place.Draining? && Moves(s, s', DrainEmpty)
    requires OwnerState(s.threads[s.states[s.place.i]])
    ensures Seen(s')
  {
    assert InMessages(s'.channel, s.states[s.place.i]) == [];
  }

  lemma EmptyTurns(s: State, s': State)
    requires Inv(s) && Turns(s) && GathererCan(s, DrainEmpty) && s.place.Draining? && Moves(s, s', DrainEmpty)
    ensures Turns(s')
  {
    hide Inv, Followed, OnTheWay, ThreadInv;
    InvOwner(s, s.states[s.place.i]);
    EmptySeen(s, s');
    forall u | u in s'.served
      ensures FollowedIn(s', u)
    {
      assert FollowedIn(s, u);
      SameWay(s, s', u);
    }
    assert ServedSoFar(s') by {
      SameServed(s, s');
    }
  }

  lemma SameServed(s: State, s': State)
    requires ServedSoFar(s) && s'.states == s.states && s'.served == s.served && Served(s') == Served(s)
    ensures ServedSoFar(s')
  {
  }

  // The swap serves the thread: what it had pushed so far is with the gatherer or in the hand-off.
  lemma SwapFollowed(s: State, s': State)
    requires Structure(s) && GathererCan(s, Swap) && Moves(s, s', Swap) && Seen(s)
    ensures FollowedIn(s', s.states[s.place.i])
  {
    var t := s.states[s.place.i];
    var way, handoff := OnTheWay(s, t), s.handoffs[t];
    assert OnTheWay(s', t) == way;
    assert s'.threads[t].shared.items == [];
    if handoff != [] {
      JoinedTail(way);
      assert way[1..] == [];
    }
  }

  lemma SwapServed(s: State, s': State)
    requires Structure(s) && GathererCan(s, Swap) && Moves(s, s', Swap) && ServedSoFar(s)
    ensures ServedSoFar(s')
  {
  }

  lemma SwapTurns(s: State, s': State)
    requires Structure(s) && Turns(s) && GathererCan(s, Swap) && Moves(s, s', Swap)
    ensures Turns(s')
  {
    hide Structure, Followed, OnTheWay;
    SwapServed(s, s');
    forall u | u in s'.served
      ensures FollowedIn(s', u)
    {
      if u == s.states[s.place.i] {
        SwapFollowed(s, s');
      } else {
        assert FollowedIn(s, u);
        SameWay(s, s', u);
      }
    }
  }

  lemma ShipServed(s: State, s': State)
    requires GathererCan(s, Ship) && Moves(s, s', Ship) && ServedSoFar(s)
    ensures ServedSoFar(s')
  {
    if s.place.sawDead {
      forall j | 0 <= j < |s'.states|
        ensures s'.states[j] in s'.served <==> j < Served(s')
      {
        assert s'.states[j] == s.states[if j < s.place.i then j else j + 1];
      }
    } else {
      SameServed(s, s');
    }
  }

  // Steps that leave what is on the way, and the threads apart from their locks, alone.
  lemma StillTurns(s: State, s': State)
    requires Turns(s) && InPass(s) && InPass(s') && ServedSoFar(s') && !s'.place.Drained?
    requires s'.served == s.served && s'.handoffs == s.handoffs && s'.channel == s.channel && s'.passTime == s.passTime
    requires s'.threads.Keys == s.threads.Keys
    requires forall t | t in s.threads :: s'.threads[t] == s.threads[t].(lock := s'.threads[t].lock)
    ensures Turns(s')
  {
    forall t | t in s'.served
      ensures FollowedIn(s', t)
    {
      assert FollowedIn(s, t);
      SameWay(s, s', t);
    }
  }

  lemma LockTurns(s: State, s': State)
    requires Turns(s) && GathererCan(s, LockState) && Moves(s, s', LockState)
    ensures Turns(s')
  {
    SameServed(s, s');
    StillTurns(s, s');
  }

  lemma ShipTurns(s: State, s': State)
    requires Turns(s) && GathererCan(s, Ship) && Moves(s, s', Ship)
    ensures Turns(s')
  {
    ShipServed(s, s');
    StillTurns(s, s');
  }

  lemma FirstTurns(s: State, s': State)
    requires Turns(s) && GathererCan(s, DrainEmpty) && !s.place.Draining? && Moves(s, s', DrainEmpty)
    ensures Turns(s')
  {
  }

  lemma GathererTurns(s: State, s': State, a: Action)
    requires Inv(s) && Turns(s) && GathererCan(s, a) && Moves(s, s', a)
    ensures Turns(s')
  {
    hide Inv, Turns, Moves, Structure;
    InvStructure(s);
    match a
    case DrainOne => DrainTurns(s, s');
    case DrainEmpty =>
      if s.place.Draining? {
        EmptyTurns(s, s');
      } else {
        FirstTurns(s, s');
      }
    case LockState => LockTurns(s, s');
    case Swap => SwapTurns(s, s');
    case Ship => ShipTurns(s, s');
    case _ => OutOfPassTurns(s, s', a);
  }

  lemma OutOfPassTurns(s: State, s': State, a: Action)
    requires GathererCan(s, a) && Moves(s, s', a)
    requires !a.DrainOne? && !a.DrainEmpty? && !a.LockState? && !a.Swap? && !a.Ship?
    ensures Turns(s')
  {
    hide Seen, ServedSoFar, FollowedIn, Grown;
    match a
    case StartPass(_, _) =>
    case ReceiveData =>
    case ReceiveRegistration =>
    case ReceiveResolved(_) =>
    case EndPass =>
    case LastResolved(_) =>
    case Finish =>
  }

  // ---------------------------------------------------------------------------------------------
  // Runs

  lemma BystanderTurns(s: State, s': State)
    requires Turns(s) && Bystander(s, s')
    ensures Turns(s')
  {
    if InPass(s) {
      if s.place.Drained? {
        var t := s.states[s.place.i];
        assert OnTheWay(s', t) == OnTheWay(s, t);
      }
      SameServed(s, s');
      forall t | t in s'.served
        ensures FollowedIn(s', t)
      {
        assert FollowedIn(s, t);
        assert OnTheWay(s', t) == OnTheWay(s, t);
      }
    }
  }

  lemma StepTurns(v: Variant, s: State, a: Action)
    requires Inv(s) && Marks(s) && Turns(s) && Can(s, a)
    ensures Turns(Do(v, s, a))
  {
    hide Inv, Marks, Turns, GathererStep, GathererCan, OwnerStep, OwnerCan, ResolverStep, ResolverCan, WorldStep, Moves;
    if WorldCan(s, a) {
      WorldIsBystander(s, a);
      BystanderTurns(s, WorldStep(s, a));
    } else if OwnerCan(s, a) {
      OwnerTurns(s, a);
    } else if GathererCan(s, a) {
      GathererMoves(v, s, a);
      GathererTurns(s, GathererStep(v, s, a), a);
    } else {
      ResolverIsBystander(s, a);
      BystanderTurns(s, ResolverStep(s, a));
    }
  }

  lemma {:induction false} RunTurns(v: Variant, run: seq<Action>)
    requires IsRun(v, run)
    ensures Turns(Final(v, run))
  {
    if run != [] {
      var front := run[..|run| - 1];
      RunTurns(v, front);
      RunInv(v, front);
      RunMarks(v, front);
      StepTurns(v, Final(v, front), run[|run| - 1]);
    }
  }

  // ---------------------------------------------------------------------------------------------
  // The announcement

  ghost predicate After(xs: seq<Timed>, time: Time) {
    forall i | 0 <= i < |xs| :: time < xs[i].time
  }

  // The buffer t had in its hand when the gatherer saw the channel empty under its lock is still on its way,
  // and was begun no later than the announced time.
  ghost predicate HandoffUpTo(s: State, t: ThreadId)
    requires t in s.threads
  {
    && t in s.handoffs && s.handoffs[t] != [] && s.handoffs[t][0].time <= s.passTime
    && Leads(OnTheWay(s, t), s.handoffs[t])
  }

  // The k-th instruction of t was pushed after t was served in this pass, is stamped with the announced time,
  // and has not been processed.
  ghost predicate PushedSince(s: State, t: ThreadId, k: nat)
    requires t in s.threads
  {
    && t in s.served && s.served[t] <= k < |s.threads[t].pushed|
    && |s.threads[t].pushed| - |Unshipped(s, t)| <= k && s.threads[t].pushed[k].time == s.passTime
  }

  // Nothing stamped up to the announced time is late if and only if there is neither; and what is late is one
  // or the other.
  ghost predicate Accounted(s: State, t: ThreadId)
    requires t in s.threads
  {
    var late := Unshipped(s, t);
    && (After(late, s.passTime) <==> !HandoffUpTo(s, t) && forall k: nat :: !PushedSince(s, t, k))
    && forall i | 0 <= i < |late| && late[i].time <= s.passTime :: LateFor(s, t, i)
  }

  // The i-th late instruction is in the handed-off buffer, or was pushed since the thread was served.
  ghost predicate LateFor(s: State, t: ThreadId, i: nat)
    requires t in s.threads && i < |Unshipped(s, t)|
  {
    || (HandoffUpTo(s, t) && i < |s.handoffs[t]| && Unshipped(s, t)[i] == s.handoffs[t][i])
    || (|Unshipped(s, t)| <= |s.threads[t].pushed|
        && PushedSince(s, t, |s.threads[t].pushed| - |Unshipped(s, t)| + i))
  }

  // When a time is about to be announced, all data stamped up to and including it has been shipped if and only
  // if no such hand-off is in flight and nothing stamped with it was pushed since its thread was served; and
  // whatever is late is one or the other.
  lemma {:induction false} AnnouncedExactly(v: Variant, run: seq<Action>, t: ThreadId)
    requires IsRun(v, run) && GathererCan(Final(v, run), EndPass) && t in Final(v, run).threads
    ensures var s := Final(v, run);
            s.threads[t].pushed == Sent(s.events, t) + Unshipped(s, t) && Accounted(s, t)
  {
    RunInv(v, run);
    RunMarks(v, run);
    RunTurns(v, run);
    EndAccounted(Final(v, run), t);
  }

  lemma {:induction false} EndAccounted(s: State, t: ThreadId)
    requires Inv(s) && Marks(s) && Turns(s) && GathererCan(s, EndPass) && t in s.threads
    ensures s.threads[t].pushed == Sent(s.events, t) + Unshipped(s, t) && Accounted(s, t)
  {
    assert ThreadInv(s, t);
    NothingCarried(s, t);
    if t in s.states {
      ServedByTheEnd(s, t);
      ServedAccounted(s, t);
    } else {
      OffTheList(s, t);
      NothingLate(s, t);
    }
  }

  lemma ServedByTheEnd(s: State, t: ThreadId)
    requires Marks(s) && Turns(s) && GathererCan(s, EndPass) && t in s.threads && t in s.states
    ensures FollowedIn(s, t) && Marked(s, t)
  {
    var j :| 0 <= j < |s.states| && s.states[j] == t;
    assert t in s.served;
  }

  lemma NothingLate(s: State, t: ThreadId)
    requires t in s.threads && Unshipped(s, t) == [] && OnTheWay(s, t) == []
    ensures Accounted(s, t)
  {
  }

  lemma {:induction false} ServedAccounted(s: State, t: ThreadId)
    requires FollowedIn(s, t) && Marked(s, t) && s.threads[t].pushed == Sent(s.events, t) + Unshipped(s, t)
    ensures Accounted(s, t)
  {
    hide Followed, Marked, OnTheWay;
    var late, th := Unshipped(s, t), s.threads[t];
    JoinedOnTheWay(s, t);
    assert late == Joined(OnTheWay(s, t)) + th.shared.items;
    hide Unshipped;
    forall i | 0 <= i < |late| && late[i].time <= s.passTime
      ensures LateFor(s, t, i)
    {
      LateIsEither(s, t, i);
    }
    if HandoffUpTo(s, t) {
      LeaderFirst(OnTheWay(s, t), th.shared.items);
      assert late[0] == s.handoffs[t][0];
    }
    forall k: nat | PushedSince(s, t, k)
      ensures !After(late, s.passTime)
    {
      assert late[k - (|th.pushed| - |late|)] == th.pushed[k];
    }
  }

  lemma {:induction false} LeaderFirst(way: seq<seq<Timed>>, items: seq<Timed>)
    requires way != []
    ensures forall i | 0 <= i < |way[0]| :: |Joined(way) + items| > i && (Joined(way) + items)[i] == way[0][i]
  {
  }

  lemma {:induction false} LateIsEither(s: State, t: ThreadId, i: nat)
    requires FollowedIn(s, t) && Marked(s, t)
    requires s.threads[t].pushed == Sent(s.events, t) + Unshipped(s, t)
    requires Unshipped(s, t) == Joined(OnTheWay(s, t)) + s.threads[t].shared.items
    requires i < |Unshipped(s, t)| && Unshipped(s, t)[i].time <= s.passTime
    ensures LateFor(s, t, i)
  {
    var late, handoff := Unshipped(s, t), s.handoffs[t];
    var k := |s.threads[t].pushed| - |late| + i;
    assert s.threads[t].pushed[k] == late[i];
    if k < s.served[t] {
      assert Leads(OnTheWay(s, t), handoff) && i < |handoff|;
      LeaderFirst(OnTheWay(s, t), s.threads[t].shared.items);
      assert handoff[0].time <= handoff[i].time;
    }
  }
}
