// A pass of the concurrent gatherer is a pass of the gatherer object: however its steps interleave with those of
// the threads and the resolver, the events of a pass are those of one call of HandleBuffers.
module Passes {
  import opened TrackTypes
  import opened GlobalTree
  import opened Gathering
  import opened Protocol
  import opened Gatherers

  // What a pass has taken in so far: from the channel before the first turn, from the channel in each finished
  // turn, each thread served as it was found, and from the channel in the turn under way.
  datatype Taken = Taken(first: seq<Flush>, arrivals: seq<seq<Flush>>, owners: seq<Owner>, waiting: seq<Flush>)

  const NOTHING_TAKEN: Taken := Taken([], [], [], [])

  function TakenEvents(p: Taken): seq<Event>
    requires |p.owners| <= |p.arrivals|
  {
    Deliveries(p.first) + ServedEvents(p.arrivals, p.owners) + Deliveries(p.waiting)
  }

  // The list of threads after the turns of some, and the position of the next.
  ghost predicate Listed(all: seq<ThreadId>, owners: seq<Owner>, states: seq<ThreadId>, index: nat) {
    && |owners| <= |all|
    && (forall k | 0 <= k < |owners| :: owners[k].thread == all[k])
    && states == Alive(all[..|owners|], owners) + all[|owners|..]
    && index == |Alive(all[..|owners|], owners)|
  }

  ghost predicate InThisPass(place: Place) {
    place.FirstDrain? || place.AtState? || place.Draining? || place.Drained? || place.Shipping?
  }

  function Position(place: Place): nat {
    match place
    case AtState(i) => i
    case Draining(i) => i
    case Drained(i) => i
    case Shipping(i, _) => i
    case _ => 0
  }

  // s0 is the state in which the pass began.
  ghost predicate Passing(s0: State, s: State, p: Taken) {
    && InThisPass(s.place) && |p.arrivals| == |p.owners|
    && s.events == s0.events + TakenEvents(p)
    && Listed(s0.states, p.owners, s.states, Position(s.place))
    && (s.place.FirstDrain? ==> p.owners == [] && p.waiting == [])
    && (s.place.AtState? ==> p.waiting == [])
    && s0.now <= s.now && (!s.place.FirstDrain? ==> s0.now <= s.passTime <= s.now)
  }

  // ---------------------------------------------------------------------------------------------
  // What a turn adds

  lemma TakeFirst(p: Taken, m: Flush)
    requires p.owners == [] && p.waiting == [] && |p.arrivals| == 0
    ensures TakenEvents(p.(first := p.first + [m])) == TakenEvents(p) + [Delivered(m.thread, m.buffer)]
  {
    assert Deliveries(p.first + [m]) == Deliveries(p.first) + [Delivered(m.thread, m.buffer)];
  }

  lemma TakeWaiting(p: Taken, m: Flush)
    requires |p.owners| <= |p.arrivals|
    ensures TakenEvents(p.(waiting := p.waiting + [m])) == TakenEvents(p) + [Delivered(m.thread, m.buffer)]
  {
    assert Deliveries(p.waiting + [m]) == Deliveries(p.waiting) + [Delivered(m.thread, m.buffer)];
  }

  // The turn ends: the thread's own buffer goes out, and it is retired if it is dead.
  function Finished(p: Taken, owner: Owner): Taken {
    Taken(p.first, p.arrivals + [p.waiting], p.owners + [owner], [])
  }

  lemma FinishTurn(p: Taken, owner: Owner)
    requires |p.owners| == |p.arrivals|
    ensures TakenEvents(Finished(p, owner)) ==
            TakenEvents(p) + ([Delivered(owner.thread, owner.buffer)]
                              + if owner.dead then [Removed(owner.thread)] else [])
  {
    var n := |p.owners|;
    ServedPrefix(p.arrivals, p.waiting, p.owners);
    assert (p.owners + [owner])[..n] == p.owners && (p.arrivals + [p.waiting])[n] == p.waiting;
    assert Deliveries([]) == [];
  }

  lemma {:induction false} ServedPrefix(arrivals: seq<seq<Flush>>, waiting: seq<Flush>, owners: seq<Owner>)
    requires |owners| <= |arrivals|
    ensures ServedEvents(arrivals + [waiting], owners) == ServedEvents(arrivals, owners)
  {
    if owners != [] {
      ServedPrefix(arrivals, waiting, owners[..|owners| - 1]);
    }
  }

  lemma ListedNext(all: seq<ThreadId>, owners: seq<Owner>, states: seq<ThreadId>, index: nat, owner: Owner)
    requires Listed(all, owners, states, index) && index < |states| && owner.thread == states[index]
    ensures if owner.dead then Listed(all, owners + [owner], states[..index] + states[index + 1..], index)
            else Listed(all, owners + [owner], states, index + 1)
  {
    var n := |owners|;
    assert n < |all| && states[index] == all[n];
    assert all[..n + 1][..n] == all[..n] && (owners + [owner])[..n] == owners;
  }

  lemma {:induction false} ListedLast(all: seq<ThreadId>, owners: seq<Owner>, states: seq<ThreadId>, index: nat)
    requires Listed(all, owners, states, index) && index >= |states|
    ensures |owners| == |all| && states == Alive(all, owners)
  {
    assert |all[|owners|..]| == 0;
    assert all[..|owners|] == all;
  }

  // ---------------------------------------------------------------------------------------------
  // Steps

  lemma DrainPassing(s0: State, s: State, s': State, p: Taken) returns (p': Taken)
    requires Passing(s0, s, p) && GathererCan(s, DrainOne) && Moves(s, s', DrainOne)
    requires s'.events == s.events + NewEvents(s, DrainOne)
    ensures Passing(s0, s', p')
  {
    var m := s.channel[0];
    if s.place.FirstDrain? {
      p' := p.(first := p.first + [m]);
      TakeFirst(p, m);
    } else {
      p' := p.(waiting := p.waiting + [m]);
      TakeWaiting(p, m);
    }
  }

  lemma ShipPassing(s0: State, s: State, s': State, p: Taken) returns (p': Taken)
    requires Passing(s0, s, p) && GathererCan(s, Ship) && Moves(s, s', Ship)
    requires s'.events == s.events + NewEvents(s, Ship)
    ensures Passing(s0, s', p')
  {
    hide TakenEvents, NewEvents, Listed;
    var owner := Owner(s.states[s.place.i], s.local.items, s.place.sawDead);
    p' := Finished(p, owner);
    ShipTakes(s0.events, p, s, owner);
    ListedNext(s0.states, p.owners, s.states, s.place.i, owner);
  }

  lemma ShipTakes(events: seq<Event>, p: Taken, s: State, owner: Owner)
    requires |p.owners| == |p.arrivals| && s.place.Shipping? && s.place.i < |s.states|
    requires owner == Owner(s.states[s.place.i], s.local.items, s.place.sawDead)
    requires s.events == events + TakenEvents(p)
    ensures s.events + NewEvents(s, Ship) == events + TakenEvents(Finished(p, owner))
  {
    FinishTurn(p, owner);
    Associate(events, TakenEvents(p), NewEvents(s, Ship));
  }

  lemma QuietPassing(s0: State, s: State, s': State, p: Taken, a: Action)
    requires Passing(s0, s, p) && GathererCan(s, a) && Moves(s, s', a) && s'.events == s.events + NewEvents(s, a)
    requires !a.DrainOne? && !a.Ship? && !a.EndPass?
    ensures Passing(s0, s', p)
  {
    hide Passing, Moves, GathererCan, NewEvents;
    InPassActions(s0, s, p, a);
    QuietAddsNothing(s, a);
    match a
    case DrainEmpty => EmptyPassing(s0, s, s', p);
    case LockState => LockPassing(s0, s, s', p);
    case Swap => SwapPassing(s0, s, s', p);
  }

  lemma EmptyPassing(s0: State, s: State, s': State, p: Taken)
    requires Passing(s0, s, p) && Moves(s, s', DrainEmpty) && s'.events == s.events
    ensures Passing(s0, s', p)
  {
    hide TakenEvents, Listed, HandOf;
    if s.place.FirstDrain? {
      assert s'.place == AtState(0) && s'.states == s.states;
    } else {
      assert s'.place == Drained(s.place.i) && s'.states == s.states;
    }
  }

  lemma LockPassing(s0: State, s: State, s': State, p: Taken)
    requires Passing(s0, s, p) && Moves(s, s', LockState) && s'.events == s.events
    ensures Passing(s0, s', p)
  {
    hide TakenEvents, Listed;
  }

  lemma SwapPassing(s0: State, s: State, s': State, p: Taken)
    requires Passing(s0, s, p) && Moves(s, s', Swap) && s'.events == s.events
    ensures Passing(s0, s', p)
  {
    hide TakenEvents, Listed;
  }

  lemma QuietAddsNothing(s: State, a: Action)
    requires a.DrainEmpty? || a.LockState? || a.Swap?
    ensures s.events + NewEvents(s, a) == s.events
  {
    assert s.events + [] == s.events;
  }

  lemma InPassActions(s0: State, s: State, p: Taken, a: Action)
    requires GathererCan(s, a) && Passing(s0, s, p)
    ensures a.DrainOne? || a.DrainEmpty? || a.LockState? || a.Swap? || a.Ship? || a.EndPass?
  {
  }

  lemma OthersPassing(s0: State, s: State, s': State, p: Taken)
    requires Passing(s0, s, p) && NotGatherers(s, s')
    ensures Passing(s0, s', p)
  {
    hide TakenEvents, Listed;
  }

  lemma StepPassing(v: Variant, s0: State, s: State, a: Action, p: Taken) returns (p': Taken)
    requires Passing(s0, s, p) && Can(s, a) && !a.EndPass?
    ensures Passing(s0, Do(v, s, a), p')
  {
    hide Passing, NotGatherers, Moves, NewEvents, WorldCan, OwnerCan, GathererCan, ResolverCan;
    hide GathererStep, OwnerStep, WorldStep, ResolverStep;
    p' := p;
    if !WorldCan(s, a) && !OwnerCan(s, a) && GathererCan(s, a) {
      GathererMoves(v, s, a);
      GathererEvents(v, s, a);
      var s' := GathererStep(v, s, a);
      match a
      case DrainOne => p' := DrainPassing(s0, s, s', p);
      case Ship => p' := ShipPassing(s0, s, s', p);
      case _ => QuietPassing(s0, s, s', p, a);
    } else {
      OthersNotGatherers(v, s, a);
      OthersPassing(s0, s, Do(v, s, a), p);
    }
  }

  // ---------------------------------------------------------------------------------------------
  // Runs

  lemma {:induction false} PassBegins(v: Variant, before: seq<Action>, final: bool, capacity: nat)
    requires IsRun(v, before + [StartPass(final, capacity)])
    ensures Passing(Final(v, before), Final(v, before + [StartPass(final, capacity)]), NOTHING_TAKEN)
  {
    var run, a := before + [StartPass(final, capacity)], StartPass(final, capacity);
    assert run[..|run| - 1] == before;
    GathererMoves(v, Final(v, before), a);
    GathererEvents(v, Final(v, before), a);
    var s := Final(v, before);
    assert s.states[..0] == [];
    assert s.events + TakenEvents(NOTHING_TAKEN) == s.events;
  }

  lemma {:induction false} PassGoesOn(v: Variant, before: seq<Action>, start: Action, after: seq<Action>)
    returns (p: Taken)
    requires start.StartPass? && IsRun(v, before + [start] + after)
    requires forall i | 0 <= i < |after| :: !after[i].EndPass?
    ensures Passing(Final(v, before), Final(v, before + [start] + after), p)
  {
    if after == [] {
      assert before + [start] + after == before + [start];
      PassBegins(v, before, start.final, start.capacity);
      p := NOTHING_TAKEN;
    } else {
      var run, front := before + [start] + after, before + [start] + after[..|after| - 1];
      assert run[..|run| - 1] == front;
      p := PassGoesOn(v, before, start, after[..|after| - 1]);
      p := StepPassing(v, Final(v, before), Final(v, front), after[|after| - 1], p);
    }
  }

  // A whole pass, from its start to its end, whatever else happens in between: the gatherer handles the events of
  // one pass of the object over the threads that were on the list, the list keeps exactly the live ones, and the
  // time announced is one at which the pass was under way.
  lemma PassIsHandleBuffers(v: Variant, before: seq<Action>, start: Action, after: seq<Action>)
    returns (first: seq<Flush>, arrivals: seq<seq<Flush>>, owners: seq<Owner>)
    requires start.StartPass? && IsRun(v, before + [start] + after + [EndPass])
    requires forall i | 0 <= i < |after| :: !after[i].EndPass?
    ensures var s0, s, s' := Final(v, before), Final(v, before + [start] + after),
                             Final(v, before + [start] + after + [EndPass]);
            && |owners| == |arrivals| == |s0.states|
            && (forall k | 0 <= k < |owners| :: owners[k].thread == s0.states[k])
            && s'.events == s0.events + PassEvents(first, arrivals, owners, s.passTime)
            && s'.states == Alive(s0.states, owners) && s0.now <= s.passTime <= s.now
  {
    var run := before + [start] + after + [EndPass];
    assert run[..|run| - 1] == before + [start] + after;
    var p := PassGoesOn(v, before, start, after);
    first, arrivals, owners := p.first, p.arrivals, p.owners;
    PassCloses(v, Final(v, before), Final(v, before + [start] + after), p);
  }

  lemma PassCloses(v: Variant, s0: State, s: State, p: Taken)
    requires Passing(s0, s, p) && GathererCan(s, EndPass)
    ensures var s' := GathererStep(v, s, EndPass);
            && |p.owners| == |s0.states|
            && s'.events == s0.events + PassEvents(p.first, p.arrivals, p.owners, s.passTime)
            && s'.states == Alive(s0.states, p.owners) && s0.now <= s.passTime <= s.now
  {
    ListedLast(s0.states, p.owners, s.states, s.place.i);
    GathererMoves(v, s, EndPass);
    GathererEvents(v, s, EndPass);
    assert Deliveries([]) == [];
    CloseEvents(s0.events, Deliveries(p.first), ServedEvents(p.arrivals, p.owners), Ticked(s.passTime));
  }

  lemma CloseEvents(e: seq<Event>, a: seq<Event>, b: seq<Event>, tick: Event)
    ensures e + (a + b + []) + [tick] == e + (a + b + [tick])
  {
  }
}
