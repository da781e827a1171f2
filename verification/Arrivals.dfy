// Threads that start: the gatherer accepts them in the order in which they ask.
module Arrivals {
  import opened TrackTypes
  import opened GlobalTree
  import opened Gathering
  import opened Protocol

  // The threads that started, in order.
  function Started(run: seq<Action>): seq<ThreadId> {
    if run == [] then []
    else
      var last := run[|run| - 1];
      Started(run[..|run| - 1]) + if last.Spawn? then [last.t] else []
  }

  // The threads that were registered, in order.
  function Accepted(events: seq<Event>): seq<ThreadId> {
    if events == [] then []
    else
      var last := events[|events| - 1];
      Accepted(events[..|events| - 1]) + if last.Registered? then [last.thread] else []
  }

  lemma {:induction false} AcceptedAppend(events: seq<Event>, more: seq<Event>)
    ensures Accepted(events + more) == Accepted(events) + Accepted(more)
  {
    if more == [] {
      assert events + more == events;
    } else {
      assert (events + more)[..|events + more| - 1] == events + more[..|more| - 1];
      AcceptedAppend(events, more[..|more| - 1]);
      var last := more[|more| - 1];
      Associate(Accepted(events), Accepted(more[..|more| - 1]), if last.Registered? then [last.thread] else []);
    }
  }

  // What a step of the gatherer accepts it takes from the front of the queue.
  lemma MovesRegistrations(s: State, s': State, a: Action)
    requires GathererCan(s, a) && Moves(s, s', a)
    ensures s.registrations == Accepted(NewEvents(s, a)) + s'.registrations
  {
    hide Accepted, NewEvents, GathererCan;
    NewlyAccepted(s, a);
    match a
    case ReceiveRegistration =>
    case ReceiveData =>
    case ReceiveResolved(_) =>
    case StartPass(_, _) =>
    case DrainOne =>
    case DrainEmpty =>
    case LockState =>
    case Swap =>
    case Ship =>
    case EndPass =>
    case LastResolved(_) =>
    case Finish =>
  }

  lemma NewlyAccepted(s: State, a: Action)
    requires GathererCan(s, a)
    ensures Accepted(NewEvents(s, a)) == if a.ReceiveRegistration? then [s.registrations[0]] else []
  {
    hide Accepted, Grown;
    AcceptedNone();
    match a
    case ReceiveRegistration => AcceptedOne(Registered(s.registrations[0]));
    case ReceiveData => AcceptedOne(NewEvents(s, a)[0]);
    case DrainOne => AcceptedOne(NewEvents(s, a)[0]);
    case ReceiveResolved(_) => AcceptedOne(Detailed(s.details + [s.resolved[0]]));
    case LastResolved(_) => AcceptedOne(Detailed(s.details + [s.resolved[0]]));
    case Ship => AcceptedOfShipment(s);
    case EndPass => AcceptedOne(Ticked(s.passTime));
    case Finish => AcceptedOne(Detailed(s.details));
    case _ =>
  }

  lemma AcceptedNone()
    ensures Accepted([]) == []
  {
  }

  lemma AcceptedOne(e: Event)
    ensures Accepted([e]) == if e.Registered? then [e.thread] else []
  {
    assert [e][..0] == [];
  }

  lemma AcceptedOfShipment(s: State)
    ensures Accepted(ShipmentEvents(s)) == []
  {
    hide Accepted;
    AcceptedNone();
    if s.place.Shipping? && s.place.i < |s.states| {
      var t := s.states[s.place.i];
      var removal := if s.place.sawDead then [Removed(t)] else [];
      AcceptedOne(Delivered(t, s.local.items));
      AcceptedOne(Removed(t));
      AcceptedAppend([Delivered(t, s.local.items)], removal);
    }
  }

  lemma OwnerRegistrations(s: State, a: Action)
    requires OwnerCan(s, a)
    ensures OwnerStep(s, a).registrations == s.registrations
  {
    hide Grown;
    match a
    case Begin(_, _) =>
    case Push(_, _) =>
    case Release(_) =>
    case Take(_) =>
    case Send(_) =>
    case Die(_) =>
  }

  lemma StepRegistrations(v: Variant, s: State, a: Action)
    requires Can(s, a)
    ensures var s' := Do(v, s, a);
            Accepted(s'.events) + s'.registrations ==
            Accepted(s.events) + s.registrations + if a.Spawn? then [a.t] else []
  {
    hide Accepted, OwnerStep, GathererStep, Moves, NewEvents;
    if WorldCan(s, a) {
      assert WorldStep(s, a).events == s.events;
    } else if OwnerCan(s, a) {
      OwnerRegistrations(s, a);
      OwnerNotGatherers(s, a);
    } else if GathererCan(s, a) {
      GathererMoves(v, s, a);
      GathererEvents(v, s, a);
      MovesRegistrations(s, GathererStep(v, s, a), a);
      AcceptedAppend(s.events, NewEvents(s, a));
    }
  }

  // In every run the threads accepted so far, followed by those that wait, are those that started, in order.
  lemma {:induction false} AcceptedInOrder(v: Variant, run: seq<Action>)
    requires IsRun(v, run)
    ensures Accepted(Final(v, run).events) + Final(v, run).registrations == Started(run)
  {
    if run == [] {
      assert Accepted([]) == [];
    } else {
      hide Accepted, GathererStep, OwnerStep;
      AcceptedInOrder(v, run[..|run| - 1]);
      StepRegistrations(v, Final(v, run[..|run| - 1]), run[|run| - 1]);
    }
  }
}
