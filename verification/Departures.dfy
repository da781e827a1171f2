// Threads that die: a dead thread stays dead, and the next pass removes it from the gatherer and from the wire.
module Departures {
  import opened TrackTypes
  import opened GlobalTree
  import opened Protocol
  import opened ProtocolSafety
  import opened TrackerTheorems
  import opened ShutdownTheorems
  import opened Passes

  ghost predicate AllDead(s: State, dead: set<ThreadId>) {
    forall t | t in dead :: t in s.threads && s.threads[t].dead
  }

  // ---------------------------------------------------------------------------------------------
  // Nobody comes back

  // Threads keep their place and whether they are dead.
  ghost predicate KeepsDead(s: State, s': State) {
    forall t | t in s.threads && s.threads[t].dead :: t in s'.threads && s'.threads[t].dead
  }

  lemma OwnerKeepsDead(s: State, a: Action)
    requires OwnerCan(s, a)
    ensures KeepsDead(s, OwnerStep(s, a))
  {
    hide Grown;
    match a
    case Begin(_, _) =>
    case Push(_, _) =>
    case Release(_) =>
    case Take(_) =>
    case Send(_) =>
    case Die(_) =>
  }

  lemma GathererKeepsDead(s: State, s': State, a: Action)
    requires Moves(s, s', a)
    ensures KeepsDead(s, s')
  {
    hide Moves;
    MovesKeepsThreads(s, s', a);
  }

  lemma StepKeepsDead(v: Variant, s: State, a: Action)
    requires Can(s, a)
    ensures KeepsDead(s, Do(v, s, a))
  {
    hide KeepsDead, OwnerStep, OwnerCan, GathererStep, GathererCan, Moves;
    if WorldCan(s, a) {
      WorldKeepsDead(s, a);
    } else if OwnerCan(s, a) {
      OwnerKeepsDead(s, a);
    } else if GathererCan(s, a) {
      GathererMoves(v, s, a);
      GathererKeepsDead(s, GathererStep(v, s, a), a);
    } else {
      ResolverKeepsDead(s, a);
    }
  }

  lemma WorldKeepsDead(s: State, a: Action)
    requires WorldCan(s, a)
    ensures KeepsDead(s, WorldStep(s, a))
  {
  }

  lemma ResolverKeepsDead(s: State, a: Action)
    requires ResolverCan(s, a)
    ensures KeepsDead(s, ResolverStep(s, a))
  {
  }

  // A thread that has died is dead from then on.
  lemma {:induction false} DeadForGood(v: Variant, run: seq<Action>, t: ThreadId)
    requires IsRun(v, run) && Die(t) in run
    ensures t in Final(v, run).threads && Final(v, run).threads[t].dead
  {
    var front, a := run[..|run| - 1], run[|run| - 1];
    var s := Final(v, front);
    if a == Die(t) {
      assert OwnerCan(s, a) && !WorldCan(s, a);
    } else {
      assert Die(t) in front;
      DeadForGood(v, front, t);
      StepKeepsDead(v, s, a);
    }
  }

  // ---------------------------------------------------------------------------------------------
  // A pass removes the dead

  // The pass has removed those threads, all dead when it began, that it has come past.
  ghost predicate Purging(s: State, dead: set<ThreadId>) {
    && InThisPass(s.place) && AllDead(s, dead)
    && (forall j | 0 <= j < |s.states| && j < Position(s.place) :: s.states[j] !in dead)
    && (s.place.Shipping? && s.place.i < |s.states| && s.states[s.place.i] in dead ==> s.place.sawDead)
  }

  lemma OthersPurging(s: State, s': State, dead: set<ThreadId>)
    requires Purging(s, dead) && NotGatherers(s, s') && KeepsDead(s, s')
    ensures Purging(s', dead)
  {
  }

  lemma ShipPurging(s: State, s': State, dead: set<ThreadId>)
    requires Purging(s, dead) && Moves(s, s', Ship) && KeepsDead(s, s')
    ensures Purging(s', dead)
  {
    forall j | 0 <= j < |s'.states| && j < Position(s'.place)
      ensures s'.states[j] !in dead
    {
      assert s'.states[j] == s.states[j];
    }
  }

  lemma SwapPurging(s: State, s': State, dead: set<ThreadId>)
    requires Purging(s, dead) && Moves(s, s', Swap) && KeepsDead(s, s')
    ensures Purging(s', dead)
  {
  }

  lemma EmptyPurging(s: State, s': State, dead: set<ThreadId>)
    requires Purging(s, dead) && Moves(s, s', DrainEmpty) && KeepsDead(s, s')
    ensures Purging(s', dead)
  {
    if s.place.FirstDrain? {
      assert s'.place == AtState(0) && s'.states == s.states;
    } else {
      assert s'.place == Drained(s.place.i) && s'.states == s.states;
    }
  }

  lemma DrainPurging(s: State, s': State, dead: set<ThreadId>)
    requires Purging(s, dead) && Moves(s, s', DrainOne) && KeepsDead(s, s')
    ensures Purging(s', dead)
  {
  }

  lemma LockPurging(s: State, s': State, dead: set<ThreadId>)
    requires Purging(s, dead) && Moves(s, s', LockState) && KeepsDead(s, s')
    ensures Purging(s', dead)
  {
  }

  lemma GathererPurging(s: State, s': State, a: Action, dead: set<ThreadId>)
    requires Purging(s, dead) && GathererCan(s, a) && Moves(s, s', a) && !a.EndPass?
    ensures Purging(s', dead)
  {
    GathererKeepsDead(s, s', a);
    PurgingActions(s, dead, a);
    hide Purging, Moves, GathererCan, KeepsDead;
    match a
    case DrainOne => DrainPurging(s, s', dead);
    case DrainEmpty => EmptyPurging(s, s', dead);
    case LockState => LockPurging(s, s', dead);
    case Swap => SwapPurging(s, s', dead);
    case Ship => ShipPurging(s, s', dead);
  }

  lemma PurgingActions(s: State, dead: set<ThreadId>, a: Action)
    requires Purging(s, dead) && GathererCan(s, a)
    ensures a.DrainOne? || a.DrainEmpty? || a.LockState? || a.Swap? || a.Ship? || a.EndPass?
  {
  }

  lemma StepPurging(v: Variant, s: State, a: Action, dead: set<ThreadId>)
    requires Purging(s, dead) && Can(s, a) && !a.EndPass?
    ensures Purging(Do(v, s, a), dead)
  {
    hide Purging, KeepsDead, NotGatherers, Moves, WorldCan, OwnerCan, GathererCan, ResolverCan;
    hide GathererStep, OwnerStep, WorldStep, ResolverStep;
    if !WorldCan(s, a) && !OwnerCan(s, a) && GathererCan(s, a) {
      GathererMoves(v, s, a);
      GathererPurging(s, GathererStep(v, s, a), a, dead);
    } else {
      OthersNotGatherers(v, s, a);
      StepKeepsDead(v, s, a);
      OthersPurging(s, Do(v, s, a), dead);
    }
  }

  lemma StartPurging(s: State, s': State, start: Action, dead: set<ThreadId>)
    requires start.StartPass? && Moves(s, s', start) && AllDead(s, dead)
    ensures Purging(s', dead)
  {
  }

  lemma {:induction false} PassPurges(v: Variant, before: seq<Action>, start: Action, after: seq<Action>,
                                      dead: set<ThreadId>)
    requires start.StartPass? && IsRun(v, before + [start] + after) && AllDead(Final(v, before), dead)
    requires forall i | 0 <= i < |after| :: !after[i].EndPass?
    ensures Purging(Final(v, before + [start] + after), dead)
  {
    hide Purging, AllDead, Moves;
    if after == [] {
      assert before + [start] + after == before + [start];
      assert (before + [start])[..|before|] == before;
      GathererMoves(v, Final(v, before), start);
      StartPurging(Final(v, before), Final(v, before + [start]), start, dead);
    } else {
      var run, front := before + [start] + after, before + [start] + after[..|after| - 1];
      assert run[..|run| - 1] == front;
      PassPurges(v, before, start, after[..|after| - 1], dead);
      StepPurging(v, Final(v, front), after[|after| - 1], dead);
    }
  }

  lemma EndPurges(s: State, s': State, dead: set<ThreadId>)
    requires Purging(s, dead) && GathererCan(s, EndPass) && Moves(s, s', EndPass)
    ensures AllDead(s', dead) && forall t | t in dead :: t !in s'.states
  {
  }

  // At the end of a pass no thread that was dead when it started is on the list.
  lemma PassRemovesDead(v: Variant, before: seq<Action>, start: Action, after: seq<Action>, dead: set<ThreadId>)
    requires start.StartPass? && IsRun(v, before + [start] + after + [EndPass])
    requires AllDead(Final(v, before), dead) && forall i | 0 <= i < |after| :: !after[i].EndPass?
    ensures var s := Final(v, before + [start] + after + [EndPass]);
            AllDead(s, dead) && forall t | t in dead :: t !in s.states
  {
    hide Purging, AllDead, Moves;
    var run := before + [start] + after + [EndPass];
    assert run[..|run| - 1] == before + [start] + after;
    PassPurges(v, before, start, after, dead);
    var s := Final(v, before + [start] + after);
    GathererMoves(v, s, EndPass);
    EndPurges(s, Final(v, run), dead);
  }

  // A thread that has died is destroyed by the end of the next pass: the wire says so, and nothing of it is left
  // in the gatherer.
  lemma {:induction false} DeadAreDestroyed(v: Variant, before: seq<Action>, start: Action, after: seq<Action>,
                                            t: ThreadId)
    requires start.StartPass? && IsRun(v, before + [start] + after + [EndPass]) && Die(t) in before
    requires forall i | 0 <= i < |after| :: !after[i].EndPass?
    ensures var s := Final(v, before + [start] + after + [EndPass]);
            && CreateThread(t) in s.g.wire && DestroyThread(t) in s.g.wire
            && t !in s.states && t !in s.g.tables
  {
    hide IsRun, AllDead;
    var run := before + [start] + after + [EndPass];
    assert run == before + ([start] + after + [EndPass]);
    RunPrefix(v, before, [start] + after + [EndPass]);
    DeadForGood(v, before, t);
    OneDead(Final(v, before), t);
    PassRemovesDead(v, before, start, after, {t});
    assert t in {t};
    GoneFromTheList(v, run, t);
  }

  lemma OneDead(s: State, t: ThreadId)
    requires t in s.threads && s.threads[t].dead
    ensures AllDead(s, {t})
  {
  }

  lemma {:induction false} GoneFromTheList(v: Variant, run: seq<Action>, t: ThreadId)
    requires IsRun(v, run) && AllDead(Final(v, run), {t}) && t !in Final(v, run).states
    ensures var s := Final(v, run);
            && CreateThread(t) in s.g.wire && DestroyThread(t) in s.g.wire
            && t !in s.states && t !in s.g.tables
  {
    hide IsRun, Inv, ThreadInv;
    var s := Final(v, run);
    assert t in {t};
    RunInv(v, run);
    InvOwner(s, t);
    ThreadsLiveInOrder(v, run, t);
  }
}
