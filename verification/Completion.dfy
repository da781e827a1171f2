// Every run can be completed: whatever the threads, the gatherer and the resolver were doing, as long as the final
// pass has not begun there is a way on in which every thread logs what it still has to log, any chosen threads
// exit, the tracker is stopped and shuts down, and the wire carries every call.
module Completion {
  import opened TrackTypes
  import opened GlobalTree
  import opened Gathering
  import opened Protocol
  import opened ProtocolSafety
  import opened ShutdownTheorems
  import opened Resolution
  import opened Progress
  import opened Passes
  import opened Departures

  // ---------------------------------------------------------------------------------------------
  // Work left to the threads

  lemma Enumerate(ts: set<ThreadId>) returns (all: seq<ThreadId>)
    ensures forall t | t in ts :: t in all
    decreases ts
  {
    all := [];
    if t :| t in ts {
      var rest := Enumerate(ts - {t});
      all := rest + [t];
    }
  }

  function At(threads: map<ThreadId, Thread>, t: ThreadId, weight: Thread -> nat): nat {
    if t in threads then weight(threads[t]) else 0
  }

  function Total(all: seq<ThreadId>, threads: map<ThreadId, Thread>, weight: Thread -> nat): nat {
    if all == [] then 0 else At(threads, all[0], weight) + Total(all[1..], threads, weight)
  }

  lemma {:induction false} TotalAtMost(all: seq<ThreadId>, a: map<ThreadId, Thread>, b: map<ThreadId, Thread>,
                                       weight: Thread -> nat)
    requires forall t: ThreadId :: At(b, t, weight) <= At(a, t, weight)
    ensures Total(all, b, weight) <= Total(all, a, weight)
  {
    if all != [] {
      TotalAtMost(all[1..], a, b, weight);
    }
  }

  lemma {:induction false} TotalLess(all: seq<ThreadId>, a: map<ThreadId, Thread>, b: map<ThreadId, Thread>,
                                     weight: Thread -> nat, one: ThreadId)
    requires one in all && At(b, one, weight) < At(a, one, weight)
    requires forall t: ThreadId :: At(b, t, weight) <= At(a, t, weight)
    ensures Total(all, b, weight) < Total(all, a, weight)
  {
    if all[0] == one {
      TotalAtMost(all[1..], a, b, weight);
    } else {
      TotalLess(all[1..], a, b, weight, one);
    }
  }

  // What a thread has still to push.
  function ToPush(th: Thread): nat {
    |th.pending|
  }

  // The steps it takes a thread to leave its lock and to send what it took.
  function ToSend(th: Thread): nat {
    (if th.lock.OwnerHolds? then 2 else 0) + if th.hand.Some? then 1 else 0
  }

  // ---------------------------------------------------------------------------------------------
  // What the steps taken here leave alone

  // Nobody calls, registers, or comes back to life.
  ghost predicate Ours(s: State, s': State) {
    SameProgram(s, s') && KeepsDead(s, s') && SameRegistered(s, s')
  }

  ghost predicate SameRegistered(s: State, s': State) {
    forall t | t in s.threads :: t in s'.threads && s'.threads[t].registered == s.threads[t].registered
  }

  lemma OursTwice(s: State, s1: State, s2: State)
    requires Ours(s, s1) && Ours(s1, s2)
    ensures Ours(s, s2)
  {
  }

  lemma OwnerOurs(s: State, a: Action)
    requires OwnerCan(s, a) && !a.Begin?
    ensures Ours(s, OwnerStep(s, a))
  {
    hide SameProgram, KeepsDead, SameRegistered, OwnerStep, OwnerCan;
    OwnerSameProgram(s, a);
    OwnerKeepsDead(s, a);
    OwnerSameRegistered(s, a);
  }

  lemma OwnerSameRegistered(s: State, a: Action)
    requires OwnerCan(s, a) && !a.Begin?
    ensures SameRegistered(s, OwnerStep(s, a))
  {
    hide Grown;
    match a
    case Push(_, _) =>
    case Release(_) =>
    case Take(_) =>
    case Send(_) =>
    case Die(_) =>
  }

  lemma MovesOurs(s: State, s': State, a: Action)
    requires Moves(s, s', a) && !a.ReceiveRegistration?
    ensures Ours(s, s')
  {
    hide SameProgram, KeepsDead, SameRegistered, Moves;
    MovesSameProgram(s, s', a);
    GathererKeepsDead(s, s', a);
    MovesSameRegistered(s, s', a);
  }

  lemma MovesSameRegistered(s: State, s': State, a: Action)
    requires Moves(s, s', a) && !a.ReceiveRegistration?
    ensures SameRegistered(s, s')
  {
    match a
    case LockState =>
    case Swap =>
    case _ => ThreadsStay(s, s', a);
  }

  lemma ResolverOurs(s: State, a: Action)
    requires ResolverCan(s, a)
    ensures Ours(s, ResolverStep(s, a))
  {
  }

  // A step of t takes work off its own shoulders.
  lemma OwnerEases(s: State, a: Action, all: seq<ThreadId>)
    requires OwnerCan(s, a) && OwnerState(s.threads[a.t]) && a.t in all && (a.Push? || a.Release? || a.Take? || a.Send?)
    ensures var s' := OwnerStep(s, a);
            if a.Push? then Total(all, s'.threads, ToPush) < Total(all, s.threads, ToPush)
            else Total(all, s'.threads, ToPush) <= Total(all, s.threads, ToPush)
                 && Total(all, s'.threads, ToSend) < Total(all, s.threads, ToSend)
  {
    var s' := OwnerStep(s, a);
    OwnerWeights(s, a);
    OwnerStepIsOwn(s, a);
    hide OwnerStep, OwnerState, OwnerCan, Total, ToPush, ToSend;
    assert forall t: ThreadId | t != a.t :: At(s'.threads, t, ToPush) == At(s.threads, t, ToPush)
                                         && At(s'.threads, t, ToSend) == At(s.threads, t, ToSend);
    if a.Push? {
      TotalLess(all, s.threads, s'.threads, ToPush, a.t);
    } else {
      TotalAtMost(all, s.threads, s'.threads, ToPush);
      TotalLess(all, s.threads, s'.threads, ToSend, a.t);
    }
  }

  lemma OwnerWeights(s: State, a: Action)
    requires OwnerCan(s, a) && OwnerState(s.threads[a.t]) && (a.Push? || a.Release? || a.Take? || a.Send?)
    ensures var th, th' := s.threads[a.t], OwnerStep(s, a).threads[a.t];
            if a.Push? then ToPush(th') < ToPush(th) else ToPush(th') == ToPush(th) && ToSend(th') < ToSend(th)
  {
    hide Grown, HasRoom;
    match a
    case Push(_, _) =>
    case Release(_) =>
    case Take(_) =>
    case Send(_) =>
  }

  // ---------------------------------------------------------------------------------------------
  // Finishing a pass

  // Steps of the gatherer until the end of the pass, when it never has to wait.
  function PassLeft(s: State): nat {
    |s.channel| +
    match s.place
    case FirstDrain => 4 * |s.states| + 2
    case AtState(i) => if i < |s.states| then 4 * (|s.states| - i) + 1 else 1
    case Draining(i) => if i < |s.states| then 4 * (|s.states| - i) else 0
    case Drained(i) => if i < |s.states| then 4 * (|s.states| - i) - 1 else 0
    case Shipping(i, _) => if i < |s.states| then 4 * (|s.states| - i) - 2 else 0
    case _ => 0
  }

  // A step within the pass that the gatherer takes, or a step of the thread that it waits for.
  lemma NextInPass(s: State) returns (a: Action)
    requires Inv(s) && InThisPass(s.place) && !GathererCan(s, EndPass)
    ensures (GathererCan(s, a) && (a.DrainOne? || a.DrainEmpty? || a.LockState? || a.Swap? || a.Ship?))
            || (OwnerCan(s, a) && (a.Release? || a.Take?))
  {
    hide Inv, ThreadInv;
    InvStructure(s);
    match s.place
    case FirstDrain => a := if s.channel != [] then DrainOne else DrainEmpty;
    case AtState(i) =>
      var t := s.states[i];
      assert t in s.states;
      InvOwner(s, t);
      LockOrWait(s, t);
      a := if s.threads[t].lock.Unlocked? then LockState else if OwnerCan(s, Release(t)) then Release(t) else Take(t);
    case Draining(i) =>
      TurnMovesOn(s);
      a := if s.channel != [] then DrainOne else DrainEmpty;
    case Drained(i) =>
      assert s.states[i] in s.states;
      a := Swap;
    case Shipping(i, _) => a := Ship;
  }

  lemma PassAdvances(s: State, s': State, a: Action)
    requires Structure(s) && InThisPass(s.place) && GathererCan(s, a) && Moves(s, s', a)
    requires a.DrainOne? || a.DrainEmpty? || a.LockState? || a.Swap? || a.Ship?
    ensures InThisPass(s'.place) && s'.final == s.final && PassLeft(s') < PassLeft(s)
  {
    hide HasRoom;
    match a
    case DrainOne =>
    case DrainEmpty => EmptyAdvances(s, s');
    case LockState =>
    case Swap =>
    case Ship =>
  }

  lemma EmptyAdvances(s: State, s': State)
    requires Structure(s) && InThisPass(s.place) && GathererCan(s, DrainEmpty) && Moves(s, s', DrainEmpty)
    ensures InThisPass(s'.place) && s'.final == s.final && PassLeft(s') < PassLeft(s)
  {
    hide HasRoom, HandOf;
    if s.place.FirstDrain? {
      assert s'.place == AtState(0) && s'.states == s.states && s'.channel == s.channel && s'.final == s.final;
    } else {
      assert s'.place == Drained(s.place.i) && s'.states == s.states && s'.channel == s.channel && s'.final == s.final;
    }
  }

  // The gatherer puts no work on the threads.
  lemma GathererEases(s: State, s': State, a: Action, all: seq<ThreadId>)
    requires Moves(s, s', a)
    ensures Total(all, s'.threads, ToPush) <= Total(all, s.threads, ToPush)
    ensures Total(all, s'.threads, ToSend) <= Total(all, s.threads, ToSend)
  {
    GathererWeights(s, s', a);
    hide Moves, ToPush, ToSend;
    TotalAtMost(all, s.threads, s'.threads, ToPush);
    TotalAtMost(all, s.threads, s'.threads, ToSend);
  }

  lemma GathererWeights(s: State, s': State, a: Action)
    requires Moves(s, s', a)
    ensures forall t: ThreadId :: At(s'.threads, t, ToPush) <= At(s.threads, t, ToPush)
                               && At(s'.threads, t, ToSend) <= At(s.threads, t, ToSend)
  {
    hide ToPush, ToSend;
    match a
    case ReceiveRegistration => OneWeight(s, s', s.registrations[0]);
    case LockState => OneWeight(s, s', s.states[s.place.i]);
    case Swap => OneWeight(s, s', s.states[s.place.i]);
    case _ => ThreadsStay(s, s', a);
  }

  lemma OneWeight(s: State, s': State, t: ThreadId)
    requires t in s.threads && t in s'.threads && s'.threads == s.threads[t := s'.threads[t]]
    requires s'.threads[t].pending == s.threads[t].pending && s'.threads[t].hand == s.threads[t].hand
    requires s'.threads[t].lock == s.threads[t].lock || !s'.threads[t].lock.OwnerHolds?
    ensures forall t: ThreadId :: At(s'.threads, t, ToPush) <= At(s.threads, t, ToPush)
                               && At(s'.threads, t, ToSend) <= At(s.threads, t, ToSend)
  {
  }

  // From anywhere in a pass the end of the pass can be reached.
  lemma {:induction false} FinishPass(v: Variant, run: seq<Action>, all: seq<ThreadId>) returns (mid: seq<Action>)
    requires IsRun(v, run) && InThisPass(Final(v, run).place)
    requires forall t | t in Final(v, run).threads :: t in all
    ensures IsRun(v, run + mid) && GathererCan(Final(v, run + mid), EndPass)
    ensures Final(v, run + mid).final == Final(v, run).final && Ours(Final(v, run), Final(v, run + mid))
    ensures forall i | 0 <= i < |mid| :: !mid[i].EndPass?
    decreases Total(all, Final(v, run).threads, ToSend), PassLeft(Final(v, run))
  {
    hide IsRun, Inv, Structure, Moves, Ours, OwnerStep, PassLeft, Total, OwnerState, ThreadInv;
    var s := Final(v, run);
    RunInv(v, run);
    InvStructure(s);
    if GathererCan(s, EndPass) {
      mid := [];
      assert run + [] == run;
      OursAtOnce(s);
    } else {
      var a := NextInPass(s);
      var longer := PassStep(v, run, a, all);
      var rest := FinishPass(v, longer, all);
      mid := [a] + rest;
      assert run + mid == longer + rest;
      OursTwice(s, Final(v, longer), Final(v, longer + rest));
    }
  }

  lemma OursAtOnce(s: State)
    ensures Ours(s, s)
  {
  }

  lemma OursKeys(s: State, s': State)
    requires Ours(s, s')
    ensures s'.threads.Keys == s.threads.Keys
  {
  }

  lemma PassStep(v: Variant, run: seq<Action>, a: Action, all: seq<ThreadId>) returns (longer: seq<Action>)
    requires IsRun(v, run) && InThisPass(Final(v, run).place)
    requires forall t | t in Final(v, run).threads :: t in all
    requires var s := Final(v, run);
             (GathererCan(s, a) && (a.DrainOne? || a.DrainEmpty? || a.LockState? || a.Swap? || a.Ship?))
             || (OwnerCan(s, a) && (a.Release? || a.Take?))
    ensures longer == run + [a] && IsRun(v, longer) && InThisPass(Final(v, longer).place)
    ensures var s, s' := Final(v, run), Final(v, longer);
            && Ours(s, s') && s'.final == s.final && s'.threads.Keys == s.threads.Keys
            && (Total(all, s'.threads, ToSend) < Total(all, s.threads, ToSend)
                || (Total(all, s'.threads, ToSend) == Total(all, s.threads, ToSend) && PassLeft(s') < PassLeft(s)))
  {
    hide IsRun, Inv, Structure, Moves, Ours, OwnerStep, PassLeft, Total, OwnerState, ThreadInv;
    var s := Final(v, run);
    RunInv(v, run);
    InvStructure(s);
    if a.Release? || a.Take? {
      InvOwner(s, a.t);
      longer := OwnerActs(v, run, a);
      OwnerEases(s, a, all);
      OwnerOurs(s, a);
      OwnerNotGatherers(s, a);
    } else {
      longer := Gathers(v, run, a);
      PassAdvances(s, Final(v, longer), a);
      GathererEases(s, Final(v, longer), a, all);
      MovesOurs(s, Final(v, longer), a);
    }
    OursKeys(s, Final(v, longer));
  }

  // ---------------------------------------------------------------------------------------------
  // Settling between passes

  ghost predicate AllSettled(s: State) {
    forall t | t in s.threads :: Settled(s.threads[t])
  }

  // A step that brings a thread that is not settled closer to it; the gatherer takes messages when the channel is
  // full.
  lemma NextToSettle(s: State) returns (a: Action)
    requires Inv(s) && s.place.Idle? && !AllSettled(s)
    ensures (OwnerCan(s, a) && (a.Push? || a.Release? || a.Take? || a.Send?)) || (GathererCan(s, a) && a.ReceiveData?)
  {
    hide Inv, ThreadInv, OwnerState, Fifo;
    var t :| t in s.threads && !Settled(s.threads[t]);
    InvOwner(s, t);
    var th := s.threads[t];
    if th.lock.OwnerHolds? {
      HolderLeaves(s, t);
      a := if OwnerCan(s, Release(t)) then Release(t) else Take(t);
    } else if th.hand.Some? {
      a := if |s.channel| < CHANNEL_BOUND then Send(t) else ReceiveData;
    } else {
      assert !Holding(s, t);
      a := Push(t, if th.shared.capacity < CAPACITY then |th.shared.items| + CAPACITY else th.shared.capacity);
    }
  }

  lemma {:induction false} Settle(v: Variant, run: seq<Action>, all: seq<ThreadId>) returns (more: seq<Action>)
    requires IsRun(v, run) && Final(v, run).place.Idle? && forall t | t in Final(v, run).threads :: t in all
    ensures IsRun(v, run + more)
    ensures var s, s' := Final(v, run), Final(v, run + more); s'.place.Idle? && AllSettled(s') && Ours(s, s')
    decreases Total(all, Final(v, run).threads, ToPush), Total(all, Final(v, run).threads, ToSend),
              |Final(v, run).channel|
  {
    hide IsRun, Inv, Moves, Ours, OwnerStep, Total, AllSettled;
    var s := Final(v, run);
    RunInv(v, run);
    if AllSettled(s) {
      more := [];
      assert run + [] == run;
      OursAtOnce(s);
    } else {
      var a := NextToSettle(s);
      var longer := SettleStep(v, run, a, all);
      var rest := Settle(v, longer, all);
      more := [a] + rest;
      assert run + more == longer + rest;
      OursTwice(s, Final(v, longer), Final(v, longer + rest));
    }
  }

  lemma SettleStep(v: Variant, run: seq<Action>, a: Action, all: seq<ThreadId>) returns (longer: seq<Action>)
    requires IsRun(v, run) && Final(v, run).place.Idle? && forall t | t in Final(v, run).threads :: t in all
    requires var s := Final(v, run);
             (OwnerCan(s, a) && (a.Push? || a.Release? || a.Take? || a.Send?)) || (GathererCan(s, a) && a.ReceiveData?)
    ensures longer == run + [a] && IsRun(v, longer) && Final(v, longer).place.Idle?
    ensures Ours(Final(v, run), Final(v, longer)) && Final(v, longer).threads.Keys == Final(v, run).threads.Keys
    ensures var s, s' := Final(v, run), Final(v, longer);
            var p, p' := Total(all, s.threads, ToPush), Total(all, s'.threads, ToPush);
            var q, q' := Total(all, s.threads, ToSend), Total(all, s'.threads, ToSend);
            p' < p || (p' == p && (q' < q || (q' == q && |s'.channel| < |s.channel|)))
  {
    hide IsRun, Inv, Ours, OwnerStep, Total, OwnerState, ThreadInv;
    var s := Final(v, run);
    RunInv(v, run);
    if a.ReceiveData? {
      longer := Gathers(v, run, a);
      GathererEases(s, Final(v, longer), a, all);
      MovesOurs(s, Final(v, longer), a);
    } else {
      InvOwner(s, a.t);
      longer := OwnerActs(v, run, a);
      OwnerEases(s, a, all);
      OwnerOurs(s, a);
      OwnerNotGatherers(s, a);
    }
    OursKeys(s, Final(v, longer));
  }

  // ---------------------------------------------------------------------------------------------
  // Exits

  // Threads that have registered and are not dead may exit when they are settled.
  lemma {:induction false} Leave(v: Variant, run: seq<Action>, leaving: set<ThreadId>) returns (more: seq<Action>)
    requires IsRun(v, run) && Final(v, run).place.Idle? && AllSettled(Final(v, run))
    requires forall t | t in leaving :: t in Final(v, run).threads && Final(v, run).threads[t].registered
    ensures IsRun(v, run + more)
    ensures var s, s' := Final(v, run), Final(v, run + more);
            s'.place.Idle? && AllSettled(s') && Ours(s, s') && AllDead(s', leaving)
    decreases leaving
  {
    hide IsRun, Inv, Ours, OwnerStep, OwnerCan;
    var s := Final(v, run);
    more := [];
    assert run + [] == run;
    OursAtOnce(s);
    if t :| t in leaving {
      var first := Leave(v, run, leaving - {t});
      var s1 := Final(v, run + first);
      OursFacts(s, s1);
      more := first;
      if !s1.threads[t].dead {
        var longer := Exit(v, run + first, t);
        assert longer == run + (first + [Die(t)]);
        more := first + [Die(t)];
        OursTwice(s, s1, Final(v, longer));
        OursFacts(s1, Final(v, longer));
      }
    }
  }

  lemma OursFacts(s: State, s': State)
    requires Ours(s, s')
    ensures s'.threads.Keys == s.threads.Keys && KeepsDead(s, s')
    ensures forall t | t in s.threads :: s'.threads[t].registered == s.threads[t].registered
                                      && s'.threads[t].calls == s.threads[t].calls
  {
  }

  lemma Exit(v: Variant, run: seq<Action>, t: ThreadId) returns (longer: seq<Action>)
    requires IsRun(v, run) && Final(v, run).place.Idle? && AllSettled(Final(v, run)) && t in Final(v, run).threads
    requires Final(v, run).threads[t].registered && !Final(v, run).threads[t].dead
    ensures longer == run + [Die(t)] && IsRun(v, longer)
    ensures var s, s' := Final(v, run), Final(v, longer);
            && s'.place.Idle? && AllSettled(s') && Ours(s, s') && t in s'.threads && s'.threads[t].dead
  {
    hide IsRun, Inv, Ours, ThreadInv, OwnerState, Fifo;
    var s := Final(v, run);
    RunInv(v, run);
    InvOwner(s, t);
    assert Settled(s.threads[t]) && !Holding(s, t);
    longer := OwnerActs(v, run, Die(t));
    OwnerOurs(s, Die(t));
  }

  // ---------------------------------------------------------------------------------------------
  // The shutdown drain

  // After the final pass: what a step of the gatherer or the resolver leaves alone.
  ghost predicate Drains(s: State, s': State) {
    && s'.threads == s.threads && s'.states == s.states
    && s'.tracking == s.tracking && s'.stopRequested == s.stopRequested
  }

  lemma NextToDrain(s: State) returns (a: Action)
    requires Closedown(s) && s.place.Resolving?
    ensures GathererCan(s, a) || ResolverCan(s, a)
  {
    DrainMovesOn(s);
    if x: Action :| GathererCan(s, x) {
      a := x;
    } else {
      a :| ResolverCan(s, a);
    }
  }

  lemma GathererDrainsOnly(s: State, s': State, a: Action)
    requires s.place.Resolving? && GathererCan(s, a) && Moves(s, s', a)
    ensures Drains(s, s')
  {
    match a
    case LastResolved(_) =>
    case Finish =>
    case _ =>
  }

  lemma DrainStep(v: Variant, run: seq<Action>, a: Action) returns (longer: seq<Action>)
    requires IsRun(v, run) && Final(v, run).place.Resolving?
    requires GathererCan(Final(v, run), a) || ResolverCan(Final(v, run), a)
    ensures longer == run + [a] && IsRun(v, longer)
    ensures var s, s' := Final(v, run), Final(v, longer);
            Drains(s, s') && Remaining(s') < Remaining(s) && (s'.place.Resolving? || s'.place.Done?)
  {
    hide IsRun, Moves, Remaining;
    var s := Final(v, run);
    RunSnoc(v, run, a);
    longer := run + [a];
    DrainEnds(v, s, a);
    if GathererCan(s, a) {
      GathererMoves(v, s, a);
      GathererDrainsOnly(s, Final(v, longer), a);
    } else {
      ResolverDrainsOnly(v, s, a);
    }
  }

  lemma ResolverDrainsOnly(v: Variant, s: State, a: Action)
    requires ResolverCan(s, a)
    ensures Can(s, a) && Drains(s, Do(v, s, a))
  {
    hide GathererStep, OwnerStep;
  }

  lemma {:induction false} FinishDrain(v: Variant, run: seq<Action>) returns (more: seq<Action>)
    requires IsRun(v, run) && (Final(v, run).place.Resolving? || Final(v, run).place.Done?)
    ensures IsRun(v, run + more) && Final(v, run + more).place.Done? && Drains(Final(v, run), Final(v, run + more))
    decreases Remaining(Final(v, run))
  {
    hide IsRun, Closedown, Remaining;
    if Final(v, run).place.Done? {
      more := [];
      assert run + [] == run;
    } else {
      RunPipeline(v, run);
      var a := NextToDrain(Final(v, run));
      var longer := DrainStep(v, run, a);
      var rest := FinishDrain(v, longer);
      more := [a] + rest;
      assert run + more == longer + rest;
    }
  }

  // ---------------------------------------------------------------------------------------------
  // A whole completion

  ghost predicate BeforeFinalPass(s: State) {
    s.place.Idle? || (InThisPass(s.place) && !s.final)
  }

  // From anywhere before the final pass to a state between passes with everybody settled and some threads gone.
  lemma WindDown(v: Variant, run: seq<Action>, leaving: set<ThreadId>) returns (before: seq<Action>)
    requires IsRun(v, run) && BeforeFinalPass(Final(v, run))
    requires forall t | t in leaving :: t in Final(v, run).threads && Final(v, run).threads[t].registered
    ensures run <= before && IsRun(v, before)
    ensures var s, s' := Final(v, run), Final(v, before);
            s'.place.Idle? && AllSettled(s') && Ours(s, s') && AllDead(s', leaving)
  {
    hide IsRun, Ours, Moves, AllSettled, AllDead;
    var s := Final(v, run);
    var all := Enumerate(s.threads.Keys);
    var idle := run;
    OursAtOnce(s);
    if !s.place.Idle? {
      var mid := FinishPass(v, run, all);
      idle := Gathers(v, run + mid, EndPass);
      EndIsIdle(Final(v, run + mid), Final(v, idle));
      OursTwice(s, Final(v, run + mid), Final(v, idle));
    }
    var s1 := Final(v, idle);
    OursFacts(s, s1);
    var more := Settle(v, idle, all);
    var s2 := Final(v, idle + more);
    OursTwice(s, s1, s2);
    OursFacts(s, s2);
    var exits := Leave(v, idle + more, leaving);
    before := idle + more + exits;
    OursTwice(s, s2, Final(v, before));
  }

  lemma EndIsIdle(s: State, s': State)
    requires Moves(s, s', EndPass)
    ensures s'.place == (if s.final then Resolving else Idle) && Ours(s, s')
  {
    hide Ours;
    MovesOurs(s, s', EndPass);
  }

  // The program stops the tracker.
  lemma StopNow(v: Variant, run: seq<Action>) returns (longer: seq<Action>)
    requires IsRun(v, run)
    ensures longer == run + [Stop] && IsRun(v, longer)
    ensures Final(v, longer) == Final(v, run).(tracking := false, stopRequested := true)
  {
    RunSnoc(v, run, Stop);
    longer := run + [Stop];
  }

  // The final pass and the drain.
  lemma ShutDown(v: Variant, before: seq<Action>) returns (mid: seq<Action>, drain: seq<Action>)
    requires IsRun(v, before) && Final(v, before).place.Idle? && Final(v, before).stopRequested
    ensures forall i | 0 <= i < |mid| :: !mid[i].EndPass?
    ensures var start := StartPass(true, CAPACITY);
            && IsRun(v, before + [start] + mid + [EndPass]) && IsRun(v, before + [start] + mid + [EndPass] + drain)
            && var s := Final(v, before + [start] + mid + [EndPass] + drain);
               && s.place.Done? && Ours(Final(v, before), s)
               && Drains(Final(v, before + [start] + mid + [EndPass]), s)
  {
    hide IsRun, Ours, Moves;
    var s := Final(v, before);
    var all := Enumerate(s.threads.Keys);
    var started := Gathers(v, before, StartPass(true, CAPACITY));
    StartIs(s, Final(v, started));
    OursFacts(s, Final(v, started));
    mid := FinishPass(v, started, all);
    var ended := Gathers(v, started + mid, EndPass);
    EndIsIdle(Final(v, started + mid), Final(v, ended));
    drain := FinishDrain(v, ended);
    OursTwice(s, Final(v, started), Final(v, started + mid));
    OursTwice(s, Final(v, started + mid), Final(v, ended));
    DrainsOurs(s, Final(v, ended), Final(v, ended + drain));
  }

  lemma StartIs(s: State, s': State)
    requires Moves(s, s', StartPass(true, CAPACITY))
    ensures s'.place.FirstDrain? && s'.final && Ours(s, s')
  {
    hide Ours;
    MovesOurs(s, s', StartPass(true, CAPACITY));
  }

  lemma DrainsOurs(s: State, s1: State, s2: State)
    requires Ours(s, s1) && Drains(s1, s2)
    ensures Ours(s, s2)
  {
  }

  // The threads made no other calls in the meantime, and every call of theirs is on the wire; those that left are
  // destroyed.
  ghost predicate Completed(s: State, s': State, leaving: set<ThreadId>) {
    && s'.place.Done? && s'.threads.Keys == s.threads.Keys
    && (forall t | t in s.threads ::
          && s'.threads[t].calls == s.threads[t].calls && s'.threads[t].pending == []
          && Sent(s'.events, t) == s'.threads[t].pushed)
    && (forall t | t in leaving :: DestroyThread(t) in s'.g.wire && t !in s'.g.tables)
  }

  // Any run whose final pass has not begun can be completed.
  lemma {:induction false} CanComplete(v: Variant, run: seq<Action>, leaving: set<ThreadId>)
    returns (before: seq<Action>, after: seq<Action>)
    requires IsRun(v, run) && BeforeFinalPass(Final(v, run))
    requires forall t | t in leaving :: t in Final(v, run).threads && Final(v, run).threads[t].registered
    ensures run <= before && IsRun(v, before + [StartPass(true, CAPACITY)] + after)
    ensures AllSettled(Final(v, before))
    ensures Completed(Final(v, run), Final(v, before + [StartPass(true, CAPACITY)] + after), leaving)
  {
    hide IsRun, Ours, AllDead, Drains;
    var idle := WindDown(v, run, leaving);
    before := StopNow(v, idle);
    StillSettled(Final(v, idle), Final(v, before), leaving);
    var mid, drain := ShutDown(v, before);
    after := mid + [EndPass] + drain;
    var start := StartPass(true, CAPACITY);
    var ended := before + [start] + mid + [EndPass];
    assert before + [start] + after == ended + drain;
    var s, s1, s' := Final(v, run), Final(v, idle), Final(v, ended + drain);
    OursFacts(s, s1);
    OursFacts(Final(v, before), s');
    forall t | t in s.threads
      ensures s'.threads[t].calls == s.threads[t].calls && s'.threads[t].pending == []
      ensures Sent(s'.events, t) == s'.threads[t].pushed
    {
      EverythingDelivered(v, before, CAPACITY, after, t);
    }
    forall t | t in leaving
      ensures DestroyThread(t) in s'.g.wire && t !in s'.g.tables
    {
      LeftIsGone(v, before, mid, drain, leaving, t);
    }
  }

  lemma StillSettled(s: State, s': State, leaving: set<ThreadId>)
    requires s' == s.(tracking := false, stopRequested := true) && AllSettled(s) && AllDead(s, leaving)
    ensures AllSettled(s') && AllDead(s', leaving)
  {
  }

  lemma LeftIsGone(v: Variant, before: seq<Action>, mid: seq<Action>, drain: seq<Action>, leaving: set<ThreadId>,
                   t: ThreadId)
    requires var start := StartPass(true, CAPACITY);
             && IsRun(v, before + [start] + mid + [EndPass]) && IsRun(v, before + [start] + mid + [EndPass] + drain)
             && Drains(Final(v, before + [start] + mid + [EndPass]),
                       Final(v, before + [start] + mid + [EndPass] + drain))
    requires AllDead(Final(v, before), leaving) && t in leaving && forall i | 0 <= i < |mid| :: !mid[i].EndPass?
    ensures var s := Final(v, before + [StartPass(true, CAPACITY)] + mid + [EndPass] + drain);
            DestroyThread(t) in s.g.wire && t !in s.g.tables
  {
    hide IsRun;
    PassRemovesDead(v, before, StartPass(true, CAPACITY), mid, leaving);
    GoneFromTheList(v, before + [StartPass(true, CAPACITY)] + mid + [EndPass] + drain, t);
  }

  // The end of the tracker can be reached from every reachable state.
  lemma {:induction false} CanFinish(v: Variant, run: seq<Action>) returns (more: seq<Action>)
    requires IsRun(v, run)
    ensures IsRun(v, run + more) && Final(v, run + more).place.Done?
  {
    hide IsRun, Ours, Moves, Drains, Completed;
    var s := Final(v, run);
    if s.place.Resolving? || s.place.Done? {
      more := FinishDrain(v, run);
    } else if BeforeFinalPass(s) {
      var before, after := CanComplete(v, run, {});
      more := before[|run|..] + [StartPass(true, CAPACITY)] + after;
      assert run + more == before + [StartPass(true, CAPACITY)] + after;
      DoneThen(s, Final(v, run + more));
    } else {
      var all := Enumerate(s.threads.Keys);
      var mid := FinishPass(v, run, all);
      var ended := Gathers(v, run + mid, EndPass);
      EndIsIdle(Final(v, run + mid), Final(v, ended));
      var drain := FinishDrain(v, ended);
      more := mid + [EndPass] + drain;
      assert run + more == ended + drain;
    }
  }

  lemma DoneThen(s: State, s': State)
    requires Completed(s, s', {})
    ensures s'.place.Done?
  {
  }
}
