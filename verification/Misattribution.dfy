// A run of the tracker, with two threads, in which the tree as written attributes an allocation to a stack that
// is not the one recorded.
module Misattribution {
  import opened Frames
  import opened TrackTypes
  import opened GlobalTree
  import opened Gathering
  import opened StreamTheorems
  import opened TreeIdentity
  import opened TraceTrees
  import opened Writer
  import opened Protocol
  import opened ProtocolSafety
  import opened TrackerTheorems
  import opened ShutdownTheorems

  // A thread outside its lock, with nothing in its hand and everything it pushed still in its buffer.
  ghost predicate Ready(th: Thread) {
    && th.registered && !th.dead && th.lock.Unlocked? && th.hand.None? && th.pushed == th.shared.items
    && (th.shared.items == [] ==> th.shared.capacity == 0)
    && (th.shared.items != [] ==> th.shared.capacity == CAPACITY)
  }

  // Between passes, with nothing under way, t may act.
  ghost predicate Quiet(s: State) {
    s.place.Idle? && s.channel == [] && s.registrations == [] && s.tracking
  }

  // s' differs from s in the record of t only.
  ghost predicate OnlyThread(s: State, s': State, t: ThreadId) {
    t in s.threads && t in s'.threads && s' == s.(threads := s.threads[t := s'.threads[t]])
  }

  // ---------------------------------------------------------------------------------------------
  // A thread registers

  lemma Registers(v: Variant, run: seq<Action>, t: ThreadId) returns (longer: seq<Action>)
    requires IsRun(v, run) && Quiet(Final(v, run)) && t !in Final(v, run).threads
    ensures IsRun(v, longer)
    ensures var s, s' := Final(v, run), Final(v, longer);
            && Quiet(s') && s'.states == s.states + [t] && s'.events == s.events + [Registered(t)]
            && s'.threads == s.threads[t := NEW_THREAD.(registered := true)]
  {
    hide IsRun, Final, OwnerCan, OwnerStep, GathererStep;
    RunSnoc(v, run, Spawn(t));
    longer := Gathers(v, run + [Spawn(t)], ReceiveRegistration);
  }

  // ---------------------------------------------------------------------------------------------
  // A thread makes a call

  lemma PushOneMore(v: Variant, run: seq<Action>, t: ThreadId) returns (longer: seq<Action>)
    requires IsRun(v, run) && t in Final(v, run).threads && Ready(Final(v, run).threads[t])
    requires Final(v, run).threads[t].pending != [] && |Final(v, run).threads[t].pushed| + 1 < CAPACITY
    ensures IsRun(v, longer) && OnlyThread(Final(v, run), Final(v, longer), t)
    ensures var th, th' := Final(v, run).threads[t], Final(v, longer).threads[t];
            && Ready(th') && th'.pending == th.pending[1..] && th'.calls == th.calls
            && th'.pushed == th.pushed + [Timed(th.pending[0], Final(v, run).now)]
  {
    PushReleases(Final(v, run), t);
    longer := OwnerActs(v, run, Push(t, CAPACITY));
    longer := OwnerActs(v, longer, Release(t));
  }

  lemma PushReleases(s: State, t: ThreadId)
    requires t in s.threads && Ready(s.threads[t]) && s.threads[t].pending != [] && |s.threads[t].pushed| + 1 < CAPACITY
    ensures OwnerCan(s, Push(t, CAPACITY)) && OwnerCan(OwnerStep(s, Push(t, CAPACITY)), Release(t))
    ensures var s' := OwnerStep(OwnerStep(s, Push(t, CAPACITY)), Release(t));
            var x := Timed(s.threads[t].pending[0], s.now);
            s' == Put(s, t, s.threads[t].(pending := s.threads[t].pending[1..], pushed := s.threads[t].pushed + [x],
                                          shared := Buffer(s.threads[t].shared.items + [x], CAPACITY)))
  {
  }

  lemma {:induction false} PushThemAll(v: Variant, run: seq<Action>, t: ThreadId) returns (longer: seq<Action>)
    requires IsRun(v, run) && t in Final(v, run).threads && Ready(Final(v, run).threads[t])
    requires var th := Final(v, run).threads[t]; |th.pushed| + |th.pending| < CAPACITY
    ensures IsRun(v, longer) && OnlyThread(Final(v, run), Final(v, longer), t)
    ensures var th, th' := Final(v, run).threads[t], Final(v, longer).threads[t];
            && Ready(th') && th'.pending == [] && th'.calls == th.calls
            && Bare(th'.pushed) == Bare(th.pushed) + th.pending
    decreases |Final(v, run).threads[t].pending|
  {
    hide IsRun, Final;
    var th := Final(v, run).threads[t];
    if th.pending == [] {
      longer := run;
      assert Bare(th.pushed) + th.pending == Bare(th.pushed);
    } else {
      var next := PushOneMore(v, run, t);
      longer := PushThemAll(v, next, t);
      OnlyThreadTwice(Final(v, run), Final(v, next), Final(v, longer), t);
      PushedNext(th.pushed, th.pending, Final(v, run).now);
    }
  }

  lemma OnlyThreadTwice(s: State, s1: State, s2: State, t: ThreadId)
    requires OnlyThread(s, s1, t) && OnlyThread(s1, s2, t)
    ensures OnlyThread(s, s2, t)
  {
  }

  lemma PushedNext(pushed: seq<Timed>, pending: seq<Instr>, now: Time)
    requires pending != []
    ensures Bare(pushed + [Timed(pending[0], now)]) + pending[1..] == Bare(pushed) + pending
  {
  }

  lemma MakesCall(v: Variant, run: seq<Action>, t: ThreadId, c: Call) returns (longer: seq<Action>)
    requires IsRun(v, run) && Quiet(Final(v, run)) && t in Final(v, run).threads
    requires Final(v, run).threads[t] == NEW_THREAD.(registered := true) && |EncodeCall([], c).instrs| < CAPACITY
    ensures IsRun(v, longer) && OnlyThread(Final(v, run), Final(v, longer), t)
    ensures var th := Final(v, longer).threads[t];
            && Ready(th) && th.pending == [] && th.calls == [c] && Bare(th.pushed) == EncodeCall([], c).instrs
  {
    hide IsRun, Final, EncodeCall;
    longer := OwnerActs(v, run, Begin(t, c));
    var begun := Final(v, longer).threads[t];
    assert begun.calls == [c] && Bare(begun.pushed) == [];
    longer := PushThemAll(v, longer, t);
    assert [] + EncodeCall([], c).instrs == EncodeCall([], c).instrs;
  }

  // ---------------------------------------------------------------------------------------------
  // A pass

  lemma PassOpens(v: Variant, run: seq<Action>) returns (longer: seq<Action>)
    requires IsRun(v, run) && Quiet(Final(v, run))
    ensures IsRun(v, longer)
    ensures var s, s' := Final(v, run), Final(v, longer);
            && s'.place == AtState(0) && s'.threads == s.threads && s'.states == s.states && s'.channel == []
            && s'.events == s.events && s'.local.items == []
  {
    longer := Gathers(v, run, StartPass(false, CAPACITY));
    longer := Gathers(v, longer, DrainEmpty);
  }

  // The turn of a thread that is ready: all it pushed is delivered.
  lemma ThreadsTurn(v: Variant, run: seq<Action>, i: nat) returns (longer: seq<Action>)
    requires IsRun(v, run)
    requires var s := Final(v, run);
             && s.place == AtState(i) && i < |s.states| && s.states[i] in s.threads && s.channel == []
             && Ready(s.threads[s.states[i]]) && s.local.items == []
    ensures IsRun(v, longer)
    ensures var s, s' := Final(v, run), Final(v, longer);
            var t := s.states[i];
            && s'.place == AtState(i + 1) && s'.states == s.states && s'.channel == [] && s'.local.items == []
            && t in s'.threads && s'.threads == s.threads[t := s'.threads[t]]
            && s'.threads[t] == s.threads[t].(shared := s'.threads[t].shared) && s'.threads[t].shared.items == []
            && s'.events == s.events + [Delivered(t, s.threads[t].pushed)]
  {
    longer := TurnBegins(v, run, i);
    longer := TurnEnds(v, longer, i);
  }

  lemma TurnBegins(v: Variant, run: seq<Action>, i: nat) returns (longer: seq<Action>)
    requires IsRun(v, run)
    requires var s := Final(v, run);
             && s.place == AtState(i) && i < |s.states| && s.states[i] in s.threads && s.channel == []
             && Ready(s.threads[s.states[i]]) && s.local.items == []
    ensures IsRun(v, longer)
    ensures var s, s' := Final(v, run), Final(v, longer);
            var t := s.states[i];
            && s'.place == Drained(i) && s'.states == s.states && s'.channel == [] && s'.local == s.local
            && s'.threads == s.threads[t := s.threads[t].(lock := GathererHolds)] && s'.events == s.events
  {
    longer := Gathers(v, run, LockState);
    longer := Gathers(v, longer, DrainEmpty);
  }

  lemma TurnEnds(v: Variant, run: seq<Action>, i: nat) returns (longer: seq<Action>)
    requires IsRun(v, run)
    requires var s := Final(v, run);
             && s.place == Drained(i) && i < |s.states| && s.states[i] in s.threads && s.channel == []
             && !s.threads[s.states[i]].dead && s.local.items == []
    ensures IsRun(v, longer)
    ensures var s, s' := Final(v, run), Final(v, longer);
            var t := s.states[i];
            && s'.place == AtState(i + 1) && s'.states == s.states && s'.channel == [] && s'.local.items == []
            && s'.threads == s.threads[t := s.threads[t].(lock := Unlocked, shared := s.local)]
            && s'.events == s.events + [Delivered(t, s.threads[t].shared.items)]
  {
    hide IsRun, Final, Ready;
    longer := Gathers(v, run, Swap);
    longer := Gathers(v, longer, Ship);
  }

  // ---------------------------------------------------------------------------------------------
  // Two threads

  // Thread 1 allocates in function 20, called from 10; thread 2 allocates in 20 directly. Traces list the
  // innermost frame first.
  const DEEP: Call := Alloc(7, 8, [20, 10])
  const SHALLOW: Call := Alloc(9, 8, [20])

  lemma DeepEncodes()
    ensures EncodeCall([], DEEP) ==
            Encoded([Edge(10, 0), Edge(20, 1)], [Stack(10, 0, 1), Stack(20, 1, 2), Allocate(7, 8, 2)])
  {
    hide Normal, Walk, Announce, AsU32;
    NormalOfTwo(10, 20);
    WalkTwo(10, 20);
    AnnounceTwo(10, 20);
    SmallAsU32(2);
  }

  lemma NormalOfTwo(outer: Ip, inner: Ip)
    requires outer != NULL_IP && inner != NULL_IP
    ensures Normal([inner, outer]) == [outer] + [inner]
  {
    assert [inner, outer][..1] == [inner];
    assert Normal([inner, outer]) == [outer] + Normal([inner]);
    assert Normal([inner]) == [inner] + Normal([]);
  }

  lemma AnnounceTwo(outer: Ip, inner: Ip)
    ensures Announce([Edge(outer, 0), Edge(inner, 1)], 0) == [Stack(outer, 0, 1), Stack(inner, 1, 2)]
  {
    AnnounceStep([], [Edge(outer, 0)], 0);
    AnnounceStep([Edge(outer, 0)], [Edge(outer, 0), Edge(inner, 1)], 0);
    assert [Edge(outer, 0), Edge(inner, 1)] == [Edge(outer, 0)] + [Edge(inner, 1)];
  }

  lemma WalkTwo(outer: Ip, inner: Ip)
    ensures Walk([], 0, [outer] + [inner]) == Interned([Edge(outer, 0), Edge(inner, 1)], 2)
  {
    var one := [Edge(outer, 0)];
    WalkNew([], 0, outer, [inner]);
    WalkNew(one, 1, inner, []);
    assert [] + one == one && one + [Edge(inner, 1)] == [Edge(outer, 0), Edge(inner, 1)];
    assert [inner] + [] == [inner];
  }

  lemma {:induction false} WalkNew(log: Log, cur: nat, ip: Ip, rest: seq<Ip>)
    requires Edge(ip, cur) !in log
    ensures Walk(log, cur, [ip] + rest) == Walk(log + [Edge(ip, cur)], |log| + 1, rest)
  {
    assert ([ip] + rest)[1..] == rest;
  }

  lemma ShallowEncodes()
    ensures EncodeCall([], SHALLOW) == Encoded([Edge(20, 0)], [Stack(20, 0, 1), Allocate(9, 8, 1)])
    ensures Normal(SHALLOW.trace) == [20]
  {
    assert Normal([20]) == [20] + Normal([]);
    assert [20][1..] == [];
    assert Descend([], 0, 20) == Interned([Edge(20, 0)], 1);
    AnnounceStep([], [Edge(20, 0)], 0);
    SmallAsU32(1);
  }

  // Thread t registers and makes one call, which stays in its buffer.
  lemma RegistersAndCalls(v: Variant, run: seq<Action>, t: ThreadId, c: Call) returns (longer: seq<Action>)
    requires IsRun(v, run) && Quiet(Final(v, run)) && t !in Final(v, run).threads
    requires |EncodeCall([], c).instrs| < CAPACITY
    ensures IsRun(v, longer) && Quiet(Final(v, longer))
    ensures var s, s' := Final(v, run), Final(v, longer);
            && s'.states == s.states + [t] && s'.events == s.events + [Registered(t)]
            && t in s'.threads && s'.threads == s.threads[t := s'.threads[t]] && Called(s'.threads[t], c)
  {
    hide IsRun, Final, EncodeCall;
    var registered := Registers(v, run, t);
    longer := MakesCall(v, registered, t, c);
  }

  ghost predicate Called(th: Thread, c: Call) {
    && Ready(th) && th.pending == [] && th.calls == [c] && Bare(th.pushed) == EncodeCall([], c).instrs
  }

  lemma {:induction false} TwoCalls(v: Variant) returns (run: seq<Action>)
    ensures IsRun(v, run) && Quiet(Final(v, run))
    ensures var s := Final(v, run);
            && s.states == [1, 2] && s.threads.Keys == {1, 2} && s.events == [Registered(1), Registered(2)]
            && Called(s.threads[1], DEEP) && Called(s.threads[2], SHALLOW)
  {
    DeepEncodes();
    ShallowEncodes();
    assert IsRun(v, []) && Final(v, []) == INITIAL;
    run := RegistersAndCalls(v, [], 1, DEEP);
    run := RegistersAndCalls(v, run, 2, SHALLOW);
  }

  // The calls of both threads were delivered, those of thread 1 first.
  ghost predicate Delivers(s: State, first: seq<Timed>, second: seq<Timed>) {
    && Bare(first) == EncodeCall([], DEEP).instrs && Bare(second) == EncodeCall([], SHALLOW).instrs
    && s.events == [Registered(1), Registered(2), Delivered(1, first), Delivered(2, second)]
    && 2 in s.threads && s.threads[2].calls == [SHALLOW] && s.threads[2].pending == []
    && s.threads[2].pushed == second
  }

  lemma TwoTurns(v: Variant) returns (run: seq<Action>, first: seq<Timed>, second: seq<Timed>)
    ensures IsRun(v, run) && Delivers(Final(v, run), first, second)
  {
    hide EncodeCall, NewEvents, IsRun, Final;
    var calls := TwoCalls(v);
    first, second := Final(v, calls).threads[1].pushed, Final(v, calls).threads[2].pushed;
    var inPass := PassOpens(v, calls);
    var one := ThreadsTurn(v, inPass, 0);
    run := ThreadsTurn(v, one, 1);
    FourEvents(first, second);
  }

  lemma FourEvents(first: seq<Timed>, second: seq<Timed>)
    ensures [Registered(1), Registered(2)] + [Delivered(1, first)] + [Delivered(2, second)]
            == [Registered(1), Registered(2), Delivered(1, first), Delivered(2, second)]
  {
  }

  // ---------------------------------------------------------------------------------------------
  // What the receiver reads

  lemma {:induction false} PushesSnoc(events: seq<Event>, e: Event)
    ensures Pushes(events + [e]) == Pushes(events) + if e.Delivered? then LogOf(Bare(e.buffer)) else []
  {
    assert (events + [e])[..|events|] == events;
  }

  lemma CallLogs(c: Call)
    ensures LogOf(EncodeCall([], c).instrs) == EncodeCall([], c).log == EncodeAll([c]).log
  {
    EncodeCallLogs([], [], c);
    assert [] + EncodeCall([], c).instrs == EncodeCall([], c).instrs;
    EncodeSnoc([], c);
    assert [] + [c] == [c];
  }

  lemma PushesNothing()
    ensures Pushes([]) == []
  {
  }

  lemma {:induction false} PushesOfFour(first: seq<Timed>, second: seq<Timed>)
    requires Bare(first) == EncodeCall([], DEEP).instrs && Bare(second) == EncodeCall([], SHALLOW).instrs
    ensures Pushes([Registered(1), Registered(2), Delivered(1, first), Delivered(2, second)])
            == [Edge(10, 0), Edge(20, 1), Edge(20, 0)]
  {
    hide EncodeCall, EncodeAll, LogOf, Bare, Pushes;
    DeepEncodes();
    ShallowEncodes();
    CallLogs(DEEP);
    CallLogs(SHALLOW);
    PushesNothing();
    var a, b, c, d := Registered(1), Registered(2), Delivered(1, first), Delivered(2, second);
    PushesSnoc([], a);
    PushesSnoc([] + [a], b);
    PushesSnoc([] + [a] + [b], c);
    PushesSnoc([] + [a] + [b] + [c], d);
    assert [] + [a] + [b] + [c] + [d] == [a, b, c, d];
  }

  lemma Misread(s: State, first: seq<Timed>, second: seq<Timed>)
    requires Inv(s) && Mirrors(AsWritten, s) && Delivers(s, first, second)
    ensures var wire := Meaning(s.g.log, Bare(WireOf(s.g.wire, 2)));
            |wire| == 1 && wire[0].path != Normal(SHALLOW.trace)
  {
    ShallowEncodes();
    PushesOfFour(first, second);
    DeliversShallow(s, first, second);
    MisreadEvents(s.events);
  }

  // What the receiver decodes for thread 2 was, before translation, its one call.
  lemma DeliversShallow(s: State, first: seq<Timed>, second: seq<Timed>)
    requires Inv(s) && Delivers(s, first, second)
    ensures Meaning(Local(s.events, 2), Bare(Sent(s.events, 2))) == OpsOfCall(SHALLOW)
  {
    assert ThreadInv(s, 2);
    ShallowEncodes();
    CallLogs(SHALLOW);
    SentIsSecond(first, second);
    DeliveredOps(s, 2);
    OpsOfOne(SHALLOW);
  }

  lemma {:induction false} MisreadEvents(events: seq<Event>)
    requires Orderly(events) && Pushes(events) == [Edge(10, 0), Edge(20, 1), Edge(20, 0)]
    requires Meaning(Local(events, 2), Bare(Sent(events, 2))) == OpsOfCall(SHALLOW) && Normal(SHALLOW.trace) == [20]
    ensures var g := Gather(AsWritten, events);
            var wire := Meaning(g.log, Bare(WireOf(g.wire, 2)));
            |wire| == 1 && wire[0].path != [20]
  {
    RetainedBounded(AsWritten, events);
    FirstIs(Pushes(events), 20, 2);
    AsWrittenExactly(events, 2, 0);
  }

  lemma OpsOfOne(c: Call)
    ensures OpsOf([c]) == OpsOfCall(c)
  {
    assert [c][..0] == [];
  }

  lemma {:induction false} SentIsSecond(first: seq<Timed>, second: seq<Timed>)
    ensures Sent([Registered(1), Registered(2), Delivered(1, first), Delivered(2, second)], 2) == second
  {
    var a, b, c, d := Registered(1), Registered(2), Delivered(1, first), Delivered(2, second);
    SentSnoc([], a, 2);
    SentSnoc([] + [a], b, 2);
    SentSnoc([] + [a] + [b], c, 2);
    SentSnoc([] + [a] + [b] + [c], d, 2);
    assert [] + [a] + [b] + [c] + [d] == [a, b, c, d];
  }

  // As written, the receiver reads another stack than 20 for the one call of thread 2.
  lemma AsWrittenMisattributes() returns (run: seq<Action>)
    ensures IsRun(AsWritten, run)
    ensures var s := Final(AsWritten, run);
            && 2 in s.threads && s.threads[2].calls == [SHALLOW] && s.threads[2].pending == []
            && var wire := Meaning(s.g.log, Bare(WireOf(s.g.wire, 2)));
               |wire| == 1 && wire[0].path != Normal(SHALLOW.trace)
  {
    var first, second;
    run, first, second := TwoTurns(AsWritten);
    RunInv(AsWritten, run);
    RunMirrors(AsWritten, run);
    Misread(Final(AsWritten, run), first, second);
  }
}
