// A run in which a time is announced although data pushed before it has not been shipped: a thread fills its
// buffer, takes it, and is held up before it sends it, while the gatherer makes a whole pass.
module LateData {
  import opened Frames
  import opened TrackTypes
  import opened GlobalTree
  import opened TraceTrees
  import opened Writer
  import opened Protocol
  import opened Watermark
  import opened Punctuality

  // Thread 0 is alone, registered, and has n instructions of time 0 in its buffer.
  ghost predicate Filled(th: Thread, n: nat) {
    && th.registered && !th.dead && th.log == [] && th.pending == [] && th.hand.None? && th.lock.Unlocked?
    && |th.shared.items| == n && (n == 0 ==> th.shared.capacity == 0)
    && (n > 0 ==> th.shared.capacity == CAPACITY && th.shared.items[0].time == 0)
  }

  ghost predicate Alone(s: State, place: Place) {
    && s.place == place && s.threads.Keys == {0} && s.states == [0] && s.channel == [] && s.tracking
    && s.handoffs == map[] && s.served == map[]
  }

  // Without the history of the pass.
  ghost function Plain(s: State): State {
    s.(handoffs := map[], served := map[])
  }

  // A step of thread 0 that is not a send.
  lemma OwnerAlone(v: Variant, s: State, a: Action, place: Place)
    requires Alone(Plain(s), place) && OwnerCan(s, a) && a.t == 0 && !a.Send?
    ensures Can(s, a) && Do(v, s, a) == OwnerStep(s, a)
    ensures var s' := OwnerStep(s, a);
            && Alone(Plain(s'), place) && s' == s.(threads := s'.threads) && s'.now == s.now
  {
  }

  const CALL: Call := Alloc(1, 8, [])

  lemma EncodeTrivial()
    ensures EncodeCall([], CALL) == Encoded([], [Allocate(1, 8, 0)])
  {
    assert Normal([]) == [];
    assert Walk([], 0, []) == Interned([], 0);
    assert Announce([], 0) == [];
    SmallAsU32(0);
  }

  // One more instruction in the buffer; the thread is still inside its critical section.
  lemma PushOne(v: Variant, run: seq<Action>, n: nat) returns (longer: seq<Action>)
    requires IsRun(v, run) && Alone(Final(v, run), Idle) && Final(v, run).now == 0
    requires n < CAPACITY && Filled(Final(v, run).threads[0], n)
    ensures IsRun(v, longer) && Alone(Final(v, longer), Idle) && Final(v, longer).now == 0
    ensures var th := Final(v, longer).threads[0];
            && th.lock.OwnerHolds? && Filled(th.(lock := Unlocked), n + 1)
  {
    EncodeTrivial();
    var s := Final(v, run);
    OwnerAlone(v, s, Begin(0, CALL), Idle);
    RunSnoc(v, run, Begin(0, CALL));
    var run1 := run + [Begin(0, CALL)];
    var s1 := Final(v, run1);
    assert s1.threads[0].pending == [Allocate(1, 8, 0)];
    OwnerAlone(v, s1, Push(0, CAPACITY), Idle);
    RunSnoc(v, run1, Push(0, CAPACITY));
    longer := run1 + [Push(0, CAPACITY)];
  }

  lemma {:induction false} Spawned(v: Variant)
    ensures IsRun(v, [Spawn(0)])
    ensures Final(v, [Spawn(0)])
            == INITIAL.(threads := map[0 := NEW_THREAD], registrations := [0])
  {
    assert IsRun(v, []) && Final(v, []) == INITIAL;
    RunSnoc(v, [], Spawn(0));
    assert [] + [Spawn(0)] == [Spawn(0)];
    assert WorldStep(INITIAL, Spawn(0)).registrations == [0];
  }

  lemma Start(v: Variant) returns (run: seq<Action>)
    ensures IsRun(v, run) && Alone(Final(v, run), Idle) && Final(v, run).now == 0
    ensures Filled(Final(v, run).threads[0], 0)
  {
    Spawned(v);
    run := Gathers(v, [Spawn(0)], ReceiveRegistration);
  }

  lemma ReleaseOne(v: Variant, run: seq<Action>, n: nat) returns (longer: seq<Action>)
    requires IsRun(v, run) && Alone(Final(v, run), Idle) && Final(v, run).now == 0 && 0 < n < CAPACITY
    requires var th := Final(v, run).threads[0];
             th.lock.OwnerHolds? && Filled(th.(lock := Unlocked), n)
    ensures IsRun(v, longer) && Alone(Final(v, longer), Idle) && Final(v, longer).now == 0
    ensures Filled(Final(v, longer).threads[0], n)
  {
    OwnerAlone(v, Final(v, run), Release(0), Idle);
    RunSnoc(v, run, Release(0));
    longer := run + [Release(0)];
  }

  lemma {:induction false} Fill(v: Variant, n: nat) returns (run: seq<Action>)
    requires n < CAPACITY
    ensures IsRun(v, run) && Alone(Final(v, run), Idle) && Final(v, run).now == 0
    ensures Filled(Final(v, run).threads[0], n)
  {
    if n == 0 {
      run := Start(v);
    } else {
      run := Fill(v, n - 1);
      run := PushOne(v, run, n - 1);
      run := ReleaseOne(v, run, n);
    }
  }

  // The full buffer in the hand of thread 0.
  lemma FillAndTake(v: Variant) returns (run: seq<Action>)
    ensures IsRun(v, run) && Alone(Final(v, run), Idle) && Final(v, run).now == 0
    ensures var th := Final(v, run).threads[0];
            && th.hand.Some? && th.hand.value != [] && th.hand.value[0].time == 0
            && th.lock.Unlocked? && !th.dead && th.shared.items == []
  {
    run := Fill(v, CAPACITY - 1);
    run := PushOne(v, run, CAPACITY - 1);
    OwnerAlone(v, Final(v, run), Take(0), Idle);
    RunSnoc(v, run, Take(0));
    run := run + [Take(0)];
  }

  // The beginning of a pass, up to the first thread's turn.
  lemma PassStarts(v: Variant, before: seq<Action>) returns (run: seq<Action>)
    requires IsRun(v, before) && Alone(Final(v, before), Idle)
    ensures IsRun(v, run)
    ensures var s, s' := Final(v, before), Final(v, run);
            && Alone(s', AtState(0)) && s'.passTime == s.now == s'.now
            && s'.threads == s.threads && s'.local == Buffer([], CAPACITY)
  {
    run := Gathers(v, before, StartPass(false, CAPACITY));
    run := Gathers(v, run, DrainEmpty);
  }

  // A pass up to the moment the gatherer has seen the channel empty under the lock of thread 0.
  lemma PassBegins(v: Variant, before: seq<Action>) returns (run: seq<Action>)
    requires IsRun(v, before) && Alone(Final(v, before), Idle) && Final(v, before).threads[0].lock.Unlocked?
    ensures IsRun(v, run)
    ensures var s, s' := Final(v, before), Final(v, run);
            && Alone(Plain(s'), Drained(0)) && s'.passTime == s.now == s'.now
            && s'.threads[0] == s.threads[0].(lock := GathererHolds) && s'.local == Buffer([], CAPACITY)
            && s'.handoffs == map[0 := HandOf(s.threads[0])]
  {
    hide IsRun, Final, Filled;
    run := PassStarts(v, before);
    run := Gathers(v, run, LockState);
    run := Gathers(v, run, DrainEmpty);
  }

  // The rest of the pass.
  lemma PassEnds(v: Variant, before: seq<Action>) returns (run: seq<Action>)
    requires IsRun(v, before) && Alone(Plain(Final(v, before)), Drained(0))
    requires !Final(v, before).threads[0].dead && Final(v, before).local.items == []
    ensures IsRun(v, run)
    ensures var s, s' := Final(v, before), Final(v, run);
            && Alone(Plain(s'), AtState(1)) && s'.passTime == s.passTime && s'.handoffs == s.handoffs
            && s'.threads[0] == s.threads[0].(lock := Unlocked, shared := s.local) && s'.now == s.now
  {
    run := Gathers(v, before, Swap);
    run := Gathers(v, run, Ship);
  }

  // "All data up to this point has been shipped" can fail: here time 1 is about to be announced while data of
  // time 0 is still in the hand of its thread.
  lemma AnnouncedButNotShipped(v: Variant) returns (run: seq<Action>)
    ensures IsRun(v, run) && GathererCan(Final(v, run), EndPass)
    ensures var s := Final(v, run);
            && 0 in s.threads && LateHandoff(s, 0)
            && exists i | 0 <= i < |Unshipped(s, 0)| :: Unshipped(s, 0)[i].time < s.passTime
  {
    hide IsRun, Final;
    run := FillAndTake(v);
    RunSnoc(v, run, Advance(1));
    run := PassBegins(v, run + [Advance(1)]);
    run := PassEnds(v, run);
    LateIs(Final(v, run));
  }

  lemma LateIs(s: State)
    requires Alone(Plain(s), AtState(1)) && s.passTime == 1
    requires s.threads[0].hand.Some? && s.threads[0].hand.value != [] && s.threads[0].hand.value[0].time == 0
    requires s.handoffs == map[0 := s.threads[0].hand.value]
    ensures GathererCan(s, EndPass) && LateHandoff(s, 0)
    ensures exists i | 0 <= i < |Unshipped(s, 0)| :: Unshipped(s, 0)[i].time < s.passTime
  {
    assert OnTheWay(s, 0) == [s.threads[0].hand.value];
    assert Unshipped(s, 0)[0] == s.threads[0].hand.value[0];
  }

  // A thread is served and then pushes once more, while the clock still shows the time of the pass.
  lemma ServedThenPushes(v: Variant) returns (run: seq<Action>)
    ensures IsRun(v, run)
    ensures var s := Final(v, run);
            && Alone(Plain(s), AtState(1)) && s.passTime == 0 && s.handoffs == map[0 := []]
            && s.threads[0].hand.None? && |s.threads[0].shared.items| == 1 && s.threads[0].shared.items[0].time == 0
  {
    hide IsRun, Final;
    run := Start(v);
    run := PassBegins(v, run);
    run := PassEnds(v, run);
    EncodeTrivial();
    var s := Final(v, run);
    OwnerAlone(v, s, Begin(0, CALL), AtState(1));
    RunSnoc(v, run, Begin(0, CALL));
    run := run + [Begin(0, CALL)];
    OwnerAlone(v, Final(v, run), Push(0, CAPACITY), AtState(1));
    RunSnoc(v, run, Push(0, CAPACITY));
    run := run + [Push(0, CAPACITY)];
  }

  // Even with no hand-off in flight, data stamped with the announced time itself can be late.
  lemma AnnouncedTooSoon(v: Variant) returns (run: seq<Action>)
    ensures IsRun(v, run) && GathererCan(Final(v, run), EndPass)
    ensures var s := Final(v, run);
            && 0 in s.threads && !LateHandoff(s, 0) && !HandoffUpTo(s, 0)
            && exists i | 0 <= i < |Unshipped(s, 0)| :: Unshipped(s, 0)[i].time == s.passTime
  {
    run := ServedThenPushes(v);
    var s := Final(v, run);
    assert Unshipped(s, 0)[0].time == s.passTime;
  }
}
