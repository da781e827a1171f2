// Matched pairs summed per pair of threads.
module Aggregation {
  import opened TrackTypes
  import opened Matcher

  datatype Key = Key(allocThread: ThreadId, deallocThread: ThreadId)

  // Counts and bytes, the difference type of the collection.
  datatype Totals = Totals(count: int, size: int)

  // Which of the two is added up.
  datatype Measure = Count | Bytes

  function Of(t: Totals, m: Measure): int {
    if m.Count? then t.count else t.size
  }

  // An update of the collection: a pair of threads, a window, and a difference.
  datatype Update = Update(key: Key, window: Time, diff: Totals)

  // The updates that the pairs of the matcher make; errors make none.
  function UpdatesOf(out: seq<MatchEvent>): seq<Update> {
    if out == [] then []
    else
      var m := out[|out| - 1];
      UpdatesOf(out[..|out| - 1]) +
      if m.Pair? then [Update(Key(m.allocThread, m.deallocThread), m.bucket, Totals(1, m.size))] else []
  }

  function SumOf(us: seq<Update>, key: Key, m: Measure): int {
    if us == [] then 0
    else
      var u := us[|us| - 1];
      SumOf(us[..|us| - 1], key, m) + (if u.key == key then Of(u.diff, m) else 0)
  }

  function SumIn(us: seq<Update>, key: Key, window: Time, m: Measure): int {
    if us == [] then 0
    else
      var u := us[|us| - 1];
      SumIn(us[..|us| - 1], key, window, m) + (if u.key == key && u.window == window then Of(u.diff, m) else 0)
  }

  // Consolidation keeps, for every key and window, the sum of the differences.
  ghost predicate Consolidates(before: seq<Update>, after: seq<Update>) {
    forall key: Key, window: Time, m: Measure :: SumIn(after, key, window, m) == SumIn(before, key, window, m)
  }

  // ---------------------------------------------------------------------------------------------
  // "group_by_window"

  datatype PerThreadPair = PerThreadPair(key: Key, totals: Totals)

  type Pending = map<Time, seq<PerThreadPair>>

  // The operator receives updates at a timely time, and is notified of times at which no more will come.
  datatype Step = Data(time: Time, updates: seq<Update>) | Notify(time: Time)

  datatype Grouped = Grouped(pending: Pending, out: seq<seq<PerThreadPair>>)

  function PairsOf(us: seq<Update>): seq<PerThreadPair> {
    seq(|us|, i requires 0 <= i < |us| => PerThreadPair(us[i].key, us[i].diff))
  }

  lemma PairsOfSnoc(us: seq<Update>, i: nat)
    requires i < |us|
    ensures forall before: seq<PerThreadPair> ::
              before + PairsOf(us[..i + 1]) == before + PairsOf(us[..i]) + [PerThreadPair(us[i].key, us[i].diff)]
  {
  }

  function At(pending: Pending, time: Time): seq<PerThreadPair> {
    if time in pending then pending[time] else []
  }

  // What arrives at a time is kept under that time, whatever its window; the notification sends it on.
  function GroupStep(g: Grouped, step: Step): Grouped {
    match step
    case Data(time, us) =>
      if us == [] then g else g.(pending := g.pending[time := At(g.pending, time) + PairsOf(us)])
    case Notify(time) =>
      if time in g.pending then Grouped(g.pending - {time}, g.out + [g.pending[time]]) else g
  }

  function Group(steps: seq<Step>): Grouped {
    if steps == [] then Grouped(map[], []) else GroupStep(Group(steps[..|steps| - 1]), steps[|steps| - 1])
  }

  function Received(steps: seq<Step>): seq<Update> {
    if steps == [] then []
    else
      var last := steps[|steps| - 1];
      Received(steps[..|steps| - 1]) + if last.Data? then last.updates else []
  }

  class WindowGrouper {
    var pending: Pending

    constructor ()
      ensures pending == map[]
    {
      pending := map[];
    }

    method OnData(time: Time, us: seq<Update>)
      modifies this
      ensures forall out :: Grouped(pending, out) == GroupStep(Grouped(old(pending), out), Data(time, us))
    {
      var i := 0;
      while i < |us|
        invariant 0 <= i <= |us|
        invariant pending == if i == 0 then old(pending)
                             else old(pending)[time := At(old(pending), time) + PairsOf(us[..i])]
      {
        assert At(pending, time) == At(old(pending), time) + PairsOf(us[..i]);
        var known := if time in pending then pending[time] else [];
        pending := pending[time := known + [PerThreadPair(us[i].key, us[i].diff)]];
        PairsOfSnoc(us, i);
        i := i + 1;
      }
      assert us[..i] == us;
    }

    method OnNotify(time: Time) returns (out: Option<seq<PerThreadPair>>)
      modifies this
      ensures forall before ::
                Grouped(pending, before + if out.Some? then [out.value] else []) ==
                GroupStep(Grouped(old(pending), before), Notify(time))
    {
      if time in pending {
        out := Some(pending[time]);
        pending := pending - {time};
      } else {
        out := None;
      }
    }
  }

  // ---------------------------------------------------------------------------------------------
  // Totals

  function PairSum(ps: seq<PerThreadPair>, key: Key, m: Measure): int {
    if ps == [] then 0
    else PairSum(ps[..|ps| - 1], key, m) + (if ps[|ps| - 1].key == key then Of(ps[|ps| - 1].totals, m) else 0)
  }

  function OutSum(out: seq<seq<PerThreadPair>>, key: Key, m: Measure): int {
    if out == [] then 0 else OutSum(out[..|out| - 1], key, m) + PairSum(out[|out| - 1], key, m)
  }

  // The sum over all times below n.
  function PendingSum(pending: Pending, n: nat, key: Key, m: Measure): int {
    if n == 0 then 0 else PendingSum(pending, n - 1, key, m) + PairSum(At(pending, n - 1), key, m)
  }

  lemma {:induction false} PairSumAppend(a: seq<PerThreadPair>, b: seq<PerThreadPair>, key: Key, m: Measure)
    ensures PairSum(a + b, key, m) == PairSum(a, key, m) + PairSum(b, key, m)
  {
    if b == [] {
      assert a + b == a;
    } else {
      assert (a + b)[..|a + b| - 1] == a + b[..|b| - 1];
      PairSumAppend(a, b[..|b| - 1], key, m);
    }
  }

  lemma {:induction false} SumOfAppend(a: seq<Update>, b: seq<Update>, key: Key, m: Measure)
    ensures SumOf(a + b, key, m) == SumOf(a, key, m) + SumOf(b, key, m)
  {
    if b == [] {
      assert a + b == a;
    } else {
      assert (a + b)[..|a + b| - 1] == a + b[..|b| - 1];
      SumOfAppend(a, b[..|b| - 1], key, m);
    }
  }

  lemma {:induction false} PairsOfSum(us: seq<Update>, key: Key, m: Measure)
    ensures PairSum(PairsOf(us), key, m) == SumOf(us, key, m)
  {
    if us != [] {
      assert PairsOf(us)[..|us| - 1] == PairsOf(us[..|us| - 1]);
      PairsOfSum(us[..|us| - 1], key, m);
    }
  }

  // Changing what is pending at one time changes the sum by the difference there.
  lemma {:induction false} PendingSumChange(a: Pending, b: Pending, time: Time, n: nat, key: Key, m: Measure)
    requires forall t: Time | t != time :: At(a, t) == At(b, t)
    ensures PendingSum(a, n, key, m) + (if time < n then PairSum(At(b, time), key, m) else 0) ==
            PendingSum(b, n, key, m) + (if time < n then PairSum(At(a, time), key, m) else 0)
  {
    if n > 0 {
      PendingSumChange(a, b, time, n - 1, key, m);
    }
  }

  ghost predicate TimesBelow(steps: seq<Step>, n: nat) {
    forall i | 0 <= i < |steps| :: steps[i].time < n
  }

  // At every moment, what has been sent on and what is pending add up to what was received.
  lemma {:induction false} GroupConserves(steps: seq<Step>, n: nat, key: Key, m: Measure)
    requires TimesBelow(steps, n)
    ensures var g := Group(steps);
            OutSum(g.out, key, m) + PendingSum(g.pending, n, key, m) == SumOf(Received(steps), key, m)
  {
    if steps == [] {
      NothingPending(n, key, m);
    } else {
      var front, last := steps[..|steps| - 1], steps[|steps| - 1];
      GroupConserves(front, n, key, m);
      GroupStepConserves(Group(front), last, n, key, m);
      if last.Data? {
        SumOfAppend(Received(front), last.updates, key, m);
      } else {
        assert Received(front) + [] == Received(front);
      }
    }
  }

  lemma {:induction false} GroupStepConserves(g: Grouped, step: Step, n: nat, key: Key, m: Measure)
    requires step.time < n
    ensures var g' := GroupStep(g, step);
            OutSum(g'.out, key, m) + PendingSum(g'.pending, n, key, m) ==
            OutSum(g.out, key, m) + PendingSum(g.pending, n, key, m) +
            if step.Data? then SumOf(step.updates, key, m) else 0
  {
    match step
    case Data(time, us) => DataConserves(g.pending, time, us, n, key, m);
    case Notify(time) => NotifyConserves(g, time, n, key, m);
  }

  lemma DataConserves(pending: Pending, time: Time, us: seq<Update>, n: nat, key: Key, m: Measure)
    requires time < n
    ensures var after := pending[time := At(pending, time) + PairsOf(us)];
            PendingSum(after, n, key, m) == PendingSum(pending, n, key, m) + SumOf(us, key, m)
  {
    var after := pending[time := At(pending, time) + PairsOf(us)];
    PendingSumChange(pending, after, time, n, key, m);
    PairsOfSum(us, key, m);
    PairSumAppend(At(pending, time), PairsOf(us), key, m);
  }

  lemma {:induction false} NotifyConserves(g: Grouped, time: Time, n: nat, key: Key, m: Measure)
    requires time < n
    ensures var g' := GroupStep(g, Notify(time));
            OutSum(g'.out, key, m) + PendingSum(g'.pending, n, key, m) ==
            OutSum(g.out, key, m) + PendingSum(g.pending, n, key, m)
  {
    var after := g.pending - {time};
    PendingSumChange(g.pending, after, time, n, key, m);
    if time in g.pending {
      OutSumSnoc(g.out, g.pending[time], key, m);
    }
  }

  lemma {:induction false} OutSumSnoc(out: seq<seq<PerThreadPair>>, more: seq<PerThreadPair>, key: Key, m: Measure)
    ensures OutSum(out + [more], key, m) == OutSum(out, key, m) + PairSum(more, key, m)
  {
    assert (out + [more])[..|out|] == out;
  }

  lemma {:induction false} NothingPending(n: nat, key: Key, m: Measure)
    ensures PendingSum(map[], n, key, m) == 0
  {
    if n > 0 {
      NothingPending(n - 1, key, m);
    }
  }

  // Data is pending exactly at the times that were not notified after their last data.
  lemma {:induction false} PendingExactly(steps: seq<Step>, time: Time)
    ensures time in Group(steps).pending <==>
            exists i | 0 <= i < |steps| ::
              && steps[i].Data? && steps[i].time == time && steps[i].updates != []
              && Notify(time) !in steps[i + 1..]
  {
    if steps != [] {
      var n := |steps| - 1;
      var front, last := steps[..n], steps[n];
      PendingExactly(front, time);
      forall i | 0 <= i < n
        ensures steps[i] == front[i] && steps[i + 1..] == front[i + 1..] + [last]
      {
      }
      assert steps[n + 1..] == [];
    }
  }

  // What arrived at a time since it was last notified.
  function Since(steps: seq<Step>, time: Time): seq<Update> {
    if steps == [] then []
    else
      var last := steps[|steps| - 1];
      if last.time != time then Since(steps[..|steps| - 1], time)
      else if last.Notify? then []
      else Since(steps[..|steps| - 1], time) + last.updates
  }

  // A time is pending with what arrived at it since it was last notified, in order; that, whole, is what its next
  // notification sends on, and nothing is sent on otherwise.
  lemma {:induction false} NotifiesWhatArrived(steps: seq<Step>, time: Time)
    ensures var g, since := Group(steps), PairsOf(Since(steps, time));
            && At(g.pending, time) == since
            && Group(steps + [Notify(time)]).out == (if since == [] then g.out else g.out + [since])
  {
    assert (steps + [Notify(time)])[..|steps|] == steps;
    SinceIsPending(steps, time);
  }

  lemma {:induction false} SinceIsPending(steps: seq<Step>, time: Time)
    ensures At(Group(steps).pending, time) == PairsOf(Since(steps, time))
    ensures time in Group(steps).pending ==> Group(steps).pending[time] != []
  {
    if steps != [] {
      var front, last := steps[..|steps| - 1], steps[|steps| - 1];
      SinceIsPending(front, time);
      if last.Data? && last.time == time {
        PairsOfAppend(Since(front, time), last.updates);
        if last.updates == [] {
          assert Since(front, time) + [] == Since(front, time);
        }
      }
    }
  }

  lemma PairsOfAppend(a: seq<Update>, b: seq<Update>)
    ensures PairsOf(a + b) == PairsOf(a) + PairsOf(b)
  {
  }

  function LastTime(steps: seq<Step>): (n: nat)
    ensures TimesBelow(steps, n)
  {
    if steps == [] then 0
    else
      var n, last := LastTime(steps[..|steps| - 1]), steps[|steps| - 1];
      assert forall i | 0 <= i < |steps| - 1 :: steps[..|steps| - 1][i] == steps[i];
      if last.time >= n then last.time + 1 else n
  }

  // ---------------------------------------------------------------------------------------------
  // From the matcher's pairs to the reports

  // The number of pairs of a key and the bytes they freed.
  function PairTotals(out: seq<MatchEvent>, key: Key, m: Measure): int {
    if out == [] then 0
    else
      var e := out[|out| - 1];
      PairTotals(out[..|out| - 1], key, m) +
      if e.Pair? && e.allocThread == key.allocThread && e.deallocThread == key.deallocThread
      then (if m.Count? then 1 else e.size) else 0
  }

  lemma {:induction false} UpdatesSum(out: seq<MatchEvent>, key: Key, m: Measure)
    ensures SumOf(UpdatesOf(out), key, m) == PairTotals(out, key, m)
  {
    if out != [] {
      var front, e := out[..|out| - 1], out[|out| - 1];
      UpdatesSum(front, key, m);
      if e.Pair? {
        var u := Update(Key(e.allocThread, e.deallocThread), e.bucket, Totals(1, e.size));
        assert (UpdatesOf(front) + [u])[..|UpdatesOf(front)|] == UpdatesOf(front);
      } else {
        assert UpdatesOf(front) + [] == UpdatesOf(front);
      }
    }
  }

  // The same in one window: the pairs whose free falls into it.
  function WindowTotals(out: seq<MatchEvent>, key: Key, window: Time, m: Measure): int {
    if out == [] then 0
    else
      var e := out[|out| - 1];
      WindowTotals(out[..|out| - 1], key, window, m) +
      if e.Pair? && e.allocThread == key.allocThread && e.deallocThread == key.deallocThread && e.bucket == window
      then (if m.Count? then 1 else e.size) else 0
  }

  // The updates of a key and window add up to the pairs of the key that fall into the window.
  lemma {:induction false} UpdatesSumIn(out: seq<MatchEvent>, key: Key, window: Time, m: Measure)
    ensures SumIn(UpdatesOf(out), key, window, m) == WindowTotals(out, key, window, m)
  {
    if out != [] {
      var front, e := out[..|out| - 1], out[|out| - 1];
      UpdatesSumIn(front, key, window, m);
      if e.Pair? {
        var u := Update(Key(e.allocThread, e.deallocThread), e.bucket, Totals(1, e.size));
        assert (UpdatesOf(front) + [u])[..|UpdatesOf(front)|] == UpdatesOf(front);
      } else {
        assert UpdatesOf(front) + [] == UpdatesOf(front);
      }
    }
  }

  // Summing a key over all windows below n.
  function SumBelow(us: seq<Update>, key: Key, n: nat, m: Measure): int {
    if n == 0 then 0 else SumBelow(us, key, n - 1, m) + SumIn(us, key, n - 1, m)
  }

  ghost predicate WindowsBelow(us: seq<Update>, n: nat) {
    forall i | 0 <= i < |us| :: us[i].window < n
  }

  lemma {:induction false} SumBelowSnoc(us: seq<Update>, key: Key, n: nat, m: Measure)
    requires us != []
    ensures var u := us[|us| - 1];
            SumBelow(us, key, n, m) ==
            SumBelow(us[..|us| - 1], key, n, m) + (if u.key == key && u.window < n then Of(u.diff, m) else 0)
  {
    if n > 0 {
      SumBelowSnoc(us, key, n - 1, m);
    }
  }

  lemma {:induction false} SumByWindows(us: seq<Update>, key: Key, n: nat, m: Measure)
    requires WindowsBelow(us, n)
    ensures SumOf(us, key, m) == SumBelow(us, key, n, m)
  {
    if us == [] {
      EmptySums(key, n, m);
    } else {
      SumByWindows(us[..|us| - 1], key, n, m);
      SumBelowSnoc(us, key, n, m);
    }
  }

  lemma {:induction false} EmptySums(key: Key, n: nat, m: Measure)
    ensures SumBelow([], key, n, m) == 0
  {
    if n > 0 {
      EmptySums(key, n - 1, m);
    }
  }

  lemma {:induction false} SameWindowsSameSum(a: seq<Update>, b: seq<Update>, key: Key, n: nat, m: Measure)
    requires Consolidates(a, b)
    ensures SumBelow(a, key, n, m) == SumBelow(b, key, n, m)
  {
    if n > 0 {
      SameWindowsSameSum(a, b, key, n - 1, m);
    }
  }

  function WindowBound(us: seq<Update>): (n: nat)
    ensures WindowsBelow(us, n)
  {
    if us == [] then 0
    else
      var n, u := WindowBound(us[..|us| - 1]), us[|us| - 1];
      assert forall i | 0 <= i < |us| - 1 :: us[..|us| - 1][i] == us[i];
      if u.window >= n then u.window + 1 else n
  }

  lemma WindowsBelowMore(us: seq<Update>, n: nat, k: nat)
    requires WindowsBelow(us, n) && n <= k
    ensures WindowsBelow(us, k)
  {
  }

  lemma {:induction false} ConsolidatedSum(a: seq<Update>, b: seq<Update>, key: Key, m: Measure)
    requires Consolidates(a, b)
    ensures SumOf(a, key, m) == SumOf(b, key, m)
  {
    var n := WindowBound(a) + WindowBound(b);
    WindowsBelowMore(a, WindowBound(a), n);
    WindowsBelowMore(b, WindowBound(b), n);
    SumByWindows(a, key, n, m);
    SumByWindows(b, key, n, m);
    SameWindowsSameSum(a, b, key, n, m);
  }

  // Totals are conserved: what consolidation delivers for a pair of threads and a window is the number of its
  // matched pairs in that window and the bytes they freed; and once every time at which data arrived has been
  // notified, the reported counts and sizes of the pair of threads add up to all its pairs.
  lemma {:induction false} TotalsConserved(out: seq<MatchEvent>, steps: seq<Step>, key: Key, m: Measure)
    requires Consolidates(UpdatesOf(out), Received(steps))
    requires forall i | 0 <= i < |steps| && steps[i].Data? :: Notify(steps[i].time) in steps[i + 1..]
    ensures OutSum(Group(steps).out, key, m) == PairTotals(out, key, m)
    ensures forall window: Time :: SumIn(Received(steps), key, window, m) == WindowTotals(out, key, window, m)
  {
    forall window: Time
      ensures SumIn(Received(steps), key, window, m) == WindowTotals(out, key, window, m)
    {
      UpdatesSumIn(out, key, window, m);
    }
    var n := LastTime(steps);
    GroupConserves(steps, n, key, m);
    forall time: Time
      ensures time !in Group(steps).pending
    {
      PendingExactly(steps, time);
    }
    assert Group(steps).pending == map[];
    NothingPending(n, key, m);
    ConsolidatedSum(UpdatesOf(out), Received(steps), key, m);
    UpdatesSum(out, key, m);
  }
}
