// The matcher against a reference that looks at one pointer at a time, and its distribution over workers.
module Sharding {
  import opened TrackTypes
  import opened Matcher

  // ---------------------------------------------------------------------------------------------
  // The reference

  predicate Names(e: Input, ptr: nat) {
    !e.instr.Stack? && e.instr.ptr == ptr
  }

  // The events of one pointer, in order.
  function OfPtr(es: seq<Input>, ptr: nat): (sub: seq<Input>)
    ensures forall i | 0 <= i < |sub| :: Names(sub[i], ptr)
  {
    if es == [] then []
    else OfPtr(es[..|es| - 1], ptr) + if Names(es[|es| - 1], ptr) then [es[|es| - 1]] else []
  }

  // The verdict on the last of the events of one pointer, from the event just before it alone.
  function LastVerdict(sub: seq<Input>, ptr: nat): seq<MatchEvent>
    requires forall i | 0 <= i < |sub| :: Names(sub[i], ptr)
  {
    if sub == [] then []
    else
      var e := sub[|sub| - 1];
      assert Names(e, ptr);
      var live := |sub| > 1 && sub[|sub| - 2].instr.Allocate?;
      if e.instr.Allocate? then
        if live then [Error(DoubleAlloc(ptr, InfoOf(sub[|sub| - 2]), InfoOf(e)))] else []
      else
        if live then [Pair(sub[|sub| - 2].thread, e.thread, e.bucket, e.instr.size)]
        else [Error(DoubleFree(ptr, InfoOf(e)))]
  }

  function Verdicts(sub: seq<Input>, ptr: nat): seq<MatchEvent>
    requires forall i | 0 <= i < |sub| :: Names(sub[i], ptr)
  {
    if sub == [] then [] else Verdicts(sub[..|sub| - 1], ptr) + LastVerdict(sub, ptr)
  }

  // What is outstanding: the last event, if it is an allocation.
  function Outstanding(sub: seq<Input>): Option<AllocInfo> {
    if sub != [] && sub[|sub| - 1].instr.Allocate? then Some(InfoOf(sub[|sub| - 1])) else None
  }

  function Kept(stash: Stash, ptr: nat): Option<AllocInfo> {
    if ptr in stash then Some(stash[ptr]) else None
  }

  // ---------------------------------------------------------------------------------------------
  // The matcher refines the reference

  // The stash is the last unmatched allocation of each pointer.
  lemma {:induction false} StashIsOutstanding(es: seq<Input>, ptr: nat)
    ensures Kept(MatchAll(es).stash, ptr) == Outstanding(OfPtr(es, ptr))
  {
    if es != [] {
      StashIsOutstanding(es[..|es| - 1], ptr);
    }
  }

  // What the matcher emits for an event is the reference's verdict on it.
  lemma {:induction false} EmitsVerdict(es: seq<Input>, ptr: nat)
    requires es != [] && Names(es[|es| - 1], ptr)
    ensures Emitted(MatchAll(es[..|es| - 1]).stash, es[|es| - 1]) == LastVerdict(OfPtr(es, ptr), ptr)
  {
    var sub := OfPtr(es[..|es| - 1], ptr);
    StashIsOutstanding(es[..|es| - 1], ptr);
    assert Kept(MatchAll(es[..|es| - 1]).stash, ptr) == Outstanding(sub);
    assert OfPtr(es, ptr) == sub + [es[|es| - 1]];
  }

  // ---------------------------------------------------------------------------------------------
  // Sums over all pointers below n

  function Sum(f: nat -> nat, n: nat): nat {
    if n == 0 then 0 else Sum(f, n - 1) + f(n - 1)
  }

  lemma {:induction false} SumOfSums(f: nat -> nat, g: nat -> nat, h: nat -> nat, n: nat)
    requires forall ptr | 0 <= ptr < n :: h(ptr) == f(ptr) + g(ptr)
    ensures Sum(h, n) == Sum(f, n) + Sum(g, n)
  {
    if n > 0 {
      SumOfSums(f, g, h, n - 1);
    }
  }

  lemma {:induction false} SameSum(f: nat -> nat, g: nat -> nat, n: nat)
    requires forall ptr | 0 <= ptr < n :: f(ptr) == g(ptr)
    ensures Sum(f, n) == Sum(g, n)
  {
    if n > 0 {
      SameSum(f, g, n - 1);
    }
  }

  // A sum in which at most one pointer counts.
  lemma {:induction false} SumOfOne(f: nat -> nat, one: nat, n: nat)
    requires forall ptr | 0 <= ptr < n && ptr != one :: f(ptr) == 0
    ensures Sum(f, n) == if one < n then f(one) else 0
  {
    if n > 0 {
      SumOfOne(f, one, n - 1);
    }
  }

  // How often the reference's verdicts on a pointer are the report m.
  function VerdictCount(es: seq<Input>, m: MatchEvent): nat -> nat {
    (ptr: nat) => multiset(Verdicts(OfPtr(es, ptr), ptr))[m]
  }

  // Whether m reports what is outstanding of a pointer.
  function LeakCount(stash: Stash, m: MatchEvent): nat -> nat {
    (ptr: nat) => LeakOf(Kept(stash, ptr), ptr, m)
  }

  function LeakOf(kept: Option<AllocInfo>, ptr: nat, m: MatchEvent): nat {
    if kept.Some? && m == Error(Leak(ptr, kept.value)) then 1 else 0
  }

  // How often the reference reports m of a pointer, leaks included.
  function Judged(es: seq<Input>, m: MatchEvent): nat -> nat {
    (ptr: nat) => multiset(Verdicts(OfPtr(es, ptr), ptr))[m] + LeakOf(Outstanding(OfPtr(es, ptr)), ptr, m)
  }

  ghost predicate PointersBelow(es: seq<Input>, n: nat) {
    forall i | 0 <= i < |es| :: !es[i].instr.Stack? ==> es[i].instr.ptr < n
  }

  // An event adds its verdict to those on its own pointer only.
  function AddedCount(es: seq<Input>, m: MatchEvent): nat -> nat
    requires es != []
  {
    (ptr: nat) => if Names(es[|es| - 1], ptr) then multiset(LastVerdict(OfPtr(es, ptr), ptr))[m] else 0
  }

  lemma VerdictsSnoc(es: seq<Input>, ptr: nat, m: MatchEvent)
    requires es != []
    ensures VerdictCount(es, m)(ptr) == VerdictCount(es[..|es| - 1], m)(ptr) + AddedCount(es, m)(ptr)
  {
    var front, sub := OfPtr(es[..|es| - 1], ptr), OfPtr(es, ptr);
    if Names(es[|es| - 1], ptr) {
      assert sub == front + [es[|es| - 1]];
      assert sub[..|sub| - 1] == front;
    } else {
      assert sub == front;
    }
  }

  // Everything the matcher emits while it reads is a verdict of the reference, and conversely, each as often.
  lemma {:induction false} OutIsVerdicts(es: seq<Input>, n: nat, m: MatchEvent)
    requires PointersBelow(es, n)
    ensures multiset(MatchAll(es).out)[m] == Sum(VerdictCount(es, m), n)
  {
    if es == [] {
      SumOfOne(VerdictCount(es, m), n, n);
    } else {
      var front, e := es[..|es| - 1], es[|es| - 1];
      OutIsVerdicts(front, n, m);
      forall ptr | 0 <= ptr < n
        ensures VerdictCount(es, m)(ptr) == VerdictCount(front, m)(ptr) + AddedCount(es, m)(ptr)
      {
        VerdictsSnoc(es, ptr, m);
      }
      SumOfSums(VerdictCount(front, m), AddedCount(es, m), VerdictCount(es, m), n);
      if e.instr.Stack? {
        SumOfOne(AddedCount(es, m), n, n);
      } else {
        SumOfOne(AddedCount(es, m), e.instr.ptr, n);
        EmitsVerdict(es, e.instr.ptr);
      }
    }
  }

  // Each outstanding allocation is one leak.
  lemma {:induction false} LeakBagIsSum(stash: Stash, n: nat, m: MatchEvent)
    requires forall ptr | ptr in stash :: ptr < n
    ensures LeakBag(stash)[m] == Sum(LeakCount(stash, m), n)
  {
    LeakBagHas(stash, m);
    SumOfOne(LeakCount(stash, m), if m.Error? then m.error.ptr else n, n);
  }

  // ---------------------------------------------------------------------------------------------
  // The whole output: verdicts and, at the end of the input, leaks

  ghost function Output(es: seq<Input>): multiset<MatchEvent> {
    multiset(MatchAll(es).out) + LeakBag(MatchAll(es).stash)
  }

  lemma {:induction false} OfPtrOccurs(es: seq<Input>, ptr: nat)
    ensures OfPtr(es, ptr) != [] <==> exists i | 0 <= i < |es| :: Names(es[i], ptr)
  {
    if es != [] {
      var front := es[..|es| - 1];
      OfPtrOccurs(front, ptr);
      if i :| 0 <= i < |front| && Names(front[i], ptr) {
        assert Names(es[i], ptr);
      }
      if i :| 0 <= i < |es| && Names(es[i], ptr) {
        assert i < |front| ==> Names(front[i], ptr);
      }
    }
  }

  // The whole output of a matcher is the sum of what the reference says of each pointer.
  lemma {:induction false} OutputIsJudged(es: seq<Input>, n: nat, m: MatchEvent)
    requires PointersBelow(es, n)
    ensures Output(es)[m] == Sum(Judged(es, m), n)
  {
    var stash := MatchAll(es).stash;
    forall ptr | ptr in stash
      ensures ptr < n
    {
      StashIsOutstanding(es, ptr);
      OfPtrOccurs(es, ptr);
      var i :| 0 <= i < |es| && Names(es[i], ptr);
    }
    OutIsVerdicts(es, n, m);
    LeakBagIsSum(stash, n, m);
    forall ptr | 0 <= ptr < n
      ensures Judged(es, m)(ptr) == VerdictCount(es, m)(ptr) + LeakCount(stash, m)(ptr)
    {
      StashIsOutstanding(es, ptr);
    }
    SumOfSums(VerdictCount(es, m), LeakCount(stash, m), Judged(es, m), n);
  }

  // ---------------------------------------------------------------------------------------------
  // Several workers

  // Each pointer's events reach one worker, in order. How the events of different pointers interleave at a
  // worker is open, and so is where announcements of frames go.
  ghost predicate Exchanged(whole: seq<Input>, shards: seq<seq<Input>>, route: nat -> nat) {
    && (forall ptr :: route(ptr) < |shards|)
    && forall w | 0 <= w < |shards| :: Receives(whole, shards[w], route, w)
  }

  // What worker w receives of each pointer.
  ghost predicate Receives(whole: seq<Input>, shard: seq<Input>, route: nat -> nat, w: nat) {
    forall ptr: nat :: OfPtr(shard, ptr) == if route(ptr) == w then OfPtr(whole, ptr) else []
  }

  ghost function ShardsOutput(shards: seq<seq<Input>>): multiset<MatchEvent> {
    if shards == [] then multiset{} else ShardsOutput(shards[..|shards| - 1]) + Output(shards[|shards| - 1])
  }

  // What the reference reports of the pointers routed to the first k workers.
  function JudgedAt(whole: seq<Input>, route: nat -> nat, k: nat, m: MatchEvent): nat -> nat {
    (ptr: nat) => if route(ptr) < k then Judged(whole, m)(ptr) else 0
  }

  lemma {:induction false} ShardPointersBelow(whole: seq<Input>, shard: seq<Input>, n: nat)
    requires PointersBelow(whole, n)
    requires forall ptr: nat :: OfPtr(shard, ptr) == OfPtr(whole, ptr) || OfPtr(shard, ptr) == []
    ensures PointersBelow(shard, n)
  {
    forall i | 0 <= i < |shard| && !shard[i].instr.Stack?
      ensures shard[i].instr.ptr < n
    {
      var ptr := shard[i].instr.ptr;
      assert Names(shard[i], ptr);
      OfPtrOccurs(shard, ptr);
      OfPtrOccurs(whole, ptr);
      var j :| 0 <= j < |whole| && Names(whole[j], ptr);
    }
  }

  // How often each worker reports m.
  ghost function Reports(shards: seq<seq<Input>>, m: MatchEvent): nat -> nat {
    (w: nat) => if w < |shards| then Output(shards[w])[m] else 0
  }

  lemma {:induction false} ReportsAddUp(shards: seq<seq<Input>>, k: nat, m: MatchEvent)
    requires k <= |shards|
    ensures ShardsOutput(shards[..k])[m] == Sum(Reports(shards, m), k)
  {
    if k > 0 {
      assert shards[..k][..k - 1] == shards[..k - 1];
      ReportsAddUp(shards, k - 1, m);
    }
  }

  lemma {:induction false} NoShards(whole: seq<Input>, route: nat -> nat, n: nat, m: MatchEvent)
    ensures Sum(JudgedAt(whole, route, 0, m), n) == 0
  {
    SumOfOne(JudgedAt(whole, route, 0, m), n, n);
  }

  // One more worker adds the pointers routed to it.
  lemma {:induction false} OneMoreShard(whole: seq<Input>, shard: seq<Input>, route: nat -> nat, k: nat, n: nat,
                                        m: MatchEvent)
    requires PointersBelow(whole, n) && Receives(whole, shard, route, k)
    ensures Sum(JudgedAt(whole, route, k + 1, m), n) == Sum(JudgedAt(whole, route, k, m), n) + Output(shard)[m]
  {
    ShardPointersBelow(whole, shard, n);
    OutputIsJudged(shard, n, m);
    forall ptr | 0 <= ptr < n
      ensures JudgedAt(whole, route, k + 1, m)(ptr) == JudgedAt(whole, route, k, m)(ptr) + Judged(shard, m)(ptr)
    {
      assert OfPtr(shard, ptr) == if route(ptr) == k then OfPtr(whole, ptr) else [];
    }
    SumOfSums(JudgedAt(whole, route, k, m), Judged(shard, m), JudgedAt(whole, route, k + 1, m), n);
  }

  // The reports of the first k workers, and what the reference says of the pointers routed to them.
  function JudgedUpTo(whole: seq<Input>, route: nat -> nat, n: nat, m: MatchEvent): nat -> nat {
    (k: nat) => Sum(JudgedAt(whole, route, k, m), n)
  }

  ghost predicate Rises(f: nat -> nat, g: nat -> nat, w: nat) {
    f(w + 1) == f(w) + g(w)
  }

  // f starts at 0 and rises by g.
  ghost predicate Climbs(f: nat -> nat, g: nat -> nat, k: nat) {
    f(0) == 0 && forall w: nat | w < k :: Rises(f, g, w)
  }

  lemma {:induction false} Telescope(f: nat -> nat, g: nat -> nat, k: nat)
    requires Climbs(f, g, k)
    ensures Sum(g, k) == f(k)
  {
    if k > 0 {
      Telescope(f, g, k - 1);
      assert Rises(f, g, k - 1);
    }
  }

  lemma ShardStep(whole: seq<Input>, shards: seq<seq<Input>>, route: nat -> nat, n: nat, m: MatchEvent, w: nat)
    requires Exchanged(whole, shards, route) && PointersBelow(whole, n) && w < |shards|
    ensures Rises(JudgedUpTo(whole, route, n, m), Reports(shards, m), w)
  {
    OneMoreShard(whole, shards[w], route, w, n, m);
  }

  lemma ShardSteps(whole: seq<Input>, shards: seq<seq<Input>>, route: nat -> nat, n: nat, m: MatchEvent)
    requires Exchanged(whole, shards, route) && PointersBelow(whole, n)
    ensures Climbs(JudgedUpTo(whole, route, n, m), Reports(shards, m), |shards|)
  {
    NoShards(whole, route, n, m);
    forall w: nat | w < |shards|
      ensures Rises(JudgedUpTo(whole, route, n, m), Reports(shards, m), w)
    {
      ShardStep(whole, shards, route, n, m, w);
    }
  }

  lemma {:induction false} ShardsReport(whole: seq<Input>, shards: seq<seq<Input>>, route: nat -> nat, n: nat,
                                        m: MatchEvent)
    requires Exchanged(whole, shards, route) && PointersBelow(whole, n)
    ensures Sum(Reports(shards, m), |shards|) == Sum(JudgedAt(whole, route, |shards|, m), n)
  {
    ShardSteps(whole, shards, route, n, m);
    Telescope(JudgedUpTo(whole, route, n, m), Reports(shards, m), |shards|);
  }

  lemma {:induction false} NoneElsewhere(whole: seq<Input>, route: nat -> nat, k: nat, n: nat, m: MatchEvent)
    requires forall ptr :: route(ptr) < k
    ensures Sum(JudgedAt(whole, route, k, m), n) == Sum(Judged(whole, m), n)
  {
    forall ptr | 0 <= ptr < n
      ensures JudgedAt(whole, route, k, m)(ptr) == Judged(whole, m)(ptr)
    {
    }
    SameSum(JudgedAt(whole, route, k, m), Judged(whole, m), n);
  }

  function Bound(es: seq<Input>): (n: nat)
    ensures PointersBelow(es, n)
  {
    if es == [] then 0
    else
      var n, e := Bound(es[..|es| - 1]), es[|es| - 1];
      assert forall i | 0 <= i < |es| - 1 :: es[..|es| - 1][i] == es[i];
      if !e.instr.Stack? && e.instr.ptr >= n then e.instr.ptr + 1 else n
  }

  // Sharding is invisible: for any number of workers and any routing of pointers to workers, the workers
  // together report exactly what one matcher reports on the whole stream, leaks included.
  lemma {:induction false} ShardingIsInvisible(whole: seq<Input>, shards: seq<seq<Input>>, route: nat -> nat)
    requires Exchanged(whole, shards, route)
    ensures ShardsOutput(shards) == Output(whole)
  {
    var n := Bound(whole);
    assert shards[..|shards|] == shards;
    forall m: MatchEvent
      ensures ShardsOutput(shards)[m] == Output(whole)[m]
    {
      ReportsAddUp(shards, |shards|, m);
      ShardsReport(whole, shards, route, n, m);
      NoneElsewhere(whole, route, |shards|, n, m);
      OutputIsJudged(whole, n, m);
    }
  }

  // Streams in which each pointer has the same events in the same order are matched alike.
  lemma {:induction false} OrderAcrossPointersIsInvisible(a: seq<Input>, b: seq<Input>)
    requires forall ptr: nat :: OfPtr(a, ptr) == OfPtr(b, ptr)
    ensures Output(a) == Output(b)
  {
    var route := (ptr: nat) => 0;
    ShardingIsInvisible(a, [b], route);
    assert ShardsOutput([b]) == Output(b) by {
      assert [b][..0] == [];
    }
  }

  // What one worker receives when each event is routed by its pointer and announcements go to worker 0.
  function Routed(es: seq<Input>, route: nat -> nat, w: nat): seq<Input> {
    if es == [] then []
    else
      var e := es[|es| - 1];
      Routed(es[..|es| - 1], route, w) + if (if e.instr.Stack? then 0 else route(e.instr.ptr)) == w then [e] else []
  }

  lemma {:induction false} RoutedOfPtr(es: seq<Input>, route: nat -> nat, w: nat, ptr: nat)
    ensures OfPtr(Routed(es, route, w), ptr) == if route(ptr) == w then OfPtr(es, ptr) else []
  {
    if es != [] {
      var front, e := Routed(es[..|es| - 1], route, w), es[|es| - 1];
      RoutedOfPtr(es[..|es| - 1], route, w, ptr);
      assert (front + [e])[..|front|] == front;
      assert front + [] == front;
    }
  }

  // The worker that receives an event: announcements of frames go to worker 0.
  function WorkerOf(e: Input, route: nat -> nat): nat {
    if e.instr.Stack? then 0 else route(e.instr.ptr)
  }

  // How often worker w receives e.
  ghost function Receipts(es: seq<Input>, route: nat -> nat, e: Input): nat -> nat {
    (w: nat) => multiset(Routed(es, route, w))[e]
  }

  // Every event reaches one worker, as often as it occurs, and no event reaches another.
  lemma {:induction false} EachEventReachesOne(es: seq<Input>, route: nat -> nat, workers: nat, e: Input)
    requires WorkerOf(e, route) < workers
    ensures Sum(Receipts(es, route, e), workers) == multiset(es)[e] == Receipts(es, route, e)(WorkerOf(e, route))
  {
    ReceiptsAre(es, route, e);
    SumOfOne(Receipts(es, route, e), WorkerOf(e, route), workers);
  }

  lemma {:induction false} ReceiptsAre(es: seq<Input>, route: nat -> nat, e: Input)
    ensures forall w: nat ::
              multiset(Routed(es, route, w))[e] == if w == WorkerOf(e, route) then multiset(es)[e] else 0
  {
    if es != [] {
      var front, last := es[..|es| - 1], es[|es| - 1];
      assert es == front + [last];
      ReceiptsAre(front, route, e);
    }
  }

  // So routing each event by its pointer, as the exchange does, is invisible.
  lemma {:induction false} RoutingIsInvisible(whole: seq<Input>, route: nat -> nat, workers: nat)
    requires forall ptr :: route(ptr) < workers
    ensures ShardsOutput(seq(workers, w requires 0 <= w < workers => Routed(whole, route, w))) == Output(whole)
  {
    var shards := seq(workers, w requires 0 <= w < workers => Routed(whole, route, w));
    forall w | 0 <= w < |shards|
      ensures Receives(whole, shards[w], route, w)
    {
      forall ptr: nat
        ensures OfPtr(shards[w], ptr) == if route(ptr) == w then OfPtr(whole, ptr) else []
      {
        RoutedOfPtr(whole, route, w, ptr);
      }
    }
    ShardingIsInvisible(whole, shards, route);
  }

  // ---------------------------------------------------------------------------------------------
  // Conservation

  function Allocations(es: seq<Input>): nat {
    if es == [] then 0 else Allocations(es[..|es| - 1]) + if es[|es| - 1].instr.Allocate? then 1 else 0
  }

  function Deallocations(es: seq<Input>): nat {
    if es == [] then 0 else Deallocations(es[..|es| - 1]) + if es[|es| - 1].instr.Deallocate? then 1 else 0
  }

  function Pairs(out: seq<MatchEvent>): nat {
    if out == [] then 0 else Pairs(out[..|out| - 1]) + if out[|out| - 1].Pair? then 1 else 0
  }

  function DoubleAllocs(out: seq<MatchEvent>): nat {
    if out == [] then 0
    else DoubleAllocs(out[..|out| - 1]) + if out[|out| - 1].Error? && out[|out| - 1].error.DoubleAlloc? then 1 else 0
  }

  function DoubleFrees(out: seq<MatchEvent>): nat {
    if out == [] then 0
    else DoubleFrees(out[..|out| - 1]) + if out[|out| - 1].Error? && out[|out| - 1].error.DoubleFree? then 1 else 0
  }

  lemma {:induction false} CountsSnoc(out: seq<MatchEvent>, m: MatchEvent)
    ensures Pairs(out + [m]) == Pairs(out) + if m.Pair? then 1 else 0
    ensures DoubleAllocs(out + [m]) == DoubleAllocs(out) + if m.Error? && m.error.DoubleAlloc? then 1 else 0
    ensures DoubleFrees(out + [m]) == DoubleFrees(out) + if m.Error? && m.error.DoubleFree? then 1 else 0
  {
    assert (out + [m])[..|out|] == out;
  }

  lemma StashSize(stash: Stash, ptr: nat, info: AllocInfo)
    ensures |stash[ptr := info]| == if ptr in stash then |stash| else |stash| + 1
    ensures |stash - {ptr}| == if ptr in stash then |stash| - 1 else |stash|
  {
    var more, less := stash[ptr := info], stash - {ptr};
    assert more.Keys == stash.Keys + {ptr};
    assert less.Keys == stash.Keys - {ptr};
    assert |more| == |more.Keys| && |less| == |less.Keys| && |stash| == |stash.Keys|;
  }

  // Every allocation is paired, displaced or still outstanding; every free is paired or an error.
  lemma {:induction false} EventsAreConserved(es: seq<Input>)
    ensures var m := MatchAll(es);
            && Allocations(es) == Pairs(m.out) + DoubleAllocs(m.out) + |m.stash|
            && Deallocations(es) == Pairs(m.out) + DoubleFrees(m.out)
  {
    if es != [] {
      var front, e := es[..|es| - 1], es[|es| - 1];
      EventsAreConserved(front);
      var m := MatchAll(front);
      if !e.instr.Stack? {
        StashSize(m.stash, e.instr.ptr, InfoOf(e));
      }
      var more := Emitted(m.stash, e);
      if more == [] {
        assert m.out + more == m.out;
      } else {
        CountsSnoc(m.out, more[0]);
        assert more == [more[0]];
      }
    }
  }
}
