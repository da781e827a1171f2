// Which frames the gatherer shares: the documented tree identifies equal stacks, the tree as written does not.
module TreeIdentity {
  import opened Frames
  import opened TrackTypes
  import opened GlobalTree
  import opened Translation
  import opened Gathering
  import opened StreamTheorems

  // Every frame a thread delivered is rendered by some retained record, even after the thread is gone.
  lemma {:induction false} DeliveredIsRetained(v: Variant, events: seq<Event>, t: ThreadId, j: nat) returns (k: nat)
    requires Orderly(events) && j <= |Local(events, t)|
    ensures k <= |Gather(v, events).log|
    ensures Renders(v, Gather(v, events).log, PathOf(Local(events, t), j), PathOf(Gather(v, events).log, k))
  {
    GatherSteady(v, events);
    var g := Gather(v, events);
    if !Gone(events, t) {
      k := Table(g.tables, t)[j];
    } else {
      var front, e := events[..|events| - 1], events[|events| - 1];
      assert events == front + [e];
      SentSnoc(front, e, t);
      assert Sent(events, t) == Sent(front, t);
      k := DeliveredIsRetained(v, front, t, j);
      GatherGrows(v, front, e);
      RendersStable(v, Gather(v, front).log, g.log, PathOf(Local(front, t), j), PathOf(Gather(v, front).log, k));
      PathOfPrefix(Gather(v, front).log, g.log, k);
    }
  }

  lemma {:induction false} GatherGrows(v: Variant, events: seq<Event>, e: Event)
    requires Orderly(events + [e])
    ensures Gather(v, events).log <= Gather(v, events + [e]).log
  {
    assert (events + [e])[..|events|] == events;
    GatherSteady(v, events);
    if e.Delivered? {
      SentSnoc(events, e, e.thread);
      BareAppend(Sent(events, e.thread), e.buffer);
      var g := Gather(v, events);
      TranslateAligned(v, g.log, Table(g.tables, e.thread), Bare(Sent(events, e.thread)), e.buffer);
    }
  }

  // A record retained while translating a buffer is an answer to one of the buffer's frames.
  lemma {:induction false} RetainedIsAnswer(v: Variant, log: Log, table: seq<nat>, xs: seq<Timed>, k: nat)
    requires Translate(v, log, table, xs).ok && |log| < k <= |Translate(v, log, table, xs).log|
    ensures k in Translate(v, log, table, xs).table
  {
    if xs != [] {
      var s := Translate(v, log, table, xs[..|xs| - 1]);
      var r := Rewrite(v, s.log, s.table, xs[|xs| - 1]);
      if k <= |s.log| {
        RetainedIsAnswer(v, log, table, xs[..|xs| - 1], k);
      } else {
        assert r.table == s.table + [k];
      }
    }
  }

  // Every retained record renders a frame that some thread delivered.
  lemma {:induction false} RetainedIsDelivered(v: Variant, events: seq<Event>, k: nat) returns (t: ThreadId, j: nat)
    requires Orderly(events) && 0 < k <= |Gather(v, events).log|
    ensures 0 < j <= |Local(events, t)|
    ensures Renders(v, Gather(v, events).log, PathOf(Local(events, t), j), PathOf(Gather(v, events).log, k))
  {
    var front, e := events[..|events| - 1], events[|events| - 1];
    assert events == front + [e];
    var g, g' := Gather(v, front), Gather(v, events);
    GatherSteady(v, front);
    GatherSteady(v, events);
    GatherGrows(v, front, e);
    if k <= |g.log| {
      t, j := RetainedIsDelivered(v, front, k);
      SentSnoc(front, e, t);
      LocalGrows(front, e, t, j);
      RendersStable(v, g.log, g'.log, PathOf(Local(front, t), j), PathOf(g.log, k));
      PathOfPrefix(g.log, g'.log, k);
    } else {
      t := e.thread;
      RetainedIsAnswer(v, g.log, Table(g.tables, t), e.buffer, k);
      SentSnoc(front, e, t);
      assert !Gone(events, t);
      j :| 0 <= j < |Table(g'.tables, t)| && Table(g'.tables, t)[j] == k;
    }
  }

  lemma {:induction false} LocalGrows(events: seq<Event>, e: Event, t: ThreadId, j: nat)
    requires j <= |Local(events, t)|
    ensures Local(events, t) <= Local(events + [e], t)
    ensures PathOf(Local(events + [e], t), j) == PathOf(Local(events, t), j)
  {
    SentSnoc(events, e, t);
    if e.Delivered? && e.thread == t {
      BareAppend(Sent(events, t), e.buffer);
      LogOfAppend(Bare(Sent(events, t)), Bare(e.buffer));
    } else {
      assert Sent(events + [e], t) == Sent(events, t);
    }
    PathOfPrefix(Local(events, t), Local(events + [e], t), j);
  }

  // Some frame of the tree has this stack.
  ghost predicate HasFrame(log: Log, path: seq<Ip>) {
    exists k :: 0 < k <= |log| && PathOf(log, k) == path
  }

  // Some thread's delivered frames include this stack.
  ghost predicate HasDelivered(events: seq<Event>, path: seq<Ip>) {
    exists t: ThreadId :: HasFrame(Local(events, t), path)
  }

  lemma {:induction false} DeliveredHasFrame(events: seq<Event>, path: seq<Ip>)
    requires Orderly(events) && path != [] && HasDelivered(events, path)
    ensures HasFrame(Gather(UnderParent, events).log, path)
  {
    var t: ThreadId :| HasFrame(Local(events, t), path);
    var j :| 0 < j <= |Local(events, t)| && PathOf(Local(events, t), j) == path;
    var k := DeliveredIsRetained(UnderParent, events, t, j);
    GatherSteady(UnderParent, events);
    PathNonEmpty(Gather(UnderParent, events).log, k);
  }

  lemma {:induction false} FrameHasDelivered(events: seq<Event>, path: seq<Ip>)
    requires Orderly(events) && HasFrame(Gather(UnderParent, events).log, path)
    ensures HasDelivered(events, path)
  {
    var log := Gather(UnderParent, events).log;
    var k :| 0 < k <= |log| && PathOf(log, k) == path;
    var t, j := RetainedIsDelivered(UnderParent, events, k);
    assert HasFrame(Local(events, t), path);
  }

  // The documented tree: across all threads and interleavings the retained records are exactly the distinct
  // delivered stacks, each once.
  lemma {:induction false} DocumentedRetainsDistinct(events: seq<Event>, path: seq<Ip>)
    requires Orderly(events) && path != []
    ensures var log := Gather(UnderParent, events).log;
            && (forall i, k | 0 < i <= |log| && 0 < k <= |log| && PathOf(log, i) == PathOf(log, k) :: i == k)
            && (HasFrame(log, path) <==> HasDelivered(events, path))
  {
    GatherSteady(UnderParent, events);
    var log := Gather(UnderParent, events).log;
    forall i, k | 0 < i <= |log| && 0 < k <= |log| && PathOf(log, i) == PathOf(log, k)
      ensures i == k
    {
      PathInjective(log, i, k);
    }
    if HasFrame(log, path) {
      FrameHasDelivered(events, path);
    }
    if HasDelivered(events, path) {
      DeliveredHasFrame(events, path);
    }
  }

  lemma {:induction false} HistoryGrows(v: Variant, early: seq<Event>, more: seq<Event>)
    requires Orderly(early + more)
    ensures Orderly(early) && Gather(v, early).log <= Gather(v, early + more).log
  {
    if more == [] {
      assert early + more == early;
    } else {
      var front := early + more[..|more| - 1];
      assert early + more == front + [more[|more| - 1]];
      assert (early + more)[..|early + more| - 1] == front;
      HistoryGrows(v, early, more[..|more| - 1]);
      GatherGrows(v, front, more[|more| - 1]);
    }
  }

  // Two pushes, of any two threads and at any two moments, get the same global index exactly when the frames
  // pushed are the same stack: the j-th frame of t in the history `early`, and the k-th frame of u in any longer
  // history. Each thread only has to be live when it gets its answer.
  lemma {:induction false} DocumentedIdentifies(early: seq<Event>, more: seq<Event>, t: ThreadId, j: nat, u: ThreadId,
                                                k: nat)
    requires Orderly(early + more) && !Gone(early, t) && !Gone(early + more, u)
    requires j <= |Local(early, t)| && k <= |Local(early + more, u)|
    ensures var a, b := Gather(UnderParent, early).tables, Gather(UnderParent, early + more).tables;
            && |Table(a, t)| == |Local(early, t)| + 1
            && |Table(b, u)| == |Local(early + more, u)| + 1
            && (Table(a, t)[j] == Table(b, u)[k] <==>
                PathOf(Local(early, t), j) == PathOf(Local(early + more, u), k))
  {
    HistoryGrows(UnderParent, early, more);
    GatherSteady(UnderParent, early);
    GatherSteady(UnderParent, early + more);
    var g, g' := Gather(UnderParent, early), Gather(UnderParent, early + more);
    SameIndexSameStack(g.log, g'.log, Table(g.tables, t), Local(early, t), j,
                       Table(g'.tables, u), Local(early + more, u), k);
  }

  lemma {:induction false} SameIndexSameStack(log: Log, longer: Log, a: seq<nat>, x: Log, j: nat, b: seq<nat>, y: Log,
                                              k: nat)
    requires log <= longer && GlobalOk(UnderParent, longer)
    requires Aligned(UnderParent, log, a, x) && Aligned(UnderParent, longer, b, y) && j <= |x| && k <= |y|
    ensures a[j] == b[k] <==> PathOf(x, j) == PathOf(y, k)
  {
    PathOfPrefix(log, longer, a[j]);
    assert Renders(UnderParent, log, PathOf(x, j), PathOf(log, a[j]));
    assert Renders(UnderParent, longer, PathOf(y, k), PathOf(longer, b[k]));
    if PathOf(x, j) == PathOf(y, k) {
      PathInjective(longer, a[j], b[k]);
    }
  }

  // The answer `updated` to a push below a frame, in any reachable state of the gatherer: true exactly when no
  // thread has delivered the pushed stack before.
  lemma {:induction false} DocumentedUpdatesOnce(events: seq<Event>, t: ThreadId, parent: nat, ip: Ip)
    requires Orderly(events) && !Gone(events, t) && parent <= |Local(events, t)|
    ensures var g := Gather(UnderParent, events);
            && |Table(g.tables, t)| == |Local(events, t)| + 1
            && (Push(UnderParent, g.log, Table(g.tables, t)[parent], ip).updated <==>
                !HasDelivered(events, PathOf(Local(events, t), parent) + [ip]))
  {
    GatherSteady(UnderParent, events);
    var g := Gather(UnderParent, events);
    var global, path := Table(g.tables, t)[parent], PathOf(Local(events, t), parent) + [ip];
    assert Renders(UnderParent, g.log, PathOf(Local(events, t), parent), PathOf(g.log, global));
    DocumentedRetainsDistinct(events, path);
    KnownExactly(g.log, global, ip);
  }

  lemma {:induction false} KnownExactly(log: Log, parent: nat, ip: Ip)
    requires WellFormed(log) && Distinct(log) && parent <= |log|
    ensures Known(UnderParent, log, parent, ip) != 0 <==> HasFrame(log, PathOf(log, parent) + [ip])
  {
    if Edge(ip, parent) in log {
      EdgeHasFrame(log, parent, ip);
    } else if HasFrame(log, PathOf(log, parent) + [ip]) {
      FrameHasEdge(log, parent, ip);
    }
  }

  lemma {:induction false} EdgeHasFrame(log: Log, parent: nat, ip: Ip)
    requires WellFormed(log) && Edge(ip, parent) in log
    ensures HasFrame(log, PathOf(log, parent) + [ip])
  {
    var i :| 0 <= i < |log| && log[i] == Edge(ip, parent);
    assert PathOf(log, i + 1) == PathOf(log, parent) + [ip];
  }

  lemma {:induction false} FrameHasEdge(log: Log, parent: nat, ip: Ip)
    requires WellFormed(log) && Distinct(log) && parent <= |log| && HasFrame(log, PathOf(log, parent) + [ip])
    ensures Edge(ip, parent) in log
  {
    var j :| 0 < j <= |log| && PathOf(log, j) == PathOf(log, parent) + [ip];
    SameParent(log, j, parent, ip);
  }

  lemma {:induction false} SameParent(log: Log, j: nat, parent: nat, ip: Ip)
    requires WellFormed(log) && Distinct(log) && parent <= |log| && 0 < j <= |log|
    requires PathOf(log, j) == PathOf(log, parent) + [ip]
    ensures log[j - 1] == Edge(ip, parent)
  {
    var p := log[j - 1].parent;
    assert PathOf(log, j)[..|PathOf(log, j)| - 1] == PathOf(log, p);
    assert (PathOf(log, parent) + [ip])[..|PathOf(log, parent)|] == PathOf(log, parent);
    PathInjective(log, p, parent);
  }

  // Within a buffer too: whether the i-th instruction of a buffer, a frame, is retained depends on what was
  // delivered before it, including the instructions before it in the buffer.
  lemma {:induction false} DocumentedRetainsFirst(events: seq<Event>, t: ThreadId, buffer: seq<Timed>, i: nat)
    requires Orderly(events + [Delivered(t, buffer)]) && i < |buffer| && buffer[i].instr.Stack?
    ensures var g := Gather(UnderParent, events);
            var s := Translate(UnderParent, g.log, Table(g.tables, t), buffer[..i]);
            var before := events + [Delivered(t, buffer[..i])];
            var x := buffer[i].instr;
            && x.parent <= |Local(before, t)|
            && (Rewrite(UnderParent, s.log, s.table, buffer[i]).out != [] <==>
                !HasDelivered(before, PathOf(Local(before, t), x.parent) + [x.ip]))
  {
    var before := events + [Delivered(t, buffer[..i])];
    var x := buffer[i].instr;
    OrderlyPrefix(events, t, buffer, i);
    CutState(events, t, buffer[..i]);
    DocumentedUpdatesOnce(before, t, x.parent, x.ip);
    var g := Gather(UnderParent, before);
    GatherSteady(UnderParent, before);
    RetainsUpdates(g.log, Table(g.tables, t), buffer[i]);
  }

  // Having processed part of a buffer is having translated it.
  lemma {:induction false} CutState(events: seq<Event>, t: ThreadId, part: seq<Timed>)
    requires Orderly(events + [Delivered(t, part)])
    ensures var g, g' := Gather(UnderParent, events), Gather(UnderParent, events + [Delivered(t, part)]);
            Translate(UnderParent, g.log, Table(g.tables, t), part) ==
            Translated(true, g'.log, Table(g'.tables, t), Translate(UnderParent, g.log, Table(g.tables, t), part).out)
  {
    GatherSnoc(UnderParent, events, Delivered(t, part));
    assert (events + [Delivered(t, part)])[..|events|] == events;
    GatherSteady(UnderParent, events);
    GatherSteady(UnderParent, events + [Delivered(t, part)]);
  }

  lemma RetainsUpdates(log: Log, table: seq<nat>, x: Timed)
    requires x.instr.Stack? && TableOk(log, table) && x.instr.parent < |table|
    ensures Rewrite(UnderParent, log, table, x).out != [] <==>
            Push(UnderParent, log, table[x.instr.parent], x.instr.ip).updated
  {
  }

  // A buffer may be cut short.
  lemma {:induction false} OrderlyPrefix(events: seq<Event>, t: ThreadId, buffer: seq<Timed>, i: nat)
    requires Orderly(events + [Delivered(t, buffer)]) && i < |buffer|
    ensures var before := events + [Delivered(t, buffer[..i])];
            && Orderly(before) && !Gone(before, t) && !Gone(events, t) && Orderly(events)
            && Backward(|Local(before, t)|, buffer[i].instr)
  {
    var e, e' := Delivered(t, buffer), Delivered(t, buffer[..i]);
    assert (events + [e])[..|events|] == events && (events + [e'])[..|events|] == events;
    SentSnoc(events, e, t);
    SentSnoc(events, e', t);
    CutSelfContained(Sent(events, t), buffer, i);
  }

  lemma CutSelfContained(done: seq<Timed>, buffer: seq<Timed>, i: nat)
    requires SelfContained(Bare(done + buffer)) && i < |buffer|
    ensures SelfContained(Bare(done + buffer[..i])) && Backward(|LogOf(Bare(done + buffer[..i]))|, buffer[i].instr)
  {
    var front, rest := Bare(done + buffer[..i]), Bare(buffer[i + 1..]);
    assert Bare(done + buffer) == front + [buffer[i].instr] + rest;
    SelfContainedPrefix(front + [buffer[i].instr], rest);
    Snoc(front, buffer[i].instr);
  }

  // ---------------------------------------------------------------------------------------------
  // At most one record is retained per push.
  lemma {:induction false} RetainedBounded(v: Variant, events: seq<Event>)
    requires Orderly(events)
    ensures |Gather(v, events).log| <= |Pushes(events)|
  {
    if events != [] {
      var front, e := events[..|events| - 1], events[|events| - 1];
      var g := Gather(v, front);
      RetainedBounded(v, front);
      if e.Delivered? {
        TranslateBounded(v, g.log, Table(g.tables, e.thread), e.buffer);
      }
    }
  }

  lemma {:induction false} TranslateBounded(v: Variant, log: Log, table: seq<nat>, xs: seq<Timed>)
    ensures |Translate(v, log, table, xs).log| <= |log| + |LogOf(Bare(xs))|
  {
    if xs != [] {
      var front, x := xs[..|xs| - 1], xs[|xs| - 1];
      TranslateBounded(v, log, table, front);
      BareSnoc([], xs);
      Snoc(Bare(front), x.instr);
    }
  }

  lemma {:induction false} FirstIs(log: Log, ip: Ip, k: nat)
    requires 0 < k <= |log| && log[k - 1].ip == ip && forall i | 0 <= i < k - 1 :: log[i].ip != ip
    ensures First(log, ip) == k
  {
  }
}
