// What a receiver can rely on when it reads the gatherer's stream.
module StreamTheorems {
  import opened Frames
  import opened TrackTypes
  import opened GlobalTree
  import opened Translation
  import opened Gathering

  // ---------------------------------------------------------------------------------------------
  // The stream announces every global frame once, in order, before it is used

  ghost predicate Announced(g: Gathered) {
    SelfContained(Bare(Stream(g.wire))) && LogOf(Bare(Stream(g.wire))) == g.log
  }

  lemma {:induction false} DeliverAnnounced(v: Variant, g: Gathered, done: seq<Instr>, t: ThreadId, buffer: seq<Timed>)
    requires g.ok && GlobalOk(v, g.log) && Announced(g) && buffer != []
    requires Aligned(v, g.log, Table(g.tables, t), LogOf(done)) && SelfContained(done + Bare(buffer))
    ensures Announced(Process(v, g, Delivered(t, buffer)))
  {
    TranslateAligned(v, g.log, Table(g.tables, t), done, buffer);
    TranslateAnnounces(v, g.log, Table(g.tables, t), done, buffer, Bare(Stream(g.wire)));
    var r := Translate(v, g.log, Table(g.tables, t), buffer);
    WireSnoc(g.wire, Instructions(g.timestamp, t, r.out), t);
    BareAppend(Stream(g.wire), r.out);
  }

  // Over the whole wire, in either variant: retained records carry the indices 1, 2, 3, ... in order, each with
  // an earlier parent, every event refers to an announced frame or 0, and the records are the global tree.
  lemma {:induction false} StreamAnnounces(v: Variant, events: seq<Event>)
    requires Orderly(events)
    ensures Announced(Gather(v, events))
  {
    if events != [] {
      var front, e := events[..|events| - 1], events[|events| - 1];
      var g := Gather(v, front);
      assert events == front + [e];
      StreamAnnounces(v, front);
      GatherSteady(v, front);
      if e.Delivered? && e.buffer != [] {
        SentSnoc(front, e, e.thread);
        BareAppend(Sent(front, e.thread), e.buffer);
        DeliverAnnounced(v, g, Bare(Sent(front, e.thread)), e.thread, e.buffer);
      } else {
        ProcessOther(v, g, e, 0);
      }
    }
  }

  // ---------------------------------------------------------------------------------------------
  // Events keep their meaning

  // What the wire says about thread t, against what t logged.
  ghost predicate Faithful(v: Variant, g: Gathered, events: seq<Event>, t: ThreadId) {
    && InRange(g.log, Bare(WireOf(g.wire, t)))
    && InRange(Local(events, t), Bare(Sent(events, t)))
    && SameOps(v, g.log, Meaning(Local(events, t), Bare(Sent(events, t))), Meaning(g.log, Bare(WireOf(g.wire, t))))
    && EventTimes(WireOf(g.wire, t)) == EventTimes(Sent(events, t))
  }

  lemma {:induction false} FaithfulGrows(v: Variant, g: Gathered, g': Gathered, events: seq<Event>, e: Event,
                                         t: ThreadId)
    requires Faithful(v, g, events, t) && g.log <= g'.log
    requires Sent(events + [e], t) == Sent(events, t) && WireOf(g'.wire, t) == WireOf(g.wire, t)
    ensures Faithful(v, g', events + [e], t)
  {
    var ops := Meaning(Local(events, t), Bare(Sent(events, t)));
    SameOpsStable(v, g.log, g'.log, ops, Meaning(g.log, Bare(WireOf(g.wire, t))));
    MeaningPrefix(g.log, g'.log, Bare(WireOf(g.wire, t)));
  }

  lemma {:induction false} DeliverFaithful(v: Variant, g: Gathered, events: seq<Event>, t: ThreadId, buffer: seq<Timed>)
    requires Faithful(v, g, events, t) && Steady(v, g, events) && !Gone(events, t) && buffer != []
    requires SelfContained(Bare(Sent(events, t)) + Bare(buffer))
    requires |Translate(v, g.log, Table(g.tables, t), buffer).log| < TWO_32
    ensures var e := Delivered(t, buffer);
            Faithful(v, Process(v, g, e), events + [e], t)
  {
    hide Translate, Aligned, SameOps, Meaning, InRange, SelfContained;
    var e := Delivered(t, buffer);
    var done := Bare(Sent(events, t));
    var r := Translate(v, g.log, Table(g.tables, t), buffer);
    TranslateAligned(v, g.log, Table(g.tables, t), done, buffer);
    TranslateMeans(v, g.log, Table(g.tables, t), done, buffer);
    TranslateKeepsTimes(v, g.log, Table(g.tables, t), buffer);
    SentSnoc(events, e, t);
    WireSnoc(g.wire, Instructions(g.timestamp, t, r.out), t);
    EventTimesAppend(Sent(events, t), buffer);
    EventTimesAppend(WireOf(g.wire, t), r.out);
    BareAppend(Sent(events, t), buffer);
    BareAppend(WireOf(g.wire, t), r.out);
    LogOfAppend(done, Bare(buffer));
    JoinFaithful(v, g.log, r.log, Local(events, t), LogOf(done + Bare(buffer)),
                 done, Bare(buffer), Bare(WireOf(g.wire, t)), Bare(r.out));
  }

  lemma {:induction false} JoinFaithful(v: Variant, log: Log, log': Log, local: Log, local': Log,
                     done: seq<Instr>, xs: seq<Instr>, wire: seq<Instr>, out: seq<Instr>)
    requires log <= log' && local <= local'
    requires InRange(log, wire) && InRange(local, done) && InRange(log', out) && InRange(local', xs)
    requires SameOps(v, log, Meaning(local, done), Meaning(log, wire))
    requires SameOps(v, log', Meaning(local', xs), Meaning(log', out))
    ensures InRange(log', wire + out) && InRange(local', done + xs)
    ensures SameOps(v, log', Meaning(local', done + xs), Meaning(log', wire + out))
  {
    InRangeAppend(log', wire, out);
    InRangeAppend(local', done, xs);
    assert Meaning(log', wire + out) == Meaning(log, wire) + Meaning(log', out) by {
      MeaningPrefix(log, log', wire);
      MeaningAppend(log', wire, out);
    }
    assert Meaning(local', done + xs) == Meaning(local, done) + Meaning(local', xs) by {
      MeaningPrefix(local, local', done);
      MeaningAppend(local', done, xs);
    }
    SameOpsStable(v, log, log', Meaning(local, done), Meaning(log, wire));
    SameOpsAppend(v, log', Meaning(local, done), Meaning(log, wire), Meaning(local', xs), Meaning(log', out));
  }

  // At every moment the events on the wire from a thread, decoded against the records on the wire, are the
  // events delivered from it: same kinds, pointers, sizes and times, with stacks rendered.
  lemma {:induction false} GatherFaithful(v: Variant, events: seq<Event>, t: ThreadId)
    requires Orderly(events) && |Gather(v, events).log| < TWO_32
    ensures Faithful(v, Gather(v, events), events, t)
  {
    if events != [] {
      var front, e := events[..|events| - 1], events[|events| - 1];
      var g, g' := Gather(v, front), Gather(v, events);
      assert events == front + [e];
      GatherSteady(v, front);
      SentSnoc(front, e, t);
      if e.Delivered? && e.buffer != [] {
        BareAppend(Sent(front, e.thread), e.buffer);
        SentSnoc(front, e, e.thread);
        TranslateAligned(v, g.log, Table(g.tables, e.thread), Bare(Sent(front, e.thread)), e.buffer);
        GatherFaithful(v, front, t);
        if e.thread == t {
          DeliverFaithful(v, g, front, t, e.buffer);
        } else {
          WireSnoc(g.wire, g'.wire[|g'.wire| - 1], t);
          FaithfulGrows(v, g, g', front, e, t);
        }
      } else {
        GatherFaithful(v, front, t);
        assert Sent(events, t) == Sent(front, t);
        ProcessOther(v, g, e, t);
        FaithfulGrows(v, g, g', front, e, t);
      }
    }
  }

  // With children inserted under their own parent, translation preserves meaning outright.
  lemma {:induction false} DocumentedPreservesMeaning(events: seq<Event>, t: ThreadId)
    requires Orderly(events) && |Gather(UnderParent, events).log| < TWO_32
    ensures var g := Gather(UnderParent, events);
            Meaning(g.log, Bare(WireOf(g.wire, t))) == Meaning(Local(events, t), Bare(Sent(events, t)))
  {
    GatherFaithful(UnderParent, events, t);
    var g := Gather(UnderParent, events);
    var a, b := Meaning(g.log, Bare(WireOf(g.wire, t))), Meaning(Local(events, t), Bare(Sent(events, t)));
    forall i | 0 <= i < |a|
      ensures a[i] == b[i]
    {
      assert Renders(UnderParent, g.log, b[i].path, a[i].path);
    }
  }

  // ---------------------------------------------------------------------------------------------
  // The tree as written: when exactly an event keeps its stack

  // All pushes of a run in the order the gatherer performs them, as (ip, local parent).
  function Pushes(events: seq<Event>): Log {
    if events == [] then []
    else
      var e := events[|events| - 1];
      Pushes(events[..|events| - 1]) + if e.Delivered? then LogOf(Bare(e.buffer)) else []
  }

  // The first time ip occurs in the log, it occurs as an outermost frame.
  predicate FirstAtRoot(log: Log, ip: Ip) {
    First(log, ip) != 0 && log[First(log, ip) - 1].parent == 0
  }

  // The retained records and the pushes agree on which instruction pointers exist and which of them were
  // outermost when they first appeared.
  ghost predicate SameFirsts(log: Log, pushes: Log) {
    forall ip ::
      && (First(log, ip) == 0 <==> First(pushes, ip) == 0)
      && (FirstAtRoot(log, ip) <==> FirstAtRoot(pushes, ip))
  }

  lemma {:induction false} FirstSnoc(log: Log, e: Edge, ip: Ip)
    ensures First(log + [e], ip) ==
            if First(log, ip) != 0 then First(log, ip) else if e.ip == ip then |log| + 1 else 0
    ensures FirstAtRoot(log + [e], ip) <==>
            FirstAtRoot(log, ip) || (First(log, ip) == 0 && e.ip == ip && e.parent == 0)
  {
    assert (log + [e])[..|log|] == log;
  }

  lemma PushSameFirsts(log: Log, pushes: Log, parent: nat, global: nat, ip: Ip)
    requires SameFirsts(log, pushes) && (parent == 0 <==> global == 0)
    ensures SameFirsts(Push(AsWritten, log, global, ip).log, pushes + [Edge(ip, parent)])
  {
    forall i
      ensures var log' := Push(AsWritten, log, global, ip).log;
              var pushes' := pushes + [Edge(ip, parent)];
              && (First(log', i) == 0 <==> First(pushes', i) == 0)
              && (FirstAtRoot(log', i) <==> FirstAtRoot(pushes', i))
    {
      FirstSnoc(log, Edge(ip, global), i);
      FirstSnoc(pushes, Edge(ip, parent), i);
    }
  }

  lemma RewriteSameFirsts(log: Log, table: seq<nat>, local: Log, x: Timed, pushes: Log)
    requires WellFormed(log) && WellFormed(local) && Aligned(AsWritten, log, table, local)
    requires Backward(|local|, x.instr) && SameFirsts(log, pushes)
    ensures SameFirsts(Rewrite(AsWritten, log, table, x).log, pushes + EdgesOf(x.instr))
  {
    if x.instr.Stack? {
      var parent := x.instr.parent;
      assert Renders(AsWritten, log, PathOf(local, parent), PathOf(log, table[parent]));
      RootsMatch(log, local, parent, table[parent]);
      PushSameFirsts(log, pushes, parent, table[parent], x.instr.ip);
    } else {
      assert pushes + EdgesOf(x.instr) == pushes;
    }
  }

  lemma {:induction false} TranslateSameFirsts(log: Log, table: seq<nat>, done: seq<Instr>, xs: seq<Timed>, pushes: Log)
    requires GlobalOk(AsWritten, log) && Aligned(AsWritten, log, table, LogOf(done))
    requires SelfContained(done + Bare(xs)) && SameFirsts(log, pushes)
    ensures SameFirsts(Translate(AsWritten, log, table, xs).log, pushes + LogOf(Bare(xs)))
  {
    if xs == [] {
      assert pushes + LogOf(Bare(xs)) == pushes;
    } else {
      hide SameFirsts, Aligned, WellFormed, Backward, Rewrite, LogOf, Bare, Meaning;
      var front, x := xs[..|xs| - 1], xs[|xs| - 1];
      var s, local := Translate(AsWritten, log, table, front), LogOf(done + Bare(front));
      TranslateFront(AsWritten, log, table, done, xs);
      TranslateSameFirsts(log, table, done, front, pushes);
      SelfContainedWellFormed(done + Bare(front));
      RewriteSameFirsts(s.log, s.table, local, x, pushes + LogOf(Bare(front)));
      BareSnoc(done, xs);
      Snoc(Bare(front), x.instr);
      Associate(pushes, LogOf(Bare(front)), EdgesOf(x.instr));
    }
  }

  // The root is rendered by the root only.
  lemma {:induction false} RootsMatch(log: Log, local: Log, k: nat, global: nat)
    requires WellFormed(log) && WellFormed(local) && k <= |local| && global <= |log|
    requires Renders(AsWritten, log, PathOf(local, k), PathOf(log, global))
    ensures k == 0 <==> global == 0
  {
    PathNonEmpty(local, k);
    PathNonEmpty(log, global);
    if k != 0 {
      PathNonEmpty(log, First(log, PathOf(local, k)[0]));
    }
  }

  lemma {:induction false} GatherSameFirsts(events: seq<Event>)
    requires Orderly(events)
    ensures SameFirsts(Gather(AsWritten, events).log, Pushes(events))
  {
    if events != [] {
      var front, e := events[..|events| - 1], events[|events| - 1];
      var g := Gather(AsWritten, front);
      assert events == front + [e];
      GatherSameFirsts(front);
      GatherSteady(AsWritten, front);
      if e.Delivered? {
        SentSnoc(front, e, e.thread);
        BareAppend(Sent(front, e.thread), e.buffer);
        TranslateAligned(AsWritten, g.log, Table(g.tables, e.thread), Bare(Sent(front, e.thread)), e.buffer);
        TranslateSameFirsts(g.log, Table(g.tables, e.thread), Bare(Sent(front, e.thread)), e.buffer, Pushes(front));
      } else {
        assert Pushes(events) == Pushes(front);
      }
    }
  }

  // A rendered stack is the true stack exactly when its outermost instruction pointer was first announced as
  // an outermost frame; in every case the true stack is a suffix of it.
  lemma RendersExactly(log: Log, p: seq<Ip>, q: seq<Ip>)
    requires WellFormed(log) && Renders(AsWritten, log, p, q)
    ensures q == p <==> p == [] || FirstAtRoot(log, p[0])
    ensures |p| <= |q| && q[|q| - |p|..] == p
  {
    if p != [] {
      var k := First(log, p[0]);
      var base := PathOf(log, k);
      PathNonEmpty(log, k);
      PathNonEmpty(log, log[k - 1].parent);
      assert base[|base| - 1] == p[0];
      assert q == base + p[1..];
      assert p == [p[0]] + p[1..];
      assert q[|q| - |p|..] == p;
      if log[k - 1].parent == 0 {
        assert base == [p[0]];
      } else {
        assert |q| > |p|;
      }
    }
  }

  // As written, an event on the wire carries its own stack if and only if the stack is empty or the first push
  // of its outermost instruction pointer, by any thread, was a push below the root.
  lemma {:induction false} AsWrittenExactly(events: seq<Event>, t: ThreadId, i: nat)
    requires Orderly(events) && |Gather(AsWritten, events).log| < TWO_32
    requires i < |Meaning(Local(events, t), Bare(Sent(events, t)))|
    ensures var g := Gather(AsWritten, events);
            var sent := Meaning(Local(events, t), Bare(Sent(events, t)));
            var wire := Meaning(g.log, Bare(WireOf(g.wire, t)));
            && |wire| == |sent|
            && wire[i] == sent[i].(path := wire[i].path)
            && (wire[i].path == sent[i].path <==> sent[i].path == [] || FirstAtRoot(Pushes(events), sent[i].path[0]))
            && |sent[i].path| <= |wire[i].path|
            && wire[i].path[|wire[i].path| - |sent[i].path|..] == sent[i].path
  {
    GatherFaithful(AsWritten, events, t);
    GatherSteady(AsWritten, events);
    GatherSameFirsts(events);
    var g := Gather(AsWritten, events);
    OpExactly(g.log, Pushes(events), Meaning(Local(events, t), Bare(Sent(events, t))),
              Meaning(g.log, Bare(WireOf(g.wire, t))), i);
  }

  lemma OpExactly(log: Log, pushes: Log, sent: seq<Op>, wire: seq<Op>, i: nat)
    requires WellFormed(log) && SameFirsts(log, pushes) && SameOps(AsWritten, log, sent, wire) && i < |sent|
    ensures && wire[i] == sent[i].(path := wire[i].path)
            && (wire[i].path == sent[i].path <==> sent[i].path == [] || FirstAtRoot(pushes, sent[i].path[0]))
            && |sent[i].path| <= |wire[i].path|
            && wire[i].path[|wire[i].path| - |sent[i].path|..] == sent[i].path
  {
    RendersExactly(log, sent[i].path, wire[i].path);
  }

  // No instruction pointer is pushed both as an outermost frame and deeper.
  ghost predicate DepthsAgree(log: Log) {
    forall i, j | 0 <= i < |log| && 0 <= j < |log| && log[i].ip == log[j].ip ::
      log[i].parent == 0 <==> log[j].parent == 0
  }

  lemma {:induction false} LocalIsPushed(events: seq<Event>, t: ThreadId, e: Edge)
    requires e in Local(events, t)
    ensures e in Pushes(events)
  {
    if events == [] {
      assert false;
    } else {
      var front, last := events[..|events| - 1], events[|events| - 1];
      assert events == front + [last];
      SentSnoc(front, last, t);
      if last.Delivered? && last.thread == t {
        BareAppend(Sent(front, t), last.buffer);
        LogOfAppend(Bare(Sent(front, t)), Bare(last.buffer));
      } else {
        assert Sent(events, t) == Sent(front, t);
      }
      if e in Local(front, t) {
        LocalIsPushed(front, t, e);
      }
    }
  }

  // The outermost instruction pointer of a thread's stack was pushed below the root.
  lemma {:induction false} OutermostIsPushed(events: seq<Event>, t: ThreadId, k: nat)
    requires WellFormed(Local(events, t)) && 0 < k <= |Local(events, t)|
    ensures var p := PathOf(Local(events, t), k);
            p != [] && Edge(p[0], 0) in Pushes(events)
  {
    var log := Local(events, t);
    PathNonEmpty(log, k);
    var a := Ancestor(log, k, 1);
    PathNonEmpty(log, a);
    PathNonEmpty(log, log[a - 1].parent);
    assert |PathOf(log, a)| == 1;
    assert log[a - 1] == Edge(PathOf(log, k)[0], 0);
    LocalIsPushed(events, t, log[a - 1]);
  }

  lemma FirstOfAgreeing(log: Log, ip: Ip)
    requires DepthsAgree(log) && Edge(ip, 0) in log
    ensures FirstAtRoot(log, ip)
  {
    var i :| 0 <= i < |log| && log[i] == Edge(ip, 0);
    assert log[First(log, ip) - 1].ip == log[i].ip;
  }

  // In particular, as written, all stacks on the wire are right when no instruction pointer occurs both
  // outermost and deeper.
  lemma {:induction false} AsWrittenWhenDepthsAgree(events: seq<Event>, t: ThreadId, i: nat)
    requires Orderly(events) && |Gather(AsWritten, events).log| < TWO_32 && DepthsAgree(Pushes(events))
    requires i < |Meaning(Local(events, t), Bare(Sent(events, t)))|
    ensures var g := Gather(AsWritten, events);
            var wire := Meaning(g.log, Bare(WireOf(g.wire, t)));
            i < |wire| && wire[i] == Meaning(Local(events, t), Bare(Sent(events, t)))[i]
  {
    AsWrittenExactly(events, t, i);
    var local := Local(events, t);
    var p := Meaning(local, Bare(Sent(events, t)))[i].path;
    if p != [] {
      GatherFaithful(AsWritten, events, t);
      SentWellFormed(events, t);
      var k := PathOfOp(local, Bare(Sent(events, t)), i);
      OutermostIsPushed(events, t, k);
      FirstOfAgreeing(Pushes(events), p[0]);
    }
  }

  // Every event's stack is that of some frame.
  lemma {:induction false} PathOfOp(log: Log, xs: seq<Instr>, i: nat) returns (k: nat)
    requires InRange(log, xs) && i < |Meaning(log, xs)|
    ensures k <= |log| && Meaning(log, xs)[i].path == PathOf(log, k)
  {
    var front, x := xs[..|xs| - 1], xs[|xs| - 1];
    if i < |Meaning(log, front)| {
      k := PathOfOp(log, front, i);
    } else {
      k := x.traceIndex;
    }
  }

  // What a thread sent stays self-contained whatever the others do.
  lemma {:induction false} SentWellFormed(events: seq<Event>, t: ThreadId)
    requires Orderly(events)
    ensures WellFormed(Local(events, t))
  {
    if events == [] {
      assert Bare([]) == [];
    } else {
      var front, e := events[..|events| - 1], events[|events| - 1];
      assert events == front + [e];
      SentSnoc(front, e, t);
      if e.Delivered? && e.thread == t {
        SelfContainedWellFormed(Bare(Sent(events, t)));
      } else {
        SentWellFormed(front, t);
        assert Sent(events, t) == Sent(front, t);
      }
    }
  }
}
