// The times of announced frames: a frame travels with the time of the push that first announced it, into the
// stream and through the resolver.
module FrameTimes {
  import opened Frames
  import opened TrackTypes
  import opened GlobalTree
  import opened Translation
  import opened Gathering
  import opened Protocol

  // ---------------------------------------------------------------------------------------------
  // One buffer

  // With the i-th instruction of the buffer the tree grows from k frames to k + 1.
  ghost predicate RetainsAt(v: Variant, log: Log, table: seq<nat>, xs: seq<Timed>, i: nat, k: nat) {
    && i < |xs| && xs[i].instr.Stack?
    && |Translate(v, log, table, xs[..i]).log| == k && |Translate(v, log, table, xs[..i + 1]).log| == k + 1
  }

  ghost predicate RetainedAt(v: Variant, log: Log, table: seq<nat>, xs: seq<Timed>, k: nat, time: Time) {
    exists i: nat :: RetainsAt(v, log, table, xs, i, k) && xs[i].time == time
  }

  lemma RewriteInfos(v: Variant, log: Log, table: seq<nat>, x: Timed)
    ensures var r := Rewrite(v, log, table, x);
            if |r.log| == |log| then InfosOf(r.out) == []
            else x.instr.Stack? && |r.log| == |log| + 1 && InfosOf(r.out) == [StackInfo(x.time, |log| + 1, x.instr.ip)]
  {
    var r := Rewrite(v, log, table, x);
    if r.out != [] {
      assert r.out == [r.out[0]] && r.out[..0] == [];
    }
  }

  ghost predicate InfosFrom(v: Variant, log: Log, table: seq<nat>, xs: seq<Timed>, infos: seq<StackInfo>) {
    forall j: nat | j < |infos| :: RetainedAt(v, log, table, xs, |log| + j, infos[j].time)
  }

  // The frames retained from a buffer are stamped with the times of the pushes that they come from.
  lemma {:induction false} TranslateInfos(v: Variant, log: Log, table: seq<nat>, xs: seq<Timed>)
    requires Translate(v, log, table, xs).ok
    ensures var r := Translate(v, log, table, xs);
            |r.log| == |log| + |InfosOf(r.out)| && InfosFrom(v, log, table, xs, InfosOf(r.out))
  {
    if xs == [] {
      assert InfosOf([]) == [];
    } else {
      hide InfosOf, Rewrite, RetainsAt;
      var front, x := xs[..|xs| - 1], xs[|xs| - 1];
      var s := Translate(v, log, table, front);
      var r := Rewrite(v, s.log, s.table, x);
      TranslateInfos(v, log, table, front);
      RewriteInfos(v, s.log, s.table, x);
      InfosOfAppend(s.out, r.out);
      var infos := InfosOf(s.out) + InfosOf(r.out);
      forall j: nat | j < |infos|
        ensures RetainedAt(v, log, table, xs, |log| + j, infos[j].time)
      {
        if j < |InfosOf(s.out)| {
          RetainedLonger(v, log, table, xs, |log| + j, infos[j].time);
        } else {
          LastRetains(v, log, table, xs);
        }
      }
    }
  }

  lemma LastRetains(v: Variant, log: Log, table: seq<nat>, xs: seq<Timed>)
    requires xs != [] && xs[|xs| - 1].instr.Stack?
    requires |Translate(v, log, table, xs).log| == |Translate(v, log, table, xs[..|xs| - 1]).log| + 1
    ensures RetainedAt(v, log, table, xs, |Translate(v, log, table, xs[..|xs| - 1]).log|, xs[|xs| - 1].time)
  {
    assert xs[..|xs|] == xs;
    assert RetainsAt(v, log, table, xs, |xs| - 1, |Translate(v, log, table, xs[..|xs| - 1]).log|);
  }

  lemma RetainedLonger(v: Variant, log: Log, table: seq<nat>, xs: seq<Timed>, k: nat, time: Time)
    requires xs != [] && RetainedAt(v, log, table, xs[..|xs| - 1], k, time)
    ensures RetainedAt(v, log, table, xs, k, time)
  {
    var front := xs[..|xs| - 1];
    var i: nat :| RetainsAt(v, log, table, front, i, k) && front[i].time == time;
    assert front[..i] == xs[..i] && front[..i + 1] == xs[..i + 1];
    assert RetainsAt(v, log, table, xs, i, k);
  }

  // ---------------------------------------------------------------------------------------------
  // A history

  // In the n-th event the gatherer first retained frame k + 1, from a push made at the given time.
  ghost predicate RetainedIn(v: Variant, events: seq<Event>, n: nat, k: nat, time: Time) {
    && n < |events| && events[n].Delivered?
    && var g := Gather(v, events[..n]);
       RetainedAt(v, g.log, Table(g.tables, events[n].thread), events[n].buffer, k, time)
  }

  // Frame k + 1 was first retained from a push made at the given time.
  ghost predicate FirstPushedAt(v: Variant, events: seq<Event>, k: nat, time: Time) {
    exists n: nat :: RetainedIn(v, events, n, k, time)
  }

  // The frames on the wire carry the times at which they were first pushed.
  ghost predicate FramesTimed(v: Variant, events: seq<Event>, infos: seq<StackInfo>) {
    forall k: nat | k < |infos| :: FirstPushedAt(v, events, k, infos[k].time)
  }

  lemma {:induction false} InfosTimed(v: Variant, events: seq<Event>)
    requires Orderly(events)
    ensures var g := Gather(v, events);
            |InfosOf(Stream(g.wire))| == |g.log| && FramesTimed(v, events, InfosOf(Stream(g.wire)))
  {
    if events == [] {
      assert InfosOf([]) == [] && Stream([]) == [];
    } else {
      hide InfosOf, Translate, Stream, FirstPushedAt;
      var front, e := events[..|events| - 1], events[|events| - 1];
      assert events == front + [e];
      InfosTimed(v, front);
      GatherSteady(v, front);
      GatherSteady(v, events);
      StillTimed(v, front, e, InfosOf(Stream(Gather(v, front).wire)));
      if e.Delivered? && e.buffer != [] {
        DeliverInfos(v, front, e);
      } else {
        ProcessOther(v, Gather(v, front), e, 0);
      }
    }
  }

  lemma StillTimed(v: Variant, events: seq<Event>, e: Event, infos: seq<StackInfo>)
    requires FramesTimed(v, events, infos)
    ensures FramesTimed(v, events + [e], infos)
  {
    forall k: nat | k < |infos|
      ensures FirstPushedAt(v, events + [e], k, infos[k].time)
    {
      assert FirstPushedAt(v, events, k, infos[k].time);
      var n: nat :| RetainedIn(v, events, n, k, infos[k].time);
      assert (events + [e])[..n] == events[..n];
      assert RetainedIn(v, events + [e], n, k, infos[k].time);
    }
  }

  lemma {:induction false} DeliverInfos(v: Variant, events: seq<Event>, e: Event)
    requires e.Delivered? && e.buffer != [] && Gather(v, events).ok && Gather(v, events + [e]).ok
    requires var g := Gather(v, events);
             |InfosOf(Stream(g.wire))| == |g.log| && FramesTimed(v, events + [e], InfosOf(Stream(g.wire)))
    ensures var g := Gather(v, events + [e]);
            |InfosOf(Stream(g.wire))| == |g.log| && FramesTimed(v, events + [e], InfosOf(Stream(g.wire)))
  {
    hide InfosOf, Stream, Translate, RetainedAt;
    var all, g := events + [e], Gather(v, events);
    GatherSnoc(v, events, e);
    var table := Table(g.tables, e.thread);
    var r := Translate(v, g.log, table, e.buffer);
    TranslateInfos(v, g.log, table, e.buffer);
    WireSnoc(g.wire, Instructions(g.timestamp, e.thread, r.out), 0);
    InfosOfAppend(Stream(g.wire), r.out);
    var before, infos := InfosOf(Stream(g.wire)), InfosOf(Stream(g.wire)) + InfosOf(r.out);
    forall k: nat | k < |infos|
      ensures FirstPushedAt(v, all, k, infos[k].time)
    {
      if k < |before| {
        assert FirstPushedAt(v, all, k, before[k].time);
      } else {
        assert RetainedAt(v, g.log, table, e.buffer, |g.log| + (k - |before|), InfosOf(r.out)[k - |before|].time);
        assert all[..|events|] == events;
        assert RetainedIn(v, all, |events|, k, infos[k].time);
      }
    }
  }
}
