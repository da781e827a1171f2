// The gatherer's rewriting of thread-local instruction buffers into the global stream, and what the stream means.
module Translation {
  import opened Frames
  import opened TrackTypes
  import opened GlobalTree

  // ---------------------------------------------------------------------------------------------
  // One buffer

  // `ok` is false where the program panics on an index out of range.
  datatype Translated = Translated(ok: bool, log: Log, table: seq<nat>, out: seq<Timed>)

  // One instruction: the new global log and thread table, and the instruction to retain, if any.
  function Rewrite(v: Variant, log: Log, table: seq<nat>, x: Timed): Translated {
    match x.instr
    case Stack(ip, parent, _) =>
      if parent != 0 && (parent >= |table| || table[parent] > |log|) then Translated(false, log, table, [])
      else
        var global := if parent == 0 then 0 else table[parent];
        var p := Push(v, log, global, ip);
        Translated(true, p.log, table + [p.index],
                   if p.updated then [Timed(Stack(ip, global, p.index), x.time)] else [])
    case Allocate(ptr, size, traceIndex) =>
      if traceIndex >= |table| then Translated(false, log, table, [])
      else Translated(true, log, table, [Timed(Allocate(ptr, size, AsU32(table[traceIndex])), x.time)])
    case Deallocate(ptr, size, traceIndex) =>
      if traceIndex >= |table| then Translated(false, log, table, [])
      else Translated(true, log, table, [Timed(Deallocate(ptr, size, AsU32(table[traceIndex])), x.time)])
  }

  function Translate(v: Variant, log: Log, table: seq<nat>, xs: seq<Timed>): Translated {
    if xs == [] then Translated(true, log, table, [])
    else
      var s := Translate(v, log, table, xs[..|xs| - 1]);
      if !s.ok then s
      else
        var r := Rewrite(v, s.log, s.table, xs[|xs| - 1]);
        Translated(r.ok, r.log, r.table, s.out + r.out)
  }

  // ---------------------------------------------------------------------------------------------
  // What a translated frame stands for

  // The stack that a receiver reads for a frame whose stack is p. With children inserted under their own
  // parent it is p itself. As the program is written, the outermost frame is replaced by whatever stack the
  // first retained record at that instruction pointer has.
  ghost predicate Renders(v: Variant, log: Log, p: seq<Ip>, q: seq<Ip>) {
    match v
    case UnderParent => q == p
    case AsWritten =>
      if p == [] then q == []
      else First(log, p[0]) != 0 && q == PathOf(log, First(log, p[0])) + p[1..]
  }

  ghost predicate GlobalOk(v: Variant, log: Log) {
    WellFormed(log) && (v.UnderParent? ==> Distinct(log))
  }

  // A thread's table is as long as its own frames are many, and every entry renders its frame.
  ghost predicate Aligned(v: Variant, log: Log, table: seq<nat>, local: Log) {
    && |table| == |local| + 1
    && TableOk(log, table)
    && forall k | 0 <= k <= |local| :: Renders(v, log, PathOf(local, k), PathOf(log, table[k]))
  }

  lemma RendersStable(v: Variant, log: Log, longer: Log, p: seq<Ip>, q: seq<Ip>)
    requires log <= longer && Renders(v, log, p, q)
    ensures Renders(v, longer, p, q)
  {
    if v.AsWritten? && p != [] {
      FirstStable(log, longer, p[0]);
      PathOfPrefix(log, longer, First(log, p[0]));
    }
  }

  // The same events, stacks rendered.
  ghost predicate SameOps(v: Variant, log: Log, local: seq<Op>, global: seq<Op>) {
    && |local| == |global|
    && forall i | 0 <= i < |local| ::
         && local[i].isAlloc == global[i].isAlloc
         && local[i].ptr == global[i].ptr
         && local[i].size == global[i].size
         && Renders(v, log, local[i].path, global[i].path)
  }

  lemma SameOpsStable(v: Variant, log: Log, longer: Log, local: seq<Op>, global: seq<Op>)
    requires log <= longer && SameOps(v, log, local, global)
    ensures SameOps(v, longer, local, global)
  {
    forall i | 0 <= i < |local|
      ensures Renders(v, longer, local[i].path, global[i].path)
    {
      RendersStable(v, log, longer, local[i].path, global[i].path);
    }
  }

  lemma AlignedStable(v: Variant, log: Log, longer: Log, table: seq<nat>, local: Log)
    requires log <= longer && Aligned(v, log, table, local)
    ensures Aligned(v, longer, table, local)
  {
    forall k | 0 <= k <= |local|
      ensures Renders(v, longer, PathOf(local, k), PathOf(longer, table[k]))
    {
      RendersStable(v, log, longer, PathOf(local, k), PathOf(log, table[k]));
      PathOfPrefix(log, longer, table[k]);
    }
  }

  // Pushing the frame ip below a frame that renders p yields a frame that renders p + [ip].
  lemma {:induction false} PushRenders(v: Variant, log: Log, parent: nat, ip: Ip, p: seq<Ip>)
    requires GlobalOk(v, log) && parent <= |log|
    requires Renders(v, log, p, PathOf(log, parent))
    ensures var r := Push(v, log, parent, ip);
            && GlobalOk(v, r.log) && log <= r.log && 0 < r.index <= |r.log|
            && Renders(v, r.log, p + [ip], PathOf(r.log, r.index))
  {
    hide Push, WellFormed;
    PushOk(v, log, parent, ip);
    if v.UnderParent? {
      PushUnder(log, parent, ip);
    } else if p == [] {
      PathNonEmpty(log, parent);
      PushOutermost(log, ip);
    } else {
      PushInner(log, parent, ip, p);
    }
  }

  lemma PushOk(v: Variant, log: Log, parent: nat, ip: Ip)
    requires GlobalOk(v, log) && parent <= |log|
    ensures var r := Push(v, log, parent, ip);
            GlobalOk(v, r.log) && log <= r.log && 0 < r.index <= |r.log|
  {
  }

  lemma {:induction false} PushUnder(log: Log, parent: nat, ip: Ip)
    requires WellFormed(log) && parent <= |log|
    ensures var r := Push(UnderParent, log, parent, ip);
            0 < r.index <= |r.log| && PathOf(r.log, r.index) == PathOf(log, parent) + [ip]
  {
    var r := Push(UnderParent, log, parent, ip);
    PathOfPrefix(log, r.log, parent);
    assert r.log[r.index - 1] == Edge(ip, parent);
  }

  lemma PushOutermost(log: Log, ip: Ip)
    requires WellFormed(log)
    ensures var r := Push(AsWritten, log, 0, ip);
            Renders(AsWritten, r.log, [] + [ip], PathOf(r.log, r.index))
  {
    var r := Push(AsWritten, log, 0, ip);
    FirstPushed(log, ip);
    assert [] + [ip] == [ip];
    RendersFirst(r.log, ip);
  }

  lemma {:induction false} FirstPushed(log: Log, ip: Ip)
    ensures First(Push(AsWritten, log, 0, ip).log, ip) == Push(AsWritten, log, 0, ip).index != 0
  {
    if First(log, ip) == 0 {
      FirstFresh(log, Edge(ip, 0));
    }
  }

  lemma {:induction false} RendersFirst(log: Log, ip: Ip)
    requires First(log, ip) != 0
    ensures Renders(AsWritten, log, [ip], PathOf(log, First(log, ip)))
  {
    assert [ip][1..] == [];
    assert PathOf(log, First(log, ip)) + [] == PathOf(log, First(log, ip));
  }

  lemma {:induction false} PushInner(log: Log, parent: nat, ip: Ip, p: seq<Ip>)
    requires WellFormed(log) && parent <= |log| && p != []
    requires Renders(AsWritten, log, p, PathOf(log, parent))
    ensures var r := Push(AsWritten, log, parent, ip);
            Renders(AsWritten, r.log, p + [ip], PathOf(r.log, r.index))
  {
    var r := Push(AsWritten, log, parent, ip);
    var first := First(log, p[0]);
    PathNonEmpty(log, first);
    PathNonEmpty(log, parent);
    assert parent != 0;
    FirstStable(log, r.log, p[0]);
    PathOfPrefix(log, r.log, first);
    PathOfPrefix(log, r.log, parent);
    assert PathOf(r.log, r.index) == PathOf(log, parent) + [ip];
    assert (p + [ip])[1..] == p[1..] + [ip];
  }

  lemma {:induction false} FirstFresh(log: Log, e: Edge)
    requires First(log, e.ip) == 0
    ensures First(log + [e], e.ip) == |log| + 1
  {
    assert (log + [e])[|log|] == e;
  }

  // ---------------------------------------------------------------------------------------------
  // One instruction

  // Recording the answer to a push extends the alignment by one frame.
  lemma {:induction false} AlignedSnoc(v: Variant, log: Log, table: seq<nat>, local: Log, e: Edge, index: nat)
    requires Aligned(v, log, table, local) && e.parent <= |local| && index <= |log|
    requires Renders(v, log, PathOf(local, e.parent) + [e.ip], PathOf(log, index))
    ensures Aligned(v, log, table + [index], local + [e])
  {
    var longer := local + [e];
    forall k | 0 <= k <= |longer|
      ensures Renders(v, log, PathOf(longer, k), PathOf(log, (table + [index])[k]))
    {
      if k <= |local| {
        PathOfPrefix(local, longer, k);
      } else {
        PathOfPrefix(local, longer, e.parent);
      }
    }
  }

  // Rewriting never panics and keeps the numbering aligned.
  lemma RewriteAligned(v: Variant, log: Log, table: seq<nat>, local: Log, x: Timed)
    requires GlobalOk(v, log) && Aligned(v, log, table, local) && Backward(|local|, x.instr)
    ensures var r := Rewrite(v, log, table, x);
            && r.ok && log <= r.log && GlobalOk(v, r.log)
            && table <= r.table && Aligned(v, r.log, r.table, local + EdgesOf(x.instr))
  {
    if x.instr.Stack? {
      var ip, parent := x.instr.ip, x.instr.parent;
      assert Renders(v, log, PathOf(local, parent), PathOf(log, table[parent]));
      PushRenders(v, log, table[parent], ip, PathOf(local, parent));
      var p := Push(v, log, table[parent], ip);
      AlignedStable(v, log, p.log, table, local);
      AlignedSnoc(v, p.log, table, local, Edge(ip, parent), p.index);
    } else {
      assert local + EdgesOf(x.instr) == local;
    }
  }

  // What rewriting one instruction may add to the stream.
  ghost predicate Announces(log: Log, r: Translated) {
    if r.out == [] then r.log == log
    else |r.out| == 1 && Backward(|log|, r.out[0].instr) && r.log == log + EdgesOf(r.out[0].instr)
  }

  // What is retained announces the new global frame, or refers back to one.
  lemma RewriteAnnounces(v: Variant, log: Log, table: seq<nat>, local: Log, x: Timed)
    requires GlobalOk(v, log) && Aligned(v, log, table, local) && Backward(|local|, x.instr)
    ensures Announces(log, Rewrite(v, log, table, x))
  {
  }

  // What is retained means what the instruction meant, as long as indices fit 32 bits.
  lemma {:induction false} RewriteMeans(v: Variant, log: Log, table: seq<nat>, local: Log, x: Timed)
    requires GlobalOk(v, log) && Aligned(v, log, table, local) && Backward(|local|, x.instr)
    requires |log| < TWO_32
    ensures var r := Rewrite(v, log, table, x);
            SameOps(v, log, OpOf(local, x.instr), Meaning(log, Bare(r.out)))
  {
    var r := Rewrite(v, log, table, x);
    if x.instr.Stack? {
      StackIsSilent(v, log, table, x);
    } else {
      EventMeans(v, log, table, local, x);
    }
  }

  lemma {:induction false} EventMeans(v: Variant, log: Log, table: seq<nat>, local: Log, x: Timed)
    requires Aligned(v, log, table, local) && Backward(|local|, x.instr) && !x.instr.Stack? && |log| < TWO_32
    ensures var r := Rewrite(v, log, table, x);
            SameOps(v, log, OpOf(local, x.instr), Meaning(log, Bare(r.out)))
  {
    hide PathOf, Renders, Meaning, Bare, AsU32;
    var r := Rewrite(v, log, table, x);
    var k := x.instr.traceIndex;
    assert Renders(v, log, PathOf(local, k), PathOf(log, table[k]));
    SmallAsU32(table[k]);
    MeaningOne(log, r.out[0]);
    assert r.out == [r.out[0]];
  }

  // Frames are not events.
  lemma {:induction false} StackIsSilent(v: Variant, log: Log, table: seq<nat>, x: Timed)
    requires x.instr.Stack?
    ensures Meaning(log, Bare(Rewrite(v, log, table, x).out)) == []
  {
    var out := Rewrite(v, log, table, x).out;
    if out == [] {
      assert Bare(out) == [];
    } else {
      MeaningOne(log, out[0]);
      assert out == [out[0]];
    }
  }

  lemma {:induction false} MeaningOne(log: Log, x: Timed)
    ensures Meaning(log, Bare([x])) == OpOf(log, x.instr)
  {
    assert Bare([x]) == [x.instr];
    assert [x.instr][..0] == [];
  }

  // ---------------------------------------------------------------------------------------------
  // A whole buffer, received after `done` from a thread

  lemma BareSnoc(done: seq<Instr>, xs: seq<Timed>)
    requires xs != []
    ensures done + Bare(xs) == done + Bare(xs[..|xs| - 1]) + [xs[|xs| - 1].instr]
    ensures Bare(xs) == Bare(xs[..|xs| - 1]) + [xs[|xs| - 1].instr]
  {
  }

  lemma {:induction false} TranslateAligned(v: Variant, log: Log, table: seq<nat>, done: seq<Instr>, xs: seq<Timed>)
    requires GlobalOk(v, log) && Aligned(v, log, table, LogOf(done)) && SelfContained(done + Bare(xs))
    ensures var r := Translate(v, log, table, xs);
            && r.ok && log <= r.log && GlobalOk(v, r.log)
            && table <= r.table && Aligned(v, r.log, r.table, LogOf(done + Bare(xs)))
  {
    if xs == [] {
      assert done + Bare(xs) == done;
    } else {
      var front, x := xs[..|xs| - 1], xs[|xs| - 1];
      BareSnoc(done, xs);
      Snoc(done + Bare(front), x.instr);
      TranslateAligned(v, log, table, done, front);
      var s := Translate(v, log, table, front);
      RewriteAligned(v, s.log, s.table, LogOf(done + Bare(front)), x);
    }
  }

  lemma {:induction false} AnnouncesStep(sent: seq<Instr>, log: Log, out: seq<Timed>, r: Translated)
    requires SelfContained(sent + Bare(out)) && LogOf(sent + Bare(out)) == log && Announces(log, r)
    ensures SelfContained(sent + Bare(out + r.out)) && LogOf(sent + Bare(out + r.out)) == r.log
  {
    if r.out == [] {
      assert out + r.out == out;
    } else {
      assert sent + Bare(out + r.out) == sent + Bare(out) + [r.out[0].instr];
      Snoc(sent + Bare(out), r.out[0].instr);
    }
  }

  // The retained records announce every global frame once, in order, before it is used.
  lemma {:induction false} TranslateAnnounces(v: Variant, log: Log, table: seq<nat>, done: seq<Instr>,
                                               xs: seq<Timed>, sent: seq<Instr>)
    requires GlobalOk(v, log) && Aligned(v, log, table, LogOf(done)) && SelfContained(done + Bare(xs))
    requires SelfContained(sent) && LogOf(sent) == log
    ensures var r := Translate(v, log, table, xs);
            SelfContained(sent + Bare(r.out)) && LogOf(sent + Bare(r.out)) == r.log
  {
    if xs == [] {
      assert sent + Bare([]) == sent;
    } else {
      var front, x := xs[..|xs| - 1], xs[|xs| - 1];
      var s := Translate(v, log, table, front);
      var local := LogOf(done + Bare(front));
      TranslateFront(v, log, table, done, xs);
      TranslateAnnounces(v, log, table, done, front, sent);
      RewriteAnnounces(v, s.log, s.table, local, x);
      AnnouncesStep(sent, s.log, s.out, Rewrite(v, s.log, s.table, x));
    }
  }

  // The state before the last instruction of a buffer.
  lemma TranslateFront(v: Variant, log: Log, table: seq<nat>, done: seq<Instr>, xs: seq<Timed>)
    requires GlobalOk(v, log) && Aligned(v, log, table, LogOf(done)) && SelfContained(done + Bare(xs)) && xs != []
    ensures var front, x := xs[..|xs| - 1], xs[|xs| - 1];
            var s, local := Translate(v, log, table, front), LogOf(done + Bare(front));
            && SelfContained(done + Bare(front)) && LogOf(done + Bare(xs)) == local + EdgesOf(x.instr)
            && s.ok && log <= s.log && GlobalOk(v, s.log)
            && Aligned(v, s.log, s.table, local) && Backward(|local|, x.instr)
            && var r := Rewrite(v, s.log, s.table, x);
               r.ok && s.log <= r.log && Translate(v, log, table, xs) == Translated(true, r.log, r.table, s.out + r.out)
  {
    var front, x := xs[..|xs| - 1], xs[|xs| - 1];
    BareSnoc(done, xs);
    Snoc(done + Bare(front), x.instr);
    TranslateAligned(v, log, table, done, front);
    var s := Translate(v, log, table, front);
    RewriteAligned(v, s.log, s.table, LogOf(done + Bare(front)), x);
  }

  // The translated events mean what the local events meant.
  lemma {:induction false} TranslateMeans(v: Variant, log: Log, table: seq<nat>, done: seq<Instr>, xs: seq<Timed>)
    requires GlobalOk(v, log) && Aligned(v, log, table, LogOf(done)) && SelfContained(done + Bare(xs))
    requires |Translate(v, log, table, xs).log| < TWO_32
    ensures var r, local := Translate(v, log, table, xs), LogOf(done + Bare(xs));
            && InRange(r.log, Bare(r.out)) && InRange(local, Bare(xs))
            && SameOps(v, r.log, Meaning(local, Bare(xs)), Meaning(r.log, Bare(r.out)))
  {
    if xs != [] {
      var front, x := xs[..|xs| - 1], xs[|xs| - 1];
      var s := Translate(v, log, table, front);
      var local := LogOf(done + Bare(front));
      TranslateFront(v, log, table, done, xs);
      BareSnoc(done, xs);
      TranslateMeans(v, log, table, done, front);
      RewriteAnnounces(v, s.log, s.table, local, x);
      RewriteMeans(v, s.log, s.table, local, x);
      MeansStep(v, s, local, Bare(front), x.instr, Rewrite(v, s.log, s.table, x));
    }
  }

  lemma {:induction false} MeansStep(v: Variant, s: Translated, local: Log, front: seq<Instr>, x: Instr, r: Translated)
    requires s.log <= r.log && Announces(s.log, r) && Backward(|local|, x)
    requires InRange(s.log, Bare(s.out)) && InRange(local, front)
    requires SameOps(v, s.log, Meaning(local, front), Meaning(s.log, Bare(s.out)))
    requires SameOps(v, s.log, OpOf(local, x), Meaning(s.log, Bare(r.out)))
    ensures var longer := local + EdgesOf(x);
            && InRange(r.log, Bare(s.out + r.out)) && InRange(longer, front + [x])
            && SameOps(v, r.log, Meaning(longer, front + [x]), Meaning(r.log, Bare(s.out + r.out)))
  {
    var longer := local + EdgesOf(x);
    BareAppend(s.out, r.out);
    InRangeAppend(s.log, Bare(s.out), Bare(r.out));
    InRangeAppend(local, front, [x]);
    var a, b := Meaning(local, front + [x]), Meaning(s.log, Bare(s.out + r.out));
    assert SameOps(v, s.log, a, b) by {
      MeaningAppend(s.log, Bare(s.out), Bare(r.out));
      Snoc(front, x);
      SameOpsAppend(v, s.log, Meaning(local, front), Meaning(s.log, Bare(s.out)),
                    OpOf(local, x), Meaning(s.log, Bare(r.out)));
    }
    SameOpsStable(v, s.log, r.log, a, b);
    MeaningPrefix(s.log, r.log, Bare(s.out + r.out));
    MeaningPrefix(local, longer, front + [x]);
  }

  lemma InRangeAppend(log: Log, xs: seq<Instr>, ys: seq<Instr>)
    requires InRange(log, xs) && InRange(log, ys)
    ensures InRange(log, xs + ys)
  {
  }

  lemma SameOpsAppend(v: Variant, log: Log, a: seq<Op>, b: seq<Op>, a': seq<Op>, b': seq<Op>)
    requires SameOps(v, log, a, b) && SameOps(v, log, a', b')
    ensures SameOps(v, log, a + a', b + b')
  {
  }

  // Times of the allocation events.
  function EventTimes(xs: seq<Timed>): seq<Time> {
    if xs == [] then []
    else
      var last := xs[|xs| - 1];
      EventTimes(xs[..|xs| - 1]) + if last.instr.Stack? then [] else [last.time]
  }

  lemma {:induction false} EventTimesAppend(a: seq<Timed>, b: seq<Timed>)
    ensures EventTimes(a + b) == EventTimes(a) + EventTimes(b)
  {
    if b == [] {
      assert a + b == a;
    } else {
      assert (a + b)[..|a + b| - 1] == a + b[..|b| - 1];
      EventTimesAppend(a, b[..|b| - 1]);
    }
  }

  lemma RewriteKeepsTimes(v: Variant, log: Log, table: seq<nat>, x: Timed)
    ensures var r := Rewrite(v, log, table, x);
            r.ok ==> EventTimes(r.out) == if x.instr.Stack? then [] else [x.time]
  {
    var r := Rewrite(v, log, table, x);
    if r.out != [] {
      assert r.out[..0] == [] && r.out == [r.out[0]];
    }
  }

  lemma {:induction false} TranslateKeepsTimes(v: Variant, log: Log, table: seq<nat>, xs: seq<Timed>)
    requires Translate(v, log, table, xs).ok
    ensures EventTimes(Translate(v, log, table, xs).out) == EventTimes(xs)
  {
    if xs != [] {
      var front, x := xs[..|xs| - 1], xs[|xs| - 1];
      var s := Translate(v, log, table, front);
      var r := Rewrite(v, s.log, s.table, x);
      TranslateKeepsTimes(v, log, table, front);
      RewriteKeepsTimes(v, s.log, s.table, x);
      EventTimesAppend(s.out, r.out);
      assert Translate(v, log, table, xs).out == s.out + r.out;
      assert EventTimes(xs) == EventTimes(front) + EventTimes(r.out);
    }
  }

  // ---------------------------------------------------------------------------------------------
  // What is kept of a buffer

  // y is x as it is retained: its time, its kind and what it says about memory or code stay; only references
  // into the tree are renumbered.
  predicate Kept(x: Timed, y: Timed) {
    && y.time == x.time
    && match x.instr
       case Stack(ip, _, _) => y.instr.Stack? && y.instr.ip == ip
       case Allocate(ptr, size, _) => y.instr.Allocate? && y.instr.ptr == ptr && y.instr.size == size
       case Deallocate(ptr, size, _) => y.instr.Deallocate? && y.instr.ptr == ptr && y.instr.size == size
  }

  // What is kept of xs, in order, when the instructions at the given positions are kept.
  ghost predicate Selects(xs: seq<Timed>, positions: seq<nat>, out: seq<Timed>) {
    && |positions| == |out|
    && (forall j | 0 <= j < |out| :: positions[j] < |xs| && Kept(xs[positions[j]], out[j]))
    && (forall j, k | 0 <= j < k < |out| :: positions[j] < positions[k])
    && forall i | 0 <= i < |xs| && !xs[i].instr.Stack? :: i in positions
  }

  lemma RewriteKeeps(v: Variant, log: Log, table: seq<nat>, x: Timed)
    requires Rewrite(v, log, table, x).ok
    ensures var out := Rewrite(v, log, table, x).out;
            && |out| <= 1 && (out != [] ==> Kept(x, out[0])) && (!x.instr.Stack? ==> out != [])
  {
  }

  // A translated buffer is a selection of the buffer, in order: every allocation event stays, a frame may go, and
  // whatever stays keeps its time.
  lemma {:induction false} TranslateSelects(v: Variant, log: Log, table: seq<nat>, xs: seq<Timed>)
    returns (positions: seq<nat>)
    requires Translate(v, log, table, xs).ok
    ensures Selects(xs, positions, Translate(v, log, table, xs).out)
  {
    hide Kept, Rewrite, Selects, Translate;
    positions := [];
    if xs == [] {
      TranslateNothing(v, log, table);
      SelectsNothing();
    } else {
      var front, x := xs[..|xs| - 1], xs[|xs| - 1];
      var s := Translate(v, log, table, front);
      TranslateLast(v, log, table, xs);
      positions := TranslateSelects(v, log, table, front);
      var r := Rewrite(v, s.log, s.table, x);
      RewriteKeeps(v, s.log, s.table, x);
      assert front + [x] == xs;
      if r.out == [] {
        assert s.out + r.out == s.out;
        SelectsDrop(front, positions, s.out, x);
      } else {
        assert r.out == [r.out[0]];
        SelectsKeep(front, positions, s.out, x, r.out[0]);
        positions := positions + [|front|];
      }
    }
  }

  lemma TranslateNothing(v: Variant, log: Log, table: seq<nat>)
    ensures Translate(v, log, table, []) == Translated(true, log, table, [])
  {
  }

  lemma TranslateLast(v: Variant, log: Log, table: seq<nat>, xs: seq<Timed>)
    requires xs != [] && Translate(v, log, table, xs).ok
    ensures var s := Translate(v, log, table, xs[..|xs| - 1]);
            var r := Rewrite(v, s.log, s.table, xs[|xs| - 1]);
            s.ok && r.ok && Translate(v, log, table, xs).out == s.out + r.out
  {
  }

  lemma SelectsNothing()
    ensures Selects([], [], [])
  {
  }

  lemma SelectsDrop(xs: seq<Timed>, positions: seq<nat>, out: seq<Timed>, x: Timed)
    requires Selects(xs, positions, out) && x.instr.Stack?
    ensures Selects(xs + [x], positions, out)
  {
    hide Kept;
    assert forall i | 0 <= i < |xs| :: (xs + [x])[i] == xs[i];
  }

  lemma SelectsKeep(xs: seq<Timed>, positions: seq<nat>, out: seq<Timed>, x: Timed, y: Timed)
    requires Selects(xs, positions, out) && Kept(x, y)
    ensures Selects(xs + [x], positions + [|xs|], out + [y])
  {
    hide Kept;
    var longer, all := xs + [x], positions + [|xs|];
    forall i | 0 <= i < |longer| && !longer[i].instr.Stack?
      ensures i in all
    {
      assert if i < |xs| then i in positions else all[|positions|] == i;
    }
  }
}
