// Stack frames as an append-only log of edges, and what interning a path into such a log means.
//
// Frame k (k >= 1) is described by entry k - 1 of the log: its instruction pointer and the number of its
// parent frame. Frame 0 is the root and stands for the empty stack. Both the thread-local trie and the
// gatherer's global tree are logs in this sense.
module Frames {

  type Ip = nat

  const NULL_IP: Ip := 0

  datatype Edge = Edge(ip: Ip, parent: nat)

  type Log = seq<Edge>

  // Parents come before their children.
  predicate WellFormed(log: Log) {
    forall i | 0 <= i < |log| :: log[i].parent <= i
  }

  // No two frames share both instruction pointer and parent.
  predicate Distinct(log: Log) {
    forall i, j | 0 <= i < j < |log| :: log[i] != log[j]
  }

  // The instruction pointers from the root down to frame k.
  function PathOf(log: Log, k: nat): seq<Ip>
    decreases k
  {
    if 0 < k <= |log| && log[k - 1].parent < k then
      PathOf(log, log[k - 1].parent) + [log[k - 1].ip]
    else
      []
  }

  // The number of the first frame equal to e, or 0.
  function Find(log: Log, e: Edge): (k: nat)
    ensures k <= |log|
    ensures k == 0 <==> e !in log
    ensures k > 0 ==> log[k - 1] == e && e !in log[..k - 1]
  {
    if log == [] then 0
    else
      var front := log[..|log| - 1];
      var k := Find(front, e);
      assert log == front + [log[|log| - 1]];
      if k != 0 then (assert front[..k - 1] == log[..k - 1]; k)
      else if log[|log| - 1] == e then |log|
      else 0
  }

  // The number of the first frame at instruction pointer ip, whatever its parent, or 0.
  function First(log: Log, ip: Ip): (k: nat)
    ensures k <= |log|
    ensures k == 0 <==> forall i | 0 <= i < |log| :: log[i].ip != ip
    ensures k > 0 ==> log[k - 1].ip == ip && forall i | 0 <= i < k - 1 :: log[i].ip != ip
  {
    if log == [] then 0
    else
      var front := log[..|log| - 1];
      var k := First(front, ip);
      assert forall i | 0 <= i < |front| :: front[i] == log[i];
      if k != 0 then k
      else if log[|log| - 1].ip == ip then |log|
      else 0
  }

  lemma {:induction false} PathOfPrefix(log: Log, longer: Log, k: nat)
    requires log <= longer && k <= |log|
    ensures PathOf(longer, k) == PathOf(log, k)
    decreases k
  {
    if k > 0 {
      assert longer[k - 1] == log[k - 1];
      if log[k - 1].parent < k {
        PathOfPrefix(log, longer, log[k - 1].parent);
      }
    }
  }

  lemma {:induction false} FindIs(log: Log, e: Edge, k: nat)
    requires Distinct(log) && 0 < k <= |log| && log[k - 1] == e
    ensures Find(log, e) == k
  {
  }

  lemma {:induction false} FirstStable(log: Log, longer: Log, ip: Ip)
    requires log <= longer && First(log, ip) != 0
    ensures First(longer, ip) == First(log, ip)
  {
    var a, b := First(log, ip), First(longer, ip);
    assert longer[a - 1] == log[a - 1];
    assert b != 0 && b <= a;
    assert longer[b - 1] == log[b - 1];
  }

  lemma {:induction false} PathNonEmpty(log: Log, k: nat)
    requires WellFormed(log) && k <= |log|
    ensures PathOf(log, k) == [] <==> k == 0
  {
  }

  // In a tree without duplicate edges a path identifies its frame.
  lemma {:induction false} PathInjective(log: Log, i: nat, j: nat)
    requires WellFormed(log) && Distinct(log)
    requires i <= |log| && j <= |log|
    requires PathOf(log, i) == PathOf(log, j)
    ensures i == j
    decreases i
  {
    PathNonEmpty(log, i);
    PathNonEmpty(log, j);
    if i > 0 {
      var p, q := PathOf(log, log[i - 1].parent), PathOf(log, log[j - 1].parent);
      assert PathOf(log, i)[..|PathOf(log, i)| - 1] == p;
      assert PathOf(log, j)[..|PathOf(log, j)| - 1] == q;
      assert PathOf(log, i)[|p|] == log[i - 1].ip && PathOf(log, j)[|q|] == log[j - 1].ip;
      PathInjective(log, log[i - 1].parent, log[j - 1].parent);
      assert log[i - 1] == log[j - 1];
    }
  }

  // ---------------------------------------------------------------------------------------------
  // Interning one path

  datatype Interned = Interned(log: Log, index: nat)

  // One step of a walk: the frame reached is the child of cur along ip, new or old.
  function Descend(log: Log, cur: nat, ip: Ip): Interned {
    var k := Find(log, Edge(ip, cur));
    if k != 0 then Interned(log, k) else Interned(log + [Edge(ip, cur)], |log| + 1)
  }

  // Follow path below frame cur, adding the frames that are missing.
  function Walk(log: Log, cur: nat, path: seq<Ip>): Interned
    decreases |path|
  {
    if path == [] then Interned(log, cur)
    else
      var d := Descend(log, cur, path[0]);
      Walk(d.log, d.index, path[1..])
  }

  lemma {:induction false} DescendSpec(log: Log, cur: nat, ip: Ip)
    requires WellFormed(log) && Distinct(log) && cur <= |log|
    ensures var r := Descend(log, cur, ip);
            && log <= r.log && WellFormed(r.log) && Distinct(r.log) && 0 < r.index <= |r.log|
            && PathOf(r.log, r.index) == PathOf(log, cur) + [ip]
            && (r.log == log || (r.log == log + [Edge(ip, cur)] && r.index == |r.log|))
  {
    var r := Descend(log, cur, ip);
    assert r.log[r.index - 1] == Edge(ip, cur);
    PathOfPrefix(log, r.log, cur);
  }

  lemma SplitFirst(base: seq<Ip>, path: seq<Ip>)
    requires path != []
    ensures base + path == base + [path[0]] + path[1..]
  {
  }

  // Walking a path keeps the log a duplicate-free tree and ends on the frame with exactly that path.
  lemma {:induction false} WalkSpec(log: Log, cur: nat, path: seq<Ip>)
    requires WellFormed(log) && Distinct(log) && cur <= |log|
    ensures var r := Walk(log, cur, path);
            && log <= r.log && WellFormed(r.log) && Distinct(r.log) && r.index <= |r.log|
            && PathOf(r.log, r.index) == PathOf(log, cur) + path
    decreases |path|
  {
    if path == [] {
    } else {
      var d := Descend(log, cur, path[0]);
      DescendSpec(log, cur, path[0]);
      WalkSpec(d.log, d.index, path[1..]);
      SplitFirst(PathOf(log, cur), path);
    }
  }

  // Every frame a walk adds lies between its start and its end.
  lemma {:induction false} WalkAdds(log: Log, cur: nat, path: seq<Ip>, m: nat)
    requires WellFormed(log) && Distinct(log) && cur <= |log|
    requires |log| < m <= |Walk(log, cur, path).log|
    ensures PathOf(log, cur) <= PathOf(Walk(log, cur, path).log, m) <= PathOf(log, cur) + path
    decreases |path|
  {
    var base := PathOf(log, cur);
    var d := Descend(log, cur, path[0]);
    DescendSpec(log, cur, path[0]);
    WalkSpec(d.log, d.index, path[1..]);
    var r := Walk(d.log, d.index, path[1..]);
    SplitFirst(base, path);
    if m <= |d.log| {
      assert m == d.index;
      PathOfPrefix(d.log, r.log, m);
    } else {
      WalkAdds(d.log, d.index, path[1..], m);
      var p := PathOf(r.log, m);
      assert base + [path[0]] <= p;
    }
  }

  // A path that some frame already has is found there and nothing is added.
  lemma {:induction false} WalkFindsExisting(log: Log, cur: nat, path: seq<Ip>, k: nat)
    requires WellFormed(log) && Distinct(log) && cur <= |log| && k <= |log|
    requires PathOf(log, k) == PathOf(log, cur) + path
    ensures Walk(log, cur, path) == Interned(log, k)
    decreases |path|
  {
    if path == [] {
      assert PathOf(log, cur) + path == PathOf(log, cur);
      PathInjective(log, k, cur);
    } else {
      var step := Ancestor(log, k, |PathOf(log, cur)| + 1);
      var full := PathOf(log, k);
      assert full[..|PathOf(log, cur)| + 1] == PathOf(log, cur) + [path[0]];
      PathNonEmpty(log, step);
      var p := log[step - 1].parent;
      assert PathOf(log, step)[..|PathOf(log, cur)|] == PathOf(log, p);
      assert PathOf(log, step)[|PathOf(log, cur)|] == log[step - 1].ip;
      PathInjective(log, p, cur);
      assert log[step - 1] == Edge(path[0], cur);
      var f := Find(log, Edge(path[0], cur));
      assert f == step;
      assert PathOf(log, step) + path[1..] == PathOf(log, cur) + path;
      WalkFindsExisting(log, step, path[1..], k);
    }
  }

  // Every prefix of a frame's path belongs to a frame.
  lemma {:induction false} Ancestor(log: Log, k: nat, n: nat) returns (a: nat)
    requires WellFormed(log) && k <= |log| && n <= |PathOf(log, k)|
    ensures a <= k && PathOf(log, a) == PathOf(log, k)[..n]
    decreases k
  {
    if n == |PathOf(log, k)| {
      a := k;
    } else {
      a := Ancestor(log, log[k - 1].parent, n);
    }
  }

  // ---------------------------------------------------------------------------------------------
  // A trace as the unwinder delivers it: innermost frame first, null pointers allowed.

  // The frames of a trace from the outermost call inwards, without nulls.
  function Normal(trace: seq<Ip>): seq<Ip> {
    if trace == [] then []
    else
      var last := trace[|trace| - 1];
      (if last == NULL_IP then [] else [last]) + Normal(trace[..|trace| - 1])
  }

  ghost predicate NoNull(path: seq<Ip>) {
    forall i | 0 <= i < |path| :: path[i] != NULL_IP
  }

  // Traces list the innermost frame first; stacks start with the outermost one.
  lemma {:induction false} NormalReverses(a: seq<Ip>, b: seq<Ip>)
    ensures Normal(a + b) == Normal(b) + Normal(a)
  {
    if b == [] {
      assert a + b == a && Normal(b) == [];
    } else {
      var last := b[|b| - 1];
      assert (a + b)[..|a + b| - 1] == a + b[..|b| - 1];
      NormalReverses(a, b[..|b| - 1]);
      var head := if last == NULL_IP then [] else [last];
      assert head + (Normal(b[..|b| - 1]) + Normal(a)) == head + Normal(b[..|b| - 1]) + Normal(a);
    }
  }

  // Null pointers are left out, and nothing else is.
  lemma {:induction false} NormalOfOne(ip: Ip)
    ensures Normal([ip]) == if ip == 0 then [] else [ip]
  {
    assert [ip][..0] == [];
    assert Normal([]) == [];
  }

  lemma {:induction false} NormalNoNull(trace: seq<Ip>)
    ensures NoNull(Normal(trace))
  {
    if trace != [] {
      NormalNoNull(trace[..|trace| - 1]);
    }
  }

  // The state of an interner after a sequence of requests, and the answers it gave.
  datatype Session = Session(log: Log, answers: seq<nat>)

  function RunSession(traces: seq<seq<Ip>>): Session {
    if traces == [] then Session([], [])
    else
      var before := RunSession(traces[..|traces| - 1]);
      var r := Walk(before.log, 0, Normal(traces[|traces| - 1]));
      Session(r.log, before.answers + [r.index])
  }

  // Over any sequence of requests the tree stays duplicate-free, and every answer, however old, still names
  // the frame with the requested path.
  lemma {:induction false} SessionSpec(traces: seq<seq<Ip>>)
    ensures var s := RunSession(traces);
            && WellFormed(s.log) && Distinct(s.log) && |s.answers| == |traces|
            && forall i | 0 <= i < |traces| ::
                 s.answers[i] <= |s.log| && PathOf(s.log, s.answers[i]) == Normal(traces[i])
  {
    if traces != [] {
      var n := |traces| - 1;
      var front := traces[..n];
      SessionSpec(front);
      var before, s := RunSession(front), RunSession(traces);
      WalkSpec(before.log, 0, Normal(traces[n]));
      forall i | 0 <= i < |traces|
        ensures s.answers[i] <= |s.log| && PathOf(s.log, s.answers[i]) == Normal(traces[i])
      {
        if i < n {
          assert front[i] == traces[i];
          PathOfPrefix(before.log, s.log, s.answers[i]);
        }
      }
    }
  }

  // Frames added by a walk from the root are prefixes of its stack.
  lemma {:induction false} WalkAddsPrefixes(log: Log, path: seq<Ip>, m: nat)
    requires WellFormed(log) && Distinct(log) && |log| < m <= |Walk(log, 0, path).log|
    ensures PathOf(Walk(log, 0, path).log, m) <= path
  {
    hide WellFormed, Distinct, Walk;
    WalkAdds(log, 0, path, m);
    assert PathOf(log, 0) + path == path;
  }

  // The tree holds no frame that no request passed through.
  lemma {:induction false} SessionFrames(traces: seq<seq<Ip>>, k: nat) returns (i: nat)
    requires 0 < k <= |RunSession(traces).log|
    ensures i < |traces| && PathOf(RunSession(traces).log, k) <= Normal(traces[i])
  {
    var n := |traces| - 1;
    var front := traces[..n];
    SessionSpec(front);
    var before, s := RunSession(front), RunSession(traces);
    WalkSpec(before.log, 0, Normal(traces[n]));
    assert s.log == Walk(before.log, 0, Normal(traces[n])).log;
    hide WellFormed, Distinct, Normal, Walk, PathOf;
    if k <= |before.log| {
      PathOfPrefix(before.log, s.log, k);
      i := SessionFrames(front, k);
      assert front[i] == traces[i];
      assert PathOf(s.log, k) == PathOf(before.log, k);
    } else {
      WalkAddsPrefixes(before.log, Normal(traces[n]), k);
      i := n;
    }
  }

  // No frame of the tree is the null pointer.
  lemma {:induction false} SessionNullFree(traces: seq<seq<Ip>>, k: nat)
    requires 0 < k <= |RunSession(traces).log|
    ensures RunSession(traces).log[k - 1].ip != NULL_IP
  {
    var log := RunSession(traces).log;
    SessionSpec(traces);
    var i := SessionFrames(traces, k);
    NormalNoNull(traces[i]);
    var path := PathOf(log, k);
    assert path[|path| - 1] == log[k - 1].ip == Normal(traces[i])[|path| - 1];
  }

  // The frames of the tree are exactly the non-empty prefixes of the requested stacks.
  lemma {:induction false} SessionPathSet(traces: seq<seq<Ip>>, path: seq<Ip>)
    requires path != []
    ensures (exists k :: 0 < k <= |RunSession(traces).log| && PathOf(RunSession(traces).log, k) == path)
            <==> exists i | 0 <= i < |traces| :: path <= Normal(traces[i])
  {
    var s := RunSession(traces);
    SessionSpec(traces);
    if k :| 0 < k <= |s.log| && PathOf(s.log, k) == path {
      var i := SessionFrames(traces, k);
      assert path <= Normal(traces[i]);
    }
    if i :| 0 <= i < |traces| && path <= Normal(traces[i]) {
      var k := Ancestor(s.log, s.answers[i], |path|);
      assert PathOf(s.log, k) == path;
    }
  }

  // Two requests get the same answer exactly when they name the same stack.
  lemma {:induction false} SessionInterns(traces: seq<seq<Ip>>, i: nat, j: nat)
    requires i < |traces| && j < |traces|
    ensures var s := RunSession(traces);
            && |s.answers| == |traces|
            && (s.answers[i] == s.answers[j] <==> Normal(traces[i]) == Normal(traces[j]))
  {
    SessionSpec(traces);
    var s := RunSession(traces);
    if Normal(traces[i]) == Normal(traces[j]) {
      PathInjective(s.log, s.answers[i], s.answers[j]);
    }
  }
}
