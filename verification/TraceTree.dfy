// The thread-local trie of stack frames (TraceTree), updated in place.
module TraceTrees {
  import opened Frames
  import opened TrackTypes

  class TraceEdge {
    const instructionPointer: Ip
    const index: nat
    // Sorted by instruction pointer.
    var children: seq<TraceEdge>

    constructor (ip: Ip, index: nat)
      ensures instructionPointer == ip && this.index == index && children == []
    {
      instructionPointer := ip;
      this.index := index;
      children := [];
    }
  }

  ghost predicate SortedByIp(edges: seq<TraceEdge>) {
    forall a, b | 0 <= a < b < |edges| :: edges[a].instructionPointer < edges[b].instructionPointer
  }

  // The standard binary search: the position of ip, or the position that keeps the edges sorted.
  method BinarySearch(edges: seq<TraceEdge>, ip: Ip) returns (found: bool, position: nat)
    requires SortedByIp(edges)
    ensures found ==> position < |edges| && edges[position].instructionPointer == ip
    ensures !found ==> position <= |edges|
    ensures !found ==> forall a | 0 <= a < position :: edges[a].instructionPointer < ip
    ensures !found ==> forall a | position <= a < |edges| :: ip < edges[a].instructionPointer
  {
    var lo, hi := 0, |edges|;
    while lo < hi
      invariant 0 <= lo <= hi <= |edges|
      invariant forall a | 0 <= a < lo :: edges[a].instructionPointer < ip
      invariant forall a | hi <= a < |edges| :: ip < edges[a].instructionPointer
    {
      var mid := (lo + hi) / 2;
      if edges[mid].instructionPointer == ip {
        return true, mid;
      } else if edges[mid].instructionPointer < ip {
        lo := mid + 1;
      } else {
        hi := mid;
      }
    }
    return false, lo;
  }

  // The records a thread logs for the frames of log after the first `from` ones.
  function Announce(log: Log, from: nat): seq<Instr> {
    if |log| <= from then []
    else
      var last := log[|log| - 1];
      Announce(log[..|log| - 1], from) + [Stack(last.ip, last.parent, |log|)]
  }

  ghost function IpAt(log: Log, c: nat): Ip {
    if 0 < c <= |log| then log[c - 1].ip else NULL_IP
  }

  ghost predicate Bounded(log: Log, list: seq<nat>) {
    forall a | 0 <= a < |list| :: 0 < list[a] <= |log|
  }

  ghost predicate Ascending(log: Log, list: seq<nat>) {
    forall a, b | 0 <= a < b < |list| :: IpAt(log, list[a]) < IpAt(log, list[b])
  }

  // One child list: exactly the children of frame p, by index, sorted by instruction pointer.
  ghost predicate ChildList(log: Log, p: nat, list: seq<nat>) {
    && Bounded(log, list)
    && Ascending(log, list)
    && (forall c | c in list :: log[c - 1].parent == p)
    && (forall j | 0 <= j < |log| :: log[j].parent == p ==> j + 1 in list)
  }

  ghost predicate ShapeOf(log: Log, shape: seq<seq<nat>>) {
    && |shape| == |log| + 1
    && (forall k | 0 <= k < |shape| :: ChildList(log, k, shape[k]))
  }

  ghost function InsertAt(s: seq<nat>, position: nat, x: nat): (r: seq<nat>)
    requires position <= |s|
  {
    s[..position] + [x] + s[position..]
  }

  lemma AscendingInsert(log: Log, list: seq<nat>, position: nat, x: nat)
    requires Ascending(log, list) && position <= |list|
    requires forall a | 0 <= a < position :: IpAt(log, list[a]) < IpAt(log, x)
    requires forall a | position <= a < |list| :: IpAt(log, x) < IpAt(log, list[a])
    ensures Ascending(log, InsertAt(list, position, x))
  {
    var r := InsertAt(list, position, x);
    forall a, b | 0 <= a < b < |r|
      ensures IpAt(log, r[a]) < IpAt(log, r[b])
    {
      var a', b' := if a < position then a else a - 1, if b < position then b else b - 1;
      assert a != position ==> r[a] == list[a'];
      assert b != position ==> r[b] == list[b'];
    }
  }

  lemma ChildListExtend(log: Log, e: Edge, p: nat, list: seq<nat>)
    requires ChildList(log, p, list)
    ensures Ascending(log + [e], list) && Bounded(log + [e], list)
    ensures e.parent != p ==> ChildList(log + [e], p, list)
  {
    var longer := log + [e];
    forall a, b | 0 <= a < b < |list|
      ensures IpAt(longer, list[a]) < IpAt(longer, list[b])
    {
      assert IpAt(log, list[a]) < IpAt(log, list[b]);
    }
    if e.parent != p {
      forall c | c in list
        ensures longer[c - 1].parent == p
      {
        assert log[c - 1].parent == p;
      }
      forall j | 0 <= j < |longer|
        ensures longer[j].parent == p ==> j + 1 in list
      {
        assert j < |log| ==> longer[j] == log[j];
      }
    }
  }

  lemma ChildListInsert(log: Log, list: seq<nat>, p: nat, position: nat, ip: Ip)
    requires ChildList(log, p, list) && position <= |list|
    requires forall a | 0 <= a < position :: IpAt(log, list[a]) < ip
    requires forall a | position <= a < |list| :: ip < IpAt(log, list[a])
    ensures ChildList(log + [Edge(ip, p)], p, InsertAt(list, position, |log| + 1))
  {
    var longer, x := log + [Edge(ip, p)], |log| + 1;
    var after := InsertAt(list, position, x);
    assert Ascending(longer, after) by {
      ChildListExtend(log, Edge(ip, p), p, list);
      assert IpAt(longer, x) == ip;
      forall a | 0 <= a < |list|
        ensures IpAt(longer, list[a]) == IpAt(log, list[a])
      {
      }
      AscendingInsert(longer, list, position, x);
    }
    assert list == list[..position] + list[position..];
    assert forall c :: c in after <==> c in list || c == x;
    forall c | c in after
      ensures 0 < c <= |longer| && longer[c - 1].parent == p
    {
    }
  }

  lemma NotAChild(log: Log, list: seq<nat>, p: nat, position: nat, ip: Ip)
    requires ChildList(log, p, list) && position <= |list|
    requires forall a | 0 <= a < position :: IpAt(log, list[a]) < ip
    requires forall a | position <= a < |list| :: ip < IpAt(log, list[a])
    ensures Edge(ip, p) !in log
  {
    forall j | 0 <= j < |log|
      ensures log[j] != Edge(ip, p)
    {
      if log[j].parent == p {
        var a :| 0 <= a < |list| && list[a] == j + 1;
        assert IpAt(log, list[a]) == log[j].ip;
      }
    }
  }

  lemma ShapeInsert(log: Log, shape: seq<seq<nat>>, p: nat, position: nat, ip: Ip)
    requires WellFormed(log) && ShapeOf(log, shape) && p <= |log| && position <= |shape[p]|
    requires forall a | 0 <= a < position :: IpAt(log, shape[p][a]) < ip
    requires forall a | position <= a < |shape[p]| :: ip < IpAt(log, shape[p][a])
    ensures ShapeOf(log + [Edge(ip, p)], shape[p := InsertAt(shape[p], position, |log| + 1)] + [[]])
    ensures Edge(ip, p) !in log
  {
    NotAChild(log, shape[p], p, position, ip);
    ChildListInsert(log, shape[p], p, position, ip);
    var longer := log + [Edge(ip, p)];
    var after := shape[p := InsertAt(shape[p], position, |log| + 1)] + [[]];
    forall k | 0 <= k < |after|
      ensures ChildList(longer, k, after[k])
    {
      if k == |shape| {
        assert forall j | 0 <= j < |longer| :: longer[j].parent != k;
      } else if k != p {
        ChildListExtend(log, Edge(ip, p), k, shape[k]);
      }
    }
  }

  // The edges with the given indices.
  ghost function Selected(nodes: seq<TraceEdge>, list: seq<nat>): (r: seq<TraceEdge>)
    requires nodes != []
  {
    seq(|list|, a requires 0 <= a < |list| => nodes[if list[a] < |nodes| then list[a] else 0])
  }

  lemma SelectedExtend(nodes: seq<TraceEdge>, edge: TraceEdge, list: seq<nat>)
    requires nodes != [] && forall a | 0 <= a < |list| :: list[a] < |nodes|
    ensures Selected(nodes + [edge], list) == Selected(nodes, list)
  {
  }

  lemma SelectedInsert(nodes: seq<TraceEdge>, list: seq<nat>, position: nat, x: nat)
    requires x < |nodes| && position <= |list|
    ensures var s := Selected(nodes, list);
            Selected(nodes, InsertAt(list, position, x)) == s[..position] + [nodes[x]] + s[position..]
  {
  }

  // Edge objects, log and child lists describe one tree; position in `nodes` is the index of the edge.
  ghost predicate Numbered(log: Log, shape: seq<seq<nat>>, nodes: seq<TraceEdge>, repr: set<TraceEdge>) {
    && |nodes| == |log| + 1
    && WellFormed(log) && Distinct(log) && ShapeOf(log, shape)
    && (forall k | 0 <= k < |nodes| ::
          nodes[k] in repr && nodes[k].index == k && nodes[k].instructionPointer == IpAt(log, k))
    && (forall n | n in repr :: n.index < |nodes| && nodes[n.index] == n)
  }

  // A new edge leaves the lists of the others as they were.
  lemma NumberedGrows(log: Log, shape: seq<seq<nat>>, nodes: seq<TraceEdge>, repr: set<TraceEdge>,
                      p: nat, edge: TraceEdge)
    requires Numbered(log, shape, nodes, repr) && p < |nodes|
    ensures |nodes| == |shape| == |log| + 1 && Selected(nodes + [edge], []) == []
    ensures forall k | 0 <= k < |nodes| ::
              && nodes[k] in repr && (nodes[k] == nodes[p] ==> k == p)
              && Selected(nodes + [edge], shape[k]) == Selected(nodes, shape[k])
  {
    forall k | 0 <= k < |nodes|
      ensures Selected(nodes + [edge], shape[k]) == Selected(nodes, shape[k])
    {
      assert ChildList(log, k, shape[k]);
      SelectedExtend(nodes, edge, shape[k]);
    }
  }

  lemma NumberedInsert(log: Log, shape: seq<seq<nat>>, nodes: seq<TraceEdge>, repr: set<TraceEdge>,
                       p: nat, position: nat, edge: TraceEdge)
    requires Numbered(log, shape, nodes, repr) && p <= |log| && position <= |shape[p]|
    requires edge !in repr && edge.index == |nodes|
    requires forall a | 0 <= a < position :: IpAt(log, shape[p][a]) < edge.instructionPointer
    requires forall a | position <= a < |shape[p]| :: edge.instructionPointer < IpAt(log, shape[p][a])
    ensures Edge(edge.instructionPointer, p) !in log
    ensures Numbered(log + [Edge(edge.instructionPointer, p)],
                     shape[p := InsertAt(shape[p], position, |log| + 1)] + [[]], nodes + [edge], repr + {edge})
  {
    ShapeInsert(log, shape, p, position, edge.instructionPointer);
    var longer, grown := log + [Edge(edge.instructionPointer, p)], nodes + [edge];
    forall k | 0 <= k < |grown|
      ensures grown[k] in repr + {edge} && grown[k].index == k && grown[k].instructionPointer == IpAt(longer, k)
    {
      if k < |nodes| {
        assert nodes[k].instructionPointer == IpAt(log, k);
      }
    }
  }

  lemma {:induction false} AnnounceStep(before: Log, after: Log, from: nat)
    requires from <= |before|
    ensures after == before ==> Announce(after, from) == Announce(before, from)
    ensures forall e :: after == before + [e] ==>
              Announce(after, from) == Announce(before, from) + [Stack(e.ip, e.parent, |after|)]
  {
    if after != [] && after == before + [after[|after| - 1]] {
      assert after[..|after| - 1] == before;
    }
  }

  // Walking down the outermost frame of what is left of a trace.
  lemma {:induction false} WalkLast(log: Log, cur: nat, trace: seq<Ip>, i: nat)
    requires i < |trace|
    ensures var d := if trace[i] == NULL_IP then Interned(log, cur) else Descend(log, cur, trace[i]);
            Walk(log, cur, Normal(trace[..i + 1])) == Walk(d.log, d.index, Normal(trace[..i]))
  {
    NormalLast(trace, i);
    if trace[i] != NULL_IP {
      assert ([trace[i]] + Normal(trace[..i]))[1..] == Normal(trace[..i]);
    }
  }

  lemma NormalLast(trace: seq<Ip>, i: nat)
    requires i < |trace|
    ensures trace[i] == NULL_IP ==> Normal(trace[..i + 1]) == Normal(trace[..i])
    ensures trace[i] != NULL_IP ==> Normal(trace[..i + 1]) == [trace[i]] + Normal(trace[..i])
  {
    assert trace[..i + 1][..i] == trace[..i];
  }

  lemma {:induction false} WalkNothing(log: Log, cur: nat, trace: seq<Ip>)
    ensures Walk(log, cur, Normal(trace[..0])) == Interned(log, cur)
    ensures Announce(log, |log|) == []
  {
  }

  class TraceTree {
    const root: TraceEdge
    // Next index to assign.
    var index: nat

    // The tree as an edge log, the edge with index k, and the child lists by index.
    ghost var log: Log
    ghost var nodes: seq<TraceEdge>
    ghost var shape: seq<seq<nat>>
    ghost var repr: set<TraceEdge>

    ghost predicate Valid()
      reads this, repr
    {
      && index == |nodes|
      && root in repr && root.index == 0
      && Numbered(log, shape, nodes, repr)
      && (forall k | 0 <= k < |nodes| :: nodes[k].children == Selected(nodes, shape[k]))
    }

    constructor ()
      ensures Valid() && log == [] && fresh(repr)
    {
      var r := new TraceEdge(NULL_IP, 0);
      root := r;
      index := 1;
      nodes := [r];
      log := [];
      shape := [[]];
      repr := {r};
    }

    // What the child list of a frame looks like to the search.
    lemma ChildrenOf(parent: TraceEdge)
      requires Valid() && parent in repr
      ensures var p := parent.index;
              && p < |nodes| && nodes[p] == parent
              && |parent.children| == |shape[p]|
              && forall a | 0 <= a < |parent.children| ::
                   && 0 < shape[p][a] <= |log|
                   && parent.children[a] == nodes[shape[p][a]]
                   && parent.children[a] in repr
                   && parent.children[a].index == shape[p][a]
                   && parent.children[a].instructionPointer == IpAt(log, shape[p][a])
                   && log[shape[p][a] - 1].parent == p
      ensures SortedByIp(parent.children)
    {
      var p := parent.index;
      assert ChildList(log, p, shape[p]);
      assert nodes[p].children == Selected(nodes, shape[p]);
      forall a | 0 <= a < |parent.children|
        ensures 0 < shape[p][a] <= |log| && log[shape[p][a] - 1].parent == p
      {
        assert shape[p][a] in shape[p];
      }
    }

    // Insert the missing edge below parent, at the position the search returned.
    method Insert(parent: TraceEdge, position: nat, ip: Ip)
      requires Valid() && parent in repr && position <= |parent.children|
      requires forall a | 0 <= a < position :: parent.children[a].instructionPointer < ip
      requires forall a | position <= a < |parent.children| :: ip < parent.children[a].instructionPointer
      modifies this, parent
      ensures Valid() && log == old(log) + [Edge(ip, parent.index)]
      ensures Edge(ip, parent.index) !in old(log)
      ensures old(repr) <= repr && fresh(repr - old(repr))
      ensures position < |parent.children| && parent.children[position].index == |log|
    {
      hide Numbered, Selected, InsertAt, IpAt, SortedByIp;
      ghost var p := parent.index;
      ChildrenOf(parent);
      var edge := new TraceEdge(ip, index);
      NumberedGrows(log, shape, nodes, repr, p, edge);
      NumberedInsert(log, shape, nodes, repr, p, position, edge);
      SelectedInsert(nodes + [edge], shape[p], position, |log| + 1);
      index := index + 1;
      parent.children := parent.children[..position] + [edge] + parent.children[position..];
      nodes := nodes + [edge];
      repr := repr + {edge};
      shape := shape[p := InsertAt(shape[p], position, |log| + 1)] + [[]];
      log := log + [Edge(ip, p)];
    }

    // The child of parent along ip, created and announced to the callback if it is missing.
    method Child(parent: TraceEdge, ip: Ip) returns (child: TraceEdge, announced: seq<Instr>)
      requires Valid() && parent in repr
      modifies this, repr
      ensures Valid() && old(repr) <= repr && fresh(repr - old(repr))
      ensures child in repr && Interned(log, child.index) == Descend(old(log), parent.index, ip)
      ensures announced == if log == old(log) then [] else [Stack(ip, parent.index, child.index)]
    {
      ChildrenOf(parent);
      ghost var p := parent.index;
      var found, position := BinarySearch(parent.children, ip);
      if found {
        child := parent.children[position];
        announced := [];
        FindIs(log, Edge(ip, p), shape[p][position]);
      } else {
        Insert(parent, position, ip);
        ChildrenOf(parent);
        child := parent.children[position];
        announced := [Stack(ip, parent.index, child.index)];
      }
    }

    // The index of a trace, adding the frames that are missing. The callback of the source receives each new
    // frame as it is created; its calls, in order, are the result `announced`.
    method Index(trace: seq<Ip>) returns (idx: nat, announced: seq<Instr>)
      requires Valid()
      modifies this, repr
      ensures Valid() && old(repr) <= repr && fresh(repr - old(repr))
      ensures Interned(log, idx) == Walk(old(log), 0, Normal(trace))
      ensures announced == Announce(log, |old(log)|)
    {
      hide Numbered, Walk, Announce, Normal;
      idx := 0;
      announced := [];
      var parent := root;
      var i := |trace|;
      assert trace[..i] == trace;
      WalkNothing(log, 0, trace);
      while i > 0
        invariant 0 <= i <= |trace|
        invariant Valid() && old(repr) <= repr && fresh(repr - old(repr))
        invariant parent in repr && idx == parent.index
        invariant Walk(old(log), 0, Normal(trace)) == Walk(log, idx, Normal(trace[..i]))
        invariant |log| >= |old(log)| && announced == Announce(log, |old(log)|)
      {
        i := i - 1;
        var ip := trace[i];
        WalkLast(log, idx, trace, i);
        if ip == NULL_IP {
          continue;
        }
        var more;
        ghost var before := log;
        parent, more := Child(parent, ip);
        AnnounceStep(before, log, |old(log)|);
        announced := announced + more;
        idx := parent.index;
      }
      WalkNothing(log, idx, trace);
    }
  }
}
