// The gatherer's global tree of stack frames and its thread-local numbering tables.
module GlobalTree {
  import opened Frames
  import opened TrackTypes

  // Where `push` inserts a frame it has not seen. The program searches the child list of the frame's parent but
  // always inserts into the child list of the root (AsWritten). Its documentation describes a tree in which
  // children belong to their parent (UnderParent). The two differ in nothing else.
  datatype Variant = AsWritten | UnderParent

  // The retained record that a search finds, or 0.
  function Known(v: Variant, log: Log, parent: nat, ip: Ip): nat {
    match v
    case AsWritten => if parent == 0 then First(log, ip) else 0
    case UnderParent => Find(log, Edge(ip, parent))
  }

  // The retained records and the answer of a push.
  datatype Pushed = Pushed(updated: bool, index: nat, log: Log)

  // `push` in terms of the retained records: frame `ip` below global frame `parent`.
  function Push(v: Variant, log: Log, parent: nat, ip: Ip): Pushed {
    var k := Known(v, log, parent, ip);
    if k != 0 then Pushed(false, k, log) else Pushed(true, |log| + 1, log + [Edge(ip, parent)])
  }

  // ---------------------------------------------------------------------------------------------
  // The same operation on the vectors of child lists that the program keeps

  type Children = seq<(Ip, nat)>

  // The linear search of a child list.
  function Lookup(children: Children, ip: Ip): (r: Option<nat>)
    ensures r.None? <==> forall i | 0 <= i < |children| :: children[i].0 != ip
  {
    if children == [] then None
    else if children[0].0 == ip then Some(children[0].1)
    else Lookup(children[1..], ip)
  }

  datatype VectorPushed = VectorPushed(updated: bool, index: nat, lists: seq<Children>)

  function VectorPush(v: Variant, lists: seq<Children>, parent: nat, ip: Ip): VectorPushed
    requires parent < |lists|
  {
    match Lookup(lists[parent], ip)
    case Some(index) => VectorPushed(false, index, lists)
    case None =>
      var index := |lists|;
      var at := if v.AsWritten? then 0 else parent;
      VectorPushed(true, index, (lists + [[]])[at := (lists + [[]])[at] + [(ip, index)]])
  }

  // The child list of frame p that the retained records call for.
  function ListOf(v: Variant, log: Log, p: nat): Children {
    if log == [] then []
    else
      var last := log[|log| - 1];
      ListOf(v, log[..|log| - 1], p) +
      if (v.AsWritten? && p == 0) || (v.UnderParent? && p == last.parent) then [(last.ip, |log|)] else []
  }

  ghost predicate Represents(v: Variant, lists: seq<Children>, log: Log) {
    && |lists| == |log| + 1
    && forall p | 0 <= p < |lists| :: lists[p] == ListOf(v, log, p)
  }

  lemma {:induction false} LookupAppend(children: Children, ip: Ip, index: nat, wanted: Ip)
    ensures Lookup(children + [(ip, index)], wanted) ==
            if Lookup(children, wanted).Some? then Lookup(children, wanted)
            else if ip == wanted then Some(index) else None
  {
    if children == [] {
      assert children + [(ip, index)] == [(ip, index)];
    } else {
      assert (children + [(ip, index)])[1..] == children[1..] + [(ip, index)];
      LookupAppend(children[1..], ip, index, wanted);
    }
  }

  // Searching the child list of a frame is searching the retained records.
  lemma {:induction false} LookupIs(v: Variant, log: Log, parent: nat, ip: Ip)
    ensures Lookup(ListOf(v, log, parent), ip) ==
            if Known(v, log, parent, ip) != 0 then Some(Known(v, log, parent, ip)) else None
  {
    if log != [] {
      var front, last := log[..|log| - 1], log[|log| - 1];
      LookupIs(v, front, parent, ip);
      LookupAppend(ListOf(v, front, parent), last.ip, |log|, ip);
      assert ListOf(v, front, parent) + [] == ListOf(v, front, parent);
      if v.UnderParent? {
        assert last == Edge(ip, parent) <==> last.ip == ip && last.parent == parent;
        assert Find(log, Edge(ip, parent)) ==
               if Find(front, Edge(ip, parent)) != 0 then Find(front, Edge(ip, parent))
               else if last == Edge(ip, parent) then |log| else 0;
      } else if parent == 0 {
        assert First(log, ip) ==
               if First(front, ip) != 0 then First(front, ip) else if last.ip == ip then |log| else 0;
      }
    }
  }

  lemma {:induction false} ListBeyond(v: Variant, log: Log, p: nat)
    requires WellFormed(log) && p > |log|
    ensures ListOf(v, log, p) == []
  {
    if log != [] {
      ListBeyond(v, log[..|log| - 1], p);
    }
  }

  // The program's `push` implements `Push` in either variant.
  lemma VectorPushRefines(v: Variant, lists: seq<Children>, log: Log, parent: nat, ip: Ip)
    requires WellFormed(log) && Represents(v, lists, log) && parent < |lists|
    ensures var a, b := VectorPush(v, lists, parent, ip), Push(v, log, parent, ip);
            && a.updated == b.updated && a.index == b.index
            && WellFormed(b.log) && Represents(v, a.lists, b.log)
  {
    LookupIs(v, log, parent, ip);
    var a, b := VectorPush(v, lists, parent, ip), Push(v, log, parent, ip);
    if b.updated {
      ListBeyond(v, log, |log| + 1);
      assert b.log[..|log|] == log;
      forall p | 0 <= p < |a.lists|
        ensures a.lists[p] == ListOf(v, b.log, p)
      {
        assert p < |lists| ==> lists[p] == ListOf(v, log, p);
      }
    }
  }

  // ---------------------------------------------------------------------------------------------
  // The objects

  lemma PushGrows(v: Variant, log: Log, parent: nat, ip: Ip)
    ensures log <= Push(v, log, parent, ip).log && Push(v, log, parent, ip).index <= |Push(v, log, parent, ip).log|
  {
  }

  lemma OneMore<K, V>(before: map<K, V>, after: map<K, V>, k: K)
    requires k in after && forall x | x in before && x != k :: x in after && after[x] == before[x]
    requires forall x | x in after :: x == k || x in before
    ensures after == before[k := after[k]]
  {
  }

  class ThreadTreeData {
    var localToGlobal: seq<nat>
    var count: nat

    constructor ()
      ensures localToGlobal == [0] && count == 0
    {
      localToGlobal, count := [0], 0;
    }
  }

  class GlobalTraceTree {
    // Child lists, indexed by global frame.
    var globalParent: seq<Children>
    var threadData: map<ThreadId, ThreadTreeData>

    // The retained records.
    ghost var log: Log
    ghost var repr: set<object>

    ghost predicate Valid()
      reads this, repr
    {
      && this in repr
      && WellFormed(log) && Represents(AsWritten, globalParent, log)
      && (forall t | t in threadData :: threadData[t] in repr)
      && (forall t, u | t in threadData && u in threadData && t != u :: threadData[t] != threadData[u])
      && (forall t | t in threadData :: TableOk(log, threadData[t].localToGlobal))
      && (forall t | t in threadData :: |threadData[t].localToGlobal| == threadData[t].count + 1)
    }

    // The numbering tables by value.
    ghost function Tables(): map<ThreadId, seq<nat>>
      reads this, repr
      requires Valid()
    {
      map t | t in threadData :: threadData[t].localToGlobal
    }

    constructor ()
      ensures Valid() && fresh(repr) && log == [] && Tables() == map[]
    {
      globalParent := [[]];
      threadData := map[];
      log := [];
      repr := {this};
    }

    // The table of a thread, created on first use.
    method ForThread(thread: ThreadId) returns (data: ThreadTreeData)
      requires Valid()
      modifies this
      ensures Valid() && old(repr) <= repr && fresh(repr - old(repr)) && log == old(log)
      ensures thread in threadData && data == threadData[thread]
      ensures Tables() == if thread in old(Tables()) then old(Tables()) else old(Tables())[thread := [0]]
    {
      if thread in threadData {
        data := threadData[thread];
      } else {
        data := NewThread(thread);
      }
    }

    // A table for a thread seen for the first time: the root only.
    method NewThread(thread: ThreadId) returns (data: ThreadTreeData)
      requires Valid() && thread !in threadData
      modifies this
      ensures Valid() && fresh(data) && repr == old(repr) + {data} && log == old(log)
      ensures thread in threadData && data == threadData[thread]
      ensures Tables() == old(Tables())[thread := [0]]
    {
      hide Represents, WellFormed;
      data := new ThreadTreeData();
      threadData := threadData[thread := data];
      repr := repr + {data};
      assert forall t | t in old(threadData) :: threadData[t] == old(threadData[t]) && threadData[t] != data;
      OneMore(old(Tables()), Tables(), thread);
    }

    method RemoveThread(thread: ThreadId)
      requires Valid()
      modifies this
      ensures Valid() && repr == old(repr) && log == old(log)
      ensures Tables() == old(Tables()) - {thread}
    {
      threadData := threadData - {thread};
    }

    // The child of global frame `parent` along ip, inserted as the program does when it is not found.
    method FindOrInsert(parent: nat, ip: Ip) returns (updated: bool, index: nat)
      requires WellFormed(log) && Represents(AsWritten, globalParent, log) && parent <= |log|
      modifies this`globalParent, this`log
      ensures WellFormed(log) && Represents(AsWritten, globalParent, log)
      ensures Pushed(updated, index, log) == Push(AsWritten, old(log), parent, ip)
    {
      VectorPushRefines(AsWritten, globalParent, log, parent, ip);
      log := Push(AsWritten, log, parent, ip).log;
      match Lookup(globalParent[parent], ip) {
        case Some(i) =>
          updated, index := false, i;
        case None =>
          updated, index := true, |globalParent|;
          globalParent := globalParent + [[]];
          globalParent := globalParent[0 := globalParent[0] + [(ip, index)]];
      }
    }

    // Push a thread-local frame through the table `data` of `thread`. `ok` is false where the program panics:
    // the table has no entry for the local parent.
    method PushFrame(ghost thread: ThreadId, data: ThreadTreeData, localParent: nat, ip: Ip)
      returns (ok: bool, updated: bool, parent: nat, index: nat)
      requires Valid() && thread in threadData && threadData[thread] == data
      modifies this, data
      ensures Valid() && repr == old(repr) && threadData == old(threadData)
      ensures ok <==> localParent < |old(data.localToGlobal)|
      ensures !ok ==> log == old(log) && Tables() == old(Tables())
      ensures ok ==> parent == old(data.localToGlobal)[localParent]
      ensures ok ==> Pushed(updated, index, log) == Push(AsWritten, old(log), parent, ip)
      ensures ok ==> data.localToGlobal == old(data.localToGlobal) + [index]
      ensures ok ==> Tables() == old(Tables())[thread := data.localToGlobal]
    {
      hide Represents, WellFormed, Push;
      if localParent != 0 && localParent >= |data.localToGlobal| {
        return false, false, 0, 0;
      }
      ok := true;
      parent := if localParent == 0 then 0 else data.localToGlobal[localParent];
      PushGrows(AsWritten, log, parent, ip);
      data.count := data.count + 1;
      updated, index := FindOrInsert(parent, ip);
      data.localToGlobal := data.localToGlobal + [index];
    }
  }

  // Every entry names a retained record; entry 0 is the root.
  predicate TableOk(log: Log, table: seq<nat>) {
    && table != [] && table[0] == 0
    && forall k | 0 <= k < |table| :: table[k] <= |log|
  }
}
