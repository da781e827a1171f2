// The gatherer object: it rewrites buffers in place, and its passes swap out the buffers of all threads.
module Gatherers {
  import opened Frames
  import opened TrackTypes
  import opened GlobalTree
  import opened Translation
  import opened Gathering
  import opened Protocol
  import opened ThreadStates

  function Deliveries(flushes: seq<Flush>): seq<Event> {
    seq(|flushes|, i requires 0 <= i < |flushes| => Delivered(flushes[i].thread, flushes[i].buffer))
  }

  // What the gatherer has made of the events so far, and what it has asked of the resolver.
  datatype Handled = Handled(g: Gathered, asked: seq<Request>)

  function HandleOne(h: Handled, e: Event): Handled {
    Handled(Process(AsWritten, h.g, e), h.asked + if e.Delivered? then RequestsFor(h.g, e) else [])
  }

  // The requests for symbols that go with a delivery.
  function RequestsFor(g: Gathered, e: Event): seq<Request>
    requires e.Delivered?
  {
    Requests(InfosOf(Translate(AsWritten, g.log, Table(g.tables, e.thread), e.buffer).out))
  }

  function HandleAll(h: Handled, events: seq<Event>): Handled {
    if events == [] then h else HandleOne(HandleAll(h, events[..|events| - 1]), events[|events| - 1])
  }

  lemma {:induction false} HandleAllSnoc(h: Handled, events: seq<Event>, e: Event)
    ensures HandleAll(h, events + [e]) == HandleOne(HandleAll(h, events), e)
  {
    assert (events + [e])[..|events|] == events;
  }

  lemma {:induction false} HandleAllAppend(h: Handled, a: seq<Event>, b: seq<Event>)
    ensures HandleAll(h, a + b) == HandleAll(HandleAll(h, a), b)
  {
    if b == [] {
      assert a + b == a;
    } else {
      assert (a + b)[..|a + b| - 1] == a + b[..|b| - 1];
      HandleAllAppend(h, a, b[..|b| - 1]);
    }
  }

  // An empty buffer asks for nothing and writes nothing.
  lemma EmptyDelivery(h: Handled, thread: ThreadId)
    ensures HandleOne(h, Delivered(thread, [])) == h
  {
  }

  lemma TickIs(h: Handled, now: Time)
    requires h.g.ok
    ensures HandleOne(h, Ticked(now)) == h.(g := h.g.(timestamp := now, wire := h.g.wire + [Timestamp(now)]))
  {
  }

  // A panic is final.
  lemma {:induction false} PanicIsFinal(h: Handled, a: seq<Event>, b: seq<Event>)
    requires !HandleAll(h, a).g.ok
    ensures !HandleAll(h, a + b).g.ok
  {
    if b == [] {
      assert a + b == a;
    } else {
      assert (a + b)[..|a + b| - 1] == a + b[..|b| - 1];
      PanicIsFinal(h, a, b[..|b| - 1]);
    }
  }

  // Handling events one after the other from the start is what the stream theorems are about.
  lemma {:induction false} HandleAllIsGather(events: seq<Event>)
    ensures HandleAll(Handled(START, []), events).g == Gather(AsWritten, events)
  {
    if events != [] {
      HandleAllIsGather(events[..|events| - 1]);
    }
  }

  // In all, the gatherer asks the resolver for exactly the frames that it put on the wire, in order, each with its
  // time.
  lemma {:induction false} HandleAllAsks(events: seq<Event>)
    requires Gather(AsWritten, events).ok
    ensures HandleAll(Handled(START, []), events).asked ==
            Requests(InfosOf(Stream(Gather(AsWritten, events).wire)))
  {
    if events == [] {
      assert InfosOf(Stream([])) == [];
    } else {
      hide InfosOf, Stream, Requests, RequestsFor;
      var front, e := events[..|events| - 1], events[|events| - 1];
      var g := Gather(AsWritten, front);
      HandleAllAsks(front);
      HandleAllIsGather(front);
      if e.Delivered? && e.buffer != [] {
        DeliveryAsks(HandleAll(Handled(START, []), front), e);
      } else {
        ProcessOther(AsWritten, g, e, 0);
        AsksNothing(HandleAll(Handled(START, []), front), e);
      }
    }
  }

  lemma {:induction false} DeliveryAsks(h: Handled, e: Event)
    requires e.Delivered? && e.buffer != [] && h.g.ok && Process(AsWritten, h.g, e).ok
    requires h.asked == Requests(InfosOf(Stream(h.g.wire)))
    ensures var h' := HandleOne(h, e); h'.asked == Requests(InfosOf(Stream(h'.g.wire)))
  {
    hide InfosOf, Stream, Translate;
    var out := Translate(AsWritten, h.g.log, Table(h.g.tables, e.thread), e.buffer).out;
    WireSnoc(h.g.wire, Instructions(h.g.timestamp, e.thread, out), 0);
    InfosOfAppend(Stream(h.g.wire), out);
    RequestsOfAppend(InfosOf(Stream(h.g.wire)), InfosOf(out));
  }

  lemma RequestsOfAppend(a: seq<StackInfo>, b: seq<StackInfo>)
    ensures Requests(a + b) == Requests(a) + Requests(b)
  {
  }

  lemma AsksNothing(h: Handled, e: Event)
    requires !e.Delivered? || e.buffer == []
    ensures HandleOne(h, e).asked == h.asked
  {
  }

  lemma Collect(written: seq<StackInfo>, collected: seq<StackInfo>, answers: seq<StackInfo>, i: nat,
                written0: seq<StackInfo>, collected0: seq<StackInfo>)
    requires i < |answers| && written + collected == written0 + (collected0 + answers[..i])
    ensures written + (collected + [answers[i]]) == written0 + (collected0 + answers[..i + 1])
  {
    assert written + (collected + [answers[i]]) == written + collected + [answers[i]];
  }

  class Gatherer {
    var buffers: seq<ThreadState>
    var connection: seq<Message>
    var toResolver: seq<Request>
    const traceTree: GlobalTraceTree
    var timestamp: Time
    var details: seq<StackInfo>
    var detailsCapacity: nat

    // Every shared state this gatherer has accepted.
    ghost var accepted: set<ThreadState>

    ghost predicate Valid()
      reads this, traceTree, traceTree.repr
    {
      && this !in traceTree.repr && traceTree.Valid()
      && (forall state | state in accepted :: state !in traceTree.repr)
      && forall i | 0 <= i < |buffers| :: buffers[i] in accepted
    }

    // The gatherer by value.
    ghost function View(): Handled
      reads this, traceTree, traceTree.repr
      requires Valid()
    {
      Handled(Gathered(true, traceTree.log, traceTree.Tables(), timestamp, connection), toResolver)
    }

    constructor ()
      ensures Valid() && View() == Handled(START, []) && buffers == [] && details == []
      ensures fresh(traceTree) && fresh(traceTree.repr) && accepted == {}
    {
      accepted := {};
      buffers, connection, toResolver, timestamp, details, detailsCapacity := [], [], [], 0, [], 0;
      traceTree := new GlobalTraceTree();
    }

    // Append a message to the wire.
    method Write(m: Message)
      requires Valid()
      modifies this`connection
      ensures Valid() && connection == old(connection) + [m]
      ensures View() == old(View()).(g := old(View()).g.(wire := old(View()).g.wire + [m]))
    {
      connection := connection + [m];
    }

    // A dead thread's table goes, and its end is announced.
    method Retire(thread: ThreadId)
      requires Valid()
      modifies this`connection, traceTree
      ensures Valid() && traceTree.repr == old(traceTree.repr)
      ensures View() == HandleOne(old(View()), Removed(thread))
    {
      traceTree.RemoveThread(thread);
      Write(DestroyThread(thread));
    }

    // One instruction of a buffer. `ok` is false where the program panics.
    method RewriteOne(ghost thread: ThreadId, data: ThreadTreeData, x: Timed)
      returns (ok: bool, retained: seq<Timed>)
      requires Valid() && thread in traceTree.threadData && traceTree.threadData[thread] == data
      modifies traceTree, data, `toResolver
      ensures Valid() && traceTree.repr == old(traceTree.repr) && traceTree.threadData == old(traceTree.threadData)
      ensures var r := Rewrite(AsWritten, old(traceTree.log), old(data.localToGlobal), x);
              ok == r.ok && (ok ==> traceTree.log == r.log && data.localToGlobal == r.table && retained == r.out)
      ensures ok ==> toResolver == old(toResolver) + Requests(InfosOf(retained))
      ensures ok ==> traceTree.Tables() == old(traceTree.Tables())[thread := data.localToGlobal]
    {
      hide Represents, WellFormed, Process;
      retained := [];
      match x.instr {
        case Stack(ip, localParent, _) =>
          assert localParent < |data.localToGlobal| ==> data.localToGlobal[localParent] <= |traceTree.log|;
          var updated, parent, index;
          ok, updated, parent, index := traceTree.PushFrame(thread, data, localParent, ip);
          if ok && updated {
            toResolver := toResolver + [Resolve(StackInfo(x.time, index, ip))];
            retained := [Timed(Stack(ip, parent, index), x.time)];
          }
        case Allocate(ptr, size, traceIndex) =>
          ok := traceIndex < |data.localToGlobal|;
          if ok {
            retained := [Timed(Allocate(ptr, size, AsU32(data.localToGlobal[traceIndex])), x.time)];
          }
        case Deallocate(ptr, size, traceIndex) =>
          ok := traceIndex < |data.localToGlobal|;
          if ok {
            retained := [Timed(Deallocate(ptr, size, AsU32(data.localToGlobal[traceIndex])), x.time)];
          }
      }
      if retained != [] {
        assert retained[..0] == [];
      }
    }

    // Rewrite a buffer through the table `data` of `thread`.
    method RewriteAll(ghost thread: ThreadId, data: ThreadTreeData, buffer: seq<Timed>)
      returns (ok: bool, out: seq<Timed>)
      requires Valid() && thread in traceTree.threadData && traceTree.threadData[thread] == data
      modifies traceTree, data, `toResolver
      ensures Valid() && traceTree.repr == old(traceTree.repr) && traceTree.threadData == old(traceTree.threadData)
      ensures var r := Translate(AsWritten, old(traceTree.log), old(data.localToGlobal), buffer);
              && ok == r.ok
              && (ok ==> r == Translated(true, traceTree.log, data.localToGlobal, out))
      ensures ok ==> toResolver == old(toResolver) + Requests(InfosOf(out))
      ensures ok ==> traceTree.Tables() == old(traceTree.Tables())[thread := data.localToGlobal]
    {
      ok, out := true, [];
      var i := 0;
      assert Requests(InfosOf([])) == [];
      while i < |buffer|
        invariant 0 <= i <= |buffer| && ok
        invariant Valid() && traceTree.repr == old(traceTree.repr) && traceTree.threadData == old(traceTree.threadData)
        invariant Translate(AsWritten, old(traceTree.log), old(data.localToGlobal), buffer[..i]) ==
                  Translated(true, traceTree.log, data.localToGlobal, out)
        invariant traceTree.Tables() == old(traceTree.Tables())[thread := data.localToGlobal]
        invariant toResolver == old(toResolver) + Requests(InfosOf(out))
      {
        assert buffer[..i + 1][..i] == buffer[..i];
        var more;
        ghost var table := data.localToGlobal;
        ok, more := RewriteOne(thread, data, buffer[i]);
        ReplaceEntry(old(traceTree.Tables()), old(traceTree.Tables())[thread := table], thread, table,
                     data.localToGlobal);
        if !ok {
          FailedPrefix(old(traceTree.log), old(data.localToGlobal), buffer, i + 1);
          return;
        }
        RequestsAppend(out, more);
        out := out + more;
        i := i + 1;
      }
      assert buffer[..i] == buffer;
    }

    // Translate a buffer and write it to the wire.
    method SendBuffer(thread: ThreadId, buffer: seq<Timed>) returns (ok: bool)
      requires Valid()
      modifies this`connection, this`toResolver, traceTree, traceTree.repr
      ensures Valid() && old(traceTree.repr) <= traceTree.repr && fresh(traceTree.repr - old(traceTree.repr))
      ensures ok == HandleOne(old(View()), Delivered(thread, buffer)).g.ok
      ensures ok ==> View() == HandleOne(old(View()), Delivered(thread, buffer))
    {
      hide Represents, WellFormed, TableOk, Translate, Rewrite, InfosOf;
      EmptyDelivery(View(), thread);
      if buffer == [] {
        return true;
      }
      ghost var g := View().g;
      var data := traceTree.ForThread(thread);
      assert traceTree.Tables()[thread] == data.localToGlobal;
      assert data.localToGlobal == Table(g.tables, thread);
      ghost var tables, table := traceTree.Tables(), data.localToGlobal;
      var out;
      ok, out := RewriteAll(thread, data, buffer);
      if ok {
        ReplaceEntry(g.tables, tables, thread, table, data.localToGlobal);
        Write(Instructions(timestamp, thread, out));
      }
    }

    method HandleFlush(flush: Flush) returns (ok: bool)
      requires Valid()
      modifies this`connection, this`toResolver, traceTree, traceTree.repr
      ensures Valid() && old(traceTree.repr) <= traceTree.repr && fresh(traceTree.repr - old(traceTree.repr))
      ensures var e := Delivered(flush.thread, flush.buffer);
              && ok == HandleOne(old(View()), e).g.ok
              && (ok ==> View() == HandleOne(old(View()), e))
    {
      ok := SendBuffer(flush.thread, flush.buffer);
    }

    // Everything that is waiting in the channel.
    method DrainReceiver(waiting: seq<Flush>) returns (ok: bool)
      requires Valid()
      modifies this`connection, this`toResolver, traceTree, traceTree.repr
      ensures Valid() && old(traceTree.repr) <= traceTree.repr && fresh(traceTree.repr - old(traceTree.repr))
      ensures ok ==> View() == HandleAll(old(View()), Deliveries(waiting))
      ensures ok == HandleAll(old(View()), Deliveries(waiting)).g.ok
      ensures forall state | state in accepted :: OwnerOf(state) == old(OwnerOf(state))
    {
      ghost var h := View();
      var i := 0;
      ok := true;
      assert Deliveries(waiting[..0]) == [];
      while ok && i < |waiting|
        invariant 0 <= i <= |waiting|
        invariant Valid() && old(traceTree.repr) <= traceTree.repr && fresh(traceTree.repr - old(traceTree.repr))
        invariant ok == HandleAll(h, Deliveries(waiting[..i])).g.ok
        invariant ok ==> View() == HandleAll(h, Deliveries(waiting[..i]))
        decreases ok, |waiting| - i
      {
        DeliveriesSnoc(h, waiting, i);
        ok := HandleFlush(waiting[i]);
        i := i + 1;
      }
      if ok {
        assert waiting[..i] == waiting;
      } else {
        DeliveriesPanic(h, waiting, i);
      }
    }

    // A new thread is accepted and announced.
    method HandleRegister(state: ThreadState)
      requires Valid() && state !in traceTree.repr
      modifies this`buffers, this`connection, this`accepted
      ensures Valid() && buffers == old(buffers) + [state] && accepted == old(accepted) + {state}
      ensures View() == HandleOne(old(View()), Registered(state.thread))
    {
      buffers := buffers + [state];
      accepted := accepted + {state};
      Write(CreateThread(state.thread));
    }

    // A resolved frame joins those collected.
    method AddDetails(info: StackInfo) returns (capacity: nat)
      requires Valid()
      modifies this`details, this`detailsCapacity
      ensures Valid() && View() == old(View()) && Grown(|old(details)|, old(detailsCapacity), capacity)
      ensures details == old(details) + [info] && detailsCapacity == capacity
    {
      hide Represents, WellFormed, TableOk;
      capacity := Reserve(|details|, detailsCapacity);
      detailsCapacity := capacity;
      details := details + [info];
    }

    // Resolved frames are collected and written once the vector is full; `capacity` is what it has grown to.
    method HandleDetails(info: StackInfo) returns (capacity: nat)
      requires Valid()
      modifies this`details, this`detailsCapacity, this`connection
      ensures Valid() && Grown(|old(details)|, old(detailsCapacity), capacity)
      ensures var all := old(details) + [info];
              if |all| == capacity then
                && View() == HandleOne(old(View()), Detailed(all)) && details == [] && detailsCapacity == 0
              else View() == old(View()) && details == all && detailsCapacity == capacity
    {
      hide HandleOne, Represents, WellFormed, TableOk, Grown;
      capacity := AddDetails(info);
      if |details| == detailsCapacity {
        WriteDetails();
      }
    }

    // What has been collected goes out in one message.
    method WriteDetails()
      requires Valid() && details != []
      modifies this`details, this`detailsCapacity, this`connection
      ensures Valid() && details == [] && detailsCapacity == 0
      ensures View() == HandleOne(old(View()), Detailed(old(details)))
      ensures connection == old(connection) + [StackDetails(old(details)[0].time, old(details))]
    {
      Write(StackDetails(details[0].time, details));
      details, detailsCapacity := [], 0;
    }

    // The end of a shutdown, after the final pass: the resolver's remaining answers arrive, and what does not
    // fill a whole batch is written too. Every answer is written exactly once, in order.
    method Finish(answers: seq<StackInfo>)
      requires Valid()
      modifies this`details, this`detailsCapacity, this`connection
      ensures Valid() && details == []
      ensures Written(connection) == Written(old(connection)) + (old(details) + answers)
    {
      var i := 0;
      while i < |answers|
        invariant 0 <= i <= |answers| && Valid()
        invariant Written(connection) + details == Written(old(connection)) + (old(details) + answers[..i])
      {
        ghost var all := details + [answers[i]];
        WrittenSnoc(connection, StackDetails(all[0].time, all));
        ghost var before, collected := Written(connection), details;
        var capacity := HandleDetails(answers[i]);
        Collect(before, collected, answers, i, Written(old(connection)), old(details));
        i := i + 1;
      }
      assert answers[..i] == answers;
      if details != [] {
        WrittenSnoc(connection, StackDetails(details[0].time, details));
        WriteDetails();
      }
    }

    // The critical section: drain the channel under the thread's lock, then swap its buffer for an empty one.
    method TakeBuffer(state: ThreadState, waiting: seq<Flush>, spare: Buffer,
                      ghost all: seq<ThreadState>, ghost owners: seq<Owner>, ghost n: nat)
      returns (ok: bool, buffer: Buffer, dead: bool)
      requires Valid() && spare.items == []
      requires Emptied(all, owners, n) && n < |all| && state == all[n]
      requires forall i | 0 <= i < |all| :: all[i] in accepted && (all[i] == state <==> i == n)
      modifies this`connection, this`toResolver, traceTree, traceTree.repr, state`buffer
      ensures Valid() && old(traceTree.repr) <= traceTree.repr && fresh(traceTree.repr - old(traceTree.repr))
      ensures state.buffer == spare && buffer == old(state.buffer) && dead == state.dead
      ensures Emptied(all, owners, n + 1)
      ensures ok == HandleAll(old(View()), Deliveries(waiting)).g.ok
      ensures ok ==> View() == HandleAll(old(View()), Deliveries(waiting))
    {
      ok := DrainReceiver(waiting);
      buffer := spare;
      buffer, state.buffer := state.buffer, buffer;
      dead := state.dead;
    }

    // What was in the buffer is shipped, and a dead thread is retired.
    method ShipBuffer(thread: ThreadId, buffer: Buffer, dead: bool) returns (ok: bool, emptied: Buffer)
      requires Valid()
      modifies this`connection, this`toResolver, traceTree, traceTree.repr
      ensures Valid() && old(traceTree.repr) <= traceTree.repr && fresh(traceTree.repr - old(traceTree.repr))
      ensures emptied == buffer.(items := [])
      ensures var sent := HandleOne(old(View()), Delivered(thread, buffer.items));
              && ok == sent.g.ok
              && (ok ==> View() == if dead then HandleOne(sent, Removed(thread)) else sent)
    {
      emptied := buffer.(items := []);
      ok := SendBuffer(thread, buffer.items);
      if ok && dead {
        Retire(thread);
      }
    }

    // One thread's turn in a pass.
    method ServeThread(state: ThreadState, waiting: seq<Flush>, spare: Buffer,
                       ghost all: seq<ThreadState>, ghost owners: seq<Owner>, ghost n: nat)
      returns (ok: bool, dead: bool, emptied: Buffer)
      requires Valid() && spare.items == []
      requires Emptied(all, owners, n) && n < |all| && state == all[n]
      requires forall i | 0 <= i < |all| :: all[i] in accepted && (all[i] == state <==> i == n)
      modifies this`connection, this`toResolver, traceTree, traceTree.repr, state`buffer
      ensures Valid() && old(traceTree.repr) <= traceTree.repr && fresh(traceTree.repr - old(traceTree.repr))
      ensures ok ==> dead == state.dead && emptied == old(state.buffer).(items := [])
      ensures ok ==> Emptied(all, owners, n + 1)
      ensures ok == HandleAll(old(View()), ServeEvents(waiting, old(OwnerOf(state)))).g.ok
      ensures ok ==> View() == HandleAll(old(View()), ServeEvents(waiting, old(OwnerOf(state))))
    {
      ServeIsHandled(View(), waiting, OwnerOf(state));
      var buffer;
      ok, buffer, dead := TakeBuffer(state, waiting, spare, all, owners, n);
      emptied := spare;
      if ok {
        ok, emptied := ShipBuffer(state.thread, buffer, dead);
      }
    }

    // The turn of the thread at `index`: a dead thread leaves the list, the position moves past a live one.
    method Turn(states: seq<ThreadState>, index: nat, arrivals: seq<seq<Flush>>, n: nat, spare: Buffer,
                ghost all: seq<ThreadState>, ghost owners: seq<Owner>)
      returns (ok: bool, rest: seq<ThreadState>, next: nat, emptied: Buffer)
      requires spare.items == []
      requires Valid() && Listed(accepted, all, owners, arrivals) && Emptied(all, owners, n)
      requires InTurn(all, owners, n, states, index) && index < |states| && n < |all|
      modifies this`connection, this`toResolver, traceTree, traceTree.repr, accepted`buffer
      ensures Valid() && old(traceTree.repr) <= traceTree.repr && fresh(traceTree.repr - old(traceTree.repr))
      ensures ok == HandleAll(old(View()), ServeEvents(arrivals[n], owners[n])).g.ok
      ensures ok ==> View() == HandleAll(old(View()), ServeEvents(arrivals[n], owners[n]))
      ensures ok ==> Emptied(all, owners, n + 1) && InTurn(all, owners, n + 1, rest, next) && emptied.items == []
    {
      NextState(all, owners, n, states, index);
      assert OwnerOf(all[n]) == owners[n];
      rest, next := states, index;
      var dead;
      ok, dead, emptied := ServeThread(states[index], arrivals[n], spare, all, owners, n);
      if dead {
        rest := states[..index] + states[index + 1..];
      } else {
        next := index + 1;
      }
    }

    // All threads' turns; arrivals[k] is what is in the channel under the k-th lock. The dead leave the list.
    method ServeThreads(all: seq<ThreadState>, ghost owners: seq<Owner>, arrivals: seq<seq<Flush>>)
      returns (ok: bool, states: seq<ThreadState>)
      requires Valid() && Listed(accepted, all, owners, arrivals) && Emptied(all, owners, 0)
      modifies this`connection, this`toResolver, traceTree, traceTree.repr, accepted`buffer
      ensures Valid() && old(traceTree.repr) <= traceTree.repr && fresh(traceTree.repr - old(traceTree.repr))
      ensures ok ==> states == Alive(all, owners) && Emptied(all, owners, |all|)
      ensures ok == HandleAll(old(View()), ServedEvents(arrivals, owners)).g.ok
      ensures ok ==> View() == HandleAll(old(View()), ServedEvents(arrivals, owners))
    {
      hide HandleAll, HandleOne, Alive, InTurn, ServedEvents, Emptied, Represents, WellFormed, TableOk;
      ghost var h := View();
      var capacity := Reserve(0, 0);
      var buffer := Buffer([], capacity);
      ok, states := true, all;
      var index, served := 0, 0;
      FirstState(all, owners);
      ServedNothing(h, arrivals);
      while ok && index < |states|
        invariant 0 <= index && 0 <= served <= |all|
        invariant Valid() && old(traceTree.repr) <= traceTree.repr && fresh(traceTree.repr - old(traceTree.repr))
        invariant ok ==> InTurn(all, owners, served, states, index) && Emptied(all, owners, served)
        invariant ok ==> buffer.items == []
        invariant ok ==> View() == HandleAll(h, ServedEvents(arrivals, owners[..served]))
        invariant !ok ==> !HandleAll(h, ServedEvents(arrivals, owners)).g.ok
        decreases ok, |all| - served
      {
        SomeTurn(all, owners, served, states, index);
        ServedSnoc(h, arrivals, owners, served);
        ok, states, index, buffer := Turn(states, index, arrivals, served, buffer, all, owners);
        served := served + 1;
        if !ok {
          ServedPanic(h, arrivals, owners, served);
        }
      }
      if ok {
        LastState(all, owners, served, states, index);
      }
    }

    // One pass over all threads. `first` is what is in the channel when the pass starts.
    method HandleBuffers(first: seq<Flush>, arrivals: seq<seq<Flush>>, now: Time) returns (ok: bool)
      requires Valid() && |arrivals| == |buffers|
      requires forall i, j | 0 <= i < j < |buffers| :: buffers[i] != buffers[j]
      modifies this`buffers, this`connection, this`toResolver, this`timestamp, traceTree, traceTree.repr,
               accepted`buffer
      ensures ok ==> Valid() && old(traceTree.repr) <= traceTree.repr && fresh(traceTree.repr - old(traceTree.repr))
      ensures ok ==> buffers == Alive(old(buffers), old(Owners(buffers)))
      ensures ok ==> forall i | 0 <= i < |old(buffers)| :: old(buffers)[i].buffer.items == []
      ensures var events := PassEvents(first, arrivals, old(Owners(buffers)), now);
              && ok == HandleAll(old(View()), events).g.ok
              && (ok ==> View() == HandleAll(old(View()), events))
    {
      hide HandleAll, HandleOne, Alive, ServedEvents, Deliveries, PassEvents, Represents, WellFormed, TableOk;
      ghost var owners, h := Owners(buffers), View();
      PassIsHandled(h, first, arrivals, owners, now);
      ok := DrainReceiver(first);
      if !ok {
        PassPanics(h, first, arrivals, owners, now);
        return;
      }
      var states;
      ok, states := ServeThreads(buffers, owners, arrivals);
      AliveAmong(buffers, owners);
      if !ok {
        PassPanics(h, first, arrivals, owners, now);
        return;
      }
      EndPass(states, now);
    }

    // The pass ends: the threads that are left are put back, and the time of the pass is announced.
    method EndPass(states: seq<ThreadState>, now: Time)
      requires Valid() && forall i | 0 <= i < |states| :: states[i] in accepted
      modifies this`buffers, this`connection, this`timestamp
      ensures Valid() && buffers == states && View() == HandleOne(old(View()), Ticked(now))
    {
      hide Represents, WellFormed, TableOk;
      buffers := states;
      timestamp := now;
      assert traceTree.Valid() && traceTree.Tables() == old(traceTree.Tables());
      hide HandleOne;
      TickIs(old(View()), now);
      Write(Timestamp(timestamp));
    }
  }

  // A thread's shared state by value.
  datatype Owner = Owner(thread: ThreadId, buffer: seq<Timed>, dead: bool)

  ghost function OwnerOf(state: ThreadState): Owner
    reads state
  {
    Owner(state.thread, state.buffer.items, state.dead)
  }

  ghost function Owners(states: seq<ThreadState>): (owners: seq<Owner>)
    reads states
    ensures |owners| == |states|
    ensures forall i | 0 <= i < |states| :: owners[i] == OwnerOf(states[i])
  {
    if states == [] then [] else Owners(states[..|states| - 1]) + [OwnerOf(states[|states| - 1])]
  }

  // Accepted threads, no two the same, as they were when the pass began, and what arrives under each lock.
  ghost predicate Listed(accepted: set<ThreadState>, all: seq<ThreadState>, owners: seq<Owner>,
                         arrivals: seq<seq<Flush>>) {
    && |all| == |owners| == |arrivals|
    && (forall i | 0 <= i < |all| :: all[i] in accepted)
    && forall i, j | 0 <= i < j < |all| :: all[i] != all[j]
  }

  // The buffers of the first n threads have been swapped out; otherwise the threads are as given.
  ghost predicate Emptied(all: seq<ThreadState>, owners: seq<Owner>, n: nat)
    reads all
  {
    && |all| == |owners|
    && forall i | 0 <= i < |all| :: OwnerOf(all[i]) == if i < n then owners[i].(buffer := []) else owners[i]
  }

  // The threads that a pass keeps.
  ghost function Alive<T>(states: seq<T>, owners: seq<Owner>): seq<T>
    requires |states| == |owners|
  {
    if states == [] then []
    else
      var n := |states| - 1;
      Alive(states[..n], owners[..n]) + if owners[n].dead then [] else [states[n]]
  }

  // The list of threads when the first n have been served, and the position in it.
  ghost predicate InTurn<T>(all: seq<T>, owners: seq<Owner>, n: nat, states: seq<T>, index: nat) {
    && |all| == |owners| && n <= |all|
    && states == Alive(all[..n], owners[..n]) + all[n..]
    && index == |Alive(all[..n], owners[..n])|
  }

  lemma FirstState<T>(all: seq<T>, owners: seq<Owner>)
    requires |all| == |owners|
    ensures InTurn(all, owners, 0, all, 0) && owners[..0] == []
  {
  }

  lemma SomeTurn<T>(all: seq<T>, owners: seq<Owner>, n: nat, states: seq<T>, index: nat)
    requires InTurn(all, owners, n, states, index) && index < |states|
    ensures n < |all|
  {
  }

  lemma NextState<T>(all: seq<T>, owners: seq<Owner>, n: nat, states: seq<T>, index: nat)
    requires InTurn(all, owners, n, states, index) && index < |states|
    ensures n < |all| && states[index] == all[n]
    ensures if owners[n].dead then InTurn(all, owners, n + 1, states[..index] + states[index + 1..], index)
            else InTurn(all, owners, n + 1, states, index + 1)
  {
    assert all[..n + 1][..n] == all[..n] && owners[..n + 1][..n] == owners[..n];
  }

  lemma {:induction false} AliveAmong<T>(states: seq<T>, owners: seq<Owner>)
    requires |states| == |owners|
    ensures forall i | 0 <= i < |Alive(states, owners)| :: Alive(states, owners)[i] in states
  {
    if states != [] {
      var n := |states| - 1;
      AliveAmong(states[..n], owners[..n]);
      assert forall i | 0 <= i < n :: states[..n][i] in states;
    }
  }

  lemma {:induction false} LastState<T>(all: seq<T>, owners: seq<Owner>, n: nat, states: seq<T>,
                                     index: nat)
    requires InTurn(all, owners, n, states, index) && index >= |states|
    ensures n == |all| && states == Alive(all, owners) && owners[..n] == owners
  {
    assert |all[n..]| == 0;
    assert all[..n] == all && owners[..n] == owners;
  }

  // The events of the turns of the given threads.
  function ServedEvents(arrivals: seq<seq<Flush>>, owners: seq<Owner>): seq<Event>
    requires |owners| <= |arrivals|
  {
    if owners == [] then []
    else
      var n := |owners| - 1;
      ServedEvents(arrivals, owners[..n]) + ServeEvents(arrivals[n], owners[n])
  }

  // Serving one thread: what waits in the channel comes before the thread's own buffer.
  function ServeEvents(waiting: seq<Flush>, owner: Owner): seq<Event> {
    Deliveries(waiting) + [Delivered(owner.thread, owner.buffer)] + if owner.dead then [Removed(owner.thread)] else []
  }

  function PassEvents(first: seq<Flush>, arrivals: seq<seq<Flush>>, owners: seq<Owner>, now: Time): seq<Event>
    requires |owners| <= |arrivals|
  {
    Deliveries(first) + ServedEvents(arrivals, owners) + [Ticked(now)]
  }

  lemma {:induction false} PassIsHandled(h: Handled, first: seq<Flush>, arrivals: seq<seq<Flush>>,
                                         owners: seq<Owner>, now: Time)
    requires |owners| <= |arrivals|
    ensures HandleAll(h, PassEvents(first, arrivals, owners, now)) ==
            HandleOne(HandleAll(HandleAll(h, Deliveries(first)),
                                          ServedEvents(arrivals, owners)), Ticked(now))
  {
    HandleAllAppend(h, Deliveries(first), ServedEvents(arrivals, owners));
    HandleAllSnoc(h, Deliveries(first) + ServedEvents(arrivals, owners), Ticked(now));
  }

  lemma {:induction false} ServedNothing(h: Handled, arrivals: seq<seq<Flush>>)
    ensures HandleAll(h, ServedEvents(arrivals, [])) == h
  {
  }

  // A pass that panics in one of its parts panics.
  lemma {:induction false} PassPanics(h: Handled, first: seq<Flush>, arrivals: seq<seq<Flush>>,
                                      owners: seq<Owner>, now: Time)
    requires |owners| <= |arrivals|
    requires || !HandleAll(h, Deliveries(first)).g.ok
             || !HandleAll(HandleAll(h, Deliveries(first)), ServedEvents(arrivals, owners)).g.ok
    ensures !HandleAll(h, PassEvents(first, arrivals, owners, now)).g.ok
  {
    PassIsHandled(h, first, arrivals, owners, now);
    HandleAllAppend(h, Deliveries(first), ServedEvents(arrivals, owners));
    if !HandleAll(h, Deliveries(first)).g.ok {
      PanicIsFinal(h, Deliveries(first), ServedEvents(arrivals, owners));
    }
  }

  lemma {:induction false} ServedSnoc(h: Handled, arrivals: seq<seq<Flush>>, owners: seq<Owner>, n: nat)
    requires n < |owners| <= |arrivals|
    ensures HandleAll(h, ServedEvents(arrivals, owners[..n + 1])) ==
            HandleAll(HandleAll(h, ServedEvents(arrivals, owners[..n])),
                       ServeEvents(arrivals[n], owners[n]))
  {
    assert owners[..n + 1][..n] == owners[..n];
    HandleAllAppend(h, ServedEvents(arrivals, owners[..n]), ServeEvents(arrivals[n], owners[n]));
  }

  lemma {:induction false} ServedPanic(h: Handled, arrivals: seq<seq<Flush>>, owners: seq<Owner>, n: nat)
    requires n <= |owners| <= |arrivals| && !HandleAll(h, ServedEvents(arrivals, owners[..n])).g.ok
    ensures !HandleAll(h, ServedEvents(arrivals, owners)).g.ok
    decreases |owners| - n
  {
    if n == |owners| {
      assert owners[..n] == owners;
    } else {
      assert owners[..n + 1][..n] == owners[..n];
      PanicIsFinal(h, ServedEvents(arrivals, owners[..n]), ServeEvents(arrivals[n], owners[n]));
      ServedPanic(h, arrivals, owners, n + 1);
    }
  }

  lemma {:induction false} ServeIsHandled(h: Handled, waiting: seq<Flush>, owner: Owner)
    ensures var sent := HandleOne(HandleAll(h, Deliveries(waiting)),
                                Delivered(owner.thread, owner.buffer));
            HandleAll(h, ServeEvents(waiting, owner)) ==
            if owner.dead then HandleOne(sent, Removed(owner.thread)) else sent
  {
    var e := Delivered(owner.thread, owner.buffer);
    HandleAllSnoc(h, Deliveries(waiting), e);
    if owner.dead {
      HandleAllSnoc(h, Deliveries(waiting) + [e], Removed(owner.thread));
    } else {
      assert Deliveries(waiting) + [e] + [] == Deliveries(waiting) + [e];
    }
  }

  lemma ReplaceEntry<K, V>(a: map<K, V>, b: map<K, V>, k: K, entry: V, value: V)
    requires b == a || b == a[k := entry]
    ensures b[k := value] == a[k := value]
  {
  }

  lemma {:induction false} DeliveriesSnoc(h: Handled, waiting: seq<Flush>, n: nat)
    requires n < |waiting|
    ensures HandleAll(h, Deliveries(waiting[..n + 1])) ==
            HandleOne(HandleAll(h, Deliveries(waiting[..n])), Delivered(waiting[n].thread, waiting[n].buffer))
  {
    assert Deliveries(waiting[..n + 1]) ==
           Deliveries(waiting[..n]) + [Delivered(waiting[n].thread, waiting[n].buffer)];
    HandleAllSnoc(h, Deliveries(waiting[..n]), Delivered(waiting[n].thread, waiting[n].buffer));
  }

  lemma {:induction false} DeliveriesPanic(h: Handled, waiting: seq<Flush>, n: nat)
    requires n <= |waiting| && !HandleAll(h, Deliveries(waiting[..n])).g.ok
    ensures !HandleAll(h, Deliveries(waiting)).g.ok
    decreases |waiting| - n
  {
    if n == |waiting| {
      assert waiting[..n] == waiting;
    } else {
      DeliveriesSnoc(h, waiting, n);
      DeliveriesPanic(h, waiting, n + 1);
    }
  }

  lemma {:induction false} FailedPrefix(log: Log, table: seq<nat>, xs: seq<Timed>, n: nat)
    requires n <= |xs| && !Translate(AsWritten, log, table, xs[..n]).ok
    ensures !Translate(AsWritten, log, table, xs).ok
    decreases |xs|
  {
    if n == |xs| {
      assert xs[..n] == xs;
    } else {
      assert xs[..|xs| - 1][..n] == xs[..n];
      FailedPrefix(log, table, xs[..|xs| - 1], n);
    }
  }

  lemma {:induction false} RequestsAppend(a: seq<Timed>, b: seq<Timed>)
    ensures forall before ::
              before + Requests(InfosOf(a + b)) == before + Requests(InfosOf(a)) + Requests(InfosOf(b))
  {
    InfosOfAppend(a, b);
  }
}
