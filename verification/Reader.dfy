// The analysis source: from wire messages to timed batches of instructions.
module Reader {
  import opened TrackTypes
  import opened Matcher
  import opened WireOrder

  // How many messages one activation of the source may take.
  const FUEL: nat := 256

  // The data of one message, as the matcher receives it.
  function DataOf(m: Message): seq<(Time, ThreadId, Instr)>
    requires m.Instructions?
  {
    seq(|m.buffer|, i requires 0 <= i < |m.buffer| => (m.buffer[i].time, m.thread, m.buffer[i].instr))
  }

  datatype Reading = Reading(capability: Time, batches: seq<Batch>)

  // One message: the capability moves forward to the message's timestamp, never back, and the data goes out at
  // the capability's time.
  function ReadOne(r: Reading, m: Message): Reading {
    if m.Instructions? || m.Timestamp? then
      var capability := if r.capability < m.timestamp then m.timestamp else r.capability;
      Reading(capability, r.batches + if m.Instructions? then [Batch(capability, DataOf(m))] else [])
    else r
  }

  function Read(r: Reading, ms: seq<Message>): Reading {
    if ms == [] then r else ReadOne(Read(r, ms[..|ms| - 1]), ms[|ms| - 1])
  }

  lemma {:induction false} ReadAppend(r: Reading, a: seq<Message>, b: seq<Message>)
    ensures Read(r, a + b) == Read(Read(r, a), b)
  {
    if b == [] {
      assert a + b == a;
    } else {
      assert (a + b)[..|a + b| - 1] == a + b[..|b| - 1];
      ReadAppend(r, a, b[..|b| - 1]);
    }
  }

  // The buffers on the wire, each at its own timestamp.
  function BatchesOf(ms: seq<Message>): seq<Batch> {
    if ms == [] then []
    else
      var m := ms[|ms| - 1];
      BatchesOf(ms[..|ms| - 1]) + if m.Instructions? then [Batch(m.timestamp, DataOf(m))] else []
  }

  // On a wire whose timestamps never decrease, every buffer goes out at the timestamp its message carries.
  lemma {:induction false} ReadsAtMessageTimes(ms: seq<Message>)
    requires WireStamps(ms)
    ensures Read(Reading(0, []), ms) == Reading(LastStamp(ms), BatchesOf(ms))
  {
    if ms != [] {
      var front, m := ms[..|ms| - 1], ms[|ms| - 1];
      assert forall i | 0 <= i < |front| :: front[i] == ms[i] && front[..i] == ms[..i];
      ReadsAtMessageTimes(front);
    }
  }

  // On any wire the capability is the highest timestamp so far, it never goes back, and each buffer goes out at
  // the capability as its message leaves it.
  lemma {:induction false} ReadsForward(r: Reading, ms: seq<Message>)
    ensures var c := Read(r, ms).capability;
            && r.capability <= c
            && (forall m: Message | m in ms && (m.Instructions? || m.Timestamp?) :: m.timestamp <= c)
            && (c == r.capability
                || exists m: Message | m in ms :: (m.Instructions? || m.Timestamp?) && m.timestamp == c)
    ensures forall m: Message :: m.Instructions? ==>
              var s := Read(r, ms + [m]);
              s.batches == Read(r, ms).batches + [Batch(s.capability, DataOf(m))]
  {
    forall m: Message | m.Instructions?
      ensures var s := Read(r, ms + [m]);
              s.batches == Read(r, ms).batches + [Batch(s.capability, DataOf(m))]
    {
      assert (ms + [m])[..|ms|] == ms;
    }
    if ms != [] {
      var front, m := ms[..|ms| - 1], ms[|ms| - 1];
      ReadsForward(r, front);
      assert ms == front + [m];
      var before, c := Read(r, front).capability, Read(r, ms).capability;
      if c != r.capability && c == before {
        var n: Message :| n in front && (n.Instructions? || n.Timestamp?) && n.timestamp == c;
        assert n in ms;
      } else if c != r.capability {
        assert m in ms && m.timestamp == c;
      }
    }
  }

  // What was collected before a message does not matter.
  lemma {:induction false} ReadCollects(r: Reading, ms: seq<Message>)
    ensures var s := Read(Reading(r.capability, []), ms);
            Read(r, ms) == Reading(s.capability, r.batches + s.batches)
  {
    if ms == [] {
      assert r.batches + [] == r.batches;
    } else {
      ReadCollects(r, ms[..|ms| - 1]);
      var s := Read(Reading(r.capability, []), ms[..|ms| - 1]);
      Associate(r.batches, s.batches, ReadOne(Reading(s.capability, []), ms[|ms| - 1]).batches);
    }
  }

  // The stream as activation after activation takes a piece of it.
  function ReadPieces(pieces: seq<seq<Message>>): Reading {
    if pieces == [] then Reading(0, [])
    else
      var r := ReadPieces(pieces[..|pieces| - 1]);
      var s := Read(Reading(r.capability, []), pieces[|pieces| - 1]);
      Reading(s.capability, r.batches + s.batches)
  }

  function Concatenated(pieces: seq<seq<Message>>): seq<Message> {
    if pieces == [] then [] else Concatenated(pieces[..|pieces| - 1]) + pieces[|pieces| - 1]
  }

  // However the source's activations cut up the wire, the data goes out buffer by buffer, each at the timestamp
  // its message carries.
  lemma {:induction false} PiecesReadAtMessageTimes(pieces: seq<seq<Message>>)
    requires WireStamps(Concatenated(pieces))
    ensures ReadPieces(pieces) == Reading(LastStamp(Concatenated(pieces)), BatchesOf(Concatenated(pieces)))
  {
    ReadsAtMessageTimes(Concatenated(pieces));
    PiecesRead(pieces);
  }

  lemma {:induction false} PiecesRead(pieces: seq<seq<Message>>)
    ensures ReadPieces(pieces) == Read(Reading(0, []), Concatenated(pieces))
  {
    if pieces != [] {
      var front, last := pieces[..|pieces| - 1], pieces[|pieces| - 1];
      PiecesRead(front);
      ReadAppend(Reading(0, []), Concatenated(front), last);
      ReadCollects(ReadPieces(front), last);
    }
  }

  // When the source wants to run again.
  datatype Again = Now | Later | Never

  class TraceReader {
    // None once the connection is known to be closed.
    var capability: Option<Time>

    constructor ()
      ensures capability == Some(0)
    {
      capability := Some(0);
    }

    // One activation, when `waiting` has arrived and `closed` says whether the connection is closed after it.
    method Activate(waiting: seq<Message>, closed: bool)
      returns (batches: seq<Batch>, rest: seq<Message>, again: Again)
      modifies this
      ensures old(capability).None? ==> capability.None? && batches == [] && rest == waiting && again.Never?
      ensures old(capability).Some? ==> |rest| == if |waiting| < 256 then 0 else |waiting| - 256
      ensures old(capability).Some? ==>
                var taken := if |waiting| < FUEL then |waiting| else FUEL;
                var r := Read(Reading(old(capability).value, []), waiting[..taken]);
                && rest == waiting[taken..] && batches == r.batches
                && (capability.None? <==> closed && |waiting| < FUEL)
                && (capability.Some? ==> capability.value == r.capability)
                && again == if |waiting| + 1 >= FUEL then Now else if closed then Never else Later
    {
      batches, rest, again := [], waiting, Never;
      if capability.Some? {
        var time: Time := capability.value;
        var exit := false;
        var fuel := FUEL;
        ghost var taken := 0;
        while fuel > 0 && !exit
          invariant 0 <= fuel <= FUEL && taken <= |waiting| && rest == waiting[taken..]
          invariant taken == FUEL - fuel - if exit then 1 else 0
          invariant exit ==> closed && taken == |waiting|
          invariant Read(Reading(old(capability).value, []), waiting[..taken]) == Reading(time, batches)
          decreases fuel
        {
          fuel := fuel - 1;
          if rest == [] {
            if closed {
              exit := true;
            } else {
              break;
            }
          } else {
            var m := rest[0];
            assert waiting[..taken + 1][..taken] == waiting[..taken];
            if m.Instructions? {
              if time < m.timestamp {
                time := m.timestamp;
              }
              batches := batches + [Batch(time, DataOf(m))];
            } else if m.Timestamp? {
              if time < m.timestamp {
                time := m.timestamp;
              }
            }
            rest := rest[1..];
            taken := taken + 1;
          }
        }
        capability := if exit then None else Some(time);
        again := if fuel == 0 then Now else if !exit then Later else Never;
      }
    }
  }
}
