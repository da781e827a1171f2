// What a tracked thread shares with the gatherer.
module ThreadStates {
  import opened TrackTypes
  import opened Protocol

  class ThreadState {
    const thread: ThreadId
    var buffer: Buffer
    var dead: bool

    constructor (thread: ThreadId)
      ensures this.thread == thread && buffer == Buffer([], 0) && !dead
    {
      this.thread := thread;
      buffer, dead := Buffer([], 0), false;
    }
  }

  // Vec::reserve as the program calls it: how far it grows beyond what is asked is up to the allocator.
  method Reserve(length: nat, before: nat) returns (after: nat)
    ensures Grown(length, before, after)
  {
    after := before;
    if before < CAPACITY {
      after := length + (CAPACITY - before);
      if after < before {
        after := before;
      }
    }
  }
}
