/** The slot table and the thread count as imperative code. Every operation is
    proved to be the step of the state machine that bears its name, and the table
    always stands for a reachable state: that its indices are in bounds, that a scan
    finds a slot and that a worker closes its own socket follows from that. */
module SlotTable {
  import opened Options
  import opened Slots
  import opened SlotRuns

  class SlotTable {
    const sockets: array<int>
    var currentThreads: int

    /** The abstract state that the table and the count stand for. */
    ghost var state: State

    ghost predicate Valid()
      reads this, sockets
    {
      Reachable(state) && sockets[..] == state.slots && currentThreads == state.threads
    }

    constructor (size: nat)
      ensures Valid() && state == Start(size) && fresh(sockets)
    {
      sockets := new int[size](_ => 0);
      currentThreads := 0;
      state := Start(size);
      new;
      assert sockets[..] == Start(size).slots;
      StartReachable(size);
    }

    // ----------------------------------------------------------------
    // The operations of the table
    // ----------------------------------------------------------------

    /** Marks the first free slot and returns its index, or the size of the table. */
    method ScanTable() returns (id: nat)
      modifies sockets
      ensures id == LowestFree(old(sockets[..]), 0)
      ensures sockets[..] == if id < sockets.Length then old(sockets[..])[id := 1] else old(sockets[..])
    {
      id := 0;
      while id < sockets.Length
        invariant id <= sockets.Length
        invariant LowestFree(old(sockets[..]), 0) == LowestFree(old(sockets[..]), id)
        invariant sockets[..] == old(sockets[..])
      {
        if sockets[id] == 0 {
          sockets[id] := 1;
          break;
        }
        id := id + 1;
      }
    }

    method SetValueFd(id: nat, value: int)
      requires id < sockets.Length
      modifies sockets
      ensures sockets[..] == old(sockets[..])[id := value]
    {
      sockets[id] := value;
    }

    /** Changes the count; a decrement signals. */
    method SetCurrentThreads(value: int) returns (signals: bool)
      modifies this`currentThreads
      ensures currentThreads == old(currentThreads) + value
      ensures signals <==> value < 0
    {
      currentThreads := currentThreads + value;
      signals := value < 0;
    }

    // ----------------------------------------------------------------
    // The accepting thread
    // ----------------------------------------------------------------

    /** Whether the accepting thread has to wait. */
    method Test() returns (full: bool)
      requires Valid() && state.main.Testing?
      modifies this`state
      ensures Valid() && state == Apply(old(state), Action.Test)
      ensures full <==> state.main.Full?
      ensures full <==> currentThreads >= sockets.Length
    {
      full := currentThreads >= sockets.Length;
      StepReachable(state, Action.Test);
      state := Apply(state, Action.Test);
    }

    /** The index found is the lowest that was free. */
    method Scan() returns (id: nat)
      requires Valid() && state.main.Scanning?
      modifies this`state, sockets
      ensures Valid() && state == Apply(old(state), Action.Scan)
      ensures state.main == Taken(old(state).main.socket, id)
      ensures id < sockets.Length && old(sockets[..])[id] == 0
      ensures forall k :: 0 <= k < id ==> old(sockets[..])[k] != 0
    {
      FreeSlotFound(state);
      id := ScanTable();
      StepReachable(state, Action.Scan);
      state := Apply(state, Action.Scan);
    }

    method Store(id: nat, socket: int)
      requires Valid() && state.main == Taken(socket, id)
      modifies this`state, sockets
      ensures Valid() && state.main == Valued(socket, id)
      ensures id < sockets.Length && sockets[..] == old(sockets[..])[id := socket]
      ensures state == old(state).(main := Valued(socket, id), slots := sockets[..])
    {
      IndicesInBounds(state);
      SetValueFd(id, socket);
      StepReachable(state, Action.Store);
      state := Apply(state, Action.Store);
    }

    method Count() returns (signals: bool)
      requires Valid() && state.main.Spawned?
      modifies this`state, this`currentThreads
      ensures Valid() && state == Apply(old(state), Action.Count) && !signals
      ensures 0 <= currentThreads <= sockets.Length
    {
      signals := SetCurrentThreads(1);
      SlotConservation(state);
      StepReachable(state, Action.Count);
      state := Apply(state, Action.Count);
      SlotConservation(state);
    }

    // ----------------------------------------------------------------
    // A worker
    // ----------------------------------------------------------------

    /** The socket that the worker passes to `close` is the one accepted for it, which
        is open. */
    method Close(id: nat, ghost w: nat) returns (fd: int)
      requires Valid() && At(state, w, Serving) && state.workers[w].id == id
      modifies this`state
      ensures Valid() && w < |state.workers| && state.workers[w].closed == Some(fd)
      ensures w < |old(state).accepted| && fd == old(state).accepted[w] && fd in old(state).open
      ensures state == old(state).(
        workers := old(state).workers[w := old(state).workers[w].(phase := Closed, closed := Some(fd))],
        open := old(state).open - {fd})
    {
      ClosesOwnSocket(state, w);
      fd := sockets[id];
      StepReachable(state, Action.Close(w));
      state := Apply(state, Action.Close(w));
    }

    method Free(id: nat, ghost w: nat)
      requires Valid() && At(state, w, Closed) && !HoldsTable(state.main) && state.workers[w].id == id
      modifies this`state, sockets
      ensures Valid() && id < sockets.Length && sockets[..] == old(sockets[..])[id := 0]
      ensures state == old(state).(slots := sockets[..], workers := state.workers)
      ensures w < |old(state).workers|
           && state.workers == old(state).workers[w := old(state).workers[w].(phase := Freed)]
    {
      IndicesInBounds(state);
      SetValueFd(id, 0);
      StepReachable(state, Action.Free(w));
      state := Apply(state, Action.Free(w));
    }

    /** The decrement signals; a waiting accepting thread wakes, and finds a slot. */
    method Leave(ghost w: nat) returns (signals: bool)
      requires Valid() && At(state, w, Freed)
      modifies this`state, this`currentThreads
      ensures Valid() && state == Apply(old(state), Action.Leave(w)) && signals
      ensures -1 <= currentThreads < sockets.Length
      ensures old(state).main.Blocked? ==> state.main.Scanning? && LowestFree(sockets[..], 0) < sockets.Length
    {
      SlotConservation(state);
      signals := SetCurrentThreads(-1);
      StepReachable(state, Action.Leave(w));
      state := Apply(state, Action.Leave(w));
      SlotConservation(state);
      if state.main.Scanning? {
        FreeSlotFound(state);
      }
    }

    /** The steps that touch neither the table nor the count: accepting a
        connection, starting to wait and creating the worker. */
    ghost method Pass(a: Action)
      requires Valid() && Enabled(state, a) && (a.Accept? || a.Wait? || a.Spawn?)
      modifies this`state
      ensures Valid() && state == Apply(old(state), a)
    {
      StepReachable(state, a);
      state := Apply(state, a);
    }
  }
}
