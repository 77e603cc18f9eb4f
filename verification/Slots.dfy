/** The slot table of the readers/writers server: one accepting thread takes a slot
    per connection, one worker per connection gives it back.

    The table is protected by one mutex and the thread count by another. The
    accepting thread compares the count with the size of the table while it holds
    the first mutex only, and waits at most once. */
module Slots {
  import opened Counting
  import opened Options

  datatype Main =
    | Accepting
    | Testing(socket: int)             // holds the table mutex, about to compare the thread count
    | Full(socket: int)                // holds the table mutex, about to wait
    | Blocked(socket: int)             // waits, the table mutex released
    | Scanning(socket: int, held: bool) // about to scan; `held` unless it still has to take the mutex again
    | Taken(socket: int, id: nat)      // the slot is marked
    | Valued(socket: int, id: nat)     // the slot holds the socket
    | Spawned                          // the worker exists, about to count it

  datatype Phase =
    | Serving  // about to close the socket in its slot
    | Closed   // about to free its slot
    | Freed    // about to decrement the thread count
    | Gone

  /** A worker, and what it passed to `close`. */
  datatype Worker = Worker(id: nat, socket: int, phase: Phase, closed: Option<int>)

  datatype State = State(
    slots: seq<int>,
    threads: int,
    main: Main,
    workers: seq<Worker>,
    accepted: seq<int>,
    open: set<int>
  )

  datatype Action =
    | Accept(fd: int)
    | Test
    | Wait
    | Scan
    | Store
    | Spawn
    | Count
    | Close(w: nat)
    | Free(w: nat)
    | Leave(w: nat)

  function Start(size: nat): State {
    State(seq(size, _ => 0), 0, Accepting, [], [], {})
  }

  /** The first index from `i` on that holds zero, or the size of the table. */
  function LowestFree(slots: seq<int>, i: nat): nat
    requires i <= |slots|
    decreases |slots| - i
  {
    if i == |slots| || slots[i] == 0 then i else LowestFree(slots, i + 1)
  }

  lemma {:induction false} LowestFreeIsLowest(slots: seq<int>, i: nat)
    requires i <= |slots|
    ensures i <= LowestFree(slots, i) <= |slots|
    ensures LowestFree(slots, i) < |slots| ==> slots[LowestFree(slots, i)] == 0
    ensures forall k :: i <= k < LowestFree(slots, i) ==> slots[k] != 0
    decreases |slots| - i
  {
    if i < |slots| && slots[i] != 0 {
      LowestFreeIsLowest(slots, i + 1);
    }
  }

  // ------------------------------------------------------------------
  // Steps
  // ------------------------------------------------------------------

  predicate HoldsTable(m: Main) { m.Testing? || m.Full? || (m.Scanning? && m.held) }

  predicate At(s: State, w: nat, p: Phase) { w < |s.workers| && s.workers[w].phase == p }

  /** A new socket is non-zero and not open. A write outside the table is not a step. */
  predicate Enabled(s: State, a: Action) {
    match a
    case Accept(fd) => s.main.Accepting? && fd != 0 && fd !in s.open
    case Test => s.main.Testing?
    case Wait => s.main.Full?
    case Scan => s.main.Scanning?
    case Store => s.main.Taken? && s.main.id < |s.slots|
    case Spawn => s.main.Valued?
    case Count => s.main.Spawned?
    case Close(w) => At(s, w, Serving) && s.workers[w].id < |s.slots|
    case Free(w) => At(s, w, Closed) && s.workers[w].id < |s.slots| && !HoldsTable(s.main)
    case Leave(w) => At(s, w, Freed)
  }

  function Apply(s: State, a: Action): State
    requires Enabled(s, a)
  {
    match a
    case Accept(fd) => s.(main := Testing(fd), accepted := s.accepted + [fd], open := s.open + {fd})
    case Test =>
      s.(main := if s.threads >= |s.slots| then Full(s.main.socket) else Scanning(s.main.socket, true))
    case Wait => s.(main := Blocked(s.main.socket))
    case Scan =>
      var id := LowestFree(s.slots, 0);
      s.(main := Taken(s.main.socket, id), slots := if id < |s.slots| then s.slots[id := 1] else s.slots)
    case Store => s.(main := Valued(s.main.socket, s.main.id), slots := s.slots[s.main.id := s.main.socket])
    case Spawn => s.(main := Spawned, workers := s.workers + [Worker(s.main.id, s.main.socket, Serving, None)])
    case Count => s.(main := Accepting, threads := s.threads + 1)
    case Close(w) =>
      var fd := s.slots[s.workers[w].id];
      s.(workers := s.workers[w := s.workers[w].(phase := Closed, closed := Some(fd))], open := s.open - {fd})
    case Free(w) =>
      s.(workers := s.workers[w := s.workers[w].(phase := Freed)], slots := s.slots[s.workers[w].id := 0])
    case Leave(w) =>
      s.(workers := s.workers[w := s.workers[w].(phase := Gone)], threads := s.threads - 1,
         main := if s.main.Blocked? then Scanning(s.main.socket, false) else s.main)
  }

  predicate CanRun(s: State, run: seq<Action>)
    decreases |run|
  {
    run == [] || (Enabled(s, run[0]) && CanRun(Apply(s, run[0]), run[1..]))
  }

  function Run(s: State, run: seq<Action>): State
    requires CanRun(s, run)
    decreases |run|
  {
    if run == [] then s else Run(Apply(s, run[0]), run[1..])
  }

  ghost predicate Reachable(s: State) {
    exists size, run :: CanRun(Start(size), run) && s == Run(Start(size), run)
  }

  // ------------------------------------------------------------------
  // Counting
  // ------------------------------------------------------------------

  function InUse(slot: int): nat { if slot != 0 then 1 else 0 }

  function Used(s: State): nat { Sum(s.slots, InUse) }

  function Stands(p: Phase): Worker -> nat {
    (x: Worker) => if x.phase == p then 1 else 0
  }

  /** How many workers are in a phase. */
  function InPhase(s: State, p: Phase): nat { Sum(s.workers, Stands(p)) }

  // ------------------------------------------------------------------
  // Ownership
  // ------------------------------------------------------------------

  predicate MainOwns(m: Main) { m.Taken? || m.Valued? }

  /** The accepting thread has a socket that no worker has yet. */
  predicate HasSocket(m: Main) { !m.Accepting? && !m.Spawned? }

  predicate WorkerOwns(x: Worker) { x.phase.Serving? || x.phase.Closed? }

  predicate MainOk(s: State) {
    && (MainOwns(s.main) ==> s.main.id < |s.slots| && s.slots[s.main.id] != 0)
    && (s.main.Valued? ==> s.slots[s.main.id] == s.main.socket)
    && (forall w :: 0 <= w < |s.workers| && MainOwns(s.main) && WorkerOwns(s.workers[w]) ==>
          s.workers[w].id != s.main.id)
  }

  /** A worker's slot holds the worker's socket until the worker frees it, and the
      worker closes what it accepted. */
  predicate WorkerOk(x: Worker, slots: seq<int>) {
    && x.socket != 0
    && (WorkerOwns(x) ==> x.id < |slots| && slots[x.id] == x.socket)
    && x.closed == (if x.phase.Serving? then None else Some(x.socket))
  }

  predicate WorkersOk(workers: seq<Worker>, slots: seq<int>) {
    forall w :: 0 <= w < |workers| ==> WorkerOk(workers[w], slots)
  }

  predicate OwnSlots(workers: seq<Worker>) {
    forall v, w :: 0 <= v < w < |workers| && WorkerOwns(workers[v]) && WorkerOwns(workers[w]) ==>
      workers[v].id != workers[w].id
  }

  /** Every accepted socket is the main thread's or one worker's, in order. */
  predicate AcceptedOk(s: State) {
    && |s.accepted| == |s.workers| + (if HasSocket(s.main) then 1 else 0)
    && (forall w :: 0 <= w < |s.workers| ==> s.workers[w].socket == s.accepted[w])
    && (HasSocket(s.main) ==>
          s.main.socket == s.accepted[|s.workers|] && s.main.socket != 0 && s.main.socket in s.open)
  }

  /** The sockets of serving workers are open and differ from each other and from
      the one that the main thread has. */
  predicate SocketsOk(s: State) {
    && (forall w :: 0 <= w < |s.workers| && s.workers[w].phase.Serving? ==> s.workers[w].socket in s.open)
    && (forall v, w :: 0 <= v < w < |s.workers| && s.workers[v].phase.Serving? && s.workers[w].phase.Serving? ==>
          s.workers[v].socket != s.workers[w].socket)
    && (forall w :: 0 <= w < |s.workers| && s.workers[w].phase.Serving? && HasSocket(s.main) ==>
          s.workers[w].socket != s.main.socket)
  }

  /** The two counts, and what the test of the accepting thread guarantees from
      then on. */
  predicate CountsOk(s: State) {
    && Used(s) == InPhase(s, Serving) + InPhase(s, Closed) + (if MainOwns(s.main) then 1 else 0)
    && s.threads == InPhase(s, Serving) + InPhase(s, Closed) + InPhase(s, Freed) - (if s.main.Spawned? then 1 else 0)
    && s.threads <= |s.slots|
    && (s.main.Scanning? || MainOwns(s.main) || s.main.Spawned? ==> s.threads < |s.slots|)
  }

  predicate Ok(s: State) {
    && MainOk(s)
    && WorkersOk(s.workers, s.slots)
    && OwnSlots(s.workers)
    && AcceptedOk(s)
    && SocketsOk(s)
    && CountsOk(s)
  }

  /** When the accepting thread scans, a slot is free. */
  lemma ScanFinds(s: State)
    requires CountsOk(s) && s.main.Scanning?
    ensures LowestFree(s.slots, 0) < |s.slots| && s.slots[LowestFree(s.slots, 0)] == 0
  {
    LowestFreeIsLowest(s.slots, 0);
    if forall k :: 0 <= k < |s.slots| ==> InUse(s.slots[k]) == 1 {
      SumAll(s.slots, 1, InUse);
    }
  }

  predicate WorkerStep(a: Action) { a.Close? || a.Free? || a.Leave? }

  lemma StepMain(s: State, a: Action)
    requires Ok(s) && Enabled(s, a)
    ensures MainOk(Apply(s, a))
  {
    if a.Scan? {
      ScanFinds(s);
    }
  }

  lemma StepWorkers(s: State, a: Action)
    requires Ok(s) && Enabled(s, a)
    ensures WorkersOk(Apply(s, a).workers, Apply(s, a).slots)
  {
    if a.Scan? {
      ScanFinds(s);
    }
    var s' := Apply(s, a);
    forall w | 0 <= w < |s'.workers|
      ensures WorkerOk(s'.workers[w], s'.slots)
    {
      if w < |s.workers| {
        assert WorkerOk(s.workers[w], s.slots);
      }
    }
  }

  lemma StepOwnSlots(s: State, a: Action)
    requires Ok(s) && Enabled(s, a)
    ensures OwnSlots(Apply(s, a).workers)
  {
  }

  lemma StepAccepted(s: State, a: Action)
    requires Ok(s) && Enabled(s, a)
    ensures AcceptedOk(Apply(s, a))
  {
  }

  lemma StepSockets(s: State, a: Action)
    requires Ok(s) && Enabled(s, a)
    ensures SocketsOk(Apply(s, a))
  {
  }

  lemma MainCounts(s: State, a: Action)
    requires Ok(s) && Enabled(s, a) && !WorkerStep(a)
    ensures CountsOk(Apply(s, a))
  {
    if a.Scan? {
      ScanFinds(s);
      SumUpdate(s.slots, LowestFree(s.slots, 0), 1, InUse);
    } else if a.Store? {
      SumUpdate(s.slots, s.main.id, s.main.socket, InUse);
    } else if a.Spawn? {
      forall p ensures InPhase(Apply(s, a), p) == InPhase(s, p) + if p == Serving then 1 else 0 {
        SumAppend(s.workers, Worker(s.main.id, s.main.socket, Serving, None), Stands(p));
      }
    }
  }

  lemma WorkerCounts(s: State, a: Action)
    requires Ok(s) && Enabled(s, a) && WorkerStep(a)
    ensures CountsOk(Apply(s, a))
  {
    var old', new' := s.workers[a.w].phase, Apply(s, a).workers[a.w].phase;
    forall p ensures InPhase(Apply(s, a), p) + (if p == old' then 1 else 0) == InPhase(s, p) + (if p == new' then 1 else 0) {
      SumUpdate(s.workers, a.w, Apply(s, a).workers[a.w], Stands(p));
    }
    if a.Free? {
      SumUpdate(s.slots, s.workers[a.w].id, 0, InUse);
      assert WorkerOk(s.workers[a.w], s.slots);
    }
  }

  lemma StepOk(s: State, a: Action)
    requires Ok(s) && Enabled(s, a)
    ensures Ok(Apply(s, a)) && |Apply(s, a).slots| == |s.slots|
  {
    StepMain(s, a);
    StepWorkers(s, a);
    StepOwnSlots(s, a);
    StepAccepted(s, a);
    StepSockets(s, a);
    if WorkerStep(a) { WorkerCounts(s, a); } else { MainCounts(s, a); }
  }

  lemma {:induction false} RunOk(s: State, run: seq<Action>)
    requires Ok(s) && CanRun(s, run)
    ensures Ok(Run(s, run))
    decreases |run|
  {
    if run != [] {
      StepOk(s, run[0]);
      RunOk(Apply(s, run[0]), run[1..]);
    }
  }

  lemma ReachableOk(s: State)
    requires Reachable(s)
    ensures Ok(s)
  {
    var size, run :| CanRun(Start(size), run) && s == Run(Start(size), run);
    SumZero(Start(size).slots, InUse);
    RunOk(Start(size), run);
  }
}
