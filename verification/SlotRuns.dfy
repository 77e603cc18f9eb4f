/** What holds in every reachable state of the slot table. */
module SlotRuns {
  import opened Counting
  import opened Options
  import opened Slots

  /** Used slots, the thread count and the threads between the two agree. */
  lemma SlotConservation(s: State)
    requires Reachable(s)
    ensures Used(s) == s.threads + (if s.main.Taken? || s.main.Valued? || s.main.Spawned? then 1 else 0)
                    - InPhase(s, Freed)
    ensures -1 <= s.threads <= |s.slots|
  {
    ReachableOk(s);
  }

  /** The scan always finds a slot, also after the wait, and it is the lowest. */
  lemma FreeSlotFound(s: State)
    requires Reachable(s) && s.main.Scanning?
    ensures var id := LowestFree(s.slots, 0);
      && id < |s.slots| && s.slots[id] == 0 && (forall k :: 0 <= k < id ==> s.slots[k] != 0)
      && Apply(s, Scan).main == Taken(s.main.socket, id)
  {
    ReachableOk(s);
    ScanFinds(s);
    LowestFreeIsLowest(s.slots, 0);
  }

  /** No access to the table is out of bounds. */
  lemma IndicesInBounds(s: State)
    requires Reachable(s)
    ensures s.main.Taken? || s.main.Valued? ==> s.main.id < |s.slots|
    ensures forall w :: 0 <= w < |s.workers| && (At(s, w, Serving) || At(s, w, Closed)) ==> s.workers[w].id < |s.slots|
  {
    ReachableOk(s);
    forall w | 0 <= w < |s.workers| && (At(s, w, Serving) || At(s, w, Closed))
      ensures s.workers[w].id < |s.slots|
    {
      assert WorkerOk(s.workers[w], s.slots);
    }
  }

  /** A worker closes the socket that was accepted for it, which is open until then
      and which nobody else has. */
  lemma ClosesOwnSocket(s: State, w: nat)
    requires Reachable(s) && At(s, w, Serving)
    ensures Enabled(s, Close(w)) && w < |s.accepted| && s.slots[s.workers[w].id] == s.accepted[w]
    ensures s.accepted[w] in s.open && s.accepted[w] !in Apply(s, Close(w)).open
    ensures forall v :: 0 <= v < |s.workers| && v != w && At(s, v, Serving) ==>
      s.workers[v].id != s.workers[w].id && s.workers[v].socket in Apply(s, Close(w)).open
    ensures HasSocket(s.main) ==> s.main.socket in Apply(s, Close(w)).open
  {
    ReachableOk(s);
    assert WorkerOk(s.workers[w], s.slots);
  }

  /** Every accepted socket belongs to one worker, in order, save for the one that
      the accepting thread has in hand, and a worker closes it exactly once. */
  lemma ClosedExactlyOnce(s: State, w: nat)
    requires Reachable(s) && w < |s.workers|
    ensures |s.workers| <= |s.accepted| <= |s.workers| + 1
    ensures s.workers[w].closed == if At(s, w, Serving) then None else Some(s.accepted[w])
  {
    ReachableOk(s);
    assert WorkerOk(s.workers[w], s.slots);
  }

  /** The accepting thread comes to wait exactly when the count has reached the size of
      the table; else it goes on to take a slot. */
  lemma WaitsIffFull(s: State)
    requires Reachable(s) && s.main.Testing?
    ensures Apply(s, Test).main == if s.threads >= |s.slots| then Full(s.main.socket) else Scanning(s.main.socket, true)
    ensures s.threads >= |s.slots| <==>
      InPhase(s, Serving) + InPhase(s, Closed) + InPhase(s, Freed) == |s.slots|
  {
    ReachableOk(s);
  }

  // ------------------------------------------------------------------
  // Progress and the lost wake-up
  // ------------------------------------------------------------------

  predicate AllGone(s: State) { forall w :: 0 <= w < |s.workers| ==> s.workers[w].phase.Gone? }

  ghost predicate Stuck(s: State) { forall a: Action | !a.Accept? :: !Enabled(s, a) }

  /** The accepting thread waits and nobody is left to wake it. */
  predicate Dead(s: State) { s.main.Blocked? && AllGone(s) }

  function MainStep(m: Main): Action
    requires !m.Accepting? && !m.Blocked?
  {
    match m
    case Testing(_) => Test
    case Full(_) => Wait
    case Scanning(_, _) => Scan
    case Taken(_, _) => Store
    case Valued(_, _) => Spawn
    case Spawned => Count
  }

  lemma WorkerProgress(s: State, w: nat) returns (a: Action)
    requires Ok(s) && w < |s.workers| && !s.workers[w].phase.Gone?
    ensures Enabled(s, a) && !a.Accept?
  {
    assert WorkerOk(s.workers[w], s.slots);
    a := if s.workers[w].phase.Serving? then Close(w)
         else if s.workers[w].phase.Freed? then Leave(w)
         else if HoldsTable(s.main) then MainStep(s.main)
         else Free(w);
  }

  /** Between two connections the only states without a step are the idle one and
      the dead one. */
  lemma StuckIffIdleOrDead(s: State)
    requires Reachable(s)
    ensures Stuck(s) <==> AllGone(s) && (s.main.Accepting? || s.main.Blocked?)
  {
    ReachableOk(s);
    if Stuck(s) {
      if w :| 0 <= w < |s.workers| && !s.workers[w].phase.Gone? {
        var a := WorkerProgress(s, w);
      }
      assert !s.main.Accepting? && !s.main.Blocked? ==> Enabled(s, MainStep(s.main));
    }
  }

  /** A dead server refuses every step although its whole table is free. */
  lemma DeadIsForever(s: State, a: Action)
    requires Reachable(s) && Dead(s)
    ensures !Enabled(s, a) && s.threads == 0 && forall k :: 0 <= k < |s.slots| ==> s.slots[k] == 0
  {
    ReachableOk(s);
    SumZero(s.workers, Stands(Serving));
    SumZero(s.workers, Stands(Closed));
    SumZero(s.workers, Stands(Freed));
    forall k | 0 <= k < |s.slots|
      ensures s.slots[k] == 0
    {
      SumToMember(s.slots, |s.slots|, k, InUse);
    }
  }

  /** The one step that loses the wake-up: to start waiting after the last worker
      has signalled. In every other case whoever waits is woken. */
  lemma DeadIffLateWait(s: State, a: Action)
    requires Enabled(s, a) && !Dead(s)
    ensures Dead(Apply(s, a)) <==> a.Wait? && AllGone(s)
  {
    if WorkerStep(a) {
      assert a.Leave? || !Apply(s, a).workers[a.w].phase.Gone?;
    } else if a.Wait? {
      assert Apply(s, a).workers == s.workers;
    }
  }

  function MainLeft(m: Main): nat {
    match m
    case Accepting => 0
    case Testing(_) => 10
    case Full(_) => 9
    case Blocked(_) => 8
    case Scanning(_, _) => 7
    case Taken(_, _) => 6
    case Valued(_, _) => 5
    case Spawned => 1
  }

  function PhaseLeft(p: Phase): nat {
    match p
    case Serving => 3
    case Closed => 2
    case Freed => 1
    case Gone => 0
  }

  function WorkerLeft(x: Worker): nat { PhaseLeft(x.phase) }

  function Left(s: State): nat { MainLeft(s.main) + Sum(s.workers, WorkerLeft) }

  lemma StepLeft(s: State, a: Action)
    requires Enabled(s, a) && !a.Accept?
    ensures Left(Apply(s, a)) < Left(s)
  {
    if WorkerStep(a) {
      SumUpdate(s.workers, a.w, Apply(s, a).workers[a.w], WorkerLeft);
    } else if a.Spawn? {
      SumAppend(s.workers, Worker(s.main.id, s.main.socket, Serving, None), WorkerLeft);
    }
  }

  lemma {:induction false} RunLeft(s: State, run: seq<Action>)
    requires CanRun(s, run) && forall a <- run :: !a.Accept?
    ensures |run| + Left(Run(s, run)) <= Left(s)
    decreases |run|
  {
    if run != [] {
      assert !run[0].Accept?;
      StepLeft(s, run[0]);
      RunLeft(Apply(s, run[0]), run[1..]);
    }
  }

  /** Without new connections every run is short, and where it cannot go on either
      all connections are finished and the table is free, or the wake-up was lost. */
  lemma EveryConnectionFinishes(s: State, run: seq<Action>)
    requires Reachable(s) && CanRun(s, run) && forall a <- run :: !a.Accept?
    ensures |run| <= 10 + 3 * |s.workers|
    ensures Stuck(Run(s, run)) ==> AllGone(Run(s, run)) && (Run(s, run).main.Accepting? || Dead(Run(s, run)))
  {
    RunLeft(s, run);
    SumBound(s.workers, 3, WorkerLeft);
    var size, before :| CanRun(Start(size), before) && s == Run(Start(size), before);
    RunConcat(Start(size), before, run);
    StuckIffIdleOrDead(Run(s, run));
  }

  lemma {:induction false} RunConcat(s: State, first: seq<Action>, second: seq<Action>)
    requires CanRun(s, first) && CanRun(Run(s, first), second)
    ensures CanRun(s, first + second) && Run(s, first + second) == Run(Run(s, first), second)
    decreases |first|
  {
    if first == [] {
      assert first + second == second;
    } else {
      assert (first + second)[1..] == first[1..] + second;
      RunConcat(Apply(s, first[0]), first[1..], second);
    }
  }

  // ------------------------------------------------------------------
  // Witnesses
  // ------------------------------------------------------------------

  lemma StepReachable(s: State, a: Action)
    requires Reachable(s) && Enabled(s, a)
    ensures Reachable(Apply(s, a))
  {
    var size, run :| CanRun(Start(size), run) && s == Run(Start(size), run);
    assert CanRun(Apply(s, a), []) && Run(Apply(s, a), []) == Apply(s, a);
    assert CanRun(s, [a]) && Run(s, [a]) == Apply(s, a);
    RunConcat(Start(size), run, [a]);
  }

  lemma StartReachable(size: nat)
    ensures Reachable(Start(size))
  {
    assert CanRun(Start(size), []) && Run(Start(size), []) == Start(size);
  }

  /** From an idle server whose table is free: a socket is accepted and put into
      the first slot. */
  lemma TakeFirst(s: State, fd: int) returns (e: State)
    requires Reachable(s) && s.main.Accepting? && s.threads < |s.slots| && |s.slots| > 0 && s.slots[0] == 0
    requires fd != 0 && s.open == {}
    ensures Reachable(e)
    ensures e == s.(main := Valued(fd, 0), slots := s.slots[0 := fd], accepted := s.accepted + [fd], open := {fd})
  {
    StepReachable(s, Accept(fd));
    e := Apply(s, Accept(fd));
    StepReachable(e, Test);
    e := Apply(e, Test);
    StepReachable(e, Scan);
    e := Apply(e, Scan);
    StepReachable(e, Store);
    e := Apply(e, Store);
    assert s.slots[0 := 1][0 := fd] == s.slots[0 := fd];
  }

  /** Then a worker is created, closes the socket and frees the slot again. */
  lemma ServeFirst(s: State, fd: int) returns (e: State)
    requires Reachable(s) && s.main == Valued(fd, 0) && 0 < |s.slots| && s.slots[0] == fd && s.open == {fd}
    ensures Reachable(e)
    ensures e == s.(main := Spawned, slots := s.slots[0 := 0], open := {},
                    workers := s.workers + [Worker(0, fd, Freed, Some(fd))])
  {
    var w := |s.workers|;
    StepReachable(s, Spawn);
    e := Apply(s, Spawn);
    StepReachable(e, Close(w));
    e := Apply(e, Close(w));
    StepReachable(e, Free(w));
    e := Apply(e, Free(w));
    assert e.workers == s.workers + [Worker(0, fd, Freed, Some(fd))];
  }

  lemma ServeOne(s: State, fd: int) returns (e: State)
    requires Reachable(s) && s.main.Accepting? && s.threads < |s.slots| && |s.slots| > 0 && s.slots[0] == 0
    requires fd != 0 && s.open == {}
    ensures Reachable(e)
    ensures e == s.(main := Spawned, accepted := s.accepted + [fd],
                    workers := s.workers + [Worker(0, fd, Freed, Some(fd))])
  {
    e := TakeFirst(s, fd);
    e := ServeFirst(e, fd);
    assert e.slots == s.slots;
  }

  /** A worker may finish before it is counted: the thread count goes below zero. */
  lemma CountMayBeNegative(size: nat) returns (s: State)
    requires size > 0
    ensures Reachable(s) && |s.slots| == size && s.threads == -1
  {
    StartReachable(size);
    s := ServeOne(Start(size), 5);
    StepReachable(s, Leave(0));
    s := Apply(s, Leave(0));
  }

  /** The count is below zero exactly while a worker not yet counted has already left,
      and so have all others. */
  lemma CountIsNegativeIff(s: State)
    requires Reachable(s)
    ensures s.threads == -1 <==> s.main.Spawned? && AllGone(s)
  {
    ReachableOk(s);
    if AllGone(s) {
      SumZero(s.workers, Stands(Serving));
      SumZero(s.workers, Stands(Closed));
      SumZero(s.workers, Stands(Freed));
    }
    forall w | 0 <= w < |s.workers| && s.threads == -1
      ensures s.workers[w].phase.Gone?
    {
      SumToMember(s.workers, |s.workers|, w, Stands(s.workers[w].phase));
    }
  }

  /** `k` connections served whose workers have not left yet. */
  predicate Served(s: State, k: nat) {
    && s.open == {} && s.main.Accepting? && s.threads == k == |s.workers|
    && (forall i :: 0 <= i < |s.slots| ==> s.slots[i] == 0)
    && forall w :: 0 <= w < k ==> s.workers[w].phase == Freed
  }

  lemma {:induction false} ServeMany(size: nat, k: nat) returns (s: State)
    requires k <= size
    ensures Reachable(s) && |s.slots| == size && Served(s, k)
  {
    if k == 0 {
      StartReachable(size);
      s := Start(size);
    } else {
      s := ServeMany(size, k - 1);
      s := ServeOne(s, 5);
      StepReachable(s, Count);
      s := Apply(s, Count);
    }
  }

  lemma {:induction false} LeaveAll(s: State, k: nat) returns (e: State)
    requires Reachable(s) && s.main.Full? && k <= |s.workers|
    requires forall w :: 0 <= w < |s.workers| ==> s.workers[w].phase == if w < k then Freed else Gone
    ensures Reachable(e) && e.slots == s.slots && e.main == s.main && AllGone(e)
    decreases k
  {
    if k == 0 {
      e := s;
    } else {
      StepReachable(s, Leave(k - 1));
      e := LeaveAll(Apply(s, Leave(k - 1)), k - 1);
    }
  }

  /** With a table of any size the wake-up can be lost: every worker leaves between
      the test of the accepting thread and its wait. */
  lemma WakeupMayBeLost(size: nat) returns (s: State)
    ensures Reachable(s) && |s.slots| == size && Dead(s)
  {
    s := ServeMany(size, size);
    StepReachable(s, Accept(5));
    s := Apply(s, Accept(5));
    StepReachable(s, Test);
    s := Apply(s, Test);
    s := LeaveAll(s, size);
    StepReachable(s, Wait);
    s := Apply(s, Wait);
  }

  // ------------------------------------------------------------------
  // Capacity
  // ------------------------------------------------------------------

  /** `k` workers serve at once, each counted and in a slot of its own. */
  predicate Busy(s: State, k: nat) {
    && s.main.Accepting? && k == s.threads == |s.workers| <= |s.slots|
    && (forall w :: 0 <= w < k ==> s.workers[w] == Worker(w, w + 1, Serving, None))
    && (forall i :: 0 <= i < |s.slots| ==> s.slots[i] == if i < k then i + 1 else 0)
    && (forall fd <- s.open :: 0 < fd <= k)
  }

  lemma NextSlot(slots: seq<int>, k: nat)
    requires k < |slots| && slots[k] == 0 && forall i :: 0 <= i < k ==> slots[i] != 0
    ensures LowestFree(slots, 0) == k
  {
    LowestFreeIsLowest(slots, 0);
    assert LowestFree(slots, 0) <= k;
  }

  /** While the table has room the next connection is let in. */
  lemma NextTaken(s: State, k: nat) returns (e: State)
    requires Reachable(s) && Busy(s, k) && k < |s.slots|
    ensures Reachable(e)
    ensures e == s.(main := Valued(k + 1, k), slots := s.slots[k := k + 1],
                    accepted := s.accepted + [k + 1], open := s.open + {k + 1})
  {
    NextSlot(s.slots, k);
    StepReachable(s, Accept(k + 1));
    e := Apply(s, Accept(k + 1));
    StepReachable(e, Test);
    e := Apply(e, Test);
    StepReachable(e, Scan);
    e := Apply(e, Scan);
    StepReachable(e, Store);
    e := Apply(e, Store);
    assert s.slots[k := 1][k := k + 1] == s.slots[k := k + 1];
  }

  /** And it is served beside the others. */
  lemma OneMore(s: State, k: nat) returns (e: State)
    requires Reachable(s) && Busy(s, k) && k < |s.slots|
    ensures Reachable(e) && Busy(e, k + 1) && |e.slots| == |s.slots|
  {
    e := NextTaken(s, k);
    StepReachable(e, Spawn);
    e := Apply(e, Spawn);
    StepReachable(e, Count);
    e := Apply(e, Count);
  }

  /** The whole table can be used: for every size and every number up to it, that many
      connections can be served at once, in that many slots. */
  lemma {:induction false} Capacity(size: nat, k: nat) returns (s: State)
    requires k <= size
    ensures Reachable(s) && |s.slots| == size && Busy(s, k)
    ensures InPhase(s, Serving) == s.threads == Used(s) == k
  {
    if k == 0 {
      StartReachable(size);
      s := Start(size);
    } else {
      s := Capacity(size, k - 1);
      s := OneMore(s, k - 1);
    }
    SumAll(s.workers, 1, Stands(Serving));
    ReachableOk(s);
    SumZero(s.workers, Stands(Closed));
    SumZero(s.workers, Stands(Freed));
  }
}
