/** What holds in every reachable state of the readers/writers server. */
module AdmissionRuns {
  import opened Counting
  import opened Options
  import opened Admission

  // ------------------------------------------------------------------
  // Nobody is stranded
  // ------------------------------------------------------------------

  ghost predicate Reachable(s: State) {
    exists priority, ratio, initial, run ::
      CanRun(Start(priority, ratio, initial), run) && s == Run(Start(priority, ratio, initial), run)
  }

  lemma {:induction false} RunAppend(s: State, run: seq<Action>, a: Action)
    requires CanRun(s, run) && Enabled(Run(s, run), a)
    ensures CanRun(s, run + [a]) && Run(s, run + [a]) == Apply(Run(s, run), a)
    decreases |run|
  {
    if run == [] {
      assert run + [a] == [a];
      assert CanRun(Apply(s, a), []);
    } else {
      assert (run + [a])[1..] == run[1..] + [a];
      RunAppend(Apply(s, run[0]), run[1..], a);
    }
  }

  lemma StepReachable(s: State, a: Action)
    requires Reachable(s) && Enabled(s, a)
    ensures Reachable(Apply(s, a))
  {
    var priority, ratio, initial, run :|
      CanRun(Start(priority, ratio, initial), run) && s == Run(Start(priority, ratio, initial), run);
    RunAppend(Start(priority, ratio, initial), run, a);
  }

  lemma StartReachable(priority: Class, ratio: int, initial: int)
    ensures Reachable(Start(priority, ratio, initial))
  {
    assert CanRun(Start(priority, ratio, initial), []);
    assert Run(Start(priority, ratio, initial), []) == Start(priority, ratio, initial);
  }

  lemma ReachableTallied(s: State)
    requires Reachable(s)
    ensures Tallied(s)
  {
    var priority, ratio, initial, run :|
      CanRun(Start(priority, ratio, initial), run) && s == Run(Start(priority, ratio, initial), run);
    RunTallied(Start(priority, ratio, initial), run);
  }

  /** If a request waits, some request is past admission. */
  lemma SomebodyActive(s: State, i: nat) returns (j: nat)
    requires Tallied(s) && At(s, i, Waiting)
    ensures j < |s.requests| && SideOf(s.requests[j].phase) == Lane
  {
    CountMember(s.requests, i, Queue, s.requests[i].action);
    if Count(s.requests, Lane, READ) != 0 {
      j := CountWitness(s.requests, Lane, READ);
    } else {
      j := CountWitness(s.requests, Lane, WRITE);
    }
  }

  /** For any number of requests, any priority and any ratio: if a request waits,
      some counted request does not. */
  lemma NoStrandedRequest(s: State, i: nat)
    requires Reachable(s) && At(s, i, Waiting)
    ensures exists j :: 0 <= j < |s.requests| && SideOf(s.requests[j].phase) == Lane
  {
    ReachableTallied(s);
    var j := SomebodyActive(s, i);
  }

  /** The last request past admission always hands over to one that really waits. */
  lemma LastActiveHandsOver(s: State, t: nat, woken: Option<nat>)
    requires Reachable(s) && Enabled(s, Exit(t, woken))
    requires Actives(s.requests) == 1 && Waiters(s.requests) > 0
    ensures woken.Some?
  {
    ReachableTallied(s);
    ExitTallied(s, t, woken);
    ExitCounts(s, t, woken);
  }

  /** The default branch of the exit decision is never taken. */
  lemma DefaultUnreachable(s: State, t: nat)
    requires Reachable(s) && At(s, t, Printed)
    ensures ExitBranch(s, t) != 9
  {
    ReachableTallied(s);
    CountMember(s.requests, t, Lane, s.requests[t].action);
  }

  /** How many requests of a class are counted. */
  function Registered(s: State, c: Class): nat { Count(s.requests, Queue, c) + Count(s.requests, Lane, c) }

  /** A request has to wait on entry exactly when the ratio is not zero and another
      request of its class is counted already, or two of the other class are. */
  lemma WaitsIff(s: State, t: nat)
    requires Reachable(s) && Enabled(s, Enter(t))
    ensures var c := s.requests[t].action;
      At(Apply(s, Enter(t)), t, Waiting) <==>
        s.ratio != 0 && (Registered(s, c) >= 1 || Registered(s, if c == READ then WRITE else READ) >= 2)
  {
    ReachableTallied(s);
  }

  lemma {:induction false} ThreeInLane(rs: seq<Request>, n: nat, i: nat, j: nat, k: nat)
    requires i < j < k < |rs| && n <= |rs|
    requires forall m <- [i, j, k] :: SideOf(rs[m].phase) == Lane
    ensures CountTo(rs, n, Lane, READ) + CountTo(rs, n, Lane, WRITE)
      >= (if i < n then 1 else 0) + (if j < n then 1 else 0) + (if k < n then 1 else 0)
  {
    if n != 0 {
      ThreeInLane(rs, n - 1, i, j, k);
      assert n - 1 in [i, j, k] ==> SideOf(rs[n - 1].phase) == Lane;
    }
  }

  /** Unless the ratio is zero, no three requests are past admission at once. */
  lemma AtMostTwoActive(s: State, i: nat, j: nat, k: nat)
    requires Reachable(s) && s.ratio != 0 && i < j < k < |s.requests|
    ensures exists m <- [i, j, k] :: SideOf(s.requests[m].phase) != Lane
  {
    ReachableTallied(s);
    if forall m <- [i, j, k] :: SideOf(s.requests[m].phase) == Lane {
      ThreeInLane(s.requests, |s.requests|, i, j, k);
    }
  }

  // ------------------------------------------------------------------
  // The data mutex
  // ------------------------------------------------------------------

  predicate InRegion(p: Phase) { p.Inside? || p.Ranked? || p.Worked? || p.Printed? || p.Exited? }

  predicate Holding(r: Request) { r.locked && InRegion(r.phase) }

  /** A request is locked only from the region on, and a writer always is there. */
  predicate LockedOk(r: Request) {
    && (r.locked ==> InRegion(r.phase) || r.phase.Unlocked? || r.phase.Done?)
    && (r.action == WRITE && InRegion(r.phase) ==> r.locked)
  }

  predicate MutexOk(s: State) {
    && (s.mutex.Some? ==> s.mutex.value < |s.requests|)
    && (forall i :: 0 <= i < |s.requests| ==> LockedOk(s.requests[i]))
    && (forall i :: 0 <= i < |s.requests| ==> (Holding(s.requests[i]) <==> s.mutex == Some(i)))
  }

  /** A step that is no exit changes who holds the mutex only by locking it, or by
      unlocking it after having locked it. */
  lemma StepHolding(s: State, a: Action)
    requires Enabled(s, a) && MovesOne(a) && a.t < |s.requests| && LockedOk(s.requests[a.t])
    ensures var s', old' := Apply(s, a), s.requests[a.t];
      && a.t < |s'.requests|
      && LockedOk(s'.requests[a.t])
      && (a.Lock? ==> s.mutex == None && s'.mutex == Some(a.t) && Holding(s'.requests[a.t]))
      && (a.Unlock? ==> !Holding(s'.requests[a.t]) && s'.mutex == if Holding(old') then None else s.mutex)
      && (!a.Lock? && !a.Unlock? ==> s'.mutex == s.mutex && (Holding(s'.requests[a.t]) <==> Holding(old')))
  {
  }

  lemma ExitMutex(s: State, t: nat, woken: Option<nat>)
    requires MutexOk(s) && Enabled(s, Exit(t, woken))
    ensures MutexOk(Apply(s, Exit(t, woken)))
  {
  }

  lemma StepMutex(s: State, a: Action)
    requires MutexOk(s) && Enabled(s, a)
    ensures MutexOk(Apply(s, a))
  {
    if MovesOne(a) {
      StepMovesOne(s, a);
      StepHolding(s, a);
      var s' := Apply(s, a);
      forall i | 0 <= i < |s'.requests|
        ensures LockedOk(s'.requests[i])
        ensures Holding(s'.requests[i]) <==> s'.mutex == Some(i)
      {
        assert i != a.t ==> s'.requests[i] == s.requests[i];
      }
    } else if a.Exit? {
      ExitMutex(s, a.t, a.woken);
    }
  }

  // ------------------------------------------------------------------
  // Every request is answered
  // ------------------------------------------------------------------

  /** The next step of a request that neither waits nor is about to lock. */
  ghost function Proceed(s: State, t: nat): Action
    requires t < |s.requests|
  {
    match s.requests[t].phase
    case New => Enter(t)
    case Woken => Resume(t)
    case Admitted => Choose(t)
    case Inside => Rank(t)
    case Ranked => Work(t)
    case Worked => Show(t)
    case Printed =>
      var signalled := ExitDecision(s, t).0;
      Exit(t, if exists u :: 0 <= u < |s.requests| && WaitsFor(s.requests[u], signalled)
              then var u :| 0 <= u < |s.requests| && WaitsFor(s.requests[u], signalled); Some(u)
              else None)
    case Exited => Unlock(t)
    case _ => Reply(t)
  }

  lemma ProceedEnabled(s: State, t: nat)
    requires t < |s.requests|
    requires !s.requests[t].phase.Waiting? && !s.requests[t].phase.Locking? && !s.requests[t].phase.Done?
    ensures Enabled(s, Proceed(s, t)) && !Proceed(s, t).Arrive?
  {
  }

  /** While a request is unanswered, some request can take a step. */
  lemma Progress(s: State, i: nat) returns (a: Action)
    requires Tallied(s) && MutexOk(s) && i < |s.requests| && s.requests[i].phase != Done
    ensures Enabled(s, a) && !a.Arrive?
  {
    var t := i;
    if s.requests[i].phase == Waiting {
      t := SomebodyActive(s, i);
    }
    if s.requests[t].phase != Locking {
      ProceedEnabled(s, t);
      a := Proceed(s, t);
    } else if s.mutex == None {
      a := Lock(t);
    } else {
      ProceedEnabled(s, s.mutex.value);
      a := Proceed(s, s.mutex.value);
    }
  }

  function Remaining(r: Request): nat {
    match r.phase
    case New => 11
    case Waiting => 10
    case Woken => 9
    case Admitted => 8
    case Locking => 7
    case Inside => 6
    case Ranked => 5
    case Worked => 4
    case Printed => 3
    case Exited => 2
    case Unlocked => 1
    case Done => 0
  }

  lemma StepRemaining(s: State, a: Action)
    requires Enabled(s, a) && MovesOne(a)
    ensures a.t < |s.requests| && a.t < |Apply(s, a).requests|
    ensures Remaining(Apply(s, a).requests[a.t]) < Remaining(s.requests[a.t])
  {
  }

  lemma StepMeasure(s: State, a: Action)
    requires Enabled(s, a) && !a.Arrive?
    ensures Sum(Apply(s, a).requests, Remaining) < Sum(s.requests, Remaining)
    ensures |Apply(s, a).requests| == |s.requests|
  {
    if MovesOne(a) {
      StepMovesOne(s, a);
      StepRemaining(s, a);
      SumUpdate(s.requests, a.t, Apply(s, a).requests[a.t], Remaining);
    } else {
      SumUpdate(s.requests, a.t, s.requests[a.t].(phase := Exited), Remaining);
      if a.woken.Some? {
        var u := a.woken.value;
        SumUpdate(AfterExit(s.requests, a.t), u, s.requests[u].(phase := Woken), Remaining);
      }
    }
  }

  lemma {:induction false} RunMeasure(s: State, run: seq<Action>)
    requires CanRun(s, run) && forall a <- run :: !a.Arrive?
    ensures |Run(s, run).requests| == |s.requests|
    ensures |run| + Sum(Run(s, run).requests, Remaining) <= Sum(s.requests, Remaining)
    decreases |run|
  {
    if run != [] {
      assert !run[0].Arrive?;
      StepMeasure(s, run[0]);
      RunMeasure(Apply(s, run[0]), run[1..]);
    }
  }

  lemma {:induction false} RunMutex(s: State, run: seq<Action>)
    requires MutexOk(s) && CanRun(s, run)
    ensures MutexOk(Run(s, run))
    decreases |run|
  {
    if run != [] {
      StepMutex(s, run[0]);
      RunMutex(Apply(s, run[0]), run[1..]);
    }
  }

  lemma ReachableMutex(s: State)
    requires Reachable(s)
    ensures MutexOk(s)
  {
    var priority, ratio, initial, run :|
      CanRun(Start(priority, ratio, initial), run) && s == Run(Start(priority, ratio, initial), run);
    RunMutex(Start(priority, ratio, initial), run);
  }

  ghost predicate Stuck(s: State) {
    forall a: Action | !a.Arrive? :: !Enabled(s, a)
  }

  /** From any reachable state, under every schedule, with any priority and ratio:
      the requests present take at most eleven steps each, and when none can take
      a step every one of them has been answered and nobody is counted. */
  lemma EveryRequestAnswered(s: State, run: seq<Action>)
    requires Reachable(s) && CanRun(s, run) && forall a <- run :: !a.Arrive?
    ensures |run| <= 11 * |s.requests|
    ensures Stuck(Run(s, run)) ==>
      && (forall i :: 0 <= i < |s.requests| ==> i < |Run(s, run).requests| && Run(s, run).requests[i].phase == Done)
      && Run(s, run).currentReaders == 0 && Run(s, run).currentWriters == 0
  {
    ReachableTallied(s);
    ReachableMutex(s);
    RunTallied(s, run);
    RunMutex(s, run);
    RunMeasure(s, run);
    SumBound(s.requests, 11, Remaining);
    var e := Run(s, run);
    if Stuck(e) {
      StuckAllAnswered(e);
      NobodyCounted(e);
    }
  }

  lemma StuckOneAnswered(e: State, i: nat)
    requires Tallied(e) && MutexOk(e) && Stuck(e) && i < |e.requests|
    ensures e.requests[i].phase == Done
  {
    if e.requests[i].phase != Done {
      var a := Progress(e, i);
    }
  }

  lemma StuckAllAnswered(e: State)
    requires Tallied(e) && MutexOk(e) && Stuck(e)
    ensures forall i :: 0 <= i < |e.requests| ==> e.requests[i].phase == Done
  {
    forall i | 0 <= i < |e.requests|
      ensures e.requests[i].phase == Done
    {
      StuckOneAnswered(e, i);
    }
  }

  lemma NobodyCounted(e: State)
    requires Tallied(e) && forall i :: 0 <= i < |e.requests| ==> e.requests[i].phase == Done
    ensures e.currentReaders == 0 && e.currentWriters == 0
  {
    NoneBelongs(e.requests, Queue, READ);
    NoneBelongs(e.requests, Queue, WRITE);
    NoneBelongs(e.requests, Lane, READ);
    NoneBelongs(e.requests, Lane, WRITE);
  }
}
