/** When readers and writers exclude each other in the critical region, and when they
    do not. A reader takes the data mutex only if it sees a writer counted. */
module Exclusion {
  import opened Counting
  import opened Options
  import opened Admission
  import opened AdmissionRuns
  import opened Overtaking

  /** In the critical region and still counted. */
  predicate Working(p: Phase) { p.Inside? || p.Ranked? || p.Worked? || p.Printed? }

  /** `t` is in the region together with a writer. */
  ghost predicate Overlaps(s: State, t: nat) {
    && t < |s.requests| && Working(s.requests[t].phase)
    && exists u :: 0 <= u < |s.requests| && s.requests[u].action == WRITE && Working(s.requests[u].phase)
  }

  // ------------------------------------------------------------------
  // Who can overlap
  // ------------------------------------------------------------------

  /** Only a reader that did not take the mutex ever overlaps a writer, and two
      writers never do. */
  lemma OnlyUnlockedOverlap(s: State, t: nat, u: nat)
    requires Reachable(s) && t < |s.requests| && u < |s.requests| && t != u
    requires Working(s.requests[t].phase) && Working(s.requests[u].phase) && s.requests[u].action == WRITE
    ensures s.requests[t].action == READ && !s.requests[t].locked
  {
    ReachableMutex(s);
    HoldsTheMutex(s, u);
    if s.requests[t].locked || s.requests[t].action == WRITE {
      HoldsTheMutex(s, t);
    }
  }

  lemma HoldsTheMutex(s: State, i: nat)
    requires MutexOk(s) && i < |s.requests| && Working(s.requests[i].phase)
    requires s.requests[i].locked || s.requests[i].action == WRITE
    ensures s.mutex == Some(i)
  {
    assert LockedOk(s.requests[i]);
    assert Holding(s.requests[i]);
  }

  /** A reader on its way to the mutex, or that has taken it. */
  predicate TakesMutex(s: State, t: nat) {
    && t < |s.requests| && s.requests[t].action == READ
    && (s.requests[t].phase.Locking? || s.requests[t].locked)
  }

  lemma StepTakesMutex(s: State, t: nat, a: Action)
    requires MutexOk(s) && TakesMutex(s, t) && Enabled(s, a)
    ensures TakesMutex(Apply(s, a), t)
  {
    assert LockedOk(s.requests[t]);
    if MovesOne(a) {
      StepMovesOne(s, a);
      assert a.t != t ==> Apply(s, a).requests[t] == s.requests[t];
    }
  }

  lemma {:induction false} RunTakesMutex(s: State, t: nat, run: seq<Action>)
    requires MutexOk(s) && TakesMutex(s, t) && CanRun(s, run)
    ensures MutexOk(Run(s, run)) && TakesMutex(Run(s, run), t)
    decreases |run|
  {
    if run != [] {
      StepMutex(s, run[0]);
      StepTakesMutex(s, t, run[0]);
      RunTakesMutex(Apply(s, run[0]), t, run[1..]);
    }
  }

  lemma TakesMutexExcludes(s: State, t: nat)
    requires MutexOk(s) && TakesMutex(s, t)
    ensures !Overlaps(s, t)
  {
    if Overlaps(s, t) {
      var u :| 0 <= u < |s.requests| && s.requests[u].action == WRITE && Working(s.requests[u].phase);
      HoldsTheMutex(s, u);
      HoldsTheMutex(s, t);
    }
  }

  // ------------------------------------------------------------------
  // A reader without the mutex that nobody can join
  // ------------------------------------------------------------------

  /** The reader is alone past admission and others wait, or it has left. */
  predicate Shielded(s: State, t: nat) {
    && t < |s.requests| && s.requests[t].action == READ
    && ((Alone(s, t) && Waiters(s.requests) > 0)
        || s.requests[t].phase.Exited? || s.requests[t].phase.Unlocked? || s.requests[t].phase.Done?)
  }

  lemma ShieldedExcludes(s: State, t: nat)
    requires Shielded(s, t)
    ensures !Overlaps(s, t)
  {
    if Overlaps(s, t) {
      var u :| 0 <= u < |s.requests| && s.requests[u].action == WRITE && Working(s.requests[u].phase);
      OnlyOne(s, t, u);
    }
  }

  /** Whoever arrives beside a shielded reader waits. */
  lemma ArrivalsWait(s: State, t: nat, u: nat)
    requires Alone(s, t) && Waiters(s.requests) > 0 && Enabled(s, Enter(u))
    ensures Narrow(Apply(s, Enter(u)))
  {
    CountsShift(s.requests, u, Apply(s, Enter(u)).requests[u]);
  }

  lemma StepAlone(s: State, t: nat, a: Action)
    requires Alone(s, t) && Waiters(s.requests) > 0 && Enabled(s, a) && !a.Exit?
    ensures Alone(Apply(s, a), t) && Waiters(Apply(s, a).requests) > 0
    ensures Apply(s, a).requests[t].action == s.requests[t].action
  {
    match a {
      case Arrive(_) => QuietArrive(s, t, a);
      case Enter(u) =>
        ArrivalsWait(s, t, u);
        QuietEnter(s, t, a);
      case Rank(_) => RankStep(s, t, a);
      case _ => QuietMove(s, t, a);
    }
  }

  lemma StepShielded(s: State, t: nat, a: Action)
    requires Shielded(s, t) && Enabled(s, a)
    ensures Shielded(Apply(s, a), t)
  {
    if Alone(s, t) && Waiters(s.requests) > 0 {
      if a.Exit? {
        OnlyOne(s, t, a.t);
      } else {
        StepAlone(s, t, a);
      }
    } else if MovesOne(a) {
      StepMovesOne(s, a);
      assert a.t != t ==> Apply(s, a).requests[t] == s.requests[t];
    }
  }

  lemma {:induction false} RunShielded(s: State, t: nat, run: seq<Action>)
    requires Shielded(s, t) && CanRun(s, run)
    ensures Shielded(Run(s, run), t)
    decreases |run|
  {
    if run != [] {
      StepShielded(s, t, run[0]);
      RunShielded(Apply(s, run[0]), t, run[1..]);
    }
  }

  // ------------------------------------------------------------------
  // A reader without the mutex that a writer can join
  // ------------------------------------------------------------------

  ghost predicate Leads(start: State, s: State) {
    exists run :: CanRun(start, run) && Run(start, run) == s
  }

  lemma LeadsStep(start: State, s: State, a: Action)
    requires Leads(start, s) && Enabled(s, a)
    ensures Leads(start, Apply(s, a))
  {
    var run :| CanRun(start, run) && Run(start, run) == s;
    RunAppend(start, run, a);
  }

  predicate WithoutMutex(s: State, t: nat) {
    t < |s.requests| && s.requests[t] == Request(READ, Inside, false, s.requests[t].shown, s.requests[t].answer)
  }

  /** The reader is in the region without the mutex, no writer is counted, and if a
      newcomer has to wait it is because of a second reader past admission. */
  predicate Exposed(s: State, t: nat) {
    && Tallied(s) && MutexOk(s) && WithoutMutex(s, t) && s.currentWriters == 0
    && (s.ratio != 0 && s.currentReaders > 1 ==> Actives(s.requests) == 2)
  }

  /** With no writer counted, whoever is past admission is a reader. */
  lemma LaneReads(s: State, r: nat)
    requires Tallied(s) && s.currentWriters == 0 && r < |s.requests| && SideOf(s.requests[r].phase) == Lane
    ensures s.requests[r].action == READ
  {
    CountMember(s.requests, r, Lane, s.requests[r].action);
  }

  lemma ExposedMove(s: State, t: nat, a: Action)
    requires Exposed(s, t) && Enabled(s, a) && MovesOne(a) && !a.Enter? && a.t != t
    ensures Exposed(Apply(s, a), t)
  {
    StepMovesOne(s, a);
    CountsSame(s.requests, a.t, Apply(s, a).requests[a.t]);
    StepTallied(s, a);
    StepMutex(s, a);
  }

  lemma ExposedExit(s: State, t: nat, a: Action)
    requires Exposed(s, t) && Enabled(s, a) && a.Exit? && a.t != t
    ensures Exposed(Apply(s, a), t)
  {
    LaneReads(s, a.t);
    StepTallied(s, a);
    StepMutex(s, a);
    ExitCounts(s, a.t, a.woken);
    TwoInLane(s.requests, |s.requests|, a.t, t);
  }

  /** A step of somebody else while the reader stays where it is: of `r`, or of the
      request that holds the mutex `r` wants. */
  lemma Stir(s: State, t: nat, r: nat) returns (a: Action)
    requires MutexOk(s) && WithoutMutex(s, t) && r < |s.requests| && r != t
    requires SideOf(s.requests[r].phase) == Lane
    ensures Enabled(s, a) && !a.Arrive? && !a.Enter? && a.t != t
  {
    if s.requests[r].phase != Locking {
      ProceedEnabled(s, r);
      a := Proceed(s, r);
    } else if s.mutex == None {
      a := Lock(r);
    } else {
      ProceedEnabled(s, s.mutex.value);
      a := Proceed(s, s.mutex.value);
    }
  }

  lemma {:induction false} OthersLeave(start: State, s: State, t: nat) returns (e: State)
    requires Leads(start, s) && Exposed(s, t)
    ensures Leads(start, e) && Exposed(e, t) && (e.ratio == 0 || e.currentReaders <= 1)
    decreases Sum(s.requests, Remaining)
  {
    if s.ratio == 0 || s.currentReaders <= 1 {
      e := s;
    } else {
      if forall i :: 0 <= i < |s.requests| && i != t ==> SideOf(s.requests[i].phase) != Lane {
        OneInLane(s.requests, |s.requests|, t);
      }
      var r :| 0 <= r < |s.requests| && r != t && SideOf(s.requests[r].phase) == Lane;
      var a := Stir(s, t, r);
      LeadsStep(start, s, a);
      StepMeasure(s, a);
      if a.Exit? {
        ExposedExit(s, t, a);
      } else {
        ExposedMove(s, t, a);
      }
      e := OthersLeave(start, Apply(s, a), t);
    }
  }

  /** A writer `n` is about to lock while the reader `t` is in the region. */
  predicate Meeting(s: State, t: nat, n: nat) {
    MutexOk(s) && WithoutMutex(s, t) && At(s, n, Locking) && s.requests[n].action == WRITE
  }

  lemma MeetingStep(s: State, t: nat, n: nat, a: Action)
    requires Meeting(s, t, n) && Enabled(s, a) && !a.Arrive? && a.t != t && a.t != n
    ensures Meeting(Apply(s, a), t, n)
  {
    StepMutex(s, a);
    if MovesOne(a) {
      StepMovesOne(s, a);
    }
  }

  lemma {:induction false} WriterLocks(start: State, s: State, t: nat, n: nat) returns (e: State)
    requires Leads(start, s) && Meeting(s, t, n)
    ensures Leads(start, e) && Overlaps(e, t)
    decreases Sum(s.requests, Remaining)
  {
    if s.mutex == None {
      LeadsStep(start, s, Lock(n));
      e := Apply(s, Lock(n));
      assert e.requests[n].action == WRITE && Working(e.requests[n].phase);
    } else {
      var h := s.mutex.value;
      ProceedEnabled(s, h);
      var a := Proceed(s, h);
      LeadsStep(start, s, a);
      StepMeasure(s, a);
      MeetingStep(s, t, n, a);
      e := WriterLocks(start, Apply(s, a), t, n);
    }
  }

  /** A writer that arrives now is let in. */
  lemma WriterComes(start: State, s: State, t: nat) returns (e: State)
    requires Leads(start, s) && Exposed(s, t) && (s.ratio == 0 || s.currentReaders <= 1)
    ensures Leads(start, e) && Meeting(e, t, |s.requests|)
  {
    var n := |s.requests|;
    LeadsStep(start, s, Arrive(WRITE));
    StepMutex(s, Arrive(WRITE));
    var s1 := Apply(s, Arrive(WRITE));
    LeadsStep(start, s1, Enter(n));
    StepMutex(s1, Enter(n));
    var s2 := Apply(s1, Enter(n));
    assert s2.requests[n].phase == Admitted && s2.requests[t] == s.requests[t];
    LeadsStep(start, s2, Choose(n));
    StepMutex(s2, Choose(n));
    e := Apply(s2, Choose(n));
  }

  lemma ExposedIsJoined(s: State, t: nat) returns (run: seq<Action>)
    requires Exposed(s, t)
    ensures CanRun(s, run) && Overlaps(Run(s, run), t)
  {
    assert CanRun(s, []) && Run(s, []) == s;
    var e := OthersLeave(s, s, t);
    var n := |e.requests|;
    e := WriterComes(s, e, t);
    e := WriterLocks(s, e, t, n);
    run :| CanRun(s, run) && Run(s, run) == e;
  }

  // ------------------------------------------------------------------
  // The exact condition
  // ------------------------------------------------------------------

  /** What a reader finds when it decides whether to take the mutex: a writer counted,
      or nobody beside it past admission, somebody waiting, and a ratio that makes
      newcomers wait. */
  predicate Safe(s: State) {
    || s.currentWriters > 0
    || (s.ratio != 0 && Actives(s.requests) == 1 && Waiters(s.requests) > 0)
  }

  /** No schedule from here on brings a writer into the region beside `t`. */
  ghost predicate NeverOverlaps(s: State, t: nat) {
    forall run | CanRun(s, run) :: !Overlaps(Run(s, run), t)
  }

  lemma SafeExcludes(s: State, t: nat)
    requires Reachable(s) && At(s, t, Admitted) && s.requests[t].action == READ && Safe(s)
    ensures NeverOverlaps(Apply(s, Choose(t)), t)
  {
    var s' := Apply(s, Choose(t));
    ReachableMutex(s);
    StepMutex(s, Choose(t));
    if s.currentWriters <= 0 {
      ReachableShielded(s, t);
    }
    forall run | CanRun(s', run)
      ensures !Overlaps(Run(s', run), t)
    {
      if s.currentWriters > 0 {
        RunTakesMutex(s', t, run);
        TakesMutexExcludes(Run(s', run), t);
      } else {
        RunShielded(s', t, run);
        ShieldedExcludes(Run(s', run), t);
      }
    }
  }

  lemma ReachableShielded(s: State, t: nat)
    requires Reachable(s) && At(s, t, Admitted) && s.requests[t].action == READ
    requires s.ratio != 0 && Actives(s.requests) == 1 && Waiters(s.requests) > 0
    ensures Shielded(Apply(s, Choose(t)), t)
  {
    ReachableTallied(s);
    ReachableCounter(s);
    StepAlone(s, t, Choose(t));
  }

  lemma UnsafeIsExposed(s: State, t: nat)
    requires Reachable(s) && At(s, t, Admitted) && s.requests[t].action == READ && !Safe(s)
    ensures Exposed(Apply(s, Choose(t)), t)
  {
    ReachableTallied(s);
    ReachableMutex(s);
    StepTallied(s, Choose(t));
    StepMutex(s, Choose(t));
    assert LockedOk(s.requests[t]);
    CountMember(s.requests, t, Lane, READ);
    CountsSame(s.requests, t, Apply(s, Choose(t)).requests[t]);
  }

  /** For every reachable state and every reader about to decide: no schedule brings a
      writer into the region beside it, if and only if a writer is counted, or the
      reader is alone past admission, others wait and the ratio is not zero. */
  lemma ExcludesIff(s: State, t: nat)
    requires Reachable(s) && At(s, t, Admitted) && s.requests[t].action == READ
    ensures NeverOverlaps(Apply(s, Choose(t)), t) <==> Safe(s)
  {
    if Safe(s) {
      SafeExcludes(s, t);
    } else {
      UnsafeIsExposed(s, t);
      var run := ExposedIsJoined(Apply(s, Choose(t)), t);
    }
  }
}
