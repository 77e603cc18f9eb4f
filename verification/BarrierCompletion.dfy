/** When a JUSTO publish completes, as exact conditions on the snapshot `n` of the
    subscriber count and the count `m` that the sender threads compare with. */
module BarrierCompletion {
  import opened Counting
  import opened Options
  import opened Justo
  import opened Barrier
  import opened BarrierLimits

  ghost predicate Reaches(s: State, e: State) {
    exists run :: WorkRun(s, run) && Run(s, run) == e
  }

  lemma ReachesItself(s: State)
    ensures Reaches(s, s)
  {
    assert WorkRun(s, []) && Run(s, []) == s;
  }

  lemma {:induction false} RunAppend(s: State, run: seq<Action>, a: Action)
    requires WorkRun(s, run) && Enabled(Run(s, run), a) && Work(a)
    ensures WorkRun(s, run + [a]) && Run(s, run + [a]) == Apply(Run(s, run), a)
    decreases |run|
  {
    if run == [] {
      assert run + [a] == [a];
      assert CanRun(Apply(s, a), []);
    } else {
      assert (run + [a])[1..] == run[1..] + [a];
      RunAppend(Apply(s, run[0]), run[1..], a);
    }
  }

  lemma ReachesStep(start: State, s: State, a: Action)
    requires Reaches(start, s) && Enabled(s, a) && Work(a)
    ensures Reaches(start, Apply(s, a))
  {
    var run :| WorkRun(start, run) && Run(start, run) == s;
    RunAppend(start, run, a);
  }

  // ------------------------------------------------------------------
  // Maximal runs
  // ------------------------------------------------------------------

  /** One thread waits and the others have sent: nobody will broadcast any more. */
  predicate Abandoned(s: State) {
    && s.publishing && s.created == |s.threads| > 0
    && s.threads[|s.threads| - 1].phase == Waiting
    && forall i :: 0 <= i < |s.threads| - 1 ==> s.threads[i].phase == Sent
  }

  predicate AllSent(s: State) {
    forall i :: 0 <= i < |s.threads| ==> s.threads[i].phase == Sent
  }

  lemma StepAbandoned(s: State, a: Action)
    requires Base(s) && Abandoned(s) && Enabled(s, a) && Work(a)
    ensures Abandoned(Apply(s, a))
  {
    assert s.joined < |s.threads|;
    assert a.Join?;
  }

  lemma StepAllSent(s: State, a: Action)
    requires Base(s) && AllSent(s) && Enabled(s, a) && Work(a)
    ensures AllSent(Apply(s, a))
  {
    if MovesThread(a) {
      StepMoves(s, a);
    }
  }

  /** Every publish comes to a state from which it takes no step. */
  lemma {:induction false} ToTheEnd(start: State, s: State) returns (e: State)
    requires Base(s) && Reaches(start, s)
    ensures Base(e) && Reaches(start, e) && Stuck(e)
    ensures Abandoned(s) ==> Abandoned(e)
    ensures AllSent(s) ==> AllSent(e)
    decreases Measure(s)
  {
    if Stuck(s) {
      e := s;
    } else {
      var a :| Work(a) && Enabled(s, a);
      StepBase(s, a);
      StepMeasure(s, a);
      ReachesStep(start, s, a);
      if Abandoned(s) {
        StepAbandoned(s, a);
      }
      if AllSent(s) {
        StepAllSent(s, a);
      }
      e := ToTheEnd(start, Apply(s, a));
    }
  }

  // ------------------------------------------------------------------
  // Counts that nobody can wait for
  // ------------------------------------------------------------------

  /** No thread ever waits: the compared count is at most one, or there is no thread. */
  predicate Unhindered(s: State) {
    && (s.subscribers <= 1 || |s.threads| == 0)
    && forall i :: 0 <= i < |s.threads| ==> !s.threads[i].phase.Waiting?
  }

  lemma StepUnhindered(s: State, a: Action)
    requires Base(s) && Unhindered(s) && Enabled(s, a) && Work(a)
    ensures Unhindered(Apply(s, a))
  {
    StepKeepsJob(s, a);
    if MovesThread(a) {
      StepMoves(s, a);
      if a.Test? {
        SumToMember(s.threads, |s.threads|, a.t, InBarrier);
      }
    }
  }

  lemma {:induction false} RunUnhindered(s: State, run: seq<Action>)
    requires Base(s) && Unhindered(s) && WorkRun(s, run)
    ensures Base(Run(s, run)) && Unhindered(Run(s, run))
    decreases |run|
  {
    if run != [] {
      StepBase(s, run[0]);
      StepUnhindered(s, run[0]);
      RunUnhindered(Apply(s, run[0]), run[1..]);
    }
  }

  lemma UnhinderedEnds(e: State)
    requires Base(e) && Stuck(e) && (Unhindered(e) || AllSent(e))
    ensures !e.publishing
  {
    if e.publishing {
      var a := Progress(e);
    }
  }

  // ------------------------------------------------------------------
  // Counts below the snapshot
  // ------------------------------------------------------------------

  /** Of the `c` threads created, those from `d` up to `k` are in phase `p` and the
      others have sent. */
  predicate Stage(s: State, d: nat, k: nat, c: nat, p: Phase) {
    && s.publishing && s.mutex == None
    && d <= k <= c == s.created <= |s.threads| && s.justThreads == k - d
    && (forall i :: 0 <= i < c && !(d <= i < k) ==> s.threads[i].phase == Sent)
    && (forall i :: d <= i < k ==> s.threads[i].phase == p)
    && (forall i :: c <= i < |s.threads| ==> s.threads[i].phase == Unborn)
  }

  /** The next thread is created, locks, and increments. */
  lemma ThreadArrives(start: State, s: State) returns (e: State)
    requires Reaches(start, s) && s.publishing && s.mutex == None && s.created < |s.threads|
    ensures Reaches(start, e)
    ensures e == s.(threads := s.threads[s.created := Thread(Counted, 0)], created := s.created + 1,
                    mutex := Some(s.created), justThreads := s.justThreads + 1)
  {
    var t := s.created;
    ReachesStep(start, s, Create(0));
    e := Apply(s, Create(0));
    ReachesStep(start, e, Lock(t));
    e := Apply(e, Lock(t));
    ReachesStep(start, e, Increment(t));
    e := Apply(e, Increment(t));
  }

  /** A thread past the wait counts out, broadcasts, unlocks and sends. */
  lemma ThreadLeaves(start: State, s: State, t: nat) returns (e: State)
    requires Reaches(start, s) && At(s, t, Resumed)
    ensures Reaches(start, e) && |e.threads| == |s.threads|
    ensures e.threads[t].phase == Sent && e.mutex == None && e.justThreads == s.justThreads - 1
    ensures forall i :: 0 <= i < |s.threads| && i != t ==> e.threads[i] == Wake(s.threads[i])
    ensures e.created == s.created && e.publishing == s.publishing && e.subscribers == s.subscribers
  {
    ReachesStep(start, s, Decrement(t));
    var s1 := Apply(s, Decrement(t));
    ReachesStep(start, s1, Broadcast(t));
    var s2 := Apply(s1, Broadcast(t));
    ReachesStep(start, s2, Unlock(t));
    var s3 := Apply(s2, Unlock(t));
    ReachesStep(start, s3, Send(t));
    e := Apply(s3, Send(t));
  }

  /** The first `k` threads wait, if the count compared is above `k`. */
  lemma {:induction false} FirstWait(start: State, k: nat) returns (s: State)
    requires Stage(start, 0, 0, 0, Waiting) && k < start.subscribers && k <= |start.threads|
    ensures Reaches(start, s) && Stage(s, 0, k, k, Waiting)
    ensures s.subscribers == start.subscribers && |s.threads| == |start.threads|
  {
    if k == 0 {
      ReachesItself(start);
      s := start;
    } else {
      s := FirstWait(start, k - 1);
      s := ThreadArrives(start, s);
      ReachesStep(start, s, Test(k - 1));
      s := Apply(s, Test(k - 1));
    }
  }

  /** With `k` threads waiting one more makes up the count: it passes and wakes them. */
  lemma OnePasses(start: State, s: State, k: nat, c: nat, p: Phase) returns (e: State)
    requires Reaches(start, s) && Stage(s, 0, k, c, p) && (p == Waiting || p == Woken)
    requires c < |s.threads| && k + 1 == s.subscribers
    ensures Reaches(start, e) && Stage(e, 0, k, c + 1, Woken)
    ensures e.subscribers == s.subscribers && |e.threads| == |s.threads|
  {
    var s1 := ThreadArrives(start, s);
    ReachesStep(start, s1, Test(c));
    var s2 := Apply(s1, Test(c));
    assert At(s2, c, Resumed);
    e := ThreadLeaves(start, s2, c);
  }

  /** Threads up to `limit` pass while the first `k` are still counted in. */
  lemma {:induction false} OthersPass(start: State, s: State, k: nat, limit: nat) returns (e: State)
    requires Reaches(start, s) && Stage(s, 0, k, k, Waiting) && k + 1 == s.subscribers
    requires k < limit <= |s.threads|
    ensures Reaches(start, e) && Stage(e, 0, k, limit, Woken)
    ensures e.subscribers == s.subscribers && |e.threads| == |s.threads|
  {
    if limit == k + 1 {
      e := OnePasses(start, s, k, k, Waiting);
    } else {
      e := OthersPass(start, s, k, limit - 1);
      e := OnePasses(start, e, k, limit - 1, Woken);
    }
  }

  /** Then the woken threads count out one after the other. */
  lemma {:induction false} WokenLeave(start: State, s: State, d: nat, k: nat, c: nat) returns (e: State)
    requires Reaches(start, s) && Stage(s, d, k, c, Woken)
    ensures Reaches(start, e) && Stage(e, k, k, c, Woken)
    ensures e.subscribers == s.subscribers && |e.threads| == |s.threads|
    decreases k - d
  {
    if d == k {
      e := s;
    } else {
      ReachesStep(start, s, Relock(d));
      var s1 := Apply(s, Relock(d));
      assert At(s1, d, Resumed);
      var s2 := ThreadLeaves(start, s1, d);
      e := WokenLeave(start, s2, d + 1, k, c);
    }
  }

  /** All threads up to `limit` send, and the barrier is empty again. */
  lemma SomeSend(start: State, limit: nat) returns (e: State)
    requires Stage(start, 0, 0, 0, Waiting) && 2 <= start.subscribers <= limit <= |start.threads|
    ensures Reaches(start, e) && e.subscribers == start.subscribers && |e.threads| == |start.threads|
    ensures exists k: nat :: Stage(e, k, k, limit, Woken)
  {
    var k := start.subscribers - 1;
    e := FirstWait(start, k);
    e := OthersPass(start, e, k, limit);
    e := WokenLeave(start, e, 0, k, limit);
  }

  /** The last thread finds an empty barrier and waits for ever. */
  lemma LastIsAbandoned(start: State) returns (e: State)
    requires Stage(start, 0, 0, 0, Waiting) && 2 <= start.subscribers < |start.threads|
    ensures Reaches(start, e) && Abandoned(e)
  {
    var last := |start.threads| - 1;
    e := SomeSend(start, last);
    e := ThreadArrives(start, e);
    ReachesStep(start, e, Test(last));
    e := Apply(e, Test(last));
  }

  lemma ReachesBase(start: State, e: State)
    requires Base(start) && Reaches(start, e)
    ensures Base(e)
  {
    var run :| WorkRun(start, run) && Run(start, run) == e;
    RunBase(start, run);
  }

  lemma BegunStage(prior: seq<Action>, n: nat, m: int, payload: string)
    requires CanRun(INITIAL, prior) && !Run(INITIAL, prior).publishing
    ensures var s := Begun(Run(INITIAL, prior), n, m, payload);
      Base(s) && Stage(s, 0, 0, 0, Waiting) && s.subscribers == m && |s.threads| == n
  {
    var start := Run(INITIAL, prior);
    RunBase(INITIAL, prior);
    BegunBase(start, n, m, payload);
    IdleMutexFree(start);
    SumZero(Begun(start, n, m, payload).threads, InBarrier);
  }

  // ------------------------------------------------------------------
  // The exact conditions
  // ------------------------------------------------------------------

  /** The publish ends, whatever the schedule. */
  ghost predicate AlwaysEnds(s: State) {
    forall run | WorkRun(s, run) :: Stuck(Run(s, run)) ==> !Run(s, run).publishing
  }

  lemma MayHang(prior: seq<Action>, n: nat, m: int, payload: string)
    requires CanRun(INITIAL, prior) && !Run(INITIAL, prior).publishing
    requires n > 0 && m > 1 && m != n
    ensures !AlwaysEnds(Begun(Run(INITIAL, prior), n, m, payload))
  {
    var s := Begun(Run(INITIAL, prior), n, m, payload);
    BegunStage(prior, n, m, payload);
    ReachesItself(s);
    var e := s;
    if m < n {
      e := LastIsAbandoned(s);
      ReachesBase(s, e);
    }
    e := ToTheEnd(s, e);
    var run :| WorkRun(s, run) && Run(s, run) == e;
    if m > n {
      OversizedNeverSends(prior, n, m, payload, run);
    }
  }

  /** For every number of threads and every compared count: under every schedule a
      publish that can take no more step has ended, if and only if there is no thread,
      the count equals the snapshot, or it is at most one. In every other case some
      schedule leaves a thread waiting for ever. */
  lemma AlwaysCompletesIff(prior: seq<Action>, n: nat, m: int, payload: string)
    requires CanRun(INITIAL, prior) && !Run(INITIAL, prior).publishing
    ensures AlwaysEnds(Begun(Run(INITIAL, prior), n, m, payload)) <==> n == 0 || m == n || m <= 1
  {
    var s := Begun(Run(INITIAL, prior), n, m, payload);
    BegunStage(prior, n, m, payload);
    if n == 0 || m <= 1 {
      forall run | WorkRun(s, run) && Stuck(Run(s, run))
        ensures !Run(s, run).publishing
      {
        RunUnhindered(s, run);
        UnhinderedEnds(Run(s, run));
      }
    } else if m == n {
      forall run | WorkRun(s, run) && Stuck(Run(s, run))
        ensures !Run(s, run).publishing
      {
        EveryPublishCompletes(prior, n, payload, run);
      }
    } else {
      MayHang(prior, n, m, payload);
    }
  }

  /** Some schedule completes the publish if and only if there is no thread or the
      compared count is at most the snapshot. */
  lemma CanCompleteIff(prior: seq<Action>, n: nat, m: int, payload: string)
    requires CanRun(INITIAL, prior) && !Run(INITIAL, prior).publishing
    ensures var s := Begun(Run(INITIAL, prior), n, m, payload);
      (exists run :: WorkRun(s, run) && !Run(s, run).publishing) <==> n == 0 || m <= n
  {
    var s := Begun(Run(INITIAL, prior), n, m, payload);
    BegunStage(prior, n, m, payload);
    if n == 0 || m <= n {
      var e := FinishesOnce(s);
      var run :| WorkRun(s, run) && Run(s, run) == e;
    } else {
      forall run | WorkRun(s, run)
        ensures Run(s, run).publishing
      {
        OversizedNeverSends(prior, n, m, payload, run);
      }
    }
  }

  lemma FinishesOnce(s: State) returns (e: State)
    requires Base(s) && Stage(s, 0, 0, 0, Waiting)
    requires |s.threads| == 0 || s.subscribers <= |s.threads|
    ensures Reaches(s, e) && !e.publishing
  {
    ReachesItself(s);
    e := s;
    if |s.threads| > 0 && s.subscribers > 1 {
      e := SomeSend(s, |s.threads|);
      ReachesBase(s, e);
      assert AllSent(e);
      e := ToTheEnd(s, e);
    } else {
      e := ToTheEnd(s, s);
      var run :| WorkRun(s, run) && Run(s, run) == e;
      RunUnhindered(s, run);
    }
    UnhinderedEnds(e);
  }

  // ------------------------------------------------------------------
  // Counts that change during the publish
  // ------------------------------------------------------------------

  /** A run of one publish during which clients may come and go, but whenever a thread
      compares, the count equals the number of threads. */
  predicate ExactAtTests(s: State, run: seq<Action>)
    requires CanRun(s, run)
    decreases |run|
  {
    run == [] || (!run[0].Begin? && (run[0].Test? ==> s.subscribers == |s.threads|)
                  && ExactAtTests(Apply(s, run[0]), run[1..]))
  }

  /** How many steps of the run are steps of the publish. */
  function WorkSteps(run: seq<Action>): nat {
    if run == [] then 0 else (if Work(run[0]) then 1 else 0) + WorkSteps(run[1..])
  }

  lemma ResizeKeeps(s: State, current: int)
    requires Base(s) && Gate(s) && Live(s)
    ensures var s' := Apply(s, Resize(current)); Gate(s') && Live(s') && Measure(s') == Measure(s)
  {
  }

  lemma {:induction false} RunExact(s: State, run: seq<Action>)
    requires Base(s) && Gate(s) && Live(s) && CanRun(s, run) && ExactAtTests(s, run)
    ensures Base(Run(s, run)) && Gate(Run(s, run)) && Live(Run(s, run))
    ensures WorkSteps(run) + Measure(Run(s, run)) <= Measure(s)
    decreases |run|
  {
    if run != [] {
      var a, s' := run[0], Apply(s, run[0]);
      StepBase(s, a);
      if a.Resize? {
        ResizeKeeps(s, a.current);
      } else {
        GateAtTests(s, a);
        LiveAtTests(s, a);
        StepMeasure(s, a);
      }
      RunExact(s', run[1..]);
    }
  }

  lemma MeasureBounded(s: State)
    requires Base(s)
    ensures Measure(s) >= 0
  {
  }

  /** Clients that come and go during a publish do no harm as long as the count equals
      the snapshot whenever a thread compares: the publish takes at most 11n + 1 steps,
      and where it can take no more it has ended. */
  lemma CompletesThroughChanges(prior: seq<Action>, n: nat, m: int, payload: string, run: seq<Action>)
    requires CanRun(INITIAL, prior) && !Run(INITIAL, prior).publishing
    requires CanRun(Begun(Run(INITIAL, prior), n, m, payload), run)
    requires ExactAtTests(Begun(Run(INITIAL, prior), n, m, payload), run)
    ensures WorkSteps(run) <= 11 * n + 1
    ensures var e := Run(Begun(Run(INITIAL, prior), n, m, payload), run); Stuck(e) ==> !e.publishing
  {
    var start := Run(INITIAL, prior);
    var s := Begun(start, n, m, payload);
    RunBase(INITIAL, prior);
    BegunBase(start, n, m, payload);
    RunExact(s, run);
    MeasureBounded(Run(s, run));
    if Stuck(Run(s, run)) && Run(s, run).publishing {
      var a := Progress(Run(s, run));
    }
  }

  /** All threads have arrived, those that have not sent wait, and the publisher waits for
      one of them. */
  predicate Hung(s: State) {
    && s.publishing && s.joined < s.created == |s.threads| && s.threads[s.joined].phase == Waiting
    && forall i :: 0 <= i < |s.threads| ==> s.threads[i].phase == Waiting || s.threads[i].phase == Sent
  }

  lemma StuckIsHung(s: State)
    requires Base(s) && s.publishing && Stuck(s)
    ensures Hung(s)
  {
    assert !Enabled(s, Create(0)) && !Enabled(s, Join) && !Enabled(s, End);
    if s.mutex.Some? {
      assert Enabled(s, HolderAction(s, s.mutex.value));
    }
    forall i | 0 <= i < |s.threads|
      ensures s.threads[i].phase == Waiting || s.threads[i].phase == Sent
    {
      assert !Enabled(s, Lock(i)) && !Enabled(s, Relock(i)) && !Enabled(s, Send(i));
      assert !Holds(s.threads[i].phase);
    }
  }

  lemma HungAllows(s: State, a: Action)
    requires Base(s) && Hung(s) && Enabled(s, a)
    ensures a.Resize? && Hung(Apply(s, a)) && Apply(s, a).log == s.log
  {
  }

  lemma {:induction false} RunHung(s: State, run: seq<Action>)
    requires Base(s) && Hung(s) && CanRun(s, run)
    ensures Hung(Run(s, run)) && Run(s, run).log == s.log
    decreases |run|
  {
    if run != [] {
      HungAllows(s, run[0]);
      StepBase(s, run[0]);
      RunHung(Apply(s, run[0]), run[1..]);
    }
  }

  /** However the subscriber count changed before: a publish that can take no step and has
      not ended has all its threads waiting or through, and no later change of the count
      helps: nothing is ever sent again, by it or by any later publish. */
  lemma HungForever(run: seq<Action>, more: seq<Action>)
    requires CanRun(INITIAL, run) && CanRun(Run(INITIAL, run), more)
    requires Run(INITIAL, run).publishing && Stuck(Run(INITIAL, run))
    ensures Hung(Run(INITIAL, run)) && Hung(Run(Run(INITIAL, run), more))
    ensures Run(Run(INITIAL, run), more).log == Run(INITIAL, run).log
  {
    RunBase(INITIAL, run);
    StuckIsHung(Run(INITIAL, run));
    RunHung(Run(INITIAL, run), more);
  }
}
