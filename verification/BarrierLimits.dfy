/** How the safety of the JUSTO barrier depends on the subscriber count it reads, as
    an exact condition on the snapshot `n` and the compared count `m`, and what a
    count above the snapshot does. */
module BarrierLimits {
  import opened Counting
  import opened Options
  import opened Justo
  import opened Barrier

  lemma Prepend(s: State, a: Action, rest: seq<Action>) returns (run: seq<Action>)
    requires Enabled(s, a) && Work(a) && WorkRun(Apply(s, a), rest)
    ensures WorkRun(s, run) && Run(s, run) == Run(Apply(s, a), rest)
  {
    run := [a] + rest;
    assert run[1..] == rest;
  }

  predicate NobodyPast(s: State) {
    forall i :: 0 <= i < |s.threads| ==> !Past(s.threads[i].phase)
  }

  lemma StepOversized(s: State, a: Action)
    requires Base(s) && NobodyPast(s) && Enabled(s, a) && Work(a)
    requires s.subscribers > |s.threads| > 0
    ensures NobodyPast(Apply(s, a)) && Apply(s, a).publishing == s.publishing && Apply(s, a).log == s.log
  {
    StepRecords(s, a);
    SumBound(s.threads, 1, InBarrier);
    if MovesThread(a) {
      StepMoves(s, a);
      assert !Past(s.threads[Mover(s, a)].phase);
    } else {
      assert !Past(s.threads[0].phase);
    }
  }

  lemma {:induction false} RunOversized(s: State, run: seq<Action>)
    requires Base(s) && NobodyPast(s) && WorkRun(s, run)
    requires s.subscribers > |s.threads| > 0
    ensures NobodyPast(Run(s, run)) && Run(s, run).publishing == s.publishing && Run(s, run).log == s.log
    decreases |run|
  {
    if run != [] {
      StepOversized(s, run[0]);
      StepBase(s, run[0]);
      StepKeepsJob(s, run[0]);
      RunOversized(Apply(s, run[0]), run[1..]);
    }
  }

  /** A subscriber that registers between the snapshot and the test leaves the
      publish stuck: no run of it sends to anybody. */
  lemma OversizedNeverSends(prior: seq<Action>, n: nat, m: int, payload: string, run: seq<Action>)
    requires CanRun(INITIAL, prior) && !Run(INITIAL, prior).publishing
    requires 0 < n < m && WorkRun(Begun(Run(INITIAL, prior), n, m, payload), run)
    ensures Run(Begun(Run(INITIAL, prior), n, m, payload), run).log == Run(INITIAL, prior).log
    ensures Run(Begun(Run(INITIAL, prior), n, m, payload), run).publishing
  {
    var start := Run(INITIAL, prior);
    RunBase(INITIAL, prior);
    BegunBase(start, n, m, payload);
    RunOversized(Begun(start, n, m, payload), run);
  }

  /** `k` threads wait at the barrier and the others are not created yet. */
  predicate Lined(s: State, k: nat) {
    && s.publishing && s.mutex == None
    && k == s.created == s.justThreads < |s.threads|
    && (forall i :: 0 <= i < k ==> s.threads[i].phase == Waiting)
    && (forall i :: k <= i < |s.threads| ==> s.threads[i].phase == Unborn)
  }

  /** The next thread is created, locks, and increments. */
  lemma Arrive(s: State, k: nat) returns (s3: State)
    requires Lined(s, k)
    ensures s3.publishing && s3.mutex == Some(k) && s3.created == s3.justThreads == k + 1
    ensures s3.subscribers == s.subscribers && |s3.threads| == |s.threads|
    ensures s3.threads == s.threads[k := Thread(Counted, 0)]
    ensures forall rest :: WorkRun(s3, rest) ==>
      exists run :: WorkRun(s, run) && Run(s, run) == Run(s3, rest)
  {
    var s1 := Apply(s, Create(0));
    var s2 := Apply(s1, Lock(k));
    s3 := Apply(s2, Increment(k));
    forall rest | WorkRun(s3, rest)
      ensures exists run :: WorkRun(s, run) && Run(s, run) == Run(s3, rest)
    {
      var r2 := Prepend(s2, Increment(k), rest);
      var r1 := Prepend(s1, Lock(k), r2);
      var r0 := Prepend(s, Create(0), r1);
    }
  }

  /** Somebody has sent while a thread of the same publish has yet to arrive. */
  predicate EarlySend(s: State) {
    exists i, j | 0 <= i < |s.threads| && 0 <= j < |s.threads| ::
      s.threads[i].phase == Sent && !Arrived(s.threads[j].phase)
  }

  /** A thread past the wait goes on to send. */
  lemma GoOn(s: State, k: nat) returns (run: seq<Action>)
    requires At(s, k, Resumed) && s.threads[|s.threads| - 1].phase == Unborn
    ensures WorkRun(s, run) && EarlySend(Run(s, run))
  {
    var s2 := Apply(s, Decrement(k));
    assert At(s2, k, Dropped) && At(s2, |s.threads| - 1, Unborn);
    var s3 := Apply(s2, Broadcast(k));
    assert At(s3, k, Told) && At(s3, |s.threads| - 1, Unborn);
    run := UnlockAndSend(s3, k);
    run := Prepend(s2, Broadcast(k), run);
    run := Prepend(s, Decrement(k), run);
  }

  lemma UnlockAndSend(s: State, k: nat) returns (run: seq<Action>)
    requires At(s, k, Told) && s.threads[|s.threads| - 1].phase == Unborn
    ensures WorkRun(s, run) && EarlySend(Run(s, run))
  {
    var s4 := Apply(s, Unlock(k));
    assert At(s4, k, Released) && At(s4, |s.threads| - 1, Unborn);
    var s5 := Apply(s4, Send(k));
    assert At(s5, k, Sent) && At(s5, |s.threads| - 1, Unborn);
    run := Prepend(s4, Send(k), []);
    run := Prepend(s, Unlock(k), run);
    assert s5.threads[k].phase == Sent && !Arrived(s5.threads[|s.threads| - 1].phase);
  }

  /** So does a thread whose test succeeds. */
  lemma Leave(s: State, k: nat) returns (run: seq<Action>)
    requires k < |s.threads| && s.threads[k].phase == Counted
    requires s.justThreads >= s.subscribers
    requires s.threads[|s.threads| - 1].phase == Unborn
    ensures WorkRun(s, run) && EarlySend(Run(s, run))
  {
    var s1 := Apply(s, Test(k));
    assert At(s1, k, Resumed) && At(s1, |s.threads| - 1, Unborn);
    run := GoOn(s1, k);
    run := Prepend(s, Test(k), run);
  }

  lemma {:induction false} Overtake(s: State, k: nat) returns (run: seq<Action>)
    requires Lined(s, k) && k + 1 < |s.threads| && s.subscribers < |s.threads|
    ensures WorkRun(s, run) && EarlySend(Run(s, run))
    decreases s.subscribers - k
  {
    var s3 := Arrive(s, k);
    if s3.justThreads < s3.subscribers {
      var s4 := Apply(s3, Test(k));
      var rest := Overtake(s4, k + 1);
      var r3 := Prepend(s3, Test(k), rest);
      run :| WorkRun(s, run) && Run(s, run) == Run(s3, r3);
    } else {
      var r3 := Leave(s3, k);
      run :| WorkRun(s, run) && Run(s, run) == Run(s3, r3);
    }
  }

  lemma {:induction false} RunGateWork(s: State, run: seq<Action>)
    requires Base(s) && Gate(s) && WorkRun(s, run) && s.subscribers >= |s.threads|
    ensures Gate(Run(s, run))
    decreases |run|
  {
    if run != [] {
      StepBase(s, run[0]);
      StepGate(s, run[0]);
      StepKeepsJob(s, run[0]);
      RunGateWork(Apply(s, run[0]), run[1..]);
    }
  }

  /** With two or more threads, no interleaving sends early exactly when the
      compared count is at least the number of threads. */
  lemma BarrierHoldsIffCountCovers(prior: seq<Action>, n: nat, m: int, payload: string)
    requires CanRun(INITIAL, prior) && !Run(INITIAL, prior).publishing
    requires n >= 2
    ensures var s := Begun(Run(INITIAL, prior), n, m, payload);
      (forall run | WorkRun(s, run) :: !EarlySend(Run(s, run))) <==> m >= n
  {
    var start := Run(INITIAL, prior);
    var s := Begun(start, n, m, payload);
    RunBase(INITIAL, prior);
    BegunBase(start, n, m, payload);
    if m >= n {
      forall run | WorkRun(s, run)
        ensures !EarlySend(Run(s, run))
      {
        RunGateWork(s, run);
      }
    } else {
      SumZero(s.threads, InBarrier);
      IdleMutexFree(start);
      var run := Overtake(s, 0);
      assert WorkRun(s, run) && EarlySend(Run(s, run));
    }
  }
}
