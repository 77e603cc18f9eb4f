/** The bound on overtaking is exact: it is reached, and it needs its hypothesis. */
module OvertakingLimits {
  import opened Options
  import opened Admission
  import opened AdmissionRuns
  import opened Writers
  import opened Overtaking

  /** A run that starts with one more step. */
  lemma Cons(s: State, a: Action, rest: seq<Action>) returns (run: seq<Action>)
    requires Enabled(s, a) && CanRun(Apply(s, a), rest)
    ensures CanRun(s, run)
    ensures forall c :: Entries(s, run, c)
                     == (if a.Rank? && s.requests[a.t].action == c then 1 else 0) + Entries(Apply(s, a), rest, c)
    ensures NarrowRun(s, run) <==> Narrow(s) && NarrowRun(Apply(s, a), rest)
  {
    run := [a] + rest;
    assert run[1..] == rest;
  }

  // ------------------------------------------------------------------
  // Without the hypothesis there is no bound
  // ------------------------------------------------------------------

  /** A writer has been woken, nobody else is counted, and the data mutex is free. */
  predicate LoneWriter(s: State, w: nat) {
    && s.priority == READ && s.ratio != 0
    && s.currentReaders == 0 && s.currentWriters == 1 && s.mutex == None
    && At(s, w, Woken) && s.requests[w].action == WRITE
    && (forall u :: 0 <= u < |s.requests| ==> !s.requests[u].phase.Waiting?)
  }

  /** After a reader has arrived, been let in at once, and taken the mutex. */
  function ReaderInside(s: State): State {
    s.(requests := s.requests + [Request(READ, Inside, true, 0, 0)], currentReaders := 1, mutex := Some(|s.requests|))
  }

  lemma ReaderGetsIn(s: State, w: nat, rest: seq<Action>) returns (run: seq<Action>)
    requires LoneWriter(s, w) && CanRun(ReaderInside(s), rest)
    ensures CanRun(s, run)
    ensures forall c :: Entries(s, run, c) == Entries(ReaderInside(s), rest, c)
  {
    var t := |s.requests|;
    var s1 := Apply(s, Arrive(READ));
    var s2 := Apply(s1, Enter(t));
    var s3 := Apply(s2, Choose(t));
    assert Apply(s3, Lock(t)) == ReaderInside(s);
    run := Cons(s3, Lock(t), rest);
    run := Cons(s2, Choose(t), run);
    run := Cons(s1, Enter(t), run);
    run := Cons(s, Arrive(READ), run);
  }

  /** After that reader has entered, left and released the mutex, waking nobody. */
  function ReaderOutside(s: State): State {
    s.(requests := s.requests + [Request(READ, Unlocked, true, s.counter, 0)],
       ratioCounter := if s.ratioCounter + 1 >= s.ratio then 0 else s.ratioCounter + 1)
  }

  lemma ReaderGetsOut(s: State, w: nat, rest: seq<Action>) returns (run: seq<Action>)
    requires LoneWriter(s, w) && CanRun(ReaderOutside(s), rest)
    ensures CanRun(ReaderInside(s), run)
    ensures forall c :: Entries(ReaderInside(s), run, c)
                     == (if c == READ then 1 else 0) + Entries(ReaderOutside(s), rest, c)
  {
    var t := |s.requests|;
    var s0 := ReaderInside(s);
    var s1 := Apply(s0, Rank(t));
    var s2 := Apply(s1, Work(t));
    var s3 := Apply(s2, Show(t));
    var s4 := Apply(s3, Exit(t, None));
    assert Apply(s4, Unlock(t)) == ReaderOutside(s);
    run := Cons(s4, Unlock(t), rest);
    run := Cons(s3, Exit(t, None), run);
    run := Cons(s2, Show(t), run);
    run := Cons(s1, Work(t), run);
    run := Cons(s0, Rank(t), run);
  }

  lemma {:induction false} ReadersPass(s: State, w: nat, k: nat) returns (run: seq<Action>)
    requires LoneWriter(s, w)
    ensures CanRun(s, run) && Entries(s, run, READ) == k && Entries(s, run, WRITE) == 0
    decreases k
  {
    if k == 0 {
      run := [];
    } else {
      run := ReadersPass(ReaderOutside(s), w, k - 1);
      run := ReaderGetsOut(s, w, run);
      run := ReaderGetsIn(s, w, run);
    }
  }

  /** A writer about to leave, and another one that waits. */
  function TwoWriters(ratio: int, initial: int): State {
    Start(READ, ratio, initial).(
      requests := [Request(WRITE, Printed, true, initial + 1, 0), Request(WRITE, Waiting, false, 0, 0)],
      currentWriters := 2, counter := initial + 1, mutex := Some(0), holders := [0], prints := [Print(0, initial + 1)])
  }

  /** The first writer in the region, and then about to leave. */
  function FirstInside(ratio: int, initial: int): State {
    Start(READ, ratio, initial).(
      requests := [Request(WRITE, Inside, true, 0, 0)], currentWriters := 1, mutex := Some(0), holders := [0])
  }

  function FirstPrinted(ratio: int, initial: int): State {
    FirstInside(ratio, initial).(
      requests := [Request(WRITE, Printed, true, initial + 1, 0)], counter := initial + 1, prints := [Print(0, initial + 1)])
  }

  lemma FirstEnters(ratio: int, initial: int)
    ensures Reachable(FirstInside(ratio, initial))
  {
    var s := Start(READ, ratio, initial);
    StartReachable(READ, ratio, initial);
    StepReachable(s, Arrive(WRITE));
    s := Apply(s, Arrive(WRITE));
    StepReachable(s, Enter(0));
    s := Apply(s, Enter(0));
    StepReachable(s, Choose(0));
    s := Apply(s, Choose(0));
    StepReachable(s, Lock(0));
    assert Apply(s, Lock(0)) == FirstInside(ratio, initial);
  }

  lemma FirstPrints(ratio: int, initial: int)
    ensures Reachable(FirstPrinted(ratio, initial))
  {
    FirstEnters(ratio, initial);
    var s := FirstInside(ratio, initial);
    StepReachable(s, Rank(0));
    s := Apply(s, Rank(0));
    assert s == FirstInside(ratio, initial).(requests := [Request(WRITE, Ranked, true, 0, 0)]);
    StepReachable(s, Work(0));
    s := Apply(s, Work(0));
    assert s == FirstInside(ratio, initial).(requests := [Request(WRITE, Worked, true, 0, 0)], counter := initial + 1);
    StepReachable(s, Show(0));
    assert Apply(s, Show(0)) == FirstPrinted(ratio, initial);
  }

  lemma TwoWritersReachable(ratio: int, initial: int)
    requires ratio != 0
    ensures Reachable(TwoWriters(ratio, initial))
  {
    FirstPrints(ratio, initial);
    var s := FirstPrinted(ratio, initial);
    StepReachable(s, Arrive(WRITE));
    s := Apply(s, Arrive(WRITE));
    StepReachable(s, Enter(1));
    assert Apply(s, Enter(1)) == TwoWriters(ratio, initial);
  }

  lemma PairCount(rs: seq<Request>, side: Side, action: Class)
    requires |rs| == 2
    ensures Count(rs, side, action) == One(rs[0], side, action) + One(rs[1], side, action)
  {
    assert CountTo(rs, 1, side, action) == CountTo(rs, 0, side, action) + One(rs[0], side, action);
  }

  /** The second writer once the first has left. */
  function SecondWriter(ratio: int, initial: int): State {
    TwoWriters(ratio, initial).(
      requests := [Request(WRITE, Unlocked, true, initial + 1, 0), Request(WRITE, Woken, false, 0, 0)],
      currentWriters := 1, mutex := None)
  }

  lemma FirstLeaves(ratio: int, initial: int, rest: seq<Action>) returns (run: seq<Action>)
    requires ratio != 0 && CanRun(SecondWriter(ratio, initial), rest)
    ensures CanRun(TwoWriters(ratio, initial), run)
    ensures forall c :: Entries(TwoWriters(ratio, initial), run, c) == Entries(SecondWriter(ratio, initial), rest, c)
  {
    var s0 := TwoWriters(ratio, initial);
    var s1 := Apply(s0, Exit(0, Some(1)));
    assert Apply(s1, Unlock(0)) == SecondWriter(ratio, initial);
    run := Cons(s1, Unlock(0), rest);
    run := Cons(s0, Exit(0, Some(1)), run);
  }

  /** A run may let in a reader beside the writer that was woken. Then any number of
      readers can enter before the writer does, although it waited before any of them
      arrived: the bound on overtaking needs the run to be narrow. */
  lemma WideRunsHaveNoBound(ratio: int, initial: int, k: nat) returns (s: State, run: seq<Action>)
    requires ratio != 0
    ensures Reachable(s) && s.priority == READ && s.ratio == ratio
    ensures Actives(s.requests) == 1 && Queued(s, WRITE) == 1
    ensures CanRun(s, run) && Entries(s, run, READ) == k && Entries(s, run, WRITE) == 0
  {
    s := TwoWriters(ratio, initial);
    TwoWritersReachable(ratio, initial);
    run := ReadersPass(SecondWriter(ratio, initial), 1, k);
    run := FirstLeaves(ratio, initial, run);
    PairCount(s.requests, Lane, READ);
    PairCount(s.requests, Lane, WRITE);
    PairCount(s.requests, Queue, WRITE);
  }

  // ------------------------------------------------------------------
  // The bound is reached
  // ------------------------------------------------------------------

  /** Priority requests in the order of their arrival, and another one behind them:
      those before `t` are through, `t` has just been let in, the others wait. */
  predicate Convoy(s: State, t: nat) {
    var n := |s.requests|;
    && s.ratio == n - 2 > 0 && s.ratioCounter == t && s.mutex == None
    && t < n - 1 && Counted(s.priority, s.currentReaders, s.currentWriters) == n - 1 - t
    && Counted(Other(s.priority), s.currentReaders, s.currentWriters) == 1
    && s.requests[t] == Request(s.priority, Admitted, false, 0, 0)
    && (forall i :: t < i < n - 1 ==> s.requests[i] == Request(s.priority, Waiting, false, 0, 0))
    && s.requests[n - 1] == Request(Other(s.priority), Waiting, false, 0, 0)
  }

  lemma SomebodyWaits(s: State, i: nat)
    requires At(s, i, Waiting)
    ensures Narrow(s)
  {
    CountMember(s.requests, i, Queue, s.requests[i].action);
  }

  lemma NarrowCons(s: State, a: Action, rest: seq<Action>, w: nat) returns (run: seq<Action>)
    requires Enabled(s, a) && CanRun(Apply(s, a), rest) && NarrowRun(Apply(s, a), rest) && At(s, w, Waiting)
    ensures CanRun(s, run) && NarrowRun(s, run)
    ensures forall c :: Entries(s, run, c)
                     == (if a.Rank? && s.requests[a.t].action == c then 1 else 0) + Entries(Apply(s, a), rest, c)
  {
    SomebodyWaits(s, w);
    run := Cons(s, a, rest);
  }

  /** Request `t` has entered the region. */
  function Entered(s: State, t: nat): State
    requires t < |s.requests|
  {
    s.(requests := s.requests[t := Request(s.priority, Ranked, true, 0, 0)], mutex := Some(t),
       ratioCounter := s.ratioCounter + 1, holders := if s.priority == WRITE then s.holders + [t] else s.holders)
  }

  lemma ConvoyEnters(s: State, t: nat, rest: seq<Action>) returns (run: seq<Action>)
    requires Convoy(s, t) && CanRun(Entered(s, t), rest) && NarrowRun(Entered(s, t), rest)
    ensures CanRun(s, run) && NarrowRun(s, run)
    ensures forall c :: Entries(s, run, c) == (if c == s.priority then 1 else 0) + Entries(Entered(s, t), rest, c)
  {
    var w := |s.requests| - 1;
    var s1 := Apply(s, Choose(t));
    var s2 := Apply(s1, Lock(t));
    assert Apply(s2, Rank(t)) == Entered(s, t);
    run := NarrowCons(s2, Rank(t), rest, w);
    run := NarrowCons(s1, Lock(t), run, w);
    run := NarrowCons(s, Choose(t), run, w);
  }

  /** Request `t` has printed and is about to leave. */
  function Finished(s: State, t: nat): State
    requires t < |s.requests|
  {
    var e := Entered(s, t);
    var counter := if s.priority == WRITE then s.counter + 1 else s.counter;
    e.(requests := s.requests[t := Request(s.priority, Printed, true, counter, 0)], counter := counter,
       prints := if s.priority == WRITE then s.prints + [Print(t, counter)] else s.prints)
  }

  lemma ConvoyWorks(s: State, t: nat, rest: seq<Action>) returns (run: seq<Action>)
    requires Convoy(s, t) && CanRun(Finished(s, t), rest) && NarrowRun(Finished(s, t), rest)
    ensures CanRun(Entered(s, t), run) && NarrowRun(Entered(s, t), run)
    ensures forall c :: Entries(Entered(s, t), run, c) == Entries(Finished(s, t), rest, c)
  {
    var w := |s.requests| - 1;
    var s0 := Entered(s, t);
    var s1 := Apply(s0, Work(t));
    assert Apply(s1, Show(t)) == Finished(s, t);
    run := NarrowCons(s1, Show(t), rest, w);
    run := NarrowCons(s0, Work(t), run, w);
  }

  /** Request `t` is through and the next one has been let in. */
  function Passed(s: State, t: nat): State
    requires t + 1 < |s.requests|
  {
    var e := Finished(s, t);
    e.(requests := s.requests[t := Request(s.priority, Unlocked, true, e.counter, 0)]
                             [t + 1 := Request(s.priority, Admitted, false, 0, 0)],
       currentReaders := Left(s.currentReaders, s.priority, READ),
       currentWriters := Left(s.currentWriters, s.priority, WRITE), mutex := None)
  }

  /** Request `t` has left and woken the next one, and still holds the mutex. */
  function HandedOver(s: State, t: nat): State
    requires t + 1 < |s.requests|
  {
    var e := Passed(s, t);
    e.(requests := s.requests[t := Request(s.priority, Exited, true, e.counter, 0)]
                             [t + 1 := Request(s.priority, Woken, false, 0, 0)],
       mutex := Some(t))
  }

  lemma ConvoyHandsOver(s: State, t: nat, rest: seq<Action>) returns (run: seq<Action>)
    requires Convoy(s, t) && t + 3 < |s.requests| && CanRun(HandedOver(s, t), rest) && NarrowRun(HandedOver(s, t), rest)
    ensures CanRun(Finished(s, t), run) && NarrowRun(Finished(s, t), run)
    ensures forall c :: Entries(Finished(s, t), run, c) == Entries(HandedOver(s, t), rest, c)
  {
    var e := Finished(s, t);
    Choice(s.priority, s.priority, s.ratio, e.ratioCounter,
           Left(s.currentReaders, s.priority, READ), Left(s.currentWriters, s.priority, WRITE));
    assert Apply(e, Exit(t, Some(t + 1))) == HandedOver(s, t);
    run := NarrowCons(e, Exit(t, Some(t + 1)), rest, |s.requests| - 1);
  }

  lemma ConvoyMoves(s: State, t: nat, rest: seq<Action>) returns (run: seq<Action>)
    requires Convoy(s, t) && t + 3 < |s.requests| && CanRun(Passed(s, t), rest) && NarrowRun(Passed(s, t), rest)
    ensures CanRun(HandedOver(s, t), run) && NarrowRun(HandedOver(s, t), run)
    ensures forall c :: Entries(HandedOver(s, t), run, c) == Entries(Passed(s, t), rest, c)
  {
    var w := |s.requests| - 1;
    var s3 := HandedOver(s, t);
    var s4 := Apply(s3, Unlock(t));
    assert Apply(s4, Resume(t + 1)).requests == Passed(s, t).requests;
    run := NarrowCons(s4, Resume(t + 1), rest, w);
    run := NarrowCons(s3, Unlock(t), run, w);
  }

  lemma {:induction false} ConvoyPasses(s: State, t: nat) returns (run: seq<Action>)
    requires Convoy(s, t) && t + 2 < |s.requests|
    ensures CanRun(s, run) && NarrowRun(s, run)
    ensures Entries(s, run, s.priority) == s.ratio - t && Entries(s, run, Other(s.priority)) == 0
    decreases |s.requests| - t
  {
    if t + 3 == |s.requests| {
      SomebodyWaits(Entered(s, t), |s.requests| - 1);
      run := ConvoyEnters(s, t, []);
    } else {
      run := ConvoyPasses(Passed(s, t), t + 1);
      run := ConvoyMoves(s, t, run);
      run := ConvoyHandsOver(s, t, run);
      run := ConvoyWorks(s, t, run);
      run := ConvoyEnters(s, t, run);
    }
  }

  /** `m` priority requests have arrived; the first was let in and the others wait. */
  predicate Line(s: State, m: nat, priority: Class, ratio: int) {
    && s.priority == priority && s.ratio == ratio && s.ratioCounter == 0 && s.mutex == None
    && m == |s.requests| > 0 && Counted(priority, s.currentReaders, s.currentWriters) == m
    && Counted(Other(priority), s.currentReaders, s.currentWriters) == 0
    && s.requests[0] == Request(priority, Admitted, false, 0, 0)
    && forall i :: 0 < i < m ==> s.requests[i] == Request(priority, Waiting, false, 0, 0)
  }

  lemma {:induction false} LineUp(priority: Class, ratio: int, m: nat) returns (s: State)
    requires ratio > 0 && m > 0
    ensures Reachable(s) && Line(s, m, priority, ratio)
  {
    if m == 1 {
      s := Start(priority, ratio, 0);
      StartReachable(priority, ratio, 0);
    } else {
      s := LineUp(priority, ratio, m - 1);
    }
    StepReachable(s, Arrive(priority));
    s := Apply(s, Arrive(priority));
    StepReachable(s, Enter(m - 1));
    s := Apply(s, Enter(m - 1));
  }

  lemma ConvoyReachable(priority: Class, ratio: int) returns (s: State)
    requires ratio > 0
    ensures Reachable(s) && Convoy(s, 0) && s.ratio == ratio && s.priority == priority
  {
    s := LineUp(priority, ratio, ratio + 1);
    StepReachable(s, Arrive(Other(priority)));
    s := Apply(s, Arrive(Other(priority)));
    StepReachable(s, Enter(ratio + 1));
    s := Apply(s, Enter(ratio + 1));
  }

  lemma ConvoyIsAlone(s: State)
    requires Reachable(s) && Convoy(s, 0)
    ensures Actives(s.requests) == 1 && Queued(s, Other(s.priority)) > 0
  {
    ReachableTallied(s);
    CountMember(s.requests, |s.requests| - 1, Queue, Other(s.priority));
    OneInLane(s.requests, |s.requests|, 0);
  }

  /** For both priorities and every positive ratio there is a narrow run in which exactly
      `ratio` priority requests enter while another one waits. */
  lemma BoundIsReached(priority: Class, ratio: int) returns (s: State, run: seq<Action>)
    requires ratio > 0
    ensures Reachable(s) && s.priority == priority && s.ratio == ratio
    ensures Actives(s.requests) <= 1 && Queued(s, Other(priority)) > 0
    ensures CanRun(s, run) && NarrowRun(s, run)
    ensures Entries(s, run, Other(priority)) == 0 && Entries(s, run, priority) == ratio
  {
    s := ConvoyReachable(priority, ratio);
    ConvoyIsAlone(s);
    run := ConvoyPasses(s, 0);
  }
}
