/** The shared counter of the readers/writers server: writers are linear. */
module Writers {
  import opened Options
  import opened Admission
  import opened AdmissionRuns

  /** A writer that holds the data mutex and has not printed yet. */
  predicate Pending(r: Request) {
    r.action == WRITE && (r.phase.Inside? || r.phase.Ranked? || r.phase.Worked?)
  }

  predicate HasPrinted(p: Phase) {
    p.Printed? || p.Exited? || p.Unlocked? || p.Done?
  }

  /** The prints so far are numbered from the initial value on, in the order in
      which the mutex was taken. */
  predicate PrintsOk(initial: int, holders: seq<nat>, prints: seq<Print>) {
    && |prints| <= |holders| <= |prints| + 1
    && (forall k :: 0 <= k < |prints| ==> prints[k] == Print(holders[k], initial + 1 + k))
  }

  predicate PendingIsLast(requests: seq<Request>, holders: seq<nat>, printed: nat) {
    forall i :: 0 <= i < |requests| && Pending(requests[i]) ==>
      |holders| == printed + 1 && holders[printed] == i
  }

  /** The counter is ahead of the prints by the one writer between the two. */
  predicate CounterOk(s: State) {
    if |s.holders| == |s.prints| + 1 then
      && s.holders[|s.prints|] < |s.requests|
      && Pending(s.requests[s.holders[|s.prints|]])
      && s.counter == s.initial + |s.prints| + (if s.requests[s.holders[|s.prints|]].phase.Worked? then 1 else 0)
    else
      s.counter == s.initial + |s.prints|
  }

  predicate Linear(s: State) {
    && PrintsOk(s.initial, s.holders, s.prints)
    && PendingIsLast(s.requests, s.holders, |s.prints|)
    && CounterOk(s)
  }

  /** While a writer is pending, the mutex is that writer's. */
  lemma PendingHolds(s: State)
    requires MutexOk(s) && Linear(s)
    ensures |s.holders| == |s.prints| + 1 ==> s.mutex == Some(s.holders[|s.prints|])
  {
  }

  lemma StepPrints(s: State, a: Action)
    requires MutexOk(s) && Linear(s) && Enabled(s, a)
    ensures PrintsOk(s.initial, Apply(s, a).holders, Apply(s, a).prints)
  {
    if a.Show? && s.requests[a.t].action == WRITE {
      assert Pending(s.requests[a.t]);
    } else if a.Lock? {
      PendingHolds(s);
    }
  }

  /** What a step other than an arrival or an exit does to the writer it moves. */
  lemma StepPending(s: State, a: Action)
    requires MutexOk(s) && Linear(s) && Enabled(s, a) && MovesOne(a) && a.t < |s.requests|
    ensures var s', r := Apply(s, a), s.requests[a.t];
      && a.t < |s'.requests|
      && (a.Lock? && r.action == WRITE ==>
            |s.holders| == |s.prints| && s'.holders == s.holders + [a.t] && s'.prints == s.prints
            && Pending(s'.requests[a.t]) && !s'.requests[a.t].phase.Worked?)
      && (a.Show? && r.action == WRITE ==>
            s'.holders == s.holders && |s'.prints| == |s.prints| + 1 && !Pending(s'.requests[a.t]))
      && (!(a.Lock? && r.action == WRITE) && !(a.Show? && r.action == WRITE) ==>
            s'.holders == s.holders && s'.prints == s.prints
            && (Pending(s'.requests[a.t]) <==> Pending(r)))
  {
    PendingHolds(s);
  }

  lemma StepLast(s: State, a: Action)
    requires MutexOk(s) && Linear(s) && Enabled(s, a)
    ensures PendingIsLast(Apply(s, a).requests, Apply(s, a).holders, |Apply(s, a).prints|)
  {
    if MovesOne(a) {
      StepMovesOne(s, a);
      StepPending(s, a);
      var s' := Apply(s, a);
      forall i | 0 <= i < |s'.requests| && Pending(s'.requests[i])
        ensures |s'.holders| == |s'.prints| + 1 && s'.holders[|s'.prints|] == i
      {
        assert i != a.t ==> s'.requests[i] == s.requests[i];
      }
    }
  }

  lemma StepCounter(s: State, a: Action)
    requires MutexOk(s) && Linear(s) && Enabled(s, a)
    ensures CounterOk(Apply(s, a))
  {
    if MovesOne(a) {
      StepMovesOne(s, a);
      StepPending(s, a);
    }
  }

  lemma {:induction false} RunLinear(s: State, run: seq<Action>)
    requires MutexOk(s) && Linear(s) && CanRun(s, run)
    ensures MutexOk(Run(s, run)) && Linear(Run(s, run))
    decreases |run|
  {
    if run != [] {
      StepMutex(s, run[0]);
      StepPrints(s, run[0]);
      StepLast(s, run[0]);
      StepCounter(s, run[0]);
      RunLinear(Apply(s, run[0]), run[1..]);
    }
  }

  /** In every run the k-th value that writers print is the initial value plus k,
      by the k-th writer to take the mutex, and the counter is the initial value
      plus the writers past the increment. */
  lemma WritersAreLinear(s: State)
    requires Reachable(s)
    ensures forall k :: 0 <= k < |s.prints| ==> k < |s.holders| && s.prints[k] == Print(s.holders[k], s.initial + 1 + k)
    ensures s.counter == s.initial + |s.prints|
            + if exists i :: 0 <= i < |s.requests| && s.requests[i].action == WRITE && s.requests[i].phase == Worked
              then 1 else 0
  {
    var priority, ratio, initial, run :|
      CanRun(Start(priority, ratio, initial), run) && s == Run(Start(priority, ratio, initial), run);
    RunLinear(Start(priority, ratio, initial), run);
  }

  /** A writer is past its increment and has not printed. */
  ghost predicate SomebodyWorked(s: State) {
    exists i :: 0 <= i < |s.requests| && s.requests[i].action == WRITE && s.requests[i].phase == Worked
  }

  lemma CounterMeans(s: State)
    requires Reachable(s)
    ensures s.counter == s.initial + |s.prints| + if SomebodyWorked(s) then 1 else 0
  {
    WritersAreLinear(s);
  }

  /** What any request prints, reader or writer, and what any response carries: the
      initial value plus the writers past the increment at that moment. */
  lemma ShownIsCurrent(s: State, a: Action)
    requires Reachable(s) && Enabled(s, a) && (a.Show? || a.Reply?)
    ensures var r, now := Apply(s, a).requests[a.t], s.initial + |s.prints| + (if SomebodyWorked(s) then 1 else 0);
      (a.Show? ==> r.shown == now) && (a.Reply? ==> r.answer == now)
  {
    CounterMeans(s);
  }

  // ------------------------------------------------------------------
  // Responses
  // ------------------------------------------------------------------

  /** What a request showed has been reached by the counter; what it answered lies
      between the two; and what a writer showed is in the log under its name. */
  predicate AnswerOk(r: Request, i: nat, counter: int, prints: seq<Print>) {
    && (HasPrinted(r.phase) ==> r.shown <= counter)
    && (HasPrinted(r.phase) && r.action == WRITE ==> Print(i, r.shown) in prints)
    && (r.phase.Done? ==> r.shown <= r.answer <= counter)
  }

  predicate AnswersOk(requests: seq<Request>, counter: int, prints: seq<Print>) {
    forall i :: 0 <= i < |requests| ==> AnswerOk(requests[i], i, counter, prints)
  }

  lemma StepAnswer(s: State, a: Action, i: nat)
    requires Enabled(s, a) && i < |s.requests| && AnswerOk(s.requests[i], i, s.counter, s.prints)
    ensures i < |Apply(s, a).requests|
    ensures AnswerOk(Apply(s, a).requests[i], i, Apply(s, a).counter, Apply(s, a).prints)
  {
    assert Apply(s, a).counter >= s.counter;
    assert s.prints <= Apply(s, a).prints;
    if MovesOne(a) && i == a.t {
    } else if MovesOne(a) {
      StepMovesOne(s, a);
      assert Apply(s, a).requests[i] == s.requests[i];
    }
  }

  lemma {:induction false} RunAnswers(s: State, run: seq<Action>)
    requires CanRun(s, run) && AnswersOk(s.requests, s.counter, s.prints)
    ensures AnswersOk(Run(s, run).requests, Run(s, run).counter, Run(s, run).prints)
    decreases |run|
  {
    if run != [] {
      var s' := Apply(s, run[0]);
      forall i | 0 <= i < |s'.requests|
        ensures AnswerOk(s'.requests[i], i, s'.counter, s'.prints)
      {
        if i < |s.requests| {
          StepAnswer(s, run[0], i);
        }
      }
      RunAnswers(s', run[1..]);
    }
  }

  /** Every response carries a counter between the value its request printed and
      the present one, and a writer's printed value is the one logged for it. */
  lemma ResponsesAreFresh(s: State, i: nat)
    requires Reachable(s) && At(s, i, Done)
    ensures s.requests[i].shown <= s.requests[i].answer <= s.counter
    ensures s.requests[i].action == WRITE ==> Print(i, s.requests[i].shown) in s.prints
  {
    var priority, ratio, initial, run :|
      CanRun(Start(priority, ratio, initial), run) && s == Run(Start(priority, ratio, initial), run);
    RunAnswers(Start(priority, ratio, initial), run);
    assert AnswerOk(s.requests[i], i, s.counter, s.prints);
  }

  // ------------------------------------------------------------------
  // What the mutex does not give
  // ------------------------------------------------------------------

  /** A reader that arrives first goes on without the mutex, whatever the settings. */
  lemma ReaderGoesIn(priority: Class, ratio: int, initial: int) returns (s: State)
    ensures Reachable(s)
    ensures s == Start(priority, ratio, initial)
                   .(requests := [Request(READ, Inside, false, 0, 0)], currentReaders := 1)
  {
    s := Start(priority, ratio, initial);
    StartReachable(priority, ratio, initial);
    StepReachable(s, Arrive(READ));
    s := Apply(s, Arrive(READ));
    StepReachable(s, Enter(0));
    s := Apply(s, Enter(0));
    StepReachable(s, Choose(0));
    s := Apply(s, Choose(0));
  }

  /** Readers and writers do not exclude each other, whatever the priority and the
      ratio: a reader that chose while no writer was counted is still in the region
      when a writer increments the counter. */
  lemma ReaderMayOverlapWriter(priority: Class, ratio: int, initial: int) returns (s: State)
    ensures Reachable(s) && s.priority == priority && s.ratio == ratio
    ensures At(s, 0, Inside) && s.requests[0].action == READ
    ensures At(s, 1, Worked) && s.requests[1].action == WRITE
  {
    s := ReaderGoesIn(priority, ratio, initial);
    StepReachable(s, Arrive(WRITE));
    s := Apply(s, Arrive(WRITE));
    StepReachable(s, Enter(1));
    s := Apply(s, Enter(1));
    StepReachable(s, Choose(1));
    s := Apply(s, Choose(1));
    StepReachable(s, Lock(1));
    s := Apply(s, Lock(1));
    StepReachable(s, Rank(1));
    s := Apply(s, Rank(1));
    StepReachable(s, Work(1));
    s := Apply(s, Work(1));
  }
}
