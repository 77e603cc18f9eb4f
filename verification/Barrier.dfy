/** What the JUSTO barrier guarantees, and exactly when. `n` is the number of
    sender threads, the snapshot the publisher took of the subscriber count, and
    `m` is the count the sender threads compare with. */
module Barrier {
  import opened Counting
  import opened Options
  import opened Justo

  predicate Early(p: Phase) { p.Unborn? || p.Ready? || p.Entered? || p.Counted? }

  predicate Past(p: Phase) { !Early(p) && !p.Waiting? }

  predicate Arrived(p: Phase) { !p.Unborn? && !p.Ready? && !p.Entered? }

  /** Nobody is past the barrier until every thread of the publish has arrived. */
  predicate BarrierHolds(s: State) {
    forall i, j | 0 <= i < |s.threads| && 0 <= j < |s.threads| ::
      Past(s.threads[i].phase) ==> Arrived(s.threads[j].phase)
  }

  /** The inductive form: once someone is past, nobody has still to test. */
  predicate GateOn(threads: seq<Thread>) {
    forall i, j | 0 <= i < |threads| && 0 <= j < |threads| ::
      Past(threads[i].phase) ==> !Early(threads[j].phase)
  }

  predicate Gate(s: State) { GateOn(s.threads) }

  /** Whoever waits will be broadcast to: someone has still to test, or is past
      the wait and has not broadcast yet. */
  predicate Pusher(p: Phase) { Early(p) || p.Resumed? || p.Dropped? }

  predicate LiveOn(threads: seq<Thread>) {
    (exists i :: 0 <= i < |threads| && threads[i].phase.Waiting?)
    ==> exists j :: 0 <= j < |threads| && Pusher(threads[j].phase)
  }

  predicate Live(s: State) { LiveOn(s.threads) }

  /** In every state of the run the compared count is at least the thread count. */
  predicate Guarded(s: State, run: seq<Action>)
    requires CanRun(s, run)
    decreases |run|
  {
    && (s.publishing ==> s.subscribers >= |s.threads|)
    && (run != [] ==> Guarded(Apply(s, run[0]), run[1..]))
  }

  // ------------------------------------------------------------------
  // Safety
  // ------------------------------------------------------------------

  lemma TestOpens(s: State, t: nat)
    requires Base(s) && Enabled(s, Test(t))
    requires s.justThreads >= s.subscribers >= |s.threads|
    ensures forall j :: 0 <= j < |s.threads| && j != t ==> !Early(s.threads[j].phase)
  {
    SumToFull(s.threads, |s.threads|, InBarrier);
    assert Holds(s.threads[t].phase);
    forall j | 0 <= j < |s.threads| && j != t
      ensures !Early(s.threads[j].phase)
    {
      assert InBarrier(s.threads[j]) == 1;
    }
  }

  /** A thread that moves keeps the gate if it gets past only after the others. */
  lemma GateMove(threads: seq<Thread>, t: nat, th: Thread)
    requires GateOn(threads) && t < |threads|
    requires Early(th.phase) ==> Early(threads[t].phase)
    requires Past(th.phase) ==>
      Past(threads[t].phase) || forall j :: 0 <= j < |threads| && j != t ==> !Early(threads[j].phase)
    ensures GateOn(threads[t := th])
  {
    var moved := threads[t := th];
    forall i, j | 0 <= i < |moved| && 0 <= j < |moved| && Past(moved[i].phase)
      ensures !Early(moved[j].phase)
    {
      assert j != t ==> moved[j] == threads[j];
      assert i != t ==> moved[i] == threads[i];
    }
  }

  /** No step leads back, and only a successful test leads past the barrier from
      before it. */
  lemma StepPhase(s: State, a: Action)
    requires ThreadsOk(s) && Enabled(s, a) && MovesThread(a)
    requires Mover(s, a) < |s.threads| == |Apply(s, a).threads|
    ensures var p, p' := s.threads[Mover(s, a)].phase, Apply(s, a).threads[Mover(s, a)].phase;
      && (Early(p') ==> Early(p))
      && (Past(p') ==> Past(p) || (a.Test? && s.justThreads >= s.subscribers))
  {
  }

  /** The gate needs the count only at the moment of a test. */
  lemma GateAtTests(s: State, a: Action)
    requires Base(s) && Gate(s) && Enabled(s, a)
    requires a.Test? ==> s.subscribers >= |s.threads|
    ensures Gate(Apply(s, a))
  {
    if MovesThread(a) {
      StepMoves(s, a);
      StepPhase(s, a);
      if a.Test? && s.justThreads >= s.subscribers {
        TestOpens(s, a.t);
      }
      if a.Broadcast? {
        GateWakes(s.threads, a.t);
      }
      GateMove(Found(s, a), Mover(s, a), Apply(s, a).threads[Mover(s, a)]);
    }
  }

  lemma StepGate(s: State, a: Action)
    requires Base(s) && Gate(s) && Enabled(s, a)
    requires s.publishing ==> s.subscribers >= |s.threads|
    ensures Gate(Apply(s, a))
  {
    GateAtTests(s, a);
  }

  /** Waking everybody keeps the gate when it is open: `t` is past it already. */
  lemma GateWakes(threads: seq<Thread>, t: nat)
    requires GateOn(threads) && t < |threads| && Past(threads[t].phase)
    ensures GateOn(WakeAll(threads))
  {
    var woken := WakeAll(threads);
    forall j | 0 <= j < |woken|
      ensures !Early(woken[j].phase)
    {
      assert !Early(threads[j].phase);
    }
  }

  lemma {:induction false} RunGate(s: State, run: seq<Action>)
    requires Base(s) && Gate(s) && CanRun(s, run) && Guarded(s, run)
    ensures Gate(Run(s, run))
    decreases |run|
  {
    if run != [] {
      StepBase(s, run[0]);
      StepGate(s, run[0]);
      RunGate(Apply(s, run[0]), run[1..]);
    }
  }

  /** For every number of subscribers, every number of publishes one after the
      other and every interleaving: if the count never drops below the snapshot
      of the publish in progress, no thread passes the barrier before all of
      them have arrived. */
  lemma NoSendBeforeAllArrive(run: seq<Action>)
    requires CanRun(INITIAL, run) && Guarded(INITIAL, run)
    ensures BarrierHolds(Run(INITIAL, run))
  {
    RunGate(INITIAL, run);
  }

  // ------------------------------------------------------------------
  // Completion
  // ------------------------------------------------------------------

  /** A step of the publish in progress. */
  predicate Work(a: Action) { !a.Begin? && !a.Resize? }

  predicate WorkRun(s: State, run: seq<Action>) {
    CanRun(s, run) && forall a <- run :: Work(a)
  }

  lemma TestWaits(s: State, t: nat)
    requires Base(s) && Gate(s) && Enabled(s, Test(t))
    requires s.justThreads < |s.threads|
    ensures exists j :: 0 <= j < |s.threads| && j != t && Early(s.threads[j].phase)
  {
    if forall j :: 0 <= j < |s.threads| ==> InBarrier(s.threads[j]) == 1 {
      SumAll(s.threads, 1, InBarrier);
    }
    var j :| 0 <= j < |s.threads| && InBarrier(s.threads[j]) != 1;
    assert j != t && !Past(s.threads[j].phase);
  }

  /** A thread stops being a pusher only by waiting, or by broadcasting. */
  lemma StepPusher(s: State, a: Action)
    requires ThreadsOk(s) && Enabled(s, a) && MovesThread(a)
    requires Mover(s, a) < |s.threads| == |Apply(s, a).threads|
    ensures var p, p' := s.threads[Mover(s, a)].phase, Apply(s, a).threads[Mover(s, a)].phase;
      && (Pusher(p) && !Pusher(p') && !a.Broadcast? ==> p'.Waiting?)
      && (p'.Waiting? ==> a.Test? && s.justThreads < s.subscribers)
  {
  }

  lemma LiveMove(threads: seq<Thread>, t: nat, th: Thread)
    requires LiveOn(threads) && t < |threads|
    requires !th.phase.Waiting? && (Pusher(threads[t].phase) ==> Pusher(th.phase))
    ensures LiveOn(threads[t := th])
  {
    var moved := threads[t := th];
    if i :| 0 <= i < |moved| && moved[i].phase.Waiting? {
      assert threads[i].phase.Waiting?;
      var j :| 0 <= j < |threads| && Pusher(threads[j].phase);
      assert Pusher(moved[j].phase);
    }
  }

  /** A thread that starts to wait leaves one behind that has still to test. */
  lemma LiveWait(s: State, t: nat)
    requires Base(s) && Gate(s) && Enabled(s, Test(t)) && s.justThreads < s.subscribers == |s.threads|
    ensures Live(Apply(s, Test(t)))
  {
    TestWaits(s, t);
    var j :| 0 <= j < |s.threads| && j != t && Early(s.threads[j].phase);
    assert Pusher(Apply(s, Test(t)).threads[j].phase);
  }

  lemma LiveBroadcast(s: State, t: nat)
    requires Enabled(s, Broadcast(t))
    ensures Live(Apply(s, Broadcast(t)))
  {
    assert forall i :: 0 <= i < |s.threads| ==> !Apply(s, Broadcast(t)).threads[i].phase.Waiting?;
  }

  /** And so does the promise of a broadcast. */
  lemma LiveAtTests(s: State, a: Action)
    requires Base(s) && Gate(s) && Live(s) && Enabled(s, a) && !a.Begin?
    requires a.Test? ==> s.subscribers == |s.threads|
    ensures Live(Apply(s, a))
  {
    if a.Test? && s.justThreads < s.subscribers {
      LiveWait(s, a.t);
    } else if a.Broadcast? {
      LiveBroadcast(s, a.t);
    } else if MovesThread(a) {
      StepMoves(s, a);
      StepPusher(s, a);
      LiveMove(s.threads, Mover(s, a), Apply(s, a).threads[Mover(s, a)]);
    }
  }

  lemma StepLive(s: State, a: Action)
    requires Base(s) && Gate(s) && Live(s) && Enabled(s, a) && Work(a)
    requires s.subscribers == |s.threads|
    ensures Live(Apply(s, a))
  {
    LiveAtTests(s, a);
  }

  function HolderAction(s: State, t: nat): Action
    requires t < |s.threads|
  {
    match s.threads[t].phase
    case Entered => Increment(t)
    case Counted => Test(t)
    case Resumed => Decrement(t)
    case Dropped => Broadcast(t)
    case _ => Unlock(t)
  }

  /** While a publish is in progress some thread can take a step. */
  lemma Progress(s: State) returns (a: Action)
    requires Base(s) && Live(s) && s.publishing
    ensures Enabled(s, a) && Work(a)
  {
    if s.created < |s.threads| {
      a := Create(0);
    } else if s.mutex.Some? {
      a := HolderAction(s, s.mutex.value);
    } else if t :| 0 <= t < |s.threads| && s.threads[t].phase == Ready {
      a := Lock(t);
    } else if t :| 0 <= t < |s.threads| && s.threads[t].phase == Woken {
      a := Relock(t);
    } else if t :| 0 <= t < |s.threads| && s.threads[t].phase == Released {
      a := Send(t);
    } else if s.joined == |s.threads| {
      a := End;
    } else {
      assert forall i :: 0 <= i < |s.threads| ==> !Holds(s.threads[i].phase);
      assert !Pusher(s.threads[s.joined].phase);
      a := Join;
    }
  }

  /** How many steps a thread has still to take. */
  function Remaining(th: Thread): nat {
    match th.phase
    case Unborn => 10
    case Ready => 9
    case Entered => 8
    case Counted => 7
    case Waiting => 6
    case Woken => 5
    case Resumed => 4
    case Dropped => 3
    case Told => 2
    case Released => 1
    case Sent => 0
  }

  function Measure(s: State): int {
    Sum(s.threads, Remaining) + |s.threads| - s.joined + if s.publishing then 1 else 0
  }

  lemma StepRemaining(s: State, a: Action)
    requires ThreadsOk(s) && Enabled(s, a) && Work(a) && MovesThread(a)
    ensures |Apply(s, a).threads| == |s.threads|
    ensures Mover(s, a) < |s.threads|
    ensures Remaining(Apply(s, a).threads[Mover(s, a)]) < Remaining(s.threads[Mover(s, a)])
    ensures Apply(s, a).joined == s.joined && Apply(s, a).publishing == s.publishing
  {
  }

  lemma FoundRemaining(s: State, a: Action)
    ensures Sum(Found(s, a), Remaining) <= Sum(s.threads, Remaining)
  {
    SumPointwise(Found(s, a), s.threads, Remaining);
  }

  lemma StepMeasure(s: State, a: Action)
    requires Base(s) && Enabled(s, a) && Work(a)
    ensures 0 <= Measure(Apply(s, a)) < Measure(s)
  {
    StepThreads(s, a);
    if MovesThread(a) {
      StepMoves(s, a);
      StepRemaining(s, a);
      FoundRemaining(s, a);
      SumUpdate(Found(s, a), Mover(s, a), Apply(s, a).threads[Mover(s, a)], Remaining);
    }
  }

  lemma StepKeepsJob(s: State, a: Action)
    requires Enabled(s, a) && Work(a)
    ensures |Apply(s, a).threads| == |s.threads| && Apply(s, a).subscribers == s.subscribers
    ensures Apply(s, a).base == s.base && Apply(s, a).ticket == s.ticket && Apply(s, a).payload == s.payload
  {
  }

  /** What holds all along a publish whose count equals its snapshot. */
  predicate Sound(s: State) {
    Base(s) && Gate(s) && Live(s) && s.subscribers == |s.threads|
  }

  lemma StepSound(s: State, a: Action)
    requires Sound(s) && Enabled(s, a) && Work(a)
    ensures Sound(Apply(s, a))
  {
    StepBase(s, a);
    StepGate(s, a);
    StepLive(s, a);
    StepKeepsJob(s, a);
  }

  lemma {:induction false} RunSound(s: State, run: seq<Action>)
    requires Sound(s) && WorkRun(s, run)
    ensures Sound(Run(s, run)) && |Run(s, run).threads| == |s.threads|
    ensures Run(s, run).ticket == s.ticket && Run(s, run).payload == s.payload
    ensures 0 <= |run| + Measure(Run(s, run)) <= Measure(s)
    decreases |run|
  {
    if run != [] {
      StepSound(s, run[0]);
      StepMeasure(s, run[0]);
      StepKeepsJob(s, run[0]);
      RunSound(Apply(s, run[0]), run[1..]);
    }
  }

  /** The state right after a publisher has locked the outer mutex. */
  function Begun(s: State, n: nat, m: int, payload: string): State
    requires !s.publishing
  {
    Apply(s, Begin(n, m, payload))
  }

  lemma BegunBase(s: State, n: nat, m: int, payload: string)
    requires Base(s) && !s.publishing
    ensures Base(Begun(s, n, m, payload)) && Gate(Begun(s, n, m, payload)) && Live(Begun(s, n, m, payload))
    ensures Measure(Begun(s, n, m, payload)) == 11 * n + 1
  {
    StepBase(s, Begin(n, m, payload));
    SumAll(Begun(s, n, m, payload).threads, 10, Remaining);
  }

  /** The descriptors handed to threads, in creation order: `fds` before the run, and
      those of the run. */
  function HandedBy(fds: seq<int>, run: seq<Action>): seq<int>
    decreases |run|
  {
    if run == [] then fds
    else HandedBy(if run[0].Create? then fds + [run[0].fd] else fds, run[1..])
  }

  function CreatedFds(run: seq<Action>): seq<int> { HandedBy([], run) }

  function Fds(threads: seq<Thread>): (r: seq<int>)
    ensures |r| == |threads|
    ensures forall i :: 0 <= i < |threads| ==> r[i] == threads[i].fd
  {
    seq(|threads|, i requires 0 <= i < |threads| => threads[i].fd)
  }

  /** The threads created so far have been handed these descriptors. */
  predicate Handed(threads: seq<Thread>, created: nat, fds: seq<int>) {
    created == |fds| <= |threads| && forall i :: 0 <= i < |fds| ==> threads[i].fd == fds[i]
  }

  lemma StepHanded(s: State, a: Action, fds: seq<int>)
    requires ThreadsOk(s) && Enabled(s, a) && Work(a) && Handed(s.threads, s.created, fds)
    ensures Handed(Apply(s, a).threads, Apply(s, a).created, if a.Create? then fds + [a.fd] else fds)
  {
    if MovesThread(a) {
      StepMoves(s, a);
    }
  }

  lemma {:induction false} RunHanded(s: State, run: seq<Action>, fds: seq<int>)
    requires ThreadsOk(s) && WorkRun(s, run) && Handed(s.threads, s.created, fds)
    ensures Handed(Run(s, run).threads, Run(s, run).created, HandedBy(fds, run))
    decreases |run|
  {
    if run != [] {
      StepThreads(s, run[0]);
      StepHanded(s, run[0], fds);
      RunHanded(Apply(s, run[0]), run[1..], if run[0].Create? then fds + [run[0].fd] else fds);
    }
  }

  lemma AllHanded(threads: seq<Thread>, fds: seq<int>)
    requires Handed(threads, |threads|, fds)
    ensures Fds(threads) == fds
  {
  }

  /** The deliveries of one publish, one a descriptor, in the order of the list. */
  function Deliveries(ticket: nat, fds: seq<int>, payload: string): (r: seq<Delivery>)
    ensures |r| == |fds|
    ensures forall i :: 0 <= i < |fds| ==> r[i] == Delivery(ticket, fds[i], payload)
  {
    if fds == [] then [] else [Delivery(ticket, fds[0], payload)] + Deliveries(ticket, fds[1..], payload)
  }

  lemma {:induction false} SendsAll(threads: seq<Thread>, ticket: nat, payload: string)
    requires forall i :: 0 <= i < |threads| ==> threads[i].phase == Sent
    ensures Sends(threads, ticket, payload) == multiset(Deliveries(ticket, Fds(threads), payload))
  {
    if threads != [] {
      SendsAll(threads[1..], ticket, payload);
      assert Fds(threads)[1..] == Fds(threads[1..]);
      assert Deliveries(ticket, Fds(threads), payload)
          == [Delivery(ticket, threads[0].fd, payload)] + Deliveries(ticket, Fds(threads[1..]), payload);
    }
  }

  /** The publish is over: everyone joined, the counter back at zero, nobody left
      on the condition variable, and the log extended by one delivery a thread. */
  predicate Finished(s: State, start: State, fds: seq<int>, payload: string) {
    && !s.publishing
    && s.justThreads == 0 && s.mutex == None
    && (forall i :: 0 <= i < |s.threads| ==> s.threads[i].phase == Sent)
    && start.log <= s.log
    && multiset(s.log[|start.log|..]) == multiset(Deliveries(start.ticket + 1, fds, payload))
  }

  lemma {:induction false} RunExtendsLog(s: State, run: seq<Action>)
    requires WorkRun(s, run)
    ensures s.log <= Run(s, run).log && Run(s, run).base == s.base
    decreases |run|
  {
    if run != [] {
      assert Work(run[0]);
      StepRecords(s, run[0]);
      RunExtendsLog(Apply(s, run[0]), run[1..]);
    }
  }

  lemma IdleMutexFree(e: State)
    requires ThreadsOk(e) && MutexOk(e) && !e.publishing
    ensures e.mutex == None
  {
    forall i | 0 <= i < |e.threads|
      ensures e.mutex != Some(i)
    {
      assert !Holds(e.threads[i].phase);
    }
  }

  lemma EndedIsFinished(start: State, e: State, payload: string)
    requires Base(e) && !e.publishing
    requires start.log <= e.log && e.base == |start.log|
    requires e.ticket == start.ticket + 1 && e.payload == payload
    ensures e.created == |e.threads| && Finished(e, start, Fds(e.threads), payload)
  {
    IdleMutexFree(e);
    SumZero(e.threads, InBarrier);
    SendsAll(e.threads, e.ticket, payload);
  }

  /** The publish in progress can take no step: a run up to here is maximal. */
  ghost predicate Stuck(s: State) {
    forall a | Work(a) :: !Enabled(s, a)
  }

  lemma StuckHasEnded(s: State)
    requires Sound(s) && Stuck(s)
    ensures !s.publishing
  {
    if s.publishing {
      var a := Progress(s);
    }
  }

  lemma RunOfPublish(start: State, n: nat, payload: string, run: seq<Action>)
    requires Base(start) && !start.publishing
    requires WorkRun(Begun(start, n, n, payload), run)
    ensures var e := Run(Begun(start, n, n, payload), run);
      && Sound(e) && |run| <= 11 * n + 1 && |e.threads| == n
      && start.log <= e.log && e.base == |start.log|
      && e.ticket == start.ticket + 1 && e.payload == payload
      && Handed(e.threads, e.created, CreatedFds(run))
  {
    var s := Begun(start, n, n, payload);
    BegunBase(start, n, n, payload);
    RunSound(s, run);
    RunHanded(s, run, []);
    RunExtendsLog(s, run);
  }

  /** Whatever happened before, and for every number of subscribers: a publish
      whose subscriber count stays equal to its snapshot takes at most 11n + 1
      steps under every interleaving, and a run of it that cannot be extended
      has finished. */
  lemma EveryPublishCompletes(prior: seq<Action>, n: nat, payload: string, run: seq<Action>)
    requires CanRun(INITIAL, prior) && !Run(INITIAL, prior).publishing
    requires WorkRun(Begun(Run(INITIAL, prior), n, n, payload), run)
    ensures |run| <= 11 * n + 1
    ensures var e := Run(Begun(Run(INITIAL, prior), n, n, payload), run);
      Stuck(e) ==> Finished(e, Run(INITIAL, prior), CreatedFds(run), payload) && |CreatedFds(run)| == n
  {
    var start := Run(INITIAL, prior);
    RunBase(INITIAL, prior);
    RunOfPublish(start, n, payload, run);
    var e := Run(Begun(start, n, n, payload), run);
    if Stuck(e) {
      StuckHasEnded(e);
      EndedIsFinished(start, e, payload);
      AllHanded(e.threads, CreatedFds(run));
    }
  }
}
