/** The JUSTO delivery mode of the broker: one thread per subscriber, a barrier
    made of a counter and a condition variable, and an outer mutex that admits
    one publish at a time.

    The model is a state machine. One action is one statement, or one mutex or
    condition-variable operation, of the publisher thread or of a sender
    thread, or a change of the topic's subscriber count by some other client.
    A run is any sequence of enabled actions, so a lemma about runs speaks of
    every interleaving and every number of threads.

    A condition variable wakes a waiter only when it is signalled, and waiting
    gives up the mutex in the same step. */
module Justo {
  import opened Counting
  import opened Options

  /** Where a sender thread stands. From `Entered` to `Counted` and from
      `Resumed` to `Told` the thread holds the barrier mutex. */
  datatype Phase =
    | Unborn    // the publisher has not created the thread
    | Ready     // about to lock the mutex
    | Entered   // locked, about to increment the counter
    | Counted   // incremented, about to compare with the subscriber count
    | Waiting   // blocked on the condition variable
    | Woken     // signalled, about to lock the mutex again
    | Resumed   // past the wait, about to decrement the counter
    | Dropped   // decremented, about to broadcast
    | Told      // broadcast done, about to unlock
    | Released  // unlocked, about to send
    | Sent      // sent and exited

  datatype Thread = Thread(phase: Phase, fd: int)

  datatype Delivery = Delivery(ticket: nat, fd: int, payload: string)

  /** `ticket` numbers the publishes in the order in which they lock the outer
      mutex, and `base` is the length the log had when the current one did. */
  datatype State = State(
    publishing: bool,
    ticket: nat,
    payload: string,
    threads: seq<Thread>,
    created: nat,
    joined: nat,
    justThreads: int,
    mutex: Option<nat>,
    subscribers: int,
    log: seq<Delivery>,
    base: nat
  )

  datatype Action =
    | Begin(n: nat, current: int, payload: string)
    | Create(fd: int)
    | Join
    | End
    | Lock(t: nat)
    | Increment(t: nat)
    | Test(t: nat)
    | Relock(t: nat)
    | Decrement(t: nat)
    | Broadcast(t: nat)
    | Unlock(t: nat)
    | Send(t: nat)
    | Resize(current: int)

  const INITIAL := State(false, 0, "", [], 0, 0, 0, None, 0, [], 0)

  predicate At(s: State, t: nat, p: Phase) {
    t < |s.threads| && s.threads[t].phase == p
  }

  predicate Enabled(s: State, a: Action) {
    match a
    case Begin(_, _, _) => !s.publishing
    case Create(_) => s.publishing && s.created < |s.threads|
    case Join => s.publishing && s.created == |s.threads| && s.joined < |s.threads|
                 && s.threads[s.joined].phase == Sent
    case End => s.publishing && s.created == |s.threads| == s.joined
    case Lock(t) => At(s, t, Ready) && s.mutex == None
    case Increment(t) => At(s, t, Entered)
    case Test(t) => At(s, t, Counted)
    case Relock(t) => At(s, t, Woken) && s.mutex == None
    case Decrement(t) => At(s, t, Resumed)
    case Broadcast(t) => At(s, t, Dropped)
    case Unlock(t) => At(s, t, Told)
    case Send(t) => At(s, t, Released)
    case Resize(_) => true
  }

  function Move(threads: seq<Thread>, t: nat, p: Phase): seq<Thread>
    requires t < |threads|
  {
    threads[t := threads[t].(phase := p)]
  }

  function Wake(th: Thread): Thread {
    if th.phase == Waiting then th.(phase := Woken) else th
  }

  function WakeAll(threads: seq<Thread>): (r: seq<Thread>)
    ensures |r| == |threads|
    ensures forall i :: 0 <= i < |threads| ==> r[i] == Wake(threads[i])
  {
    if threads == [] then [] else [Wake(threads[0])] + WakeAll(threads[1..])
  }

  function Apply(s: State, a: Action): State
    requires Enabled(s, a)
  {
    match a
    case Begin(n, current, payload) =>
      s.(publishing := true, ticket := s.ticket + 1, payload := payload,
         threads := seq(n, _ => Thread(Unborn, 0)), created := 0, joined := 0,
         subscribers := current, base := |s.log|)
    case Create(fd) => s.(threads := s.threads[s.created := Thread(Ready, fd)], created := s.created + 1)
    case Join => s.(joined := s.joined + 1)
    case End => s.(publishing := false)
    case Lock(t) => s.(threads := Move(s.threads, t, Entered), mutex := Some(t))
    case Increment(t) => s.(threads := Move(s.threads, t, Counted), justThreads := s.justThreads + 1)
    case Test(t) =>
      if s.justThreads < s.subscribers
      then s.(threads := Move(s.threads, t, Waiting), mutex := None)
      else s.(threads := Move(s.threads, t, Resumed))
    case Relock(t) => s.(threads := Move(s.threads, t, Resumed), mutex := Some(t))
    case Decrement(t) => s.(threads := Move(s.threads, t, Dropped), justThreads := s.justThreads - 1)
    case Broadcast(t) => s.(threads := Move(WakeAll(s.threads), t, Told))
    case Unlock(t) => s.(threads := Move(s.threads, t, Released), mutex := None)
    case Send(t) =>
      s.(threads := Move(s.threads, t, Sent),
         log := s.log + [Delivery(s.ticket, s.threads[t].fd, s.payload)])
    case Resize(current) => s.(subscribers := current)
  }

  predicate CanRun(s: State, run: seq<Action>)
    decreases |run|
  {
    run == [] || (Enabled(s, run[0]) && CanRun(Apply(s, run[0]), run[1..]))
  }

  function Run(s: State, run: seq<Action>): State
    requires CanRun(s, run)
    decreases |run|
  {
    if run == [] then s else Run(Apply(s, run[0]), run[1..])
  }

  // ------------------------------------------------------------------
  // What every step keeps, with no assumption on the subscriber count
  // ------------------------------------------------------------------

  predicate Holds(p: Phase) { p.Entered? || p.Counted? || p.Resumed? || p.Dropped? || p.Told? }

  /** Threads the counter stands for: counted in and not yet counted out. */
  function InBarrier(th: Thread): nat {
    if th.phase.Counted? || th.phase.Waiting? || th.phase.Woken? || th.phase.Resumed? then 1 else 0
  }

  /** The deliveries the finished threads of one publish have made. */
  function Sends(threads: seq<Thread>, ticket: nat, payload: string): multiset<Delivery> {
    if threads == [] then multiset{}
    else (if threads[0].phase.Sent? then multiset{Delivery(ticket, threads[0].fd, payload)} else multiset{})
         + Sends(threads[1..], ticket, payload)
  }

  predicate ThreadsOk(s: State) {
    && s.joined <= s.created <= |s.threads|
    && (s.joined > 0 ==> s.created == |s.threads|)
    && (forall i :: 0 <= i < |s.threads| ==> (s.threads[i].phase == Unborn <==> i >= s.created))
    && (forall i :: 0 <= i < s.joined ==> s.threads[i].phase == Sent)
    && (!s.publishing ==> s.joined == |s.threads|)
  }

  predicate MutexOk(s: State) {
    && (s.mutex.Some? ==> s.mutex.value < |s.threads|)
    && (forall i :: 0 <= i < |s.threads| ==> (Holds(s.threads[i].phase) <==> s.mutex == Some(i)))
  }

  predicate CounterOk(s: State) {
    s.justThreads == Sum(s.threads, InBarrier)
  }

  /** Deliveries of an earlier publish come before those of a later one. */
  predicate Ordered(log: seq<Delivery>) {
    forall i, j :: 0 <= i < j < |log| ==> log[i].ticket <= log[j].ticket
  }

  /** From `base` on the log belongs to the publish `ticket`, and before it to
      earlier ones. */
  predicate LogShape(log: seq<Delivery>, base: nat, ticket: nat) {
    && base <= |log|
    && (forall i :: 0 <= i < base ==> log[i].ticket < ticket)
    && (forall i :: base <= i < |log| ==> log[i].ticket == ticket)
    && Ordered(log)
  }

  predicate LogOk(s: State) {
    && LogShape(s.log, s.base, s.ticket)
    && multiset(s.log[s.base..]) == Sends(s.threads, s.ticket, s.payload)
  }

  predicate Base(s: State) {
    ThreadsOk(s) && MutexOk(s) && CounterOk(s) && LogOk(s)
  }

  lemma {:induction false} SendsUpdate(threads: seq<Thread>, t: nat, th: Thread, ticket: nat, payload: string)
    requires t < |threads| && !threads[t].phase.Sent?
    ensures Sends(threads[t := th], ticket, payload)
         == Sends(threads, ticket, payload)
            + if th.phase.Sent? then multiset{Delivery(ticket, th.fd, payload)} else multiset{}
  {
    if t == 0 {
      assert threads[0 := th][1..] == threads[1..];
    } else {
      assert threads[t := th][1..] == threads[1..][t - 1 := th];
      SendsUpdate(threads[1..], t - 1, th, ticket, payload);
    }
  }

  lemma WakeAllKeepsCount(threads: seq<Thread>)
    ensures Sum(WakeAll(threads), InBarrier) == Sum(threads, InBarrier)
  {
    SumPointwise(WakeAll(threads), threads, InBarrier);
    SumPointwise(threads, WakeAll(threads), InBarrier);
  }

  lemma {:induction false} WakeAllKeepsSends(threads: seq<Thread>, ticket: nat, payload: string)
    ensures Sends(WakeAll(threads), ticket, payload) == Sends(threads, ticket, payload)
  {
    if threads != [] {
      assert WakeAll(threads)[1..] == WakeAll(threads[1..]);
      WakeAllKeepsSends(threads[1..], ticket, payload);
    }
  }

  lemma {:induction false} SendsNone(threads: seq<Thread>, ticket: nat, payload: string)
    requires forall i :: 0 <= i < |threads| ==> !threads[i].phase.Sent?
    ensures Sends(threads, ticket, payload) == multiset{}
  {
    if threads != [] {
      SendsNone(threads[1..], ticket, payload);
    }
  }

  predicate MovesThread(a: Action) {
    !a.Begin? && !a.Join? && !a.End? && !a.Resize?
  }

  /** The thread whose step it is. */
  function Mover(s: State, a: Action): nat
    requires MovesThread(a)
  {
    if a.Create? then s.created else a.t
  }

  /** The threads as the mover finds them: a broadcast has woken the waiters. */
  function Found(s: State, a: Action): (r: seq<Thread>)
    ensures |r| == |s.threads|
  {
    if a.Broadcast? then WakeAll(s.threads) else s.threads
  }

  /** A step of a thread changes one record, and changes the counter by what it
      changes in that record. */
  lemma StepMoves(s: State, a: Action)
    requires ThreadsOk(s) && Enabled(s, a) && MovesThread(a)
    ensures var t := Mover(s, a);
      var s' := Apply(s, a);
      && t < |s.threads| == |s'.threads|
      && s'.threads == Found(s, a)[t := s'.threads[t]]
      && Found(s, a)[t] == s.threads[t]
      && s'.justThreads - s.justThreads == InBarrier(s'.threads[t]) - InBarrier(s.threads[t])
      && s.threads[t].phase != Sent
      && (s'.threads[t].phase == Sent <==> a.Send?)
  {
  }

  /** Only the publisher brings a thread to life, in order, and no thread dies. */
  lemma StepBirth(s: State, a: Action)
    requires ThreadsOk(s) && Enabled(s, a) && MovesThread(a)
    requires Mover(s, a) < |s.threads| == |Apply(s, a).threads|
    ensures var t, s' := Mover(s, a), Apply(s, a);
      && s'.joined == s.joined && s'.publishing == s.publishing
      && s'.created == (if a.Create? then t + 1 else s.created)
      && s'.threads[t].phase != Unborn
      && (s.threads[t].phase == Unborn <==> a.Create?)
  {
  }

  lemma StepThreads(s: State, a: Action)
    requires ThreadsOk(s) && Enabled(s, a)
    ensures ThreadsOk(Apply(s, a))
  {
    if MovesThread(a) {
      StepMoves(s, a);
      StepBirth(s, a);
      var t, s' := Mover(s, a), Apply(s, a);
      forall i | 0 <= i < |s'.threads|
        ensures s'.threads[i].phase == Unborn <==> i >= s'.created
        ensures i < s'.joined ==> s'.threads[i].phase == Sent
      {
        assert i != t ==> s'.threads[i] == Found(s, a)[i];
      }
    }
  }

  /** A thread that moves takes the mutex with it, or leaves it to nobody. */
  lemma StepHolder(s: State, a: Action)
    requires ThreadsOk(s) && MutexOk(s) && Enabled(s, a) && MovesThread(a)
    requires Mover(s, a) < |s.threads| == |Apply(s, a).threads|
    ensures var t, s' := Mover(s, a), Apply(s, a);
      && (Holds(s'.threads[t].phase) <==> s'.mutex == Some(t))
      && (s'.mutex.Some? && s'.mutex != Some(t) ==> s'.mutex == s.mutex)
      && (s.mutex.Some? && s.mutex != Some(t) ==> s'.mutex == s.mutex)
  {
  }

  lemma StepMutex(s: State, a: Action)
    requires ThreadsOk(s) && MutexOk(s) && Enabled(s, a)
    ensures MutexOk(Apply(s, a))
  {
    if MovesThread(a) {
      StepMoves(s, a);
      StepHolder(s, a);
      var t, s' := Mover(s, a), Apply(s, a);
      forall i | 0 <= i < |s'.threads|
        ensures Holds(s'.threads[i].phase) <==> s'.mutex == Some(i)
      {
        assert i != t ==> s'.threads[i] == Found(s, a)[i];
      }
    }
  }

  lemma StepCounter(s: State, a: Action)
    requires ThreadsOk(s) && CounterOk(s) && Enabled(s, a)
    ensures CounterOk(Apply(s, a))
  {
    if MovesThread(a) {
      StepMoves(s, a);
      WakeAllKeepsCount(s.threads);
      SumUpdate(Found(s, a), Mover(s, a), Apply(s, a).threads[Mover(s, a)], InBarrier);
    } else if a.Begin? {
      SumZero(s.threads, InBarrier);
      SumZero(Apply(s, a).threads, InBarrier);
    }
  }

  function NewDeliveries(s: State, a: Action): seq<Delivery>
    requires Enabled(s, a)
  {
    if a.Send? then [Delivery(s.ticket, s.threads[a.t].fd, s.payload)] else []
  }

  /** What a step leaves of the log and of the publish it belongs to. */
  lemma StepRecords(s: State, a: Action)
    requires Enabled(s, a) && !a.Begin?
    ensures var s' := Apply(s, a);
      && s'.base == s.base && s'.ticket == s.ticket && s'.payload == s.payload
      && s'.log == s.log + NewDeliveries(s, a)
      && (!MovesThread(a) ==> s'.threads == s.threads)
  {
  }

  lemma StepSends(s: State, a: Action)
    requires ThreadsOk(s) && LogOk(s) && Enabled(s, a) && !a.Begin?
    ensures Sends(Apply(s, a).threads, s.ticket, s.payload)
         == Sends(s.threads, s.ticket, s.payload)
            + multiset(NewDeliveries(s, a))
  {
    StepRecords(s, a);
    if MovesThread(a) {
      StepMoves(s, a);
      WakeAllKeepsSends(s.threads, s.ticket, s.payload);
      SendsUpdate(Found(s, a), Mover(s, a), Apply(s, a).threads[Mover(s, a)], s.ticket, s.payload);
    }
  }

  lemma ShapeGrows(log: seq<Delivery>, base: nat, ticket: nat, d: Delivery)
    requires LogShape(log, base, ticket) && d.ticket == ticket
    ensures LogShape(log + [d], base, ticket)
    ensures multiset((log + [d])[base..]) == multiset(log[base..]) + multiset{d}
  {
    assert (log + [d])[base..] == log[base..] + [d];
    forall i | 0 <= i < |log|
      ensures log[i].ticket <= ticket
    {
      if i < base {
        assert log[i].ticket < ticket;
      }
    }
  }

  lemma BeginLog(s: State, a: Action)
    requires LogOk(s) && Enabled(s, a) && a.Begin?
    ensures LogOk(Apply(s, a))
  {
    var s' := Apply(s, a);
    SendsNone(s'.threads, s'.ticket, s'.payload);
    assert s'.log[s'.base..] == [];
  }

  lemma StepLog(s: State, a: Action)
    requires ThreadsOk(s) && LogOk(s) && Enabled(s, a)
    ensures LogOk(Apply(s, a))
  {
    if a.Begin? {
      BeginLog(s, a);
    } else {
      StepRecords(s, a);
      StepSends(s, a);
      if a.Send? {
        ShapeGrows(s.log, s.base, s.ticket, Delivery(s.ticket, s.threads[a.t].fd, s.payload));
        assert NewDeliveries(s, a) == [Delivery(s.ticket, s.threads[a.t].fd, s.payload)];
      } else {
        assert Apply(s, a).log == s.log;
      }
    }
  }

  /** Every step of every thread keeps the invariant. In particular the counter
      is always the number of threads counted in, across publishes. */
  lemma StepBase(s: State, a: Action)
    requires Base(s) && Enabled(s, a)
    ensures Base(Apply(s, a))
  {
    StepThreads(s, a);
    StepMutex(s, a);
    StepCounter(s, a);
    StepLog(s, a);
  }

  lemma {:induction false} RunBase(s: State, run: seq<Action>)
    requires Base(s) && CanRun(s, run)
    ensures Base(Run(s, run))
    decreases |run|
  {
    if run != [] {
      StepBase(s, run[0]);
      RunBase(Apply(s, run[0]), run[1..]);
    }
  }
}
