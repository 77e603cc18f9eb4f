/** Admission of requests to the readers/writers server: who waits on entry, who
    is signalled on exit, and what the shared counters mean.

    The model is a state machine over any number of requests. The entry section
    and the exit section of a request each run under one mutex and are one
    action each; releasing that mutex and starting to wait count as one step.
    A signal wakes one request that waits on the condition variable, if there
    is one, and nothing else wakes a waiter. */
module Admission {
  import opened Counting
  import opened Options

  datatype Class = READ | WRITE

  datatype Phase =
    | New        // not counted yet
    | Waiting    // counted, blocked on the condition variable of its class
    | Woken      // signalled, about to go on
    | Admitted   // about to decide whether to take the data mutex
    | Locking    // about to lock the data mutex
    | Inside     // in the critical region, about to update the ratio counter
    | Ranked     // about to increment the data counter, if a writer
    | Worked     // about to print
    | Printed    // about to run the exit section
    | Exited     // counted out, about to unlock the data mutex, if locked
    | Unlocked   // about to fill in the response
    | Done

  datatype Request = Request(action: Class, phase: Phase, locked: bool, shown: int, answer: int)

  /** What a writer printed. */
  datatype Print = Print(t: nat, value: int)

  datatype State = State(
    priority: Class,
    ratio: int,
    initial: int,
    requests: seq<Request>,
    currentReaders: int,
    currentWriters: int,
    ratioCounter: int,
    counter: int,
    mutex: Option<nat>,
    holders: seq<nat>,    // the writers in the order in which they locked the mutex
    prints: seq<Print>
  )

  datatype Action =
    | Arrive(action: Class)
    | Enter(t: nat)
    | Resume(t: nat)
    | Choose(t: nat)
    | Lock(t: nat)
    | Rank(t: nat)
    | Work(t: nat)
    | Show(t: nat)
    | Exit(t: nat, woken: Option<nat>)
    | Unlock(t: nat)
    | Reply(t: nat)

  function Start(priority: Class, ratio: int, initial: int): State {
    State(priority, ratio, initial, [], 0, 0, 0, initial, None, [], [])
  }

  // ------------------------------------------------------------------
  // The two decisions
  // ------------------------------------------------------------------

  /** The entry test, with the counters as they are after the increment. */
  predicate MustWait(readers: int, writers: int, ratio: int) {
    (writers > 1 || readers > 1) && ratio != 0
  }

  /** Which of the nine branches of the exit section is taken, with the counters
      as they are after the decrement. The ninth is the default. */
  function Branch(action: Class, priority: Class, ratio: int, ratioCounter: int, readers: int, writers: int): nat {
    if ratioCounter >= ratio && ratio != 0 && action == READ && writers > 0 then 1
    else if ratioCounter >= ratio && ratio != 0 && action == WRITE && readers > 0 then 2
    else if priority == READ && readers > 0 then 3
    else if priority == WRITE && writers > 0 then 4
    else if action == READ && readers > 0 then 5
    else if action == WRITE && writers > 0 then 6
    else if action == READ && readers == 0 then 7
    else if action == WRITE && writers == 0 then 8
    else 9
  }

  /** The class that a branch signals. The first two also reset the ratio counter. */
  function Signalled(branch: nat): Class {
    if branch == 1 || branch == 4 || branch == 6 || branch == 7 then WRITE else READ
  }

  /** Whenever a request remains, the class signalled has one. */
  lemma SignalsSomeone(action: Class, priority: Class, ratio: int, ratioCounter: int, readers: int, writers: int)
    requires readers >= 0 && writers >= 0 && readers + writers > 0
    ensures var branch := Branch(action, priority, ratio, ratioCounter, readers, writers);
      && branch != 9
      && (Signalled(branch) == READ ==> readers > 0)
      && (Signalled(branch) == WRITE ==> writers > 0)
  {
  }

  // ------------------------------------------------------------------
  // Steps
  // ------------------------------------------------------------------

  predicate At(s: State, t: nat, p: Phase) {
    t < |s.requests| && s.requests[t].phase == p
  }

  function Left(n: int, action: Class, counted: Class): int {
    if action == counted then n - 1 else n
  }

  function ExitBranch(s: State, t: nat): nat
    requires t < |s.requests|
  {
    var action := s.requests[t].action;
    Branch(action, s.priority, s.ratio, s.ratioCounter,
           Left(s.currentReaders, action, READ), Left(s.currentWriters, action, WRITE))
  }

  function ExitDecision(s: State, t: nat): (Class, bool)
    requires t < |s.requests|
  {
    (Signalled(ExitBranch(s, t)), ExitBranch(s, t) <= 2)
  }

  predicate WaitsFor(r: Request, action: Class) {
    r.phase == Waiting && r.action == action
  }

  /** The signal of the exit of `t` wakes a request that waits for it, if any does. */
  predicate WakesOne(s: State, t: nat, woken: Option<nat>)
    requires t < |s.requests|
  {
    var signalled := ExitDecision(s, t).0;
    match woken
    case Some(u) => u < |s.requests| && WaitsFor(s.requests[u], signalled)
    case None => forall u :: 0 <= u < |s.requests| ==> !WaitsFor(s.requests[u], signalled)
  }

  predicate Enabled(s: State, a: Action) {
    match a
    case Arrive(_) => true
    case Enter(t) => At(s, t, New)
    case Resume(t) => At(s, t, Woken)
    case Choose(t) => At(s, t, Admitted)
    case Lock(t) => At(s, t, Locking) && s.mutex == None
    case Rank(t) => At(s, t, Inside)
    case Work(t) => At(s, t, Ranked)
    case Show(t) => At(s, t, Worked)
    case Exit(t, woken) =>
      && At(s, t, Printed)
      && WakesOne(s, t, woken)
    case Unlock(t) => At(s, t, Exited)
    case Reply(t) => At(s, t, Unlocked)
  }

  function Move(s: State, t: nat, p: Phase): State
    requires t < |s.requests|
  {
    s.(requests := s.requests[t := s.requests[t].(phase := p)])
  }

  function Apply(s: State, a: Action): State
    requires Enabled(s, a)
  {
    match a
    case Arrive(action) => s.(requests := s.requests + [Request(action, New, false, 0, 0)])
    case Enter(t) =>
      var action := s.requests[t].action;
      var readers := if action == READ then s.currentReaders + 1 else s.currentReaders;
      var writers := if action == WRITE then s.currentWriters + 1 else s.currentWriters;
      Move(s, t, if MustWait(readers, writers, s.ratio) then Waiting else Admitted)
        .(currentReaders := readers, currentWriters := writers)
    case Resume(t) => Move(s, t, Admitted)
    case Choose(t) =>
      Move(s, t, if s.requests[t].action == WRITE || s.currentWriters > 0 then Locking else Inside)
    case Lock(t) =>
      s.(requests := s.requests[t := s.requests[t].(phase := Inside, locked := true)], mutex := Some(t),
         holders := if s.requests[t].action == WRITE then s.holders + [t] else s.holders)
    case Rank(t) =>
      Move(s, t, Ranked).(ratioCounter := if s.requests[t].action == s.priority then s.ratioCounter + 1 else 0)
    case Work(t) =>
      Move(s, t, Worked).(counter := if s.requests[t].action == WRITE then s.counter + 1 else s.counter)
    case Show(t) =>
      s.(requests := s.requests[t := s.requests[t].(phase := Printed, shown := s.counter)],
         prints := if s.requests[t].action == WRITE then s.prints + [Print(t, s.counter)] else s.prints)
    case Exit(t, woken) =>
      var action := s.requests[t].action;
      var out := s.requests[t := s.requests[t].(phase := Exited)];
      s.(requests := if woken.Some? then out[woken.value := out[woken.value].(phase := Woken)] else out,
         currentReaders := Left(s.currentReaders, action, READ),
         currentWriters := Left(s.currentWriters, action, WRITE),
         ratioCounter := if ExitDecision(s, t).1 then 0 else s.ratioCounter)
    case Unlock(t) => Move(s, t, Unlocked).(mutex := if s.requests[t].locked then None else s.mutex)
    case Reply(t) => s.(requests := s.requests[t := s.requests[t].(phase := Done, answer := s.counter)])
  }

  predicate CanRun(s: State, run: seq<Action>)
    decreases |run|
  {
    run == [] || (Enabled(s, run[0]) && CanRun(Apply(s, run[0]), run[1..]))
  }

  function Run(s: State, run: seq<Action>): State
    requires CanRun(s, run)
    decreases |run|
  {
    if run == [] then s else Run(Apply(s, run[0]), run[1..])
  }

  // ------------------------------------------------------------------
  // What the counters mean
  // ------------------------------------------------------------------

  /** Where a request stands: not counted, counted and waiting, or counted and
      past admission (from being let in or woken until its exit section). */
  datatype Side = Out | Queue | Lane

  function SideOf(p: Phase): Side {
    match p
    case Waiting => Queue
    case Woken | Admitted | Locking | Inside | Ranked | Worked | Printed => Lane
    case _ => Out
  }

  predicate Belongs(r: Request, side: Side, action: Class) {
    SideOf(r.phase) == side && r.action == action
  }

  function One(r: Request, side: Side, action: Class): nat {
    if Belongs(r, side, action) then 1 else 0
  }

  function Weight(side: Side, action: Class): Request -> nat {
    (r: Request) => One(r, side, action)
  }

  /** How many of the first `n` requests belong to a side and a class. */
  function CountTo(rs: seq<Request>, n: nat, side: Side, action: Class): nat
    requires n <= |rs|
  {
    SumTo(rs, n, Weight(side, action))
  }

  function Count(rs: seq<Request>, side: Side, action: Class): nat {
    CountTo(rs, |rs|, side, action)
  }

  function Waiters(rs: seq<Request>): nat { Count(rs, Queue, READ) + Count(rs, Queue, WRITE) }

  function Actives(rs: seq<Request>): nat { Count(rs, Lane, READ) + Count(rs, Lane, WRITE) }

  lemma CountUpdate(rs: seq<Request>, t: nat, r: Request, side: Side, action: Class)
    requires t < |rs|
    ensures Count(rs[t := r], side, action) + One(rs[t], side, action)
         == Count(rs, side, action) + One(r, side, action)
  {
    SumUpdate(rs, t, r, Weight(side, action));
  }

  lemma CountAppend(rs: seq<Request>, r: Request, side: Side, action: Class)
    ensures Count(rs + [r], side, action) == Count(rs, side, action) + One(r, side, action)
  {
    SumAppend(rs, r, Weight(side, action));
  }

  lemma CountMember(rs: seq<Request>, t: nat, side: Side, action: Class)
    requires t < |rs|
    ensures One(rs[t], side, action) <= Count(rs, side, action)
  {
    SumToMember(rs, |rs|, t, Weight(side, action));
  }

  lemma CountWitness(rs: seq<Request>, side: Side, action: Class) returns (t: nat)
    requires Count(rs, side, action) != 0
    ensures t < |rs| && Belongs(rs[t], side, action)
  {
    t := SumToWitness(rs, |rs|, Weight(side, action));
  }

  lemma NoneBelongs(rs: seq<Request>, side: Side, action: Class)
    requires forall u :: 0 <= u < |rs| ==> !Belongs(rs[u], side, action)
    ensures Count(rs, side, action) == 0
  {
    SumZero(rs, Weight(side, action));
  }

  /** The counters count the registered requests; whoever waits, somebody else is
      past admission; unless the ratio is zero at most two are; and with ratio zero
      nobody waits. */
  predicate Balanced(readers: int, writers: int, ratio: int, waitR: nat, waitW: nat, laneR: nat, laneW: nat) {
    && readers == waitR + laneR
    && writers == waitW + laneW
    && (waitR + waitW > 0 ==> laneR + laneW > 0)
    && (ratio != 0 ==> laneR + laneW <= 2)
    && (ratio == 0 ==> waitR + waitW == 0)
  }

  predicate Tallied(s: State) {
    Balanced(s.currentReaders, s.currentWriters, s.ratio,
             Count(s.requests, Queue, READ), Count(s.requests, Queue, WRITE),
             Count(s.requests, Lane, READ), Count(s.requests, Lane, WRITE))
  }

  predicate MovesOne(a: Action) {
    !a.Arrive? && !a.Exit?
  }

  /** Every step but an arrival and an exit changes one request; unless it is an
      entry, the request stays on its side. */
  lemma StepMovesOne(s: State, a: Action)
    requires Enabled(s, a) && MovesOne(a)
    ensures var s' := Apply(s, a);
      && a.t < |s.requests| == |s'.requests|
      && s'.requests == s.requests[a.t := s'.requests[a.t]]
      && s'.requests[a.t].action == s.requests[a.t].action
      && s'.priority == s.priority && s'.ratio == s.ratio && s'.initial == s.initial
      && (!a.Enter? ==>
            && SideOf(s'.requests[a.t].phase) == SideOf(s.requests[a.t].phase)
            && s'.currentReaders == s.currentReaders && s'.currentWriters == s.currentWriters)
  {
  }

  /** A request that stays on its side changes no count. */
  lemma CountsSame(rs: seq<Request>, t: nat, r: Request)
    requires t < |rs| && SideOf(r.phase) == SideOf(rs[t].phase) && r.action == rs[t].action
    ensures forall side, action :: Count(rs[t := r], side, action) == Count(rs, side, action)
  {
    forall side, action ensures Count(rs[t := r], side, action) == Count(rs, side, action) {
      CountUpdate(rs, t, r, side, action);
    }
  }

  /** A request that changes sides changes the counts of its two sides by one. */
  predicate Shifted(rs: seq<Request>, out: seq<Request>, from: Side, to: Side, action: Class)
  {
    forall side, c :: Count(out, side, c) + (if c == action && side == from then 1 else 0)
                   == Count(rs, side, c) + (if c == action && side == to then 1 else 0)
  }

  lemma CountsShift(rs: seq<Request>, t: nat, r: Request)
    requires t < |rs| && r.action == rs[t].action
    ensures Shifted(rs, rs[t := r], SideOf(rs[t].phase), SideOf(r.phase), r.action)
  {
    forall side, c ensures Count(rs[t := r], side, c)
        + (if c == r.action && side == SideOf(rs[t].phase) then 1 else 0)
      == Count(rs, side, c) + (if c == r.action && side == SideOf(r.phase) then 1 else 0)
    {
      CountUpdate(rs, t, r, side, c);
    }
  }

  lemma EnterTallied(s: State, t: nat)
    requires Tallied(s) && Enabled(s, Enter(t))
    ensures Tallied(Apply(s, Enter(t)))
  {
    CountsShift(s.requests, t, Apply(s, Enter(t)).requests[t]);
  }

  /** The requests once `t` is counted out, before anybody is woken. */
  function AfterExit(rs: seq<Request>, t: nat): seq<Request>
    requires t < |rs|
  {
    rs[t := rs[t].(phase := Exited)]
  }

  lemma ExitCounts(s: State, t: nat, woken: Option<nat>)
    requires Enabled(s, Exit(t, woken))
    ensures var c := ExitDecision(s, t).0;
      && Shifted(s.requests, AfterExit(s.requests, t), Lane, Out, s.requests[t].action)
      && (woken.Some? ==> Shifted(AfterExit(s.requests, t), Apply(s, Exit(t, woken)).requests, Queue, Lane, c))
      && (woken.None? ==> Apply(s, Exit(t, woken)).requests == AfterExit(s.requests, t))
      && (woken.None? ==> Count(s.requests, Queue, c) == 0)
  {
    CountsShift(s.requests, t, s.requests[t].(phase := Exited));
    if woken.Some? {
      CountsShift(AfterExit(s.requests, t), woken.value, s.requests[woken.value].(phase := Woken));
    } else {
      NoneBelongs(s.requests, Queue, ExitDecision(s, t).0);
    }
  }

  lemma ExitTallied(s: State, t: nat, woken: Option<nat>)
    requires Tallied(s) && Enabled(s, Exit(t, woken))
    ensures Tallied(Apply(s, Exit(t, woken)))
  {
    var action := s.requests[t].action;
    var readers, writers := Left(s.currentReaders, action, READ), Left(s.currentWriters, action, WRITE);
    ExitCounts(s, t, woken);
    if readers + writers != 0 {
      CountMember(s.requests, t, Lane, action);
      SignalsSomeone(action, s.priority, s.ratio, s.ratioCounter, readers, writers);
    }
  }

  lemma StepTallied(s: State, a: Action)
    requires Tallied(s) && Enabled(s, a)
    ensures Tallied(Apply(s, a))
  {
    if a.Arrive? {
      forall side, c ensures Count(Apply(s, a).requests, side, c) == Count(s.requests, side, c) +
        if side == Out && c == a.action then 1 else 0 {
        CountAppend(s.requests, Request(a.action, New, false, 0, 0), side, c);
      }
    } else if a.Exit? {
      ExitTallied(s, a.t, a.woken);
    } else if a.Enter? {
      EnterTallied(s, a.t);
    } else {
      StepMovesOne(s, a);
      CountsSame(s.requests, a.t, Apply(s, a).requests[a.t]);
    }
  }

  lemma {:induction false} RunTallied(s: State, run: seq<Action>)
    requires Tallied(s) && CanRun(s, run)
    ensures Tallied(Run(s, run))
    decreases |run|
  {
    if run != [] {
      StepTallied(s, run[0]);
      RunTallied(Apply(s, run[0]), run[1..]);
    }
  }
}
