/** The ratio of the readers/writers server bounds overtaking.

    A request enters when it updates the ratio counter (`Rank`). The results hold
    over stretches in which no second request is let in beside the one that is
    past admission. */
module Overtaking {
  import opened Options
  import opened Admission
  import opened AdmissionRuns

  function Other(c: Class): Class { if c == READ then WRITE else READ }

  /** Of the two counters, that of a class. */
  function Counted(c: Class, readers: int, writers: int): int { if c == READ then readers else writers }

  /** Past admission but not yet entered. */
  predicate BeforeRank(p: Phase) { p.Woken? || p.Admitted? || p.Locking? || p.Inside? }

  /** `t` is past admission, alone. */
  predicate Alone(s: State, t: nat) {
    && Tallied(s) && s.ratio != 0 && s.ratioCounter >= 0
    && t < |s.requests| && SideOf(s.requests[t].phase) == Lane
    && Actives(s.requests) == 1
  }

  function Queued(s: State, c: Class): nat { Count(s.requests, Queue, c) }

  lemma {:induction false} TwoInLane(rs: seq<Request>, n: nat, i: nat, j: nat)
    requires i < |rs| && j < |rs| && i != j && n <= |rs|
    requires SideOf(rs[i].phase) == Lane && SideOf(rs[j].phase) == Lane
    ensures CountTo(rs, n, Lane, READ) + CountTo(rs, n, Lane, WRITE)
      >= (if i < n then 1 else 0) + (if j < n then 1 else 0)
  {
    if n != 0 {
      TwoInLane(rs, n - 1, i, j);
    }
  }

  lemma {:induction false} OneInLane(rs: seq<Request>, n: nat, t: nat)
    requires t < |rs| && n <= |rs| && forall i :: 0 <= i < |rs| && i != t ==> SideOf(rs[i].phase) != Lane
    ensures CountTo(rs, n, Lane, READ) + CountTo(rs, n, Lane, WRITE) <= if t < n then 1 else 0
  {
    if n != 0 {
      OneInLane(rs, n - 1, t);
    }
  }

  lemma OnlyOne(s: State, t: nat, i: nat)
    requires Alone(s, t) && i < |s.requests| && SideOf(s.requests[i].phase) == Lane
    ensures i == t
  {
    if i != t {
      TwoInLane(s.requests, |s.requests|, t, i);
    }
  }

  // ------------------------------------------------------------------
  // One step beside a lone request
  // ------------------------------------------------------------------

  /** Somebody waits, or at most one request is past admission. */
  predicate Narrow(s: State) { Waiters(s.requests) > 0 || Actives(s.requests) <= 1 }

  /** While somebody waits, whoever arrives has to wait. */
  lemma NewcomerWaits(s: State, t: nat, u: nat)
    requires Alone(s, t) && Enabled(s, Enter(u)) && Narrow(Apply(s, Enter(u)))
    ensures u != t && Apply(s, Enter(u)).requests == s.requests[u := s.requests[u].(phase := Waiting)]
  {
    CountsShift(s.requests, u, Apply(s, Enter(u)).requests[u]);
  }

  /** Nothing but the lone request's own entry and exit matters: the request stays
      alone, on the same side of its entry, and nobody leaves the queues. */
  predicate Quiet(s: State, s': State, t: nat)
    requires t < |s.requests|
  {
    && Alone(s', t)
    && s'.requests[t].action == s.requests[t].action
    && (BeforeRank(s'.requests[t].phase) <==> BeforeRank(s.requests[t].phase))
    && s'.priority == s.priority && s'.ratio == s.ratio && s'.ratioCounter == s.ratioCounter
    && Queued(s', READ) >= Queued(s, READ) && Queued(s', WRITE) >= Queued(s, WRITE)
  }

  lemma QuietArrive(s: State, t: nat, a: Action)
    requires Alone(s, t) && a.Arrive?
    ensures Quiet(s, Apply(s, a), t)
  {
    forall side, c ensures side != Out ==> Count(Apply(s, a).requests, side, c) == Count(s.requests, side, c) {
      CountAppend(s.requests, Request(a.action, New, false, 0, 0), side, c);
    }
  }

  lemma QuietEnter(s: State, t: nat, a: Action)
    requires Alone(s, t) && Enabled(s, a) && a.Enter? && Narrow(Apply(s, a))
    ensures Quiet(s, Apply(s, a), t)
  {
    NewcomerWaits(s, t, a.t);
    EnterTallied(s, a.t);
    CountsShift(s.requests, a.t, s.requests[a.t].(phase := Waiting));
  }

  lemma QuietMove(s: State, t: nat, a: Action)
    requires Alone(s, t) && Enabled(s, a) && MovesOne(a) && !a.Enter? && !a.Rank?
    ensures Quiet(s, Apply(s, a), t)
  {
    StepMovesOne(s, a);
    CountsSame(s.requests, a.t, Apply(s, a).requests[a.t]);
  }

  /** The entry of the lone request updates the ratio counter. */
  lemma RankStep(s: State, t: nat, a: Action)
    requires Alone(s, t) && Enabled(s, a) && a.Rank?
    ensures var s' := Apply(s, a);
      && a.t == t && BeforeRank(s.requests[t].phase)
      && Alone(s', t) && !BeforeRank(s'.requests[t].phase)
      && s'.requests[t].action == s.requests[t].action
      && s'.priority == s.priority && s'.ratio == s.ratio
      && s'.ratioCounter == (if s.requests[t].action == s.priority then s.ratioCounter + 1 else 0)
      && Queued(s', READ) == Queued(s, READ) && Queued(s', WRITE) == Queued(s, WRITE)
  {
    OnlyOne(s, t, a.t);
    CountsSame(s.requests, t, Apply(s, a).requests[t]);
  }

  /** What remains counted when the lone request leaves is what waits. */
  lemma LoneRemain(s: State, t: nat)
    requires Alone(s, t)
    ensures Left(s.currentReaders, s.requests[t].action, READ) == Queued(s, READ)
    ensures Left(s.currentWriters, s.requests[t].action, WRITE) == Queued(s, WRITE)
  {
    CountMember(s.requests, t, Lane, s.requests[t].action);
  }

  /** The exit decision, in terms of priority. When the ratio is used up and the other
      class is counted, the other class is signalled and the ratio counter starts again.
      Else the priority class is signalled if it is counted, and otherwise whichever is;
      with nobody counted it is the other class. */
  lemma Choice(action: Class, priority: Class, ratio: int, ratioCounter: int, readers: nat, writers: nat)
    ensures var branch := Branch(action, priority, ratio, ratioCounter, readers, writers);
      if ratio != 0 && ratioCounter >= ratio && Counted(Other(action), readers, writers) > 0
      then branch <= 2 && Signalled(branch) == Other(action)
      else
        && branch > 2
        && Signalled(branch) == if Counted(priority, readers, writers) > 0 then priority
                                else if readers + writers > 0 then Other(priority)
                                else Other(action)
  {
  }

  /** The exit of the lone request wakes a request of the class signalled, which is
      then alone. */
  lemma ExitHandsOver(s: State, t: nat, a: Action)
    requires Alone(s, t) && Enabled(s, a) && a.Exit? && Waiters(s.requests) > 0
    ensures var s' := Apply(s, a);
      && a.t == t && !BeforeRank(s.requests[t].phase) && a.woken.Some?
      && Alone(s', a.woken.value) && BeforeRank(s'.requests[a.woken.value].phase)
      && s'.requests[a.woken.value].action == ExitDecision(s, t).0
      && (forall c | c != ExitDecision(s, t).0 :: Queued(s', c) == Queued(s, c))
  {
    OnlyOne(s, t, a.t);
    ExitTallied(s, t, a.woken);
    ExitShifts(s, t, a.woken);
  }

  /** The lone request is replaced by the one that it wakes. */
  lemma ExitShifts(s: State, t: nat, woken: Option<nat>)
    requires Alone(s, t) && Enabled(s, Exit(t, woken)) && Waiters(s.requests) > 0
    requires Tallied(Apply(s, Exit(t, woken)))
    ensures woken.Some? && Actives(Apply(s, Exit(t, woken)).requests) == 1
    ensures forall c | c != ExitDecision(s, t).0 :: Queued(Apply(s, Exit(t, woken)), c) == Queued(s, c)
  {
    ExitCounts(s, t, woken);
  }

  lemma ExitStep(s: State, t: nat, a: Action)
    requires Alone(s, t) && Enabled(s, a) && a.Exit? && Waiters(s.requests) > 0
    ensures var s', c := Apply(s, a), s.requests[t].action;
      && a.t == t && !BeforeRank(s.requests[t].phase) && a.woken.Some?
      && Alone(s', a.woken.value) && BeforeRank(s'.requests[a.woken.value].phase)
      && s'.priority == s.priority && s'.ratio == s.ratio
      && (c == s.priority && s.ratioCounter >= s.ratio && Queued(s, Other(c)) > 0 ==>
            s'.requests[a.woken.value].action == Other(c))
      && (c != s.priority && Queued(s, s.priority) > 0 ==> s'.requests[a.woken.value].action == s.priority)
      && (s'.requests[a.woken.value].action == s.priority ==>
            && Queued(s', Other(s.priority)) == Queued(s, Other(s.priority))
            && s'.ratioCounter == if c != s.priority && s.ratioCounter >= s.ratio then 0 else s.ratioCounter)
  {
    ExitHandsOver(s, t, a);
    LoneRemain(s, t);
    Choice(s.requests[t].action, s.priority, s.ratio, s.ratioCounter, Queued(s, READ), Queued(s, WRITE));
  }

  // ------------------------------------------------------------------
  // Runs
  // ------------------------------------------------------------------

  /** Every state that the run visits is narrow. */
  predicate NarrowRun(s: State, run: seq<Action>)
    requires CanRun(s, run)
    decreases |run|
  {
    Narrow(s) && (run == [] || NarrowRun(Apply(s, run[0]), run[1..]))
  }

  /** How many requests of a class enter during the run. */
  function Entries(s: State, run: seq<Action>, c: Class): nat
    requires CanRun(s, run)
    decreases |run|
  {
    if run == [] then 0
    else (if run[0].Rank? && s.requests[run[0].t].action == c then 1 else 0) + Entries(Apply(s, run[0]), run[1..], c)
  }

  function Max(x: int, y: int): int { if x < y then y else x }

  /** How many priority requests can still enter before a non-priority one does,
      when `t` is alone. */
  function Budget(s: State, t: nat): int
    requires t < |s.requests|
  {
    if s.requests[t].action == s.priority then
      if BeforeRank(s.requests[t].phase) then Max(1, s.ratio - s.ratioCounter)
      else Max(0, s.ratio - s.ratioCounter)
    else
      if BeforeRank(s.requests[t].phase) then 0
      else if s.ratioCounter >= s.ratio then Max(1, s.ratio)
      else s.ratio - s.ratioCounter
  }

  /** A non-priority request waits, or is the one past admission and about to enter. */
  predicate Claimed(s: State, t: nat) {
    && Alone(s, t)
    && (Queued(s, Other(s.priority)) > 0 || (s.requests[t].action != s.priority && BeforeRank(s.requests[t].phase)))
  }

  /** A step keeps the claim and spends the budget, one for each priority entry,
      as long as no non-priority request enters. */
  lemma StepBudget(s: State, t: nat, a: Action) returns (t': nat)
    requires Claimed(s, t) && Enabled(s, a) && Narrow(Apply(s, a))
    requires a.Rank? ==> s.requests[a.t].action == s.priority
    ensures Claimed(Apply(s, a), t') && Apply(s, a).priority == s.priority && Apply(s, a).ratio == s.ratio
    ensures Budget(Apply(s, a), t') + (if a.Rank? then 1 else 0) <= Budget(s, t)
  {
    t' := t;
    match a {
      case Arrive(_) => QuietArrive(s, t, a);
      case Enter(_) => QuietEnter(s, t, a);
      case Rank(_) => RankStep(s, t, a);
      case Exit(_, woken) =>
        OnlyOne(s, t, a.t);
        ExitStep(s, t, a);
        t' := woken.value;
      case _ => QuietMove(s, t, a);
    }
  }

  lemma {:induction false} RunBudget(s: State, t: nat, run: seq<Action>)
    requires Claimed(s, t) && CanRun(s, run) && NarrowRun(s, run)
    requires Entries(s, run, Other(s.priority)) == 0
    ensures Entries(s, run, s.priority) <= Budget(s, t)
    decreases |run|
  {
    if run != [] {
      var t' := StepBudget(s, t, run[0]);
      RunBudget(Apply(s, run[0]), t', run[1..]);
    }
  }

  lemma {:induction false} RunCounter(s: State, run: seq<Action>)
    requires CanRun(s, run) && s.ratioCounter >= 0
    ensures Run(s, run).ratioCounter >= 0
    decreases |run|
  {
    if run != [] {
      RunCounter(Apply(s, run[0]), run[1..]);
    }
  }

  lemma ReachableCounter(s: State)
    requires Reachable(s)
    ensures s.ratioCounter >= 0
  {
    var priority, ratio, initial, run :|
      CanRun(Start(priority, ratio, initial), run) && s == Run(Start(priority, ratio, initial), run);
    RunCounter(Start(priority, ratio, initial), run);
  }

  lemma ReachableAlone(s: State, c: Class) returns (t: nat)
    requires Reachable(s) && s.ratio != 0 && Actives(s.requests) <= 1 && Queued(s, c) > 0
    ensures Alone(s, t)
  {
    ReachableCounter(s);
    ReachableTallied(s);
    var i := CountWitness(s.requests, Queue, c);
    t := SomebodyActive(s, i);
  }

  /** Bounded overtaking: from the moment a non-priority request waits, at most
      `ratio` priority requests enter before a non-priority one does. A negative
      ratio counts as one. */
  lemma BoundedOvertaking(s: State, run: seq<Action>)
    requires Reachable(s) && s.ratio != 0 && Actives(s.requests) <= 1
    requires Queued(s, Other(s.priority)) > 0
    requires CanRun(s, run) && NarrowRun(s, run)
    requires Entries(s, run, Other(s.priority)) == 0
    ensures Entries(s, run, s.priority) <= if s.ratio > 0 then s.ratio else 1
  {
    var t := ReachableAlone(s, Other(s.priority));
    RunBudget(s, t, run);
  }

  // ------------------------------------------------------------------
  // No two non-priority entries in a row
  // ------------------------------------------------------------------

  /** The next entry is a priority one: a non-priority request has entered and a
      priority request waits, or a priority request is about to enter. */
  predicate PriorityNext(s: State, t: nat) {
    && Alone(s, t)
    && if s.requests[t].action == s.priority then BeforeRank(s.requests[t].phase)
       else !BeforeRank(s.requests[t].phase) && Queued(s, s.priority) > 0
  }

  lemma StepPriorityNext(s: State, t: nat, a: Action) returns (t': nat)
    requires PriorityNext(s, t) && Enabled(s, a) && Narrow(Apply(s, a))
    ensures a.Rank? ==> s.requests[a.t].action == s.priority
    ensures !a.Rank? ==> PriorityNext(Apply(s, a), t') && Apply(s, a).priority == s.priority
  {
    t' := t;
    match a {
      case Arrive(_) => QuietArrive(s, t, a);
      case Enter(_) => QuietEnter(s, t, a);
      case Rank(_) => RankStep(s, t, a);
      case Exit(_, woken) =>
        OnlyOne(s, t, a.t);
        ExitStep(s, t, a);
        t' := woken.value;
      case _ => QuietMove(s, t, a);
    }
  }

  lemma {:induction false} RunPriorityNext(s: State, t: nat, run: seq<Action>)
    requires PriorityNext(s, t) && CanRun(s, run) && NarrowRun(s, run)
    requires Entries(s, run, s.priority) == 0
    ensures Entries(s, run, Other(s.priority)) == 0
    decreases |run|
  {
    if run != [] {
      var t' := StepPriorityNext(s, t, run[0]);
      RunPriorityNext(Apply(s, run[0]), t', run[1..]);
    }
  }

  /** Once a non-priority request has entered while a priority request waits, no
      non-priority request enters before a priority one does. */
  lemma NoTwoInARow(s: State, t: nat, run: seq<Action>)
    requires Reachable(s) && s.ratio != 0 && Actives(s.requests) <= 1
    requires At(s, t, Ranked) && s.requests[t].action != s.priority
    requires Queued(s, s.priority) > 0
    requires CanRun(s, run) && NarrowRun(s, run)
    requires Entries(s, run, s.priority) == 0
    ensures Entries(s, run, Other(s.priority)) == 0
  {
    var i := ReachableAlone(s, s.priority);
    OnlyOne(s, i, t);
    RunPriorityNext(s, t, run);
  }
}
