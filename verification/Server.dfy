/** The shared variables of the readers/writers server, and the sections of a
    request that update them, as imperative code. Every section is proved to be
    the step of the state machine that bears its name, and the variables always
    stand for a reachable state, so that what holds of those holds of them. */
module Server {
  import opened Options
  import opened Admission
  import opened AdmissionRuns
  import opened Exclusion
  import opened Overtaking
  import opened Writers

  /** What the counters of the program never leave. */
  lemma CountersInBounds(s: State)
    requires Reachable(s)
    ensures s.currentReaders >= 0 && s.currentWriters >= 0 && s.ratioCounter >= 0
  {
    ReachableTallied(s);
    ReachableCounter(s);
  }

  /** A request that has to wait finds another one past admission. */
  lemma WaitsForSomebody(s: State, t: nat)
    requires Reachable(s) && At(s, t, Waiting)
    ensures Actives(s.requests) > 0
  {
    ReachableTallied(s);
    CountMember(s.requests, t, Queue, s.requests[t].action);
  }

  /** The exit of a request: the counters stay in bounds, the class signalled has a
      request while any is counted, and the last one past admission hands over. */
  lemma ExitFacts(s: State, t: nat, woken: Option<nat>)
    requires Reachable(s) && Enabled(s, Action.Exit(t, woken))
    ensures var s' := Apply(s, Action.Exit(t, woken));
      && s'.currentReaders >= 0 && s'.currentWriters >= 0 && s'.ratioCounter >= 0
      && (s'.currentReaders + s'.currentWriters > 0 ==>
            if ExitDecision(s, t).0 == READ then s'.currentReaders > 0 else s'.currentWriters > 0)
      && (Actives(s.requests) == 1 && Waiters(s.requests) > 0 ==> woken.Some?)
  {
    var s' := Apply(s, Action.Exit(t, woken));
    StepReachable(s, Action.Exit(t, woken));
    CountersInBounds(s');
    if s'.currentReaders + s'.currentWriters > 0 {
      SignalsSomeone(s.requests[t].action, s.priority, s.ratio, s.ratioCounter, s'.currentReaders, s'.currentWriters);
    }
    if Actives(s.requests) == 1 && Waiters(s.requests) > 0 {
      LastActiveHandsOver(s, t, woken);
    }
  }

  /** What a writer prints is the initial value plus the number of prints so far. */
  lemma PrintsInSequence(s: State, t: nat)
    requires Reachable(s) && Enabled(s, Action.Show(t)) && s.requests[t].action == WRITE
    ensures Apply(s, Action.Show(t)).requests[t].shown == s.initial + |s.prints| + 1
  {
    var s' := Apply(s, Action.Show(t));
    StepReachable(s, Action.Show(t));
    WritersAreLinear(s');
    assert s'.prints[|s.prints|] == Print(t, s'.requests[t].shown);
  }

  class Server {
    const priority: Class
    const ratio: int
    var currentReaders: int
    var currentWriters: int
    var ratioCounter: int
    var counter: int

    /** The abstract state that the variables stand for. */
    ghost var state: State

    ghost predicate Valid()
      reads this
    {
      && Reachable(state)
      && priority == state.priority && ratio == state.ratio
      && currentReaders == state.currentReaders && currentWriters == state.currentWriters
      && ratioCounter == state.ratioCounter && counter == state.counter
    }

    constructor (priority: Class, ratio: int, counter: int)
      ensures Valid() && state == Start(priority, ratio, counter)
    {
      this.priority, this.ratio, this.counter := priority, ratio, counter;
      currentReaders, currentWriters, ratioCounter := 0, 0, 0;
      state := Start(priority, ratio, counter);
      StartReachable(priority, ratio, counter);
    }

    /** The entry section, under the mutex of the counters. */
    method Enter(action: Class, ghost t: nat) returns (waits: bool)
      requires Valid() && Enabled(state, Action.Enter(t)) && state.requests[t].action == action
      modifies this
      ensures Valid() && state == Apply(old(state), Action.Enter(t))
      ensures waits <==> At(state, t, Waiting)
      ensures currentReaders == old(currentReaders) + (if action == READ then 1 else 0)
      ensures currentWriters == old(currentWriters) + (if action == WRITE then 1 else 0)
      ensures waits <==> ratio != 0 && (currentReaders > 1 || currentWriters > 1)
      ensures ratioCounter == old(ratioCounter) && counter == old(counter)
      ensures waits ==> Actives(state.requests) > 0
      ensures currentReaders >= 0 && currentWriters >= 0
    {
      if action == READ {
        currentReaders := currentReaders + 1;
      } else {
        currentWriters := currentWriters + 1;
      }
      if action == READ && (currentWriters > 1 || currentReaders > 1) && ratio != 0 {
        waits := true;
      } else if action == WRITE && (currentWriters > 1 || currentReaders > 1) && ratio != 0 {
        waits := true;
      } else {
        waits := false;
      }
      StepReachable(state, Action.Enter(t));
      state := Apply(state, Action.Enter(t));
      CountersInBounds(state);
      if waits {
        WaitsForSomebody(state, t);
      }
    }

    /** Whether the request takes the data mutex, and what that decides for a reader. */
    method Choose(action: Class, ghost t: nat) returns (locks: bool)
      requires Valid() && Enabled(state, Action.Choose(t)) && state.requests[t].action == action
      modifies this
      ensures Valid() && state == Apply(old(state), Action.Choose(t))
      ensures locks <==> At(state, t, Locking)
      ensures locks <==> action == WRITE || currentWriters > 0
      ensures action == READ ==> (NeverOverlaps(state, t) <==> Safe(old(state)))
    {
      if action == READ {
        ExcludesIff(state, t);
      }
      locks := (currentWriters > 0 && action == READ) || action == WRITE;
      StepReachable(state, Action.Choose(t));
      state := Apply(state, Action.Choose(t));
    }

    method Rank(action: Class, ghost t: nat)
      requires Valid() && Enabled(state, Action.Rank(t)) && state.requests[t].action == action
      modifies this
      ensures Valid() && state == Apply(old(state), Action.Rank(t))
      ensures ratioCounter == if action == priority then old(ratioCounter) + 1 else 0
      ensures currentReaders == old(currentReaders) && currentWriters == old(currentWriters) && counter == old(counter)
    {
      if action == priority {
        ratioCounter := ratioCounter + 1;
      } else {
        ratioCounter := 0;
      }
      StepReachable(state, Action.Rank(t));
      state := Apply(state, Action.Rank(t));
    }

    method Work(action: Class, ghost t: nat)
      requires Valid() && Enabled(state, Action.Work(t)) && state.requests[t].action == action
      modifies this
      ensures Valid() && state == Apply(old(state), Action.Work(t))
      ensures counter == old(counter) + (if action == WRITE then 1 else 0)
      ensures counter == state.initial + |state.prints| + (if SomebodyWorked(state) then 1 else 0)
      ensures currentReaders == old(currentReaders) && currentWriters == old(currentWriters)
           && ratioCounter == old(ratioCounter)
    {
      if action == WRITE {
        counter := counter + 1;
      }
      StepReachable(state, Action.Work(t));
      state := Apply(state, Action.Work(t));
      CounterMeans(state);
    }

    /** The value printed. */
    method Show(ghost t: nat) returns (value: int)
      requires Valid() && Enabled(state, Action.Show(t))
      modifies this`state
      ensures Valid() && state == Apply(old(state), Action.Show(t))
      ensures value == counter == state.requests[t].shown
      ensures value == old(state).initial + |old(state).prints| + (if SomebodyWorked(old(state)) then 1 else 0)
      ensures state.requests[t].action == WRITE ==> value == state.initial + |state.prints|
    {
      value := counter;
      CounterMeans(state);
      if state.requests[t].action == WRITE {
        PrintsInSequence(state, t);
      }
      StepReachable(state, Action.Show(t));
      state := Apply(state, Action.Show(t));
    }

    /** The decrement and the nine branches: the class signalled, and the ratio counter. */
    method CountOut(action: Class) returns (signalled: Class)
      modifies this`currentReaders, this`currentWriters, this`ratioCounter
      ensures currentReaders == Left(old(currentReaders), action, READ)
      ensures currentWriters == Left(old(currentWriters), action, WRITE)
      ensures var branch := Branch(action, priority, ratio, old(ratioCounter), currentReaders, currentWriters);
        signalled == Signalled(branch) && ratioCounter == if branch <= 2 then 0 else old(ratioCounter)
      ensures currentReaders == old(currentReaders) - (if action == READ then 1 else 0)
      ensures currentWriters == old(currentWriters) - (if action == WRITE then 1 else 0)
      ensures var other := Counted(Other(action), currentReaders, currentWriters);
        var first := Counted(priority, currentReaders, currentWriters);
        var second := Counted(Other(priority), currentReaders, currentWriters);
        if ratio != 0 && old(ratioCounter) >= ratio && other > 0 then
          signalled == Other(action) && ratioCounter == 0
        else
          && ratioCounter == old(ratioCounter)
          && (first > 0 ==> signalled == priority)
          && (first == 0 && second > 0 ==> signalled == Other(priority))
          && (first == 0 && second == 0 ==> signalled == Other(action))
    {
      if action == READ {
        currentReaders := currentReaders - 1;
      } else {
        currentWriters := currentWriters - 1;
      }
      if ratioCounter >= ratio && ratio != 0 && action == READ && currentWriters > 0 {
        ratioCounter := 0;
        signalled := WRITE;
      } else if ratioCounter >= ratio && ratio != 0 && action == WRITE && currentReaders > 0 {
        ratioCounter := 0;
        signalled := READ;
      } else if priority == READ && currentReaders > 0 {
        signalled := READ;
      } else if priority == WRITE && currentWriters > 0 {
        signalled := WRITE;
      } else if action == READ && currentReaders > 0 {
        signalled := READ;
      } else if action == WRITE && currentWriters > 0 {
        signalled := WRITE;
      } else if action == READ && currentReaders == 0 {
        signalled := WRITE;
      } else if action == WRITE && currentWriters == 0 {
        signalled := READ;
      } else {
        signalled := READ;
      }
    }

    /** The exit section, under the mutex of the counters. It returns the class
        whose condition variable is signalled; `woken` is the waiter that the
        signal reaches, if there is one. */
    method Exit(action: Class, ghost t: nat, ghost woken: Option<nat>) returns (signalled: Class)
      requires Valid() && Enabled(state, Action.Exit(t, woken)) && state.requests[t].action == action
      modifies this
      ensures Valid() && state == Apply(old(state), Action.Exit(t, woken))
      ensures currentReaders == old(currentReaders) - (if action == READ then 1 else 0)
      ensures currentWriters == old(currentWriters) - (if action == WRITE then 1 else 0)
      ensures var other := Counted(Other(action), currentReaders, currentWriters);
        var first := Counted(priority, currentReaders, currentWriters);
        var second := Counted(Other(priority), currentReaders, currentWriters);
        if ratio != 0 && old(ratioCounter) >= ratio && other > 0 then
          signalled == Other(action) && ratioCounter == 0
        else
          && ratioCounter == old(ratioCounter)
          && (first > 0 ==> signalled == priority)
          && (first == 0 && second > 0 ==> signalled == Other(priority))
          && (first == 0 && second == 0 ==> signalled == Other(action))
      ensures currentReaders >= 0 && currentWriters >= 0 && ratioCounter >= 0
      ensures currentReaders + currentWriters > 0 ==> if signalled == READ then currentReaders > 0 else currentWriters > 0
      ensures Actives(old(state).requests) == 1 && Waiters(old(state).requests) > 0 ==> woken.Some?
      ensures woken.Some? ==> woken.value < |state.requests| && state.requests[woken.value].action == signalled
      ensures woken.None? ==> forall u :: 0 <= u < |state.requests| ==> !WaitsFor(state.requests[u], signalled)
    {
      ExitFacts(state, t, woken);
      StepReachable(state, Action.Exit(t, woken));
      signalled := CountOut(action);
      state := Apply(state, Action.Exit(t, woken));
    }

    /** The counter sent back, read after the data mutex was released. */
    method Reply(ghost t: nat) returns (answer: int)
      requires Valid() && Enabled(state, Action.Reply(t))
      modifies this`state
      ensures Valid() && state == Apply(old(state), Action.Reply(t))
      ensures answer == counter == state.requests[t].answer
      ensures answer == state.initial + |state.prints| + (if SomebodyWorked(state) then 1 else 0)
      ensures state.requests[t].shown <= answer
    {
      answer := counter;
      StepReachable(state, Action.Reply(t));
      state := Apply(state, Action.Reply(t));
      ResponsesAreFresh(state, t);
      CounterMeans(state);
    }

    /** The steps that touch none of the variables: arrivals, wake-ups, and locking
        and unlocking the data mutex. */
    ghost method Pass(a: Action)
      requires Valid() && Enabled(state, a) && (a.Arrive? || a.Resume? || a.Lock? || a.Unlock?)
      modifies this`state
      ensures Valid() && state == Apply(old(state), a)
    {
      StepReachable(state, a);
      state := Apply(state, a);
    }
  }
}
