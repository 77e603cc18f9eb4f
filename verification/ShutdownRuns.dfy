/** What every run of the shutdown protocol does, for every interleaving, either
    order of connection and any polls. */
module ShutdownRuns {
  import opened LamportClock
  import opened Shutdown

  // ------------------------------------------------------------------
  // Safety
  // ------------------------------------------------------------------

  /** The clocks of the messages that a log records as accepted. */
  function AcceptedClocks(log: seq<Event>): seq<nat> {
    if log == [] then []
    else (if log[0].Received? then [log[0].message.clock] else []) + AcceptedClocks(log[1..])
  }

  lemma AcceptedOfServerLog(k: nat, p: Process)
    requires k <= 3
    ensures AcceptedClocks(ServerLog(k, p)) == TABLE_P2[..k]
  {
    var log := ServerLog(k, p);
    if k > 0 {
      assert AcceptedClocks(log[2..]) == TABLE_P2[1..k] by {
        if k > 1 {
          assert AcceptedClocks(log[2..][2..]) == TABLE_P2[2..k] by {
            if k > 2 {
              assert log[2..][2..] == [Received(Ack(P3), 10)];
            }
          }
          assert log[2..][1..] == [Sent(Now(7))] + log[2..][2..];
          assert AcceptedClocks(log[2..][1..]) == AcceptedClocks(log[2..][2..]) by {
            assert log[2..][1..][1..] == log[2..][2..];
          }
        }
      }
      assert log[1..][1..] == log[2..];
    }
  }

  /** The server accepts the clocks 1, 5 and 9, in this order and nothing else. */
  lemma ServerAcceptsExactly(s: State)
    requires Reachable(s)
    ensures s.server.currentId <= |TABLE_P2| && AcceptedClocks(s.server.log) == TABLE_P2[..s.server.currentId]
    ensures s.server.pc.Finished? <==> AcceptedClocks(s.server.log) == [1, 5, 9]
  {
    ReachableOk(s);
    AcceptedOfServerLog(s.server.currentId, P1);
    AcceptedOfServerLog(s.server.currentId, P3);
  }

  /** P3 acknowledges only after the server has accepted the ACK of P1. */
  lemma AckOrder(s: State)
    requires Reachable(s) && Sent(Ack(P3)) in s.p3.log
    ensures Received(Ack(P1), 6) in s.server.log
  {
    ReachableOk(s);
    if s.server.currentId >= 2 {
      assert s.server.log[2] == Received(Ack(P1), 6);
    }
  }

  // ------------------------------------------------------------------
  // The Lamport clock condition
  // ------------------------------------------------------------------

  function LogOf(s: State, p: Process): seq<Event> {
    match p
    case P1 => s.p1.log
    case P2 => s.server.log
    case P3 => s.p3.log
  }

  /** The clock that an event is printed with. */
  function Stamp(e: Event): nat { if e.Sent? then e.message.clock else e.clock }

  /** Whenever a message is accepted, it is ahead of the clock of its receiver, so the
      clock really moves past it. */
  lemma AcceptedIsAhead(s: State, a: Action)
    requires Reachable(s) && Enabled(s, a)
    ensures a.Compare? && s.server.buffer.clock == TABLE_P2[s.server.currentId] ==>
      s.server.buffer.clock > s.server.clock
    ensures a.Deliver? && Get(s, a.c).inbox[0].clock == TableOf(a.c)[Get(s, a.c).currentId] ==>
      Get(s, a.c).inbox[0].clock > Get(s, a.c).clock
  {
    ReachableOk(s);
  }

  /** Each process prints strictly increasing clocks. */
  lemma StampsIncrease(s: State, p: Process, i: nat, j: nat)
    requires Reachable(s) && i < j < |LogOf(s, p)|
    ensures Stamp(LogOf(s, p)[i]) < Stamp(LogOf(s, p)[j])
  {
    ReachableOk(s);
  }

  /** What is accepted was sent, and with a smaller clock. */
  lemma ReceivedWasSent(s: State, p: Process, i: nat)
    requires Reachable(s) && i < |LogOf(s, p)| && LogOf(s, p)[i].Received?
    ensures Sent(LogOf(s, p)[i].message) in LogOf(s, LogOf(s, p)[i].message.origin)
    ensures LogOf(s, p)[i].message.clock < Stamp(LogOf(s, p)[i])
  {
    ReachableOk(s);
    StarterSent(s);
    var m := LogOf(s, p)[i].message;
    if p == P2 {
      if i == 0 {
        assert LogOf(s, m.origin)[0] == Sent(m);
      } else {
        assert LogOf(s, m.origin)[2] == Sent(m);
      }
    } else {
      assert s.server.log[if p == P1 then 1 else 3] == Sent(m);
    }
  }

  /** The READY that the server accepted first comes from a client that has sent it. */
  predicate FirstSent(s: State) {
    s.server.currentId > 0 ==>
      |s.server.log| > 0 && s.server.log[0].message.origin != P2
      && !Get(s, s.server.log[0].message.origin).phase.Starting?
  }

  lemma {:induction false} RunFirstSent(s: State, run: seq<Action>)
    requires Ok(s) && FirstSent(s) && CanRun(s, run)
    ensures FirstSent(Run(s, run))
    decreases |run|
  {
    if run != [] {
      StepOk(s, run[0]);
      StepFirstSent(s, run[0]);
      RunFirstSent(Apply(s, run[0]), run[1..]);
    }
  }

  lemma StepFirstSent(s: State, a: Action)
    requires Ok(s) && FirstSent(s) && Enabled(s, a)
    ensures FirstSent(Apply(s, a))
  {
  }

  lemma StarterSent(s: State)
    requires Reachable(s)
    ensures FirstSent(s)
  {
    var firstIsP1, junk: Message, run :|
      && junk.clock != TABLE_P2[0]
      && CanRun(Initial(firstIsP1, junk), run) && s == Run(Initial(firstIsP1, junk), run);
    RunFirstSent(Initial(firstIsP1, junk), run);
  }

  // ------------------------------------------------------------------
  // The processes keep the clocks of their receive loops
  // ------------------------------------------------------------------

  /** One acceptance by the server moves its clock as the receive loop does, and an
      answer carries the new clock to both clients. */
  lemma CompareTicks(s: State)
    requires Enabled(s, Compare) && Effective(s, Compare)
    ensures var m, s' := s.server.buffer, Apply(s, Compare);
      && Ticks([s.server.clock, s'.server.clock], [m.clock], true)
      && (m.clock == 1 || m.clock == 5 ==>
            && s'.p1.inbox == s.p1.inbox + [Now(s'.server.clock)]
            && s'.p3.inbox == s.p3.inbox + [Now(s'.server.clock)])
      && (m.clock != 1 && m.clock != 5 ==> s'.p1.inbox == s.p1.inbox && s'.p3.inbox == s.p3.inbox)
  {
  }

  /** One delivery to a client moves its clock as the receive loop does. */
  lemma DeliverTicks(s: State, c: Process)
    requires Enabled(s, Deliver(c))
    ensures var x, x' := Get(s, c), Get(Apply(s, Deliver(c)), c);
      && x'.inbox == x.inbox[1..]
      && if x.inbox[0].clock == TableOf(c)[x.currentId]
         then Ticks([x.clock, x'.clock], [x.inbox[0].clock], false) && x'.currentId == x.currentId + 1
         else x'.clock == x.clock && x'.currentId == x.currentId
  {
  }

  /** The clocks of the messages that a log records as sent. */
  function SentClocks(log: seq<Event>): seq<nat> {
    if log == [] then []
    else SentClocks(log[..|log| - 1]) + if log[|log| - 1].Sent? then [log[|log| - 1].message.clock] else []
  }

  lemma SentByServer(k: nat, p: Process)
    requires k <= 3
    ensures SentClocks(ServerLog(k, p)) == if k == 0 then [] else if k == 1 then [3] else [3, 7]
  {
    var log := ServerLog(k, p);
    assert SentClocks([]) == [];
    if k > 0 {
      assert ServerLog(1, p)[..1] == [Received(Ready(p), 2)] && [Received(Ready(p), 2)][..0] == [];
      assert SentClocks([Received(Ready(p), 2)]) == [];
      assert SentClocks(ServerLog(1, p)) == [3];
    }
    if k > 1 {
      assert ServerLog(2, p)[..3] == ServerLog(1, p) + [Received(Ack(P1), 6)];
      assert (ServerLog(1, p) + [Received(Ack(P1), 6)])[..2] == ServerLog(1, p);
      assert SentClocks(ServerLog(2, p)) == [3, 7];
    }
    if k > 2 {
      assert ServerLog(3, p)[..4] == ServerLog(2, p);
    }
  }

  lemma ServerClockOfTable(k: nat)
    requires k <= 3
    ensures ServerClock(0, TABLE_P2[..k]) == ServerClockAt(k)
    ensures Answers(0, TABLE_P2[..k]) == if k == 0 then [] else if k == 1 then [3] else [3, 7]
  {
    PlusTwoOfTable();
    if k == 1 {
      assert TABLE_P2[..1] == [1];
      AheadBoth([1]);
    } else if k == 2 {
      assert TABLE_P2[..2] == [1, 5];
      AheadBoth([1, 5]);
    } else if k == 3 {
      assert TABLE_P2[..3] == [1, 5, 9];
      AheadBoth([1, 5, 9]);
    }
  }

  lemma AheadBoth(ms: seq<nat>)
    requires Ahead(0, ms, true) && ms != []
    ensures ServerClock(0, ms) == ms[|ms| - 1] + (if Answered(ms[|ms| - 1]) then 2 else 1)
    ensures Answers(0, ms) == PlusTwo(ms)
  {
    AheadClock(0, ms, true);
    AheadAnswers(0, ms);
  }

  /** In every reachable state the clock of the server, and what it has sent, are those
      of its receive loop over the clocks it has accepted. */
  lemma ServerFollowsLoop(s: State)
    requires Reachable(s)
    ensures s.server.clock == ServerClock(0, AcceptedClocks(s.server.log))
    ensures SentClocks(s.server.log) == Answers(0, AcceptedClocks(s.server.log))
  {
    ReachableOk(s);
    var k := s.server.currentId;
    AcceptedOfServerLog(k, P1);
    AcceptedOfServerLog(k, P3);
    SentByServer(k, P1);
    SentByServer(k, P3);
    ServerClockOfTable(k);
  }

  /** And so for the clients, between their READY and their ACK. */
  lemma ClientFollowsLoop(s: State, c: Process)
    requires Reachable(s) && c != P2 && (Get(s, c).phase.Receiving? || Get(s, c).phase.Closing?)
    ensures Get(s, c).clock == ClientClock(1, AcceptedClocks(Get(s, c).log))
  {
    ReachableOk(s);
    var log := Get(s, c).log;
    assert log[1..] == [] || log[1..] == [Received(Now(Awaited(c)), Awaited(c) + 1)];
    ClientClocks();
    if Get(s, c).phase.Closing? {
      assert log[1..][1..] == [];
      assert AcceptedClocks(log[1..]) == [Awaited(c)];
    }
  }

  // ------------------------------------------------------------------
  // Termination
  // ------------------------------------------------------------------

  /** A step other than a poll that finds nothing and a comparison that fails. */
  predicate Effective(s: State, a: Action)
    requires Enabled(s, a)
  {
    match a
    case Poll(o) => o.Data?
    case Compare => s.server.buffer.clock == TABLE_P2[s.server.currentId]
    case _ => true
  }

  function PhaseLeft(p: Phase): nat {
    match p
    case Starting => 4
    case Receiving => 2
    case Closing => 2
    case Closed => 0
  }

  function ServerLeft(k: nat): nat {
    if k == 0 then 7 else if k == 1 then 4 else if k == 2 then 1 else 0
  }

  function ClientLeft(c: Client): nat { PhaseLeft(c.phase) + |c.inbox| + |c.outbox| }

  /** The effective steps still to come, and one for the message that P1 never reads. */
  function Left(s: State): nat { ClientLeft(s.p1) + ClientLeft(s.p3) + ServerLeft(s.server.currentId) }

  lemma ClientStepLeft(s: State, a: Action)
    requires Ok(s) && Enabled(s, a) && !a.Poll? && !a.Compare?
    ensures ClientLeft(Get(Apply(s, a), a.c)) + 1 == ClientLeft(Get(s, a.c))
    ensures Left(Apply(s, a)) + 1 == Left(s)
  {
  }

  lemma PollLeft(s: State, o: Outcome)
    requires Ok(s) && Enabled(s, Poll(o))
    ensures Left(Apply(s, Poll(o))) + (if o.Data? then 1 else 0) == Left(s)
  {
  }

  lemma CompareLeft(s: State)
    requires Ok(s) && Enabled(s, Compare)
    ensures Left(Apply(s, Compare)) + (if Effective(s, Compare) then 1 else 0) == Left(s)
  {
  }

  lemma StepLeft(s: State, a: Action)
    requires Ok(s) && Enabled(s, a)
    ensures Left(Apply(s, a)) + (if Effective(s, a) then 1 else 0) == Left(s)
  {
    match a {
      case Poll(o) => PollLeft(s, o);
      case Compare => CompareLeft(s);
      case _ => ClientStepLeft(s, a);
    }
  }

  function EffectiveSteps(s: State, run: seq<Action>): nat
    requires CanRun(s, run)
    decreases |run|
  {
    if run == [] then 0
    else (if Effective(s, run[0]) then 1 else 0) + EffectiveSteps(Apply(s, run[0]), run[1..])
  }

  lemma {:induction false} RunLeft(s: State, run: seq<Action>)
    requires Ok(s) && CanRun(s, run)
    ensures Ok(Run(s, run)) && EffectiveSteps(s, run) + Left(Run(s, run)) == Left(s)
    decreases |run|
  {
    if run != [] {
      StepOk(s, run[0]);
      StepLeft(s, run[0]);
      RunLeft(Apply(s, run[0]), run[1..]);
    }
  }

  /** Every run has at most 14 effective steps, and it has 14 exactly when the server
      has finished; then everybody has stopped with the clocks 5, 9 and 10. */
  lemma ShutdownCompletes(firstIsP1: bool, junk: Message, run: seq<Action>)
    requires junk.clock != TABLE_P2[0] && CanRun(Initial(firstIsP1, junk), run)
    ensures EffectiveSteps(Initial(firstIsP1, junk), run) <= 14
    ensures EffectiveSteps(Initial(firstIsP1, junk), run) == 14 <==> Run(Initial(firstIsP1, junk), run).server.pc.Finished?
    ensures var e := Run(Initial(firstIsP1, junk), run);
      e.server.pc.Finished? ==>
        && e.p1.phase.Closed? && e.p3.phase.Closed?
        && e.p1.clock == 5 && e.p3.clock == 9 && e.server.clock == 10
  {
    var s := Initial(firstIsP1, junk);
    RunLeft(s, run);
    LeftAtLeastOne(Run(s, run));
  }

  lemma LeftAtLeastOne(s: State)
    requires Ok(s)
    ensures Left(s) >= 1
    ensures Left(s) == 1 <==> s.server.pc.Finished?
  {
  }

  /** The step of a client, if it has one. */
  function ClientStep(s: State, c: Process): Action {
    match Get(s, c).phase
    case Starting => Start(c)
    case Receiving => Deliver(c)
    case _ => Finish(c)
  }

  /** While the server has not finished, a client can take a step, or the server has
      the message it awaits, or that message is on its way to the server. */
  lemma SomethingToDo(s: State)
    requires Ok(s) && !s.server.pc.Finished?
    ensures || Enabled(s, ClientStep(s, P1)) || Enabled(s, ClientStep(s, P3))
            || (Enabled(s, Compare) && Effective(s, Compare))
            || s.p1.outbox != [] || s.p3.outbox != []
  {
  }

  /** No reachable state is stuck: unless the server has finished, an effective step
      is at most three steps away. */
  lemma NeverStuck(s: State) returns (run: seq<Action>)
    requires Reachable(s) && !s.server.pc.Finished?
    ensures |run| <= 4 && CanRun(s, run) && EffectiveSteps(s, run) > 0
  {
    ReachableOk(s);
    SomethingToDo(s);
    if Enabled(s, ClientStep(s, P1)) {
      run := [ClientStep(s, P1)];
      Single(s, run[0]);
    } else if Enabled(s, ClientStep(s, P3)) {
      run := [ClientStep(s, P3)];
      Single(s, run[0]);
    } else if Enabled(s, Compare) && Effective(s, Compare) {
      run := [Compare];
      Single(s, Compare);
    } else {
      run := Fetch(s, if s.p1.outbox != [] then P1 else P3);
    }
  }

  lemma Single(s: State, a: Action)
    requires Enabled(s, a) && Effective(s, a)
    ensures CanRun(s, [a]) && EffectiveSteps(s, [a]) == 1
  {
    assert CanRun(Apply(s, a), []);
    assert [a][1..] == [];
  }

  lemma Prepend(s: State, a: Action, run: seq<Action>)
    requires Enabled(s, a) && CanRun(Apply(s, a), run) && EffectiveSteps(Apply(s, a), run) > 0
    ensures CanRun(s, [a] + run) && EffectiveSteps(s, [a] + run) > 0
  {
    assert ([a] + run)[1..] == run;
  }

  /** Before its first poll the server fetches a message of either client. */
  lemma FetchFirst(s: State, c: Process) returns (run: seq<Action>)
    requires s.server.pc.First? && s.server.currentId < 3 && c != P2 && Get(s, c).outbox != []
    ensures |run| <= 2 && CanRun(s, run) && EffectiveSteps(s, run) > 0
  {
    if Polled(s) == c {
      Single(s, Poll(Data));
      run := [Poll(Data)];
    } else {
      var s' := Apply(s, Poll(Idle));
      Single(s', Poll(Data));
      Prepend(s, Poll(Idle), [Poll(Data)]);
      run := [Poll(Idle)] + [Poll(Data)];
    }
  }

  lemma FetchCheck(s: State, c: Process) returns (run: seq<Action>)
    requires Enabled(s, Compare) && !Effective(s, Compare) && c != P2 && Get(s, c).outbox != []
    ensures |run| <= 3 && CanRun(s, run) && EffectiveSteps(s, run) > 0
  {
    run := FetchFirst(Apply(s, Compare), c);
    Prepend(s, Compare, run);
    run := [Compare] + run;
  }

  /** Idle polls and failing comparisons take the server round to a channel with a
      message. */
  lemma Fetch(s: State, c: Process) returns (run: seq<Action>)
    requires Ok(s) && !s.server.pc.Finished? && c != P2 && Get(s, c).outbox != []
    requires s.server.pc.Check? ==> !Effective(s, Compare)
    ensures |run| <= 4 && CanRun(s, run) && EffectiveSteps(s, run) > 0
  {
    if s.server.pc.First? {
      run := FetchFirst(s, c);
    } else if s.server.pc.Check? {
      run := FetchCheck(s, c);
    } else if Polled(s) == c {
      Single(s, Poll(Data));
      run := [Poll(Data)];
    } else {
      var s' := Apply(s, Poll(Idle));
      run := FetchCheck(s', c);
      Prepend(s, Poll(Idle), run);
      run := [Poll(Idle)] + run;
    }
  }

  // ------------------------------------------------------------------
  // What the protocol does not give
  // ------------------------------------------------------------------

  lemma RunPrepend(s: State, a: Action, run: seq<Action>)
    requires Enabled(s, a) && CanRun(Apply(s, a), run)
    ensures CanRun(s, [a] + run) && Run(s, [a] + run) == Run(Apply(s, a), run)
  {
    assert ([a] + run)[1..] == run;
  }

  /** The server does not wait for both clients: it answers the first READY while the
      other client has not even started. */
  lemma AnswersTheFirst(firstIsP1: bool, junk: Message) returns (run: seq<Action>)
    requires junk.clock != TABLE_P2[0]
    ensures CanRun(Initial(firstIsP1, junk), run)
    ensures var e := Run(Initial(firstIsP1, junk), run);
      e.server.currentId == 1 && (e.p1.phase.Starting? || e.p3.phase.Starting?)
  {
    var c := if firstIsP1 then P1 else P3;
    var s0 := Initial(firstIsP1, junk);
    var s1 := Apply(s0, Start(c));
    var s2 := Apply(s1, Poll(Data));
    var s3 := Apply(s2, Compare);
    RunPrepend(s2, Compare, []);
    RunPrepend(s1, Poll(Data), [Compare] + []);
    RunPrepend(s0, Start(c), [Poll(Data)] + ([Compare] + []));
    run := [Start(c)] + ([Poll(Data)] + ([Compare] + []));
  }

  /** Nothing is accepted before it is sent, if and only if the receive buffer does not
      hold the first clock at the start. */
  lemma NothingAcceptedUnsentIffCleanBuffer(firstIsP1: bool, junk: Message)
    ensures NothingAcceptedUnsent(firstIsP1, junk) <==> junk.clock != TABLE_P2[0]
  {
    if junk.clock != TABLE_P2[0] {
      forall run | CanRun(Initial(firstIsP1, junk), run)
        ensures AcceptedImpliesStarted(Run(Initial(firstIsP1, junk), run))
      {
        RunFirstSent(Initial(firstIsP1, junk), run);
      }
    } else {
      var run := JunkAccepted(firstIsP1, junk);
      assert !AcceptedImpliesStarted(Run(Initial(firstIsP1, junk), run));
    }
  }

  /** If the server has accepted something, a client has started. */
  predicate AcceptedImpliesStarted(s: State) {
    s.server.currentId > 0 ==> !s.p1.phase.Starting? || !s.p3.phase.Starting?
  }

  ghost predicate NothingAcceptedUnsent(firstIsP1: bool, junk: Message) {
    forall run | CanRun(Initial(firstIsP1, junk), run) :: AcceptedImpliesStarted(Run(Initial(firstIsP1, junk), run))
  }

  lemma JunkAccepted(firstIsP1: bool, junk: Message) returns (run: seq<Action>)
    requires junk.clock == TABLE_P2[0]
    ensures CanRun(Initial(firstIsP1, junk), run)
    ensures !AcceptedImpliesStarted(Run(Initial(firstIsP1, junk), run))
  {
    var s0 := Initial(firstIsP1, junk);
    var s1 := Apply(s0, Poll(Idle));
    var s2 := Apply(s1, Poll(Idle));
    RunPrepend(s2, Compare, []);
    RunPrepend(s1, Poll(Idle), [Compare] + []);
    RunPrepend(s0, Poll(Idle), [Poll(Idle)] + ([Compare] + []));
    run := [Poll(Idle)] + ([Poll(Idle)] + ([Compare] + []));
  }
}
