/** The shutdown protocol: clients P1 and P3 and the server P2, which polls one
    channel from each of them, in the order in which they connected. */
module Shutdown {
  import opened LamportClock

  const TABLE_P1: seq<nat> := [3]
  const TABLE_P2: seq<nat> := [1, 5, 9]
  const TABLE_P3: seq<nat> := [7]

  datatype Process = P1 | P2 | P3

  datatype Kind = READY_TO_SHUTDOWN | SHUTDOWN_NOW | SHUTDOWN_ACK

  datatype Message = Message(origin: Process, action: Kind, clock: nat)

  /** A printed line: what was sent or accepted, and the clock afterwards. */
  datatype Event =
    | Sent(message: Message)
    | Received(message: Message, clock: nat)

  datatype Phase =
    | Starting
    | Receiving
    | Closing   // the table is complete, about to send the ACK and close
    | Closed

  /** A client with its channels from and to the server. */
  datatype Client = Client(
    phase: Phase, currentId: nat, clock: nat, log: seq<Event>, inbox: seq<Message>, outbox: seq<Message>)

  datatype Pc = First | Second | Check | Finished

  datatype Server = Server(pc: Pc, currentId: nat, clock: nat, log: seq<Event>, buffer: Message)

  datatype State = State(firstIsP1: bool, p1: Client, p3: Client, server: Server)

  /** What a poll finds. */
  datatype Outcome = Idle | Data | Eof

  datatype Action =
    | Start(c: Process)      // a client announces that it is ready
    | Deliver(c: Process)    // a client receives a message
    | Finish(c: Process)     // a client sends its ACK and closes
    | Poll(o: Outcome)
    | Compare                // the server compares its buffer with its table

  const FRESH := Client(Starting, 0, 0, [], [], [])

  function Initial(firstIsP1: bool, junk: Message): State {
    State(firstIsP1, FRESH, FRESH, Server(First, 0, 0, [], junk))
  }

  // ------------------------------------------------------------------
  // Steps
  // ------------------------------------------------------------------

  function Get(s: State, c: Process): Client { if c == P1 then s.p1 else s.p3 }

  function Set(s: State, c: Process, x: Client): State {
    if c == P1 then s.(p1 := x) else s.(p3 := x)
  }

  function TableOf(c: Process): seq<nat> { if c == P1 then TABLE_P1 else TABLE_P3 }

  /** The client whose channel the server polls next. */
  function Polled(s: State): Process {
    if s.firstIsP1 <==> s.server.pc == First then P1 else P3
  }

  predicate Enabled(s: State, a: Action) {
    match a
    case Start(c) => c != P2 && Get(s, c).phase.Starting?
    case Deliver(c) => c != P2 && Get(s, c).phase.Receiving? && Get(s, c).inbox != []
                    && Get(s, c).currentId < |TableOf(c)|
    case Finish(c) => c != P2 && Get(s, c).phase.Closing?
    case Poll(o) =>
      && (s.server.pc.First? || s.server.pc.Second?)
      && (o.Data? ==> Get(s, Polled(s)).outbox != [])
      && (o.Eof? ==> Get(s, Polled(s)).outbox == [] && Get(s, Polled(s)).phase.Closed?)
    case Compare => s.server.pc.Check? && s.server.currentId < |TABLE_P2|
  }

  function SendReady(c: Client, p: Process): Client {
    var m := Message(p, READY_TO_SHUTDOWN, c.clock + 1);
    c.(phase := Receiving, clock := m.clock, log := c.log + [Sent(m)], outbox := c.outbox + [m])
  }

  function Receive(c: Client, table: seq<nat>): Client
    requires c.inbox != [] && c.currentId < |table|
  {
    var m, rest := c.inbox[0], c.inbox[1..];
    if m.clock == table[c.currentId] then
      var clock := Bump(c.clock, m.clock);
      c.(phase := if c.currentId + 1 == |table| then Closing else Receiving, currentId := c.currentId + 1,
         clock := clock, log := c.log + [Received(m, clock)], inbox := rest)
    else
      c.(inbox := rest)
  }

  function SendAck(c: Client, p: Process): Client {
    var m := Message(p, SHUTDOWN_ACK, c.clock + 1);
    c.(phase := Closed, clock := m.clock, log := c.log + [Sent(m)], outbox := c.outbox + [m])
  }

  /** After a poll: on to the comparison if the buffer matches after data, or after
      the second poll. */
  function PollWith(s: State, o: Outcome): State
    requires Enabled(s, Poll(o)) && s.server.currentId < |TABLE_P2|
  {
    var c := Get(s, Polled(s));
    var buffer := if o.Data? then c.outbox[0] else s.server.buffer;
    var next := if s.server.pc.Second? || (!o.Idle? && buffer.clock == TABLE_P2[s.server.currentId]) then Check else Second;
    Set(s, Polled(s), if o.Data? then c.(outbox := c.outbox[1..]) else c)
      .(server := s.server.(pc := next, buffer := buffer))
  }

  function Inform(c: Client, m: Message): Client { c.(inbox := c.inbox + [m]) }

  /** The answer to an accepted message goes to both clients. */
  function Answer(s: State, accepted: nat): State {
    if Answered(accepted) then
      var m := Message(P2, SHUTDOWN_NOW, s.server.clock + 1);
      s.(p1 := Inform(s.p1, m), p3 := Inform(s.p3, m),
         server := s.server.(clock := m.clock, log := s.server.log + [Sent(m)]))
    else
      s
  }

  function CompareWith(s: State): State
    requires s.server.currentId < |TABLE_P2|
  {
    var m := s.server.buffer;
    if m.clock != TABLE_P2[s.server.currentId] then
      s.(server := s.server.(pc := First))
    else
      var clock := Bump(s.server.clock, m.clock);
      var accepted := s.(server := s.server.(clock := clock, log := s.server.log + [Received(m, clock)]));
      var answered := Answer(accepted, m.clock);
      answered.(server := answered.server.(
        currentId := s.server.currentId + 1,
        pc := if s.server.currentId + 1 == |TABLE_P2| then Finished else First,
        buffer := if s.server.currentId + 1 == |TABLE_P2| then m else m.(clock := 0)))
  }

  function Apply(s: State, a: Action): State
    requires Enabled(s, a)
  {
    match a
    case Start(c) => Set(s, c, SendReady(Get(s, c), c))
    case Deliver(c) => Set(s, c, Receive(Get(s, c), TableOf(c)))
    case Finish(c) => Set(s, c, SendAck(Get(s, c), c))
    case Poll(o) => if s.server.currentId < |TABLE_P2| then PollWith(s, o) else s
    case Compare => CompareWith(s)
  }

  predicate CanRun(s: State, run: seq<Action>)
    decreases |run|
  {
    run == [] || (Enabled(s, run[0]) && CanRun(Apply(s, run[0]), run[1..]))
  }

  function Run(s: State, run: seq<Action>): State
    requires CanRun(s, run)
    decreases |run|
  {
    if run == [] then s else Run(Apply(s, run[0]), run[1..])
  }

  /** Reached from the start, with either order of connection and any contents of
      the receive buffer but the first clock. */
  ghost predicate Reachable(s: State) {
    exists firstIsP1, junk: Message, run ::
      && junk.clock != TABLE_P2[0]
      && CanRun(Initial(firstIsP1, junk), run) && s == Run(Initial(firstIsP1, junk), run)
  }

  // ------------------------------------------------------------------
  // What each process has done
  // ------------------------------------------------------------------

  function Ready(p: Process): Message { Message(p, READY_TO_SHUTDOWN, 1) }

  function Ack(p: Process): Message { Message(p, SHUTDOWN_ACK, if p == P1 then 5 else 9) }

  function Now(clock: nat): Message { Message(P2, SHUTDOWN_NOW, clock) }

  /** The clock that a client waits for. */
  function Awaited(p: Process): nat { if p == P1 then 3 else 7 }

  function ClientLog(p: Process, phase: Phase): seq<Event> {
    match phase
    case Starting => []
    case Receiving => [Sent(Ready(p))]
    case Closing => [Sent(Ready(p)), Received(Now(Awaited(p)), Awaited(p) + 1)]
    case Closed => [Sent(Ready(p)), Received(Now(Awaited(p)), Awaited(p) + 1), Sent(Ack(p))]
  }

  function ClockIn(p: Process, phase: Phase): nat {
    match phase
    case Starting => 0
    case Receiving => 1
    case Closing => Awaited(p) + 1
    case Closed => Awaited(p) + 2
  }

  /** A client's clock and log are settled by its phase. */
  predicate ClientOk(p: Process, c: Client) {
    && c.currentId == (if c.phase.Starting? || c.phase.Receiving? then 0 else 1)
    && c.clock == ClockIn(p, c.phase)
    && c.log == ClientLog(p, c.phase)
  }

  /** The log of the server after `k` acceptances, the first of which is the READY of
      `p`. */
  function ServerLog(k: nat, p: Process): seq<Event> {
    if k == 0 then []
    else if k == 1 then [Received(Ready(p), 2), Sent(Now(3))]
    else if k == 2 then [Received(Ready(p), 2), Sent(Now(3)), Received(Ack(P1), 6), Sent(Now(7))]
    else [Received(Ready(p), 2), Sent(Now(3)), Received(Ack(P1), 6), Sent(Now(7)), Received(Ack(P3), 10)]
  }

  function ServerClockAt(k: nat): nat {
    if k == 0 then 0 else if k == 1 then 3 else if k == 2 then 7 else 10
  }

  predicate ServerOk(v: Server) {
    && v.currentId <= |TABLE_P2|
    && v.clock == ServerClockAt(v.currentId)
    && (v.log == ServerLog(v.currentId, P1) || v.log == ServerLog(v.currentId, P3))
    && (v.pc.Finished? <==> v.currentId == |TABLE_P2|)
  }

  /** What the server has sent to each client. */
  function Announced(k: nat): seq<Message> {
    if k == 0 then [] else if k == 1 then [Now(3)] else [Now(3), Now(7)]
  }

  /** What is left in a client's channel from the server. */
  predicate InboxOk(p: Process, c: Client, k: nat) {
    if p == P1 then
      if c.phase.Starting? || c.phase.Receiving? then c.inbox == Announced(k)
      else k >= 1 && c.inbox == Announced(k)[1..]
    else
      if c.phase.Starting? then c.inbox == Announced(k)
      else if c.phase.Receiving? then c.inbox == Announced(k) || (k >= 1 && c.inbox == Announced(k)[1..])
      else k >= 2 && c.inbox == []
  }

  /** What is left in a client's channel to the server. */
  predicate OutboxOk(p: Process, c: Client) {
    match c.phase
    case Starting => c.outbox == []
    case Receiving | Closing => c.outbox == [] || c.outbox == [Ready(p)]
    case Closed => c.outbox == [] || c.outbox == [Ack(p)] || c.outbox == [Ready(p), Ack(p)]
  }

  /** The server holds a message that it has taken and will accept. */
  predicate Holds(v: Server, m: Message) { v.pc.Check? && v.buffer == m }

  /** The awaited message is in its channel as long as the server does not hold it. */
  predicate AwaitedOk(s: State) {
    var v, a, b := s.server, s.p1, s.p3;
    if v.currentId == 0 then
      && !a.phase.Closing? && !a.phase.Closed? && !b.phase.Closing? && !b.phase.Closed?
      && if v.buffer.clock == 1 then
           || (Holds(v, Ready(P1)) && a.phase.Receiving? && a.outbox == [] && (b.phase.Receiving? ==> b.outbox != []))
           || (Holds(v, Ready(P3)) && b.phase.Receiving? && b.outbox == [] && (a.phase.Receiving? ==> a.outbox != []))
         else
           (a.phase.Receiving? ==> a.outbox != []) && (b.phase.Receiving? ==> b.outbox != [])
    else if v.currentId == 1 then
      && !b.phase.Closing? && !b.phase.Closed?
      && if v.buffer.clock == 5 then Holds(v, Ack(P1)) && a.phase.Closed? && a.outbox == []
         else a.phase.Closed? ==> a.outbox != []
    else
      && a.phase.Closed? && a.outbox == []
      && if v.currentId == 2 then
           if v.buffer.clock == 9 then Holds(v, Ack(P3)) && b.phase.Closed? && b.outbox == []
           else b.phase.Closed? ==> b.outbox != []
         else b.phase.Closed? && b.outbox == []
  }

  predicate Ok(s: State) {
    && ClientOk(P1, s.p1) && ClientOk(P3, s.p3) && ServerOk(s.server)
    && InboxOk(P1, s.p1, s.server.currentId) && InboxOk(P3, s.p3, s.server.currentId)
    && OutboxOk(P1, s.p1) && OutboxOk(P3, s.p3)
    && AwaitedOk(s)
  }

  lemma StartOk(s: State, c: Process)
    requires Ok(s) && Enabled(s, Start(c))
    ensures Ok(Apply(s, Start(c)))
  {
    assert Get(s, c).log + [Sent(Ready(c))] == ClientLog(c, Receiving);
    assert Get(s, c).outbox + [Ready(c)] == [Ready(c)];
  }

  lemma DeliverOk(s: State, c: Process)
    requires Ok(s) && Enabled(s, Deliver(c))
    ensures Ok(Apply(s, Deliver(c)))
  {
    assert Get(s, c).log + [Received(Now(Awaited(c)), Awaited(c) + 1)] == ClientLog(c, Closing);
  }

  lemma FinishOk(s: State, c: Process)
    requires Ok(s) && Enabled(s, Finish(c))
    ensures Ok(Apply(s, Finish(c)))
  {
    assert Get(s, c).log + [Sent(Ack(c))] == ClientLog(c, Closed);
  }

  lemma PollOk(s: State, a: Action)
    requires Ok(s) && Enabled(s, a) && a.Poll?
    ensures Ok(Apply(s, a))
  {
  }

  /** The server skips what it does not expect. */
  lemma SkipOk(s: State)
    requires Ok(s) && Enabled(s, Compare) && s.server.buffer.clock != TABLE_P2[s.server.currentId]
    ensures Ok(Apply(s, Compare))
  {
  }

  lemma AcceptOk(s: State)
    requires Ok(s) && Enabled(s, Compare) && s.server.buffer.clock == TABLE_P2[s.server.currentId]
    ensures Ok(Apply(s, Compare))
  {
    var v, v' := s.server, Apply(s, Compare).server;
    if v.currentId == 0 {
      assert v'.log == ServerLog(1, v.buffer.origin);
    } else if v.currentId == 1 {
      assert v'.log == v.log + [Received(Ack(P1), 6), Sent(Now(7))];
    } else {
      assert v'.log == v.log + [Received(Ack(P3), 10)];
    }
  }

  lemma CompareOk(s: State, a: Action)
    requires Ok(s) && Enabled(s, a) && a.Compare?
    ensures Ok(Apply(s, a))
  {
    if s.server.buffer.clock == TABLE_P2[s.server.currentId] {
      AcceptOk(s);
    } else {
      SkipOk(s);
    }
  }

  lemma StepOk(s: State, a: Action)
    requires Ok(s) && Enabled(s, a)
    ensures Ok(Apply(s, a))
  {
    match a {
      case Start(c) => StartOk(s, c);
      case Deliver(c) => DeliverOk(s, c);
      case Finish(c) => FinishOk(s, c);
      case Poll(_) => PollOk(s, a);
      case Compare => CompareOk(s, a);
    }
  }

  lemma {:induction false} RunOk(s: State, run: seq<Action>)
    requires Ok(s) && CanRun(s, run)
    ensures Ok(Run(s, run))
    decreases |run|
  {
    if run != [] {
      StepOk(s, run[0]);
      RunOk(Apply(s, run[0]), run[1..]);
    }
  }

  lemma ReachableOk(s: State)
    requires Reachable(s)
    ensures Ok(s)
  {
    var firstIsP1, junk: Message, run :|
      && junk.clock != TABLE_P2[0]
      && CanRun(Initial(firstIsP1, junk), run) && s == Run(Initial(firstIsP1, junk), run);
    RunOk(Initial(firstIsP1, junk), run);
  }
}
