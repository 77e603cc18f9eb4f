/** What the three delivery modes of a publish have in common, and the order
    that JUSTO adds. */
module DeliveryModes {
  import opened Justo
  import opened Barrier
  import opened Registry
  import opened History

  // ------------------------------------------------------------------
  // JUSTO is a total-order broadcast
  // ------------------------------------------------------------------

  /** Two subscribers that both receive two messages receive them in the same
      order, whoever published them and on whatever topics. Positions in the log
      are the order of sending; nothing is assumed of the subscriber count. */
  lemma TotalOrder(run: seq<Action>, a1: nat, a2: nat, b1: nat, b2: nat)
    requires CanRun(INITIAL, run)
    requires var log := Run(INITIAL, run).log;
      && a1 < |log| && a2 < |log| && b1 < |log| && b2 < |log|
      && log[a1].fd == log[a2].fd && log[b1].fd == log[b2].fd
      && log[a1].ticket == log[b1].ticket && log[a2].ticket == log[b2].ticket
      && log[a1].ticket != log[a2].ticket
    ensures a1 < a2 <==> b1 < b2
  {
    RunBase(INITIAL, run);
  }

  // ------------------------------------------------------------------
  // PARALELO
  // ------------------------------------------------------------------

  /** One PARALELO publish: the publisher creates the senders in order and does
      not join them. A sender is `Unborn`, then `Released`, then `Sent`. */
  datatype Parallel = Parallel(ticket: nat, payload: string, senders: seq<Thread>, created: nat, log: seq<Delivery>)

  datatype Step = Spawn(fd: int) | Transmit(t: nat)

  predicate CanStep(p: Parallel, a: Step) {
    match a
    case Spawn(_) => p.created < |p.senders|
    case Transmit(t) => t < |p.senders| && p.senders[t].phase == Released
  }

  function Take(p: Parallel, a: Step): Parallel
    requires CanStep(p, a)
  {
    match a
    case Spawn(fd) => p.(senders := p.senders[p.created := Thread(Released, fd)], created := p.created + 1)
    case Transmit(t) =>
      p.(senders := Move(p.senders, t, Sent),
         log := p.log + [Delivery(p.ticket, p.senders[t].fd, p.payload)])
  }

  predicate CanTake(p: Parallel, steps: seq<Step>)
    decreases |steps|
  {
    steps == [] || (CanStep(p, steps[0]) && CanTake(Take(p, steps[0]), steps[1..]))
  }

  function TakeAll(p: Parallel, steps: seq<Step>): Parallel
    requires CanTake(p, steps)
    decreases |steps|
  {
    if steps == [] then p else TakeAll(Take(p, steps[0]), steps[1..])
  }

  /** The descriptors handed to senders: `fds` before these steps, and those of the steps. */
  function SpawnedBy(fds: seq<int>, steps: seq<Step>): seq<int>
    decreases |steps|
  {
    if steps == [] then fds
    else SpawnedBy(if steps[0].Spawn? then fds + [steps[0].fd] else fds, steps[1..])
  }

  function Spawned(steps: seq<Step>): seq<int> { SpawnedBy([], steps) }

  predicate SendersOk(p: Parallel) {
    && p.created <= |p.senders|
    && (forall i :: 0 <= i < |p.senders| ==> (p.senders[i].phase == Unborn <==> i >= p.created))
    && (forall i :: 0 <= i < p.created ==> p.senders[i].phase == Released || p.senders[i].phase == Sent)
  }

  predicate SentOk(p: Parallel) {
    multiset(p.log) == Sends(p.senders, p.ticket, p.payload)
  }

  lemma StepSent(p: Parallel, a: Step)
    requires SendersOk(p) && SentOk(p) && CanStep(p, a)
    ensures SentOk(Take(p, a))
  {
    match a {
      case Spawn(fd) => SendsUpdate(p.senders, p.created, Thread(Released, fd), p.ticket, p.payload);
      case Transmit(t) => SendsUpdate(p.senders, t, p.senders[t].(phase := Sent), p.ticket, p.payload);
    }
  }

  lemma StepSenders(p: Parallel, a: Step)
    requires SendersOk(p) && CanStep(p, a)
    ensures SendersOk(Take(p, a)) && |Take(p, a).senders| == |p.senders|
  {
  }

  lemma StepSpawned(p: Parallel, a: Step, fds: seq<int>)
    requires CanStep(p, a) && Handed(p.senders, p.created, fds)
    ensures Handed(Take(p, a).senders, Take(p, a).created, if a.Spawn? then fds + [a.fd] else fds)
  {
  }

  lemma {:induction false} RunSpawned(p: Parallel, steps: seq<Step>, fds: seq<int>)
    requires SendersOk(p) && CanTake(p, steps) && Handed(p.senders, p.created, fds)
    ensures SendersOk(TakeAll(p, steps)) && |TakeAll(p, steps).senders| == |p.senders|
    ensures Handed(TakeAll(p, steps).senders, TakeAll(p, steps).created, SpawnedBy(fds, steps))
    decreases |steps|
  {
    if steps != [] {
      StepSenders(p, steps[0]);
      StepSpawned(p, steps[0], fds);
      RunSpawned(Take(p, steps[0]), steps[1..], if steps[0].Spawn? then fds + [steps[0].fd] else fds);
    }
  }

  lemma {:induction false} RunSent(p: Parallel, steps: seq<Step>)
    requires SendersOk(p) && SentOk(p) && CanTake(p, steps)
    ensures SentOk(TakeAll(p, steps))
    ensures TakeAll(p, steps).ticket == p.ticket && TakeAll(p, steps).payload == p.payload
    decreases |steps|
  {
    if steps != [] {
      StepSenders(p, steps[0]);
      StepSent(p, steps[0]);
      RunSent(Take(p, steps[0]), steps[1..]);
    }
  }

  function StartParallel(ticket: nat, payload: string, n: nat): Parallel {
    Parallel(ticket, payload, seq(n, _ => Thread(Unborn, 0)), 0, [])
  }

  /** No sender is left to run. */
  predicate Idle(p: Parallel) {
    p.created == |p.senders| && forall t :: 0 <= t < |p.senders| ==> !CanStep(p, Transmit(t))
  }

  lemma IdleAllSent(q: Parallel)
    requires SendersOk(q) && Idle(q)
    ensures forall i :: 0 <= i < |q.senders| ==> q.senders[i].phase == Sent
  {
    forall i | 0 <= i < |q.senders|
      ensures q.senders[i].phase == Sent
    {
      assert !CanStep(q, Transmit(i));
    }
  }

  lemma IdleHasSent(q: Parallel)
    requires SendersOk(q) && SentOk(q) && Idle(q)
    ensures multiset(q.log) == multiset(Deliveries(q.ticket, Fds(q.senders), q.payload))
  {
    IdleAllSent(q);
    SendsAll(q.senders, q.ticket, q.payload);
  }

  lemma StartOk(ticket: nat, payload: string, n: nat)
    ensures var p := StartParallel(ticket, payload, n);
      SendersOk(p) && SentOk(p) && Handed(p.senders, p.created, [])
  {
    SendsNone(StartParallel(ticket, payload, n).senders, ticket, payload);
  }

  /** PARALELO under any schedule: with the descriptors `fds` handed out in order, once
      nobody is left to run the messages sent are a permutation of the list that
      SECUENCIAL sends in order. */
  lemma ParallelPermutesSequential(ticket: nat, payload: string, fds: seq<int>, steps: seq<Step>)
    requires CanTake(StartParallel(ticket, payload, |fds|), steps) && Spawned(steps) <= fds
    requires Idle(TakeAll(StartParallel(ticket, payload, |fds|), steps))
    ensures multiset(TakeAll(StartParallel(ticket, payload, |fds|), steps).log)
         == multiset(Deliveries(ticket, fds, payload))
  {
    var p := StartParallel(ticket, payload, |fds|);
    StartOk(ticket, payload, |fds|);
    RunSpawned(p, steps, []);
    RunSent(p, steps);
    var q := TakeAll(p, steps);
    IdleHasSent(q);
    AllHanded(q.senders, Spawned(steps));
    assert Spawned(steps) == fds;
  }

  lemma WholePrefix(a: seq<int>, b: seq<int>)
    requires a <= b && |a| == |b|
    ensures a == b
  {
  }

  /** JUSTO, likewise. */
  lemma JustoPermutesSequential(prior: seq<Action>, payload: string, fds: seq<int>, run: seq<Action>)
    requires CanRun(INITIAL, prior) && !Run(INITIAL, prior).publishing
    requires WorkRun(Begun(Run(INITIAL, prior), |fds|, |fds|, payload), run) && CreatedFds(run) <= fds
    ensures var start := Run(INITIAL, prior);
      var justo := Run(Begun(start, |fds|, |fds|, payload), run);
      Stuck(justo) ==> Finished(justo, start, fds, payload)
  {
    EveryPublishCompletes(prior, |fds|, payload, run);
    if |CreatedFds(run)| == |fds| {
      WholePrefix(CreatedFds(run), fds);
    }
  }

  /** The modes agree. For any state of the registry, a publish on a topic in SECUENCIAL
      mode sends to the topic's subscribers in order of registration. In JUSTO and in
      PARALELO mode, each under any schedule of its own that hands out the descriptors
      of the same list in order, a permutation of that has been sent in the end. */
  lemma ModesAgree(w: World, limits: Limits, name: string, payload: string, prior: seq<Action>, run: seq<Action>,
                   ticket: nat, steps: seq<Step>)
    requires Permitted(w, limits, Publish(name, payload))
    requires CanRun(INITIAL, prior) && !Run(INITIAL, prior).publishing
    requires var fds := FdsOf(w.reg.subs.lists[name]);
      && WorkRun(Begun(Run(INITIAL, prior), |fds|, |fds|, payload), run) && CreatedFds(run) <= fds
      && CanTake(StartParallel(ticket, payload, |fds|), steps) && Spawned(steps) <= fds
    ensures var fds := FdsOf(w.reg.subs.lists[name]);
      Do(w, limits, Publish(name, payload)).log == w.log + Deliveries(w.published + 1, fds, payload)
    ensures var fds, start := FdsOf(w.reg.subs.lists[name]), Run(INITIAL, prior);
      var justo := Run(Begun(start, |fds|, |fds|, payload), run);
      Stuck(justo) ==> Finished(justo, start, fds, payload)
    ensures var fds := FdsOf(w.reg.subs.lists[name]);
      var parallel := TakeAll(StartParallel(ticket, payload, |fds|), steps);
      Idle(parallel) ==> multiset(parallel.log) == multiset(Deliveries(ticket, fds, payload))
  {
    var fds := FdsOf(w.reg.subs.lists[name]);
    JustoPermutesSequential(prior, payload, fds, run);
    if Idle(TakeAll(StartParallel(ticket, payload, |fds|), steps)) {
      ParallelPermutesSequential(ticket, payload, fds, steps);
    }
  }
}
