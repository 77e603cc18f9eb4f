/** Histories of atomic broker operations in SECUENCIAL mode: who receives what,
    and what becomes of the ids. */
module History {
  import opened Justo
  import opened Barrier
  import opened Registry

  datatype Op =
    | Subscribe(name: string, fd: int)
    | Advertise(name: string, fd: int)
    | Unsubscribe(name: string, id: int)
    | Retire(name: string, id: int)
    | Publish(name: string, payload: string)

  /** The registry, the ids it has issued, and everything sent to subscribers. */
  datatype World = World(reg: Registry, subs: Ledger, pubs: Ledger, published: nat, log: seq<Delivery>)

  const START := World(EMPTY, Ledger(map[], {}), Ledger(map[], {}), 0, [])

  /** What the clients and the system around the broker see to: a connection has
      a descriptor of its own, a topic has room, an unregister names a client
      that is registered, and a publish names a topic that exists. */
  ghost predicate Permitted(w: World, limits: Limits, op: Op) {
    match op
    case Subscribe(name, fd) =>
      && FreshFd(w.subs, fd) && FreshFd(w.pubs, fd)
      && (name in w.reg.subs.lists ==> |w.reg.subs.lists[name]| < limits.subscribers)
    case Advertise(name, fd) => FreshFd(w.subs, fd) && FreshFd(w.pubs, fd)
    case Unsubscribe(name, id) => name in w.reg.subs.lists && Listed(w.reg.subs.lists[name], id)
    case Retire(name, id) => name in w.reg.pubs.lists && Listed(w.reg.pubs.lists[name], id)
    case Publish(name, _) => name in w.reg.subs.lists
  }

  ghost function Do(w: World, limits: Limits, op: Op): World
    requires Permitted(w, limits, op)
  {
    match op
    case Subscribe(name, fd) =>
      var (reg, response) := RegisterSubscriber(w.reg, limits, name, fd);
      if response.status == OK then w.(reg := reg, subs := Enter(w.subs, response.id, name, fd)) else w.(reg := reg)
    case Advertise(name, fd) =>
      var (reg, response) := RegisterPublisher(w.reg, limits, name, fd);
      if response.status == OK then w.(reg := reg, pubs := Enter(w.pubs, response.id, name, fd)) else w.(reg := reg)
    case Unsubscribe(name, id) => w.(reg := UnregisterSubscriber(w.reg, name, id), subs := Leave(w.subs, id))
    case Retire(name, id) => w.(reg := UnregisterPublisher(w.reg, name, id), pubs := Leave(w.pubs, id))
    case Publish(name, payload) =>
      w.(published := w.published + 1,
         log := w.log + Deliveries(w.published + 1, FdsOf(w.reg.subs.lists[name]), payload))
  }

  ghost predicate Legal(w: World, limits: Limits, h: seq<Op>)
    decreases |h|
  {
    h == [] || (Permitted(w, limits, h[0]) && Legal(Do(w, limits, h[0]), limits, h[1..]))
  }

  ghost function After(w: World, limits: Limits, h: seq<Op>): World
    requires Legal(w, limits, h)
    decreases |h|
  {
    if h == [] then w else After(Do(w, limits, h[0]), limits, h[1..])
  }

  /** What one descriptor has received, in order. */
  function Received(log: seq<Delivery>, fd: int): seq<string> {
    if log == [] then []
    else (if log[0].fd == fd then [log[0].payload] else []) + Received(log[1..], fd)
  }

  /** What a history publishes on one topic, in order. */
  function PayloadsOn(h: seq<Op>, name: string): seq<string> {
    if h == [] then []
    else (if h[0].Publish? && h[0].name == name then [h[0].payload] else []) + PayloadsOn(h[1..], name)
  }

  // ------------------------------------------------------------------
  // What every operation keeps
  // ------------------------------------------------------------------

  /** Nothing has been sent to a descriptor that no subscriber ever had. */
  ghost predicate LogKnown(w: World) {
    forall d <- w.log :: !FreshFd(w.subs, d.fd)
  }

  ghost predicate WorldOk(w: World, limits: Limits) {
    && LedgerOk(w.reg.subs, w.subs, 1)
    && LedgerOk(w.reg.pubs, w.pubs, 0)
    && w.reg.subs.lists.Keys == w.reg.pubs.lists.Keys
    && |w.reg.subs.lists| <= limits.topics
    && w.reg.pubs.next <= limits.publishers
    && LogKnown(w)
  }

  lemma ListedIsIssued(w: World, limits: Limits, name: string, i: nat)
    requires WorldOk(w, limits) && name in w.reg.subs.lists && i < |w.reg.subs.lists[name]|
    ensures !FreshFd(w.subs, w.reg.subs.lists[name][i].fd)
  {
    var s := w.reg.subs.lists[name];
    assert Matches(s, name, w.subs);
    assert w.subs.issued[s[i].id].fd == s[i].fd;
  }

  lemma DoRegister(w: World, limits: Limits, op: Op)
    requires WorldOk(w, limits) && Permitted(w, limits, op) && (op.Subscribe? || op.Advertise?)
    ensures WorldOk(Do(w, limits, op), limits)
  {
    if op.Subscribe? && |w.reg.subs.lists| < limits.topics {
      OpenedOk(w.reg.subs, w.subs, 1, op.name);
      OpenedOk(w.reg.pubs, w.pubs, 0, op.name);
      AddedOk(Opened(w.reg.subs, op.name), w.subs, 1, op.name, op.fd);
      var l := Enter(w.subs, w.reg.subs.next, op.name, op.fd);
      forall d | d in w.log
        ensures !FreshFd(l, d.fd)
      {
        var id :| id in w.subs.issued && w.subs.issued[id].fd == d.fd;
        assert l.issued[id].fd == d.fd;
      }
    } else if op.Advertise? && op.name in w.reg.pubs.lists {
      AddedOk(w.reg.pubs, w.pubs, 0, op.name, op.fd);
    }
  }

  lemma DoOk(w: World, limits: Limits, op: Op)
    requires WorldOk(w, limits) && Permitted(w, limits, op)
    ensures WorldOk(Do(w, limits, op), limits)
  {
    match op {
      case Subscribe(_, _) => DoRegister(w, limits, op);
      case Advertise(_, _) => DoRegister(w, limits, op);
      case Unsubscribe(name, id) => RemovedOk(w.reg.subs, w.subs, 1, name, id);
      case Retire(name, id) => RemovedOk(w.reg.pubs, w.pubs, 0, name, id);
      case Publish(name, payload) =>
        var s := w.reg.subs.lists[name];
        var sent := Deliveries(w.published + 1, FdsOf(s), payload);
        forall d | d in sent
          ensures !FreshFd(w.subs, d.fd)
        {
          var i :| 0 <= i < |sent| && sent[i] == d;
          ListedIsIssued(w, limits, name, i);
        }
    }
  }

  lemma {:induction false} AfterOk(w: World, limits: Limits, h: seq<Op>)
    requires WorldOk(w, limits) && Legal(w, limits, h)
    ensures WorldOk(After(w, limits, h), limits)
    decreases |h|
  {
    if h != [] {
      DoOk(w, limits, h[0]);
      AfterOk(Do(w, limits, h[0]), limits, h[1..]);
    }
  }

  // ------------------------------------------------------------------
  // Delivery
  // ------------------------------------------------------------------

  lemma {:induction false} ReceivedConcat(a: seq<Delivery>, b: seq<Delivery>, fd: int)
    ensures Received(a + b, fd) == Received(a, fd) + Received(b, fd)
  {
    if a == [] {
      assert a + b == b;
    } else {
      assert (a + b)[1..] == a[1..] + b;
      ReceivedConcat(a[1..], b, fd);
    }
  }

  lemma {:induction false} ReceivedNone(log: seq<Delivery>, fd: int)
    requires forall d <- log :: d.fd != fd
    ensures Received(log, fd) == []
  {
    if log != [] {
      ReceivedNone(log[1..], fd);
    }
  }

  /** A sequential send reaches a descriptor of the list once. */
  lemma {:induction false} DeliveredOnce(ticket: nat, fds: seq<int>, payload: string, k: nat)
    requires k < |fds| && forall i, j :: 0 <= i < j < |fds| ==> fds[i] != fds[j]
    ensures Received(Deliveries(ticket, fds, payload), fds[k]) == [payload]
  {
    var sent := Deliveries(ticket, fds, payload);
    assert sent == [Delivery(ticket, fds[0], payload)] + Deliveries(ticket, fds[1..], payload);
    if k == 0 {
      ReceivedNone(Deliveries(ticket, fds[1..], payload), fds[0]);
    } else {
      DeliveredOnce(ticket, fds[1..], payload, k - 1);
    }
  }

  ghost predicate Subscribed(w: World, name: string, client: Client) {
    name in w.reg.subs.lists && client in w.reg.subs.lists[name]
  }

  lemma PayloadsOne(op: Op, name: string)
    ensures PayloadsOn([op], name) == if op.Publish? && op.name == name then [op.payload] else []
  {
  }

  lemma NothingAdded(s: seq<string>)
    ensures s + [] == s
  {
  }

  /** An operation other than its own unregister keeps a subscriber, and sends it
      what the operation publishes on its topic and nothing else. */
  lemma DoWhileSubscribed(w: World, limits: Limits, op: Op, name: string, client: Client)
    requires WorldOk(w, limits) && Permitted(w, limits, op)
    requires Subscribed(w, name, client) && op != Unsubscribe(name, client.id)
    ensures Subscribed(Do(w, limits, op), name, client)
    ensures Received(Do(w, limits, op).log, client.fd) == Received(w.log, client.fd) + PayloadsOn([op], name)
  {
    PayloadsOne(op, name);
    if op.Publish? {
      PublishReaches(w, limits, op.name, op.payload, name, client);
    } else {
      StaysSubscribed(w, limits, op, name, client);
      NothingAdded(Received(w.log, client.fd));
    }
  }

  lemma StaysSubscribed(w: World, limits: Limits, op: Op, name: string, client: Client)
    requires WorldOk(w, limits) && Permitted(w, limits, op) && !op.Publish?
    requires Subscribed(w, name, client) && op != Unsubscribe(name, client.id)
    ensures Subscribed(Do(w, limits, op), name, client)
    ensures Do(w, limits, op).log == w.log
  {
    if op.Unsubscribe? && op.name == name {
      WithoutKeeps(w.reg.subs.lists[name], op.id, client);
    }
  }

  lemma FdsDistinct(t: Table, l: Ledger, first: int, name: string)
    requires LedgerOk(t, l, first) && name in t.lists
    ensures forall i, j :: 0 <= i < j < |t.lists[name]| ==> t.lists[name][i].fd != t.lists[name][j].fd
  {
    forall i, j | 0 <= i < j < |t.lists[name]|
      ensures t.lists[name][i].fd != t.lists[name][j].fd
    {
      OnePlace(t, l, first, name, i, name, j);
    }
  }

  lemma OtherTopicMisses(t: Table, l: Ledger, first: int, topic: string, name: string, client: Client)
    requires LedgerOk(t, l, first) && topic in t.lists && name in t.lists
    requires topic != name && client in t.lists[name]
    ensures forall i :: 0 <= i < |t.lists[topic]| ==> t.lists[topic][i].fd != client.fd
  {
    var k :| 0 <= k < |t.lists[name]| && t.lists[name][k] == client;
    forall i | 0 <= i < |t.lists[topic]|
      ensures t.lists[topic][i].fd != client.fd
    {
      OnePlace(t, l, first, topic, i, name, k);
    }
  }

  lemma SendReaches(t: Table, l: Ledger, first: int, ticket: nat, payload: string, topic: string, name: string, client: Client)
    requires LedgerOk(t, l, first) && topic in t.lists && name in t.lists && client in t.lists[name]
    ensures Received(Deliveries(ticket, FdsOf(t.lists[topic]), payload), client.fd)
         == if topic == name then [payload] else []
  {
    var s := t.lists[topic];
    if topic == name {
      FdsDistinct(t, l, first, name);
      var k :| 0 <= k < |s| && s[k] == client;
      DeliveredOnce(ticket, FdsOf(s), payload, k);
    } else {
      OtherTopicMisses(t, l, first, topic, name, client);
      ReceivedNone(Deliveries(ticket, FdsOf(s), payload), client.fd);
    }
  }

  lemma PublishReaches(w: World, limits: Limits, topic: string, payload: string, name: string, client: Client)
    requires WorldOk(w, limits) && topic in w.reg.subs.lists && Subscribed(w, name, client)
    ensures Received(w.log + Deliveries(w.published + 1, FdsOf(w.reg.subs.lists[topic]), payload), client.fd)
         == Received(w.log, client.fd) + if topic == name then [payload] else []
  {
    SendReaches(w.reg.subs, w.subs, 1, w.published + 1, payload, topic, name, client);
    ReceivedConcat(w.log, Deliveries(w.published + 1, FdsOf(w.reg.subs.lists[topic]), payload), client.fd);
  }

  lemma ConcatAssociates<T>(a: seq<T>, b: seq<T>, c: seq<T>)
    ensures (a + b) + c == a + (b + c)
  {
  }

  lemma PayloadsStep(h: seq<Op>, name: string)
    requires h != []
    ensures PayloadsOn(h, name) == PayloadsOn([h[0]], name) + PayloadsOn(h[1..], name)
  {
  }

  lemma {:induction false} AfterWhileSubscribed(w: World, limits: Limits, h: seq<Op>, name: string, client: Client)
    requires WorldOk(w, limits) && Legal(w, limits, h)
    requires Subscribed(w, name, client) && Unsubscribe(name, client.id) !in h
    ensures Subscribed(After(w, limits, h), name, client)
    ensures Received(After(w, limits, h).log, client.fd) == Received(w.log, client.fd) + PayloadsOn(h, name)
    decreases |h|
  {
    if h == [] {
      assert PayloadsOn(h, name) == [];
    } else {
      DoOk(w, limits, h[0]);
      DoWhileSubscribed(w, limits, h[0], name, client);
      var w1 := Do(w, limits, h[0]);
      AfterWhileSubscribed(w1, limits, h[1..], name, client);
      PayloadsStep(h, name);
      ConcatAssociates(Received(w.log, client.fd), PayloadsOn([h[0]], name), PayloadsOn(h[1..], name));
    }
  }

  ghost predicate HasLeft(w: World, client: Client) {
    client.id in w.subs.gone && client.id in w.subs.issued && w.subs.issued[client.id].fd == client.fd
  }

  lemma DoAfterLeaving(w: World, limits: Limits, op: Op, client: Client)
    requires WorldOk(w, limits) && Permitted(w, limits, op) && HasLeft(w, client)
    ensures HasLeft(Do(w, limits, op), client)
    ensures Received(Do(w, limits, op).log, client.fd) == Received(w.log, client.fd)
  {
    if op.Publish? {
      var s := w.reg.subs.lists[op.name];
      var sent := Deliveries(w.published + 1, FdsOf(s), op.payload);
      ReceivedConcat(w.log, sent, client.fd);
      forall d | d in sent
        ensures d.fd != client.fd
      {
        var i :| 0 <= i < |sent| && sent[i] == d;
        assert Matches(s, op.name, w.subs);
        assert w.subs.issued[s[i].id].fd == s[i].fd;
      }
      ReceivedNone(sent, client.fd);
    }
  }

  lemma {:induction false} AfterLeaving(w: World, limits: Limits, h: seq<Op>, client: Client)
    requires WorldOk(w, limits) && Legal(w, limits, h) && HasLeft(w, client)
    ensures Received(After(w, limits, h).log, client.fd) == Received(w.log, client.fd)
    decreases |h|
  {
    if h != [] {
      DoOk(w, limits, h[0]);
      DoAfterLeaving(w, limits, h[0], client);
      AfterLeaving(Do(w, limits, h[0]), limits, h[1..], client);
    }
  }

  lemma SubscribeEffect(w: World, limits: Limits, name: string, fd: int)
    requires WorldOk(w, limits) && Permitted(w, limits, Subscribe(name, fd))
    requires |w.reg.subs.lists| < limits.topics
    ensures Subscribed(Do(w, limits, Subscribe(name, fd)), name, Client(w.reg.subs.next, fd))
    ensures Received(Do(w, limits, Subscribe(name, fd)).log, fd) == []
  {
    ReceivedNone(w.log, fd);
    var s := Do(w, limits, Subscribe(name, fd)).reg.subs.lists[name];
    assert s[|s| - 1] == Client(w.reg.subs.next, fd);
  }

  /** A subscriber registers and `mid` follows without its unregister. */
  ghost predicate StayOk(w: World, limits: Limits, name: string, fd: int, mid: seq<Op>) {
    && Permitted(w, limits, Subscribe(name, fd)) && |w.reg.subs.lists| < limits.topics
    && Legal(Do(w, limits, Subscribe(name, fd)), limits, mid)
    && Unsubscribe(name, w.reg.subs.next) !in mid
  }

  ghost function AfterStay(w: World, limits: Limits, name: string, fd: int, mid: seq<Op>): World
    requires StayOk(w, limits, name, fd, mid)
  {
    After(Do(w, limits, Subscribe(name, fd)), limits, mid)
  }

  lemma StayFrom(w: World, limits: Limits, name: string, fd: int, mid: seq<Op>)
    requires WorldOk(w, limits) && StayOk(w, limits, name, fd, mid)
    ensures Received(AfterStay(w, limits, name, fd, mid).log, fd) == PayloadsOn(mid, name)
  {
    DoOk(w, limits, Subscribe(name, fd));
    SubscribeEffect(w, limits, name, fd);
    AfterWhileSubscribed(Do(w, limits, Subscribe(name, fd)), limits, mid, name, Client(w.reg.subs.next, fd));
  }

  /** The worlds that some history leads to. */
  ghost predicate Reachable(w: World, limits: Limits) {
    exists pre :: Legal(START, limits, pre) && w == After(START, limits, pre)
  }

  lemma ReachableOk(w: World, limits: Limits)
    requires Reachable(w, limits)
    ensures WorldOk(w, limits)
  {
    var pre :| Legal(START, limits, pre) && w == After(START, limits, pre);
    AfterOk(START, limits, pre);
  }

  /** End-to-end delivery while subscribed. After any history a subscriber registers
      and any history `mid` without its unregister follows: it has received exactly the
      payloads `mid` published on its topic, once each and in order. */
  lemma ReceivesExactlyItsTopic(w: World, limits: Limits, name: string, fd: int, mid: seq<Op>)
    requires Reachable(w, limits) && StayOk(w, limits, name, fd, mid)
    ensures Received(AfterStay(w, limits, name, fd, mid).log, fd) == PayloadsOn(mid, name)
  {
    ReachableOk(w, limits);
    StayFrom(w, limits, name, fd, mid);
  }

  lemma LeavingEndsDelivery(w: World, limits: Limits, name: string, client: Client, post: seq<Op>)
    requires WorldOk(w, limits) && Subscribed(w, name, client)
    requires Permitted(w, limits, Unsubscribe(name, client.id))
    requires Legal(Do(w, limits, Unsubscribe(name, client.id)), limits, post)
    ensures Received(After(Do(w, limits, Unsubscribe(name, client.id)), limits, post).log, client.fd)
         == Received(w.log, client.fd)
  {
    DoOk(w, limits, Unsubscribe(name, client.id));
    assert Matches(w.reg.subs.lists[name], name, w.subs);
    AfterLeaving(Do(w, limits, Unsubscribe(name, client.id)), limits, post, client);
  }

  /** The history of a subscriber that is registered at `u`: `mid`, its
      unregister, and `post`. */
  ghost predicate Lifetime(u: World, limits: Limits, name: string, id: int, mid: seq<Op>, post: seq<Op>) {
    && Legal(u, limits, mid) && Unsubscribe(name, id) !in mid
    && Permitted(After(u, limits, mid), limits, Unsubscribe(name, id))
    && Legal(Do(After(u, limits, mid), limits, Unsubscribe(name, id)), limits, post)
  }

  ghost function AfterLifetime(u: World, limits: Limits, name: string, id: int, mid: seq<Op>, post: seq<Op>): World
    requires Lifetime(u, limits, name, id, mid, post)
  {
    After(Do(After(u, limits, mid), limits, Unsubscribe(name, id)), limits, post)
  }

  lemma LifetimeDelivers(u: World, limits: Limits, name: string, client: Client, mid: seq<Op>, post: seq<Op>)
    requires WorldOk(u, limits) && Subscribed(u, name, client)
    requires Lifetime(u, limits, name, client.id, mid, post)
    ensures Received(AfterLifetime(u, limits, name, client.id, mid, post).log, client.fd)
         == Received(u.log, client.fd) + PayloadsOn(mid, name)
  {
    AfterWhileSubscribed(u, limits, mid, name, client);
    AfterOk(u, limits, mid);
    LeavingEndsDelivery(After(u, limits, mid), limits, name, client, post);
  }

  /** A subscriber registers, `mid` follows, it unregisters, and `post` follows. */
  ghost predicate LifeOk(w: World, limits: Limits, name: string, fd: int, mid: seq<Op>, post: seq<Op>) {
    && Permitted(w, limits, Subscribe(name, fd)) && |w.reg.subs.lists| < limits.topics
    && Lifetime(Do(w, limits, Subscribe(name, fd)), limits, name, w.reg.subs.next, mid, post)
  }

  ghost function AfterLife(w: World, limits: Limits, name: string, fd: int, mid: seq<Op>, post: seq<Op>): World
    requires LifeOk(w, limits, name, fd, mid, post)
  {
    AfterLifetime(Do(w, limits, Subscribe(name, fd)), limits, name, w.reg.subs.next, mid, post)
  }

  lemma LifeFrom(w: World, limits: Limits, name: string, fd: int, mid: seq<Op>, post: seq<Op>)
    requires WorldOk(w, limits) && LifeOk(w, limits, name, fd, mid, post)
    ensures Received(AfterLife(w, limits, name, fd, mid, post).log, fd) == PayloadsOn(mid, name)
  {
    DoOk(w, limits, Subscribe(name, fd));
    SubscribeEffect(w, limits, name, fd);
    LifetimeDelivers(Do(w, limits, Subscribe(name, fd)), limits, name, Client(w.reg.subs.next, fd), mid, post);
  }

  /** End-to-end delivery over a whole life: from its registration after any history,
      through `mid`, until it unregisters, and whatever history `post` follows, a
      subscriber receives exactly what `mid` published on its topic. */
  lemma ReceivesExactlyItsLifetime(w: World, limits: Limits, name: string, fd: int, mid: seq<Op>, post: seq<Op>)
    requires Reachable(w, limits) && LifeOk(w, limits, name, fd, mid, post)
    ensures Received(AfterLife(w, limits, name, fd, mid, post).log, fd) == PayloadsOn(mid, name)
  {
    ReachableOk(w, limits);
    LifeFrom(w, limits, name, fd, mid, post);
  }

  // ------------------------------------------------------------------
  // Ids
  // ------------------------------------------------------------------

  /** The ids from `first` up to but not including `next`. */
  function Range(first: int, next: int): (r: set<int>)
    requires first <= next
    ensures forall id :: id in r <==> first <= id < next
    ensures |r| == next - first
    decreases next - first
  {
    if first == next then {} else Range(first, next - 1) + {next - 1}
  }

  ghost function LiveIds(t: Table): set<int> {
    set name, i | name in t.lists && 0 <= i < |t.lists[name]| :: t.lists[name][i].id
  }

  lemma LiveAndGone(t: Table, l: Ledger, first: int)
    requires LedgerOk(t, l, first)
    ensures LiveIds(t) !! l.gone
    ensures LiveIds(t) + l.gone == Range(first, t.next)
  {
    forall id | id in LiveIds(t)
      ensures id in l.issued && id !in l.gone
    {
      var name, i :| name in t.lists && 0 <= i < |t.lists[name]| && t.lists[name][i].id == id;
      assert Matches(t.lists[name], name, l);
    }
    forall id | id in l.issued && id !in l.gone
      ensures id in LiveIds(t)
    {
      var name := l.issued[id].name;
      var i :| 0 <= i < |t.lists[name]| && t.lists[name][i].id == id;
    }
  }

  /** Over every history: the ids of each kind that are registered or gone are
      exactly those issued, none is both, each list is in ascending order, an id
      is registered in one place only, and there are never more publishers
      registered than the limit. */
  lemma IdsAccountedFor(limits: Limits, h: seq<Op>)
    requires Legal(START, limits, h)
    ensures var w := After(START, limits, h);
      && 1 <= w.reg.subs.next && 0 <= w.reg.pubs.next
      && LiveIds(w.reg.subs) !! w.subs.gone
      && LiveIds(w.reg.subs) + w.subs.gone == Range(1, w.reg.subs.next)
      && LiveIds(w.reg.pubs) !! w.pubs.gone
      && LiveIds(w.reg.pubs) + w.pubs.gone == Range(0, w.reg.pubs.next)
      && (forall name :: name in w.reg.subs.lists ==> Ascending(w.reg.subs.lists[name]))
      && (forall name :: name in w.reg.pubs.lists ==> Ascending(w.reg.pubs.lists[name]))
      && |LiveIds(w.reg.pubs)| + |w.pubs.gone| == w.reg.pubs.next <= limits.publishers
  {
    AfterOk(START, limits, h);
    var w := After(START, limits, h);
    LiveAndGone(w.reg.subs, w.subs, 1);
    LiveAndGone(w.reg.pubs, w.pubs, 0);
  }
}
