/** The broker's tables as the program keeps them: a topic table whose entries
    hold fixed-size client arrays with a count of the live prefix. Cells past
    the prefix may hold anything. */
module Broker {
  import opened Justo
  import opened Barrier
  import opened Registry
  import opened History

  // ------------------------------------------------------------------
  // The topic table as a sequence of values
  // ------------------------------------------------------------------

  datatype Kind = Subscribers | Publishers

  datatype Entry = Entry(name: string, subs: seq<Client>, pubs: seq<Client>) {
    function List(kind: Kind): seq<Client> {
      match kind
      case Subscribers => subs
      case Publishers => pubs
    }
  }

  predicate DistinctNames(s: seq<Entry>) {
    forall i, j :: 0 <= i < j < |s| ==> s[i].name != s[j].name
  }

  /** Topics are only ever added at the end, and none changes its name. */
  predicate SameTopics(before: seq<Entry>, after: seq<Entry>) {
    |before| <= |after| && forall i :: 0 <= i < |before| ==> after[i].name == before[i].name
  }

  /** `client` has been added at the end of its kind's list of the topic `name`, which is
      opened at the end of the table if it was not there; nothing else has changed. */
  predicate ClientAdded(before: seq<Entry>, after: seq<Entry>, kind: Kind, name: string, client: Client) {
    && |before| <= |after| <= |before| + 1
    && (|after| == |before| + 1 <==> !Named(before, name))
    && (exists i :: 0 <= i < |after| && after[i].name == name)
    && forall i :: 0 <= i < |after| ==>
         var was := if i < |before| then before[i] else Entry(name, [], []);
         after[i] == if was.name != name then was
                     else if kind == Subscribers then was.(subs := was.subs + [client])
                     else was.(pubs := was.pubs + [client])
  }

  /** What a subscriber that registers gets: ERROR and no change when the topic table is
      full, else the next id, and a place at the end of its topic's list. */
  predicate SubscriberServed(before: seq<Entry>, after: seq<Entry>, limits: Limits, name: string, fd: int,
                             next: int, next': int, response: Response) {
    if |before| >= limits.topics then
      response == Response(ERROR, -1) && after == before && next' == next
    else
      && response == Response(OK, next) && next' == next + 1
      && ClientAdded(before, after, Subscribers, name, Client(next, fd))
  }

  /** What a publisher that registers gets: ERROR and no change without its topic, LIMIT
      and no change when the ids are used up, else the next id and a place. */
  predicate PublisherServed(before: seq<Entry>, after: seq<Entry>, limits: Limits, name: string, fd: int,
                            next: int, next': int, response: Response) {
    if !Named(before, name) then
      response == Response(ERROR, -1) && after == before && next' == next
    else if next >= limits.publishers then
      response == Response(LIMIT, -1) && after == before && next' == next
    else
      && response == Response(OK, next) && next' == next + 1
      && ClientAdded(before, after, Publishers, name, Client(next, fd))
  }

  /** The client `id` has left its kind's list of the topic `name`; the others keep their
      order and nothing else has changed. */
  predicate ClientLeft(before: seq<Entry>, after: seq<Entry>, kind: Kind, name: string, id: int) {
    && |after| == |before|
    && forall i :: 0 <= i < |after| ==>
         if before[i].name != name then after[i] == before[i]
         else
           && after[i].name == name
           && (kind == Subscribers ==> after[i].pubs == before[i].pubs && LeftOut(before[i].subs, after[i].subs, id))
           && (kind == Publishers ==> after[i].subs == before[i].subs && LeftOut(before[i].pubs, after[i].pubs, id))
  }

  /** `after` is `before` without one client, which has that id. */
  predicate LeftOut(before: seq<Client>, after: seq<Client>, id: int) {
    exists k :: 0 <= k < |before| && before[k].id == id && after == before[..k] + before[k + 1..]
  }

  predicate PubsBounded(s: seq<Entry>, bound: int) {
    forall i :: 0 <= i < |s| ==> |s[i].pubs| <= bound
  }

  /** The lists of one kind in the first `n` entries, by name. */
  function ListsTo(s: seq<Entry>, n: nat, kind: Kind): map<string, seq<Client>>
    requires n <= |s|
  {
    if n == 0 then map[] else ListsTo(s, n - 1, kind)[s[n - 1].name := s[n - 1].List(kind)]
  }

  function ListsOf(s: seq<Entry>, kind: Kind): map<string, seq<Client>> { ListsTo(s, |s|, kind) }

  predicate Named(s: seq<Entry>, name: string) {
    exists i :: 0 <= i < |s| && s[i].name == name
  }

  lemma {:induction false} ListsToKeys(s: seq<Entry>, n: nat, kind: Kind, name: string)
    requires n <= |s|
    ensures name in ListsTo(s, n, kind) <==> exists i :: 0 <= i < n && s[i].name == name
  {
    if n != 0 {
      ListsToKeys(s, n - 1, kind, name);
    }
  }

  lemma ListsKeys(s: seq<Entry>, kind: Kind, name: string)
    ensures name in ListsOf(s, kind) <==> Named(s, name)
  {
    ListsToKeys(s, |s|, kind, name);
  }

  lemma {:induction false} ListsToAt(s: seq<Entry>, n: nat, kind: Kind, i: nat)
    requires DistinctNames(s) && i < n <= |s|
    ensures s[i].name in ListsTo(s, n, kind) && ListsTo(s, n, kind)[s[i].name] == s[i].List(kind)
  {
    if i != n - 1 {
      ListsToAt(s, n - 1, kind, i);
    }
  }

  lemma ListsAt(s: seq<Entry>, kind: Kind, i: nat)
    requires DistinctNames(s) && i < |s|
    ensures s[i].name in ListsOf(s, kind) && ListsOf(s, kind)[s[i].name] == s[i].List(kind)
  {
    ListsToAt(s, |s|, kind, i);
  }

  lemma {:induction false} ListsToSize(s: seq<Entry>, n: nat, kind: Kind)
    requires DistinctNames(s) && n <= |s|
    ensures |ListsTo(s, n, kind)| == n
  {
    if n != 0 {
      ListsToSize(s, n - 1, kind);
      ListsToKeys(s, n - 1, kind, s[n - 1].name);
      assert s[n - 1].name !in ListsTo(s, n - 1, kind);
    }
  }

  lemma ListsSize(s: seq<Entry>, kind: Kind)
    requires DistinctNames(s)
    ensures |ListsOf(s, kind)| == |s|
  {
    ListsToSize(s, |s|, kind);
  }

  lemma {:induction false} ListsToAppend(s: seq<Entry>, n: nat, kind: Kind, e: Entry)
    requires n <= |s|
    ensures ListsTo(s + [e], n, kind) == ListsTo(s, n, kind)
  {
    if n != 0 {
      ListsToAppend(s, n - 1, kind, e);
    }
  }

  lemma SameNames(s: seq<Entry>, s': seq<Entry>, name: string)
    requires |s| == |s'| && forall i :: 0 <= i < |s| ==> s[i].name == s'[i].name
    requires Named(s, name)
    ensures Named(s', name)
  {
    var i :| 0 <= i < |s| && s[i].name == name;
    assert s'[i].name == name;
  }

  /** Replacing one entry under the same name changes the table at that name. */
  lemma UpdatedEntry(s: seq<Entry>, kind: Kind, k: nat, e: Entry)
    requires DistinctNames(s) && k < |s| && e.name == s[k].name
    ensures DistinctNames(s[k := e])
    ensures ListsOf(s[k := e], kind) == ListsOf(s, kind)[e.name := e.List(kind)]
  {
    var s' := s[k := e];
    var m, m' := ListsOf(s, kind)[e.name := e.List(kind)], ListsOf(s', kind);
    forall name
      ensures name in m' <==> name in m
      ensures name in m ==> m'[name] == m[name]
    {
      ListsKeys(s, kind, name);
      ListsKeys(s', kind, name);
      ListsAt(s, kind, k);
      if Named(s, name) {
        SameNames(s, s', name);
      }
      if Named(s', name) {
        SameNames(s', s, name);
        var i :| 0 <= i < |s'| && s'[i].name == name;
        ListsAt(s', kind, i);
        ListsAt(s, kind, i);
      }
    }
  }

  lemma AppendedEntry(s: seq<Entry>, kind: Kind, e: Entry)
    requires DistinctNames(s) && !Named(s, e.name)
    ensures DistinctNames(s + [e])
    ensures ListsOf(s + [e], kind) == ListsOf(s, kind)[e.name := e.List(kind)]
  {
    ListsToAppend(s, |s|, kind, e);
  }

  /** The table after its topic `name` has been opened, if it was not there. */
  function WithTopic(s: seq<Entry>, name: string): seq<Entry> {
    if Named(s, name) then s else s + [Entry(name, [], [])]
  }

  lemma OpenedNamed(s: seq<Entry>, name: string)
    ensures Named(WithTopic(s, name), name)
  {
    if !Named(s, name) {
      assert (s + [Entry(name, [], [])])[|s|].name == name;
    }
  }

  function TableOf(s: seq<Entry>, kind: Kind, next: int): Table {
    Table(ListsOf(s, kind), next)
  }

  lemma OpenedTable(s: seq<Entry>, kind: Kind, next: int, name: string)
    requires DistinctNames(s)
    ensures DistinctNames(WithTopic(s, name))
    ensures TableOf(WithTopic(s, name), kind, next) == Opened(TableOf(s, kind, next), name)
  {
    ListsKeys(s, kind, name);
    if !Named(s, name) {
      AppendedEntry(s, kind, Entry(name, [], []));
    }
  }

  lemma AddedTable(s: seq<Entry>, kind: Kind, next: int, k: nat, fd: int, e: Entry)
    requires DistinctNames(s) && k < |s| && e.name == s[k].name
    requires e.List(kind) == s[k].List(kind) + [Client(next, fd)]
    ensures e.name in ListsOf(s, kind)
    ensures TableOf(s[k := e], kind, next + 1) == Added(TableOf(s, kind, next), e.name, fd)
  {
    ListsAt(s, kind, k);
    UpdatedEntry(s, kind, k, e);
  }

  lemma RemovedTable(s: seq<Entry>, kind: Kind, next: int, k: nat, id: int, e: Entry)
    requires DistinctNames(s) && k < |s| && e.name == s[k].name
    requires e.List(kind) == Without(s[k].List(kind), id)
    ensures e.name in ListsOf(s, kind)
    ensures TableOf(s[k := e], kind, next) == Removed(TableOf(s, kind, next), e.name, id)
  {
    ListsAt(s, kind, k);
    UpdatedEntry(s, kind, k, e);
  }

  lemma KeptTable(s: seq<Entry>, kind: Kind, next: int, k: nat, e: Entry)
    requires DistinctNames(s) && k < |s| && e.name == s[k].name && e.List(kind) == s[k].List(kind)
    ensures TableOf(s[k := e], kind, next) == TableOf(s, kind, next)
  {
    ListsAt(s, kind, k);
    UpdatedEntry(s, kind, k, e);
  }

  /** The registry that a topic table stands for. */
  function RegistryOf(s: seq<Entry>, nextSub: int, nextPub: int): Registry {
    Registry(TableOf(s, Subscribers, nextSub), TableOf(s, Publishers, nextPub))
  }

  function SubscriberAdded(s: seq<Entry>, k: nat, client: Client): seq<Entry>
    requires k < |s|
  {
    s[k := s[k].(subs := s[k].subs + [client])]
  }

  function PublisherAdded(s: seq<Entry>, k: nat, client: Client): seq<Entry>
    requires k < |s|
  {
    s[k := s[k].(pubs := s[k].pubs + [client])]
  }

  lemma RegisterRefines(s: seq<Entry>, nextSub: int, nextPub: int, limits: Limits, name: string, fd: int, k: nat)
    requires DistinctNames(s) && |s| < limits.topics
    requires k < |WithTopic(s, name)| && WithTopic(s, name)[k].name == name
    ensures RegisterSubscriber(RegistryOf(s, nextSub, nextPub), limits, name, fd)
         == (RegistryOf(SubscriberAdded(WithTopic(s, name), k, Client(nextSub, fd)), nextSub + 1, nextPub),
             Response(OK, nextSub))
  {
    var mid := WithTopic(s, name);
    var e := mid[k].(subs := mid[k].subs + [Client(nextSub, fd)]);
    ListsSize(s, Subscribers);
    OpenedTable(s, Subscribers, nextSub, name);
    OpenedTable(s, Publishers, nextPub, name);
    AddedTable(mid, Subscribers, nextSub, k, fd, e);
    KeptTable(mid, Publishers, nextPub, k, e);
  }

  lemma RegisterKeepsTopics(s: seq<Entry>, name: string, k: nat, client: Client)
    requires k < |WithTopic(s, name)|
    ensures SameTopics(s, SubscriberAdded(WithTopic(s, name), k, client))
  {
  }

  lemma SubscriberIsAdded(s: seq<Entry>, name: string, k: nat, client: Client)
    requires DistinctNames(s) && DistinctNames(WithTopic(s, name))
    requires k < |WithTopic(s, name)| && WithTopic(s, name)[k].name == name
    ensures ClientAdded(s, SubscriberAdded(WithTopic(s, name), k, client), Subscribers, name, client)
  {
    assert SubscriberAdded(WithTopic(s, name), k, client)[k].name == name;
  }

  lemma PublisherIsAdded(s: seq<Entry>, name: string, k: nat, client: Client)
    requires DistinctNames(s) && k < |s| && s[k].name == name
    ensures ClientAdded(s, PublisherAdded(s, k, client), Publishers, name, client)
  {
    assert PublisherAdded(s, k, client)[k].name == name;
  }

  lemma ClientIsLeftOut(s: seq<Entry>, k: nat, kind: Kind, name: string, id: int)
    requires DistinctNames(s) && k < |s| && s[k].name == name && Listed(s[k].List(kind), id)
    ensures ClientLeft(s, ClientGone(s, k, kind, id), kind, name, id)
  {
    WithoutAt(s[k].List(kind), id);
    assert LeftOut(s[k].List(kind), Without(s[k].List(kind), id), id);
  }

  lemma RegisterRefused(s: seq<Entry>, nextSub: int, nextPub: int, limits: Limits, name: string, fd: int)
    requires DistinctNames(s) && |s| >= limits.topics
    ensures RegisterSubscriber(RegistryOf(s, nextSub, nextPub), limits, name, fd)
         == (RegistryOf(s, nextSub, nextPub), Response(ERROR, -1))
  {
    ListsSize(s, Subscribers);
  }

  lemma AdvertiseRefines(s: seq<Entry>, nextSub: int, nextPub: int, limits: Limits, name: string, fd: int, k: nat)
    requires DistinctNames(s) && k < |s| && s[k].name == name && nextPub < limits.publishers
    ensures RegisterPublisher(RegistryOf(s, nextSub, nextPub), limits, name, fd)
         == (RegistryOf(PublisherAdded(s, k, Client(nextPub, fd)), nextSub, nextPub + 1), Response(OK, nextPub))
  {
    var e := s[k].(pubs := s[k].pubs + [Client(nextPub, fd)]);
    AddedTable(s, Publishers, nextPub, k, fd, e);
    KeptTable(s, Subscribers, nextSub, k, e);
  }

  lemma AdvertiseRefused(s: seq<Entry>, nextSub: int, nextPub: int, limits: Limits, name: string, fd: int)
    requires Named(s, name) ==> nextPub >= limits.publishers
    ensures RegisterPublisher(RegistryOf(s, nextSub, nextPub), limits, name, fd)
         == (RegistryOf(s, nextSub, nextPub), Response(if Named(s, name) then LIMIT else ERROR, -1))
  {
    ListsKeys(s, Publishers, name);
  }

  /** The table after one client of a kind has left topic `k`. */
  function ClientGone(s: seq<Entry>, k: nat, kind: Kind, id: int): seq<Entry>
    requires k < |s|
  {
    s[k := if kind == Subscribers then s[k].(subs := Without(s[k].subs, id)) else s[k].(pubs := Without(s[k].pubs, id))]
  }

  lemma OpenedKeeps(s: seq<Entry>, name: string, bound: int)
    requires DistinctNames(s) && PubsBounded(s, bound) && bound >= 0
    ensures DistinctNames(WithTopic(s, name)) && PubsBounded(WithTopic(s, name), bound)
  {
    OpenedTable(s, Subscribers, 0, name);
  }

  lemma ClientGoneKeeps(s: seq<Entry>, k: nat, kind: Kind, id: int, bound: int)
    requires k < |s| && DistinctNames(s) && PubsBounded(s, bound)
    ensures DistinctNames(ClientGone(s, k, kind, id)) && PubsBounded(ClientGone(s, k, kind, id), bound)
    ensures SameTopics(s, ClientGone(s, k, kind, id))
  {
    WithoutShorter(s[k].pubs, id);
    assert forall i :: 0 <= i < |s| ==> ClientGone(s, k, kind, id)[i].name == s[i].name;
  }

  function Unregistration(kind: Kind, name: string, id: int): Op {
    if kind == Subscribers then Unsubscribe(name, id) else Retire(name, id)
  }

  /** The registry after one client of a kind has left a topic. */
  function Unregistered(r: Registry, kind: Kind, name: string, id: int): Registry
    requires name in r.subs.lists && name in r.pubs.lists
  {
    if kind == Subscribers then UnregisterSubscriber(r, name, id) else UnregisterPublisher(r, name, id)
  }

  lemma UnregisterRefines(s: seq<Entry>, nextSub: int, nextPub: int, kind: Kind, name: string, id: int, k: nat)
    requires DistinctNames(s) && k < |s| && s[k].name == name
    ensures name in ListsOf(s, Subscribers) && name in ListsOf(s, Publishers)
    ensures RegistryOf(ClientGone(s, k, kind, id), nextSub, nextPub)
         == Unregistered(RegistryOf(s, nextSub, nextPub), kind, name, id)
    ensures ListsOf(s, kind)[name] == s[k].List(kind)
  {
    var e := ClientGone(s, k, kind, id)[k];
    ListsAt(s, Subscribers, k);
    ListsAt(s, Publishers, k);
    if kind == Subscribers {
      RemovedTable(s, Subscribers, nextSub, k, id, e);
      KeptTable(s, Publishers, nextPub, k, e);
    } else {
      RemovedTable(s, Publishers, nextPub, k, id, e);
      KeptTable(s, Subscribers, nextSub, k, e);
    }
  }

  lemma WithoutShorter(s: seq<Client>, id: int)
    ensures |Without(s, id)| <= |s|
  {
  }

  /** The topic lists the client. */
  predicate ListedThere(s: seq<Entry>, kind: Kind, name: string, id: int) {
    forall e <- s :: e.name == name ==> Listed(e.List(kind), id)
  }

  lemma ListedInEntry(s: seq<Entry>, kind: Kind, name: string, id: int)
    requires DistinctNames(s)
    requires name in ListsOf(s, kind) && Listed(ListsOf(s, kind)[name], id)
    ensures Named(s, name)
    ensures ListedThere(s, kind, name, id)
  {
    ListsKeys(s, kind, name);
    forall e | e in s && e.name == name
      ensures Listed(e.List(kind), id)
    {
      var k :| 0 <= k < |s| && s[k] == e;
      ListsAt(s, kind, k);
    }
  }

  lemma DoSubscribe(w: World, limits: Limits, name: string, fd: int, reg: Registry, response: Response)
    requires Permitted(w, limits, Subscribe(name, fd)) && (reg, response) == RegisterSubscriber(w.reg, limits, name, fd)
    ensures Do(w, limits, Subscribe(name, fd))
         == World(reg, if response.status == OK then Enter(w.subs, response.id, name, fd) else w.subs, w.pubs,
                  w.published, w.log)
  {
  }

  lemma DoPublish(w: World, limits: Limits, s: seq<Entry>, name: string, payload: string, k: nat)
    requires DistinctNames(s) && k < |s| && s[k].name == name
    requires w.reg == RegistryOf(s, w.reg.subs.next, w.reg.pubs.next)
    requires Permitted(w, limits, Publish(name, payload))
    ensures Do(w, limits, Publish(name, payload))
         == w.(published := w.published + 1,
               log := w.log + Deliveries(w.published + 1, FdsOf(s[k].subs), payload))
  {
    ListsAt(s, Subscribers, k);
  }

  lemma PublishIs(w: World, limits: Limits, s: seq<Entry>, name: string, payload: string, k: nat, after: World)
    requires DistinctNames(s) && k < |s| && s[k].name == name
    requires w.reg == RegistryOf(s, w.reg.subs.next, w.reg.pubs.next)
    requires Permitted(w, limits, Publish(name, payload))
    requires after == w.(published := w.published + 1,
                         log := w.log + Deliveries(w.published + 1, FdsOf(s[k].subs), payload))
    ensures after == Do(w, limits, Publish(name, payload))
  {
    DoPublish(w, limits, s, name, payload, k);
  }

  lemma {:induction false} DeliveriesGrow(ticket: nat, fds: seq<int>, fd: int, payload: string)
    ensures Deliveries(ticket, fds + [fd], payload) == Deliveries(ticket, fds, payload) + [Delivery(ticket, fd, payload)]
  {
  }

  lemma DeliveriesPrefix(ticket: nat, fds: seq<int>, i: nat, payload: string)
    requires i < |fds|
    ensures Deliveries(ticket, fds[..i + 1], payload)
         == Deliveries(ticket, fds[..i], payload) + [Delivery(ticket, fds[i], payload)]
  {
    assert fds[..i + 1] == fds[..i] + [fds[i]];
    DeliveriesGrow(ticket, fds[..i], fds[i], payload);
  }

  lemma SentSoFar(before: seq<Delivery>, ticket: nat, fds: seq<int>, i: nat, payload: string)
    requires i < |fds|
    ensures (before + Deliveries(ticket, fds[..i], payload)) + [Delivery(ticket, fds[i], payload)]
         == before + Deliveries(ticket, fds[..i + 1], payload)
  {
    DeliveriesPrefix(ticket, fds, i, payload);
  }

  /** The topic, if it is there, has a free subscriber cell. */
  predicate HasRoom(s: seq<Entry>, name: string, max: nat) {
    forall e <- s :: e.name == name ==> |e.subs| < max
  }

  lemma RoomFor(s: seq<Entry>, limits: Limits, name: string)
    requires DistinctNames(s)
    requires name in ListsOf(s, Subscribers) ==> |ListsOf(s, Subscribers)[name]| < limits.subscribers
    ensures HasRoom(s, name, limits.subscribers)
  {
    forall e | e in s && e.name == name
      ensures |e.subs| < limits.subscribers
    {
      var k :| 0 <= k < |s| && s[k] == e;
      ListsAt(s, Subscribers, k);
    }
  }

  // ------------------------------------------------------------------
  // Deleting from a client array
  // ------------------------------------------------------------------

  /** The cells of a topic hold these clients first. */
  ghost predicate Stored(cells: array2<Client>, topic: nat, s: seq<Client>)
    reads cells
  {
    && topic < cells.Length0 && |s| <= cells.Length1
    && forall i :: 0 <= i < |s| ==> cells[topic, i] == s[i]
  }

  /** Every cell of a topic, as a sequence. */
  ghost function Row(cells: array2<Client>, topic: nat): (r: seq<Client>)
    requires topic < cells.Length0
    reads cells
    ensures |r| == cells.Length1 && forall i :: 0 <= i < |r| ==> r[i] == cells[topic, i]
  {
    seq(cells.Length1, i requires 0 <= i < cells.Length1 reads cells => cells[topic, i])
  }

  /** Moves every client after `id` one cell to the left, up to the end of the
      topic's array. `beyond` is whatever lies just past the array, which the
      last step reads, and `unset` is the value of the uninitialised descriptor. */
  method ShiftClientList(cells: array2<Client>, topic: nat, id: int, beyond: Client, unset: int) returns (fd: int)
    requires topic < cells.Length0
    modifies cells
    ensures var before := old(Row(cells, topic));
      var k := IndexOf(before, id);
      if k < |before|
      then Row(cells, topic) == before[..k] + before[k + 1..] + [beyond] && fd == before[k].fd
      else Row(cells, topic) == before && fd == unset
    ensures forall t, i :: 0 <= t < cells.Length0 && 0 <= i < cells.Length1 && t != topic ==>
      cells[t, i] == old(cells[t, i])
  {
    fd := unset;
    var pos, max := 0, cells.Length1;
    while pos < max
      invariant 0 <= pos <= max
      invariant forall i :: 0 <= i < pos ==> cells[topic, i].id != id
      invariant fd == unset
    {
      if cells[topic, pos].id == id {
        fd := cells[topic, pos].fd;
        break;
      }
      pos := pos + 1;
    }
    FoundAt(Row(cells, topic), id, pos);
    var i := pos;
    while i < max
      invariant pos <= i <= max
      invariant forall j :: 0 <= j < pos ==> cells[topic, j] == old(cells[topic, j])
      invariant forall j :: pos <= j < i ==> cells[topic, j] == if j + 1 < max then old(cells[topic, j + 1]) else beyond
      invariant forall j :: i <= j < max ==> cells[topic, j] == old(cells[topic, j])
      invariant forall t, j :: 0 <= t < cells.Length0 && 0 <= j < max && t != topic ==> cells[t, j] == old(cells[t, j])
    {
      cells[topic, i] := if i + 1 < max then cells[topic, i + 1] else beyond;
      i := i + 1;
    }
  }

  lemma {:induction false} FoundAt(s: seq<Client>, id: int, k: nat)
    requires k <= |s| && (k < |s| ==> s[k].id == id)
    requires forall i :: 0 <= i < k ==> s[i].id != id
    ensures IndexOf(s, id) == k
  {
  }

  /** For a client of the live prefix, the shift removes just that client from
      the prefix and keeps the order of the others, whatever the other cells hold. */
  lemma ShiftedPrefix(s: seq<Client>, n: nat, id: int, beyond: Client)
    requires n <= |s| && Listed(s[..n], id)
    ensures IndexOf(s, id) == IndexOf(s[..n], id) < n
    ensures (s[..IndexOf(s, id)] + s[IndexOf(s, id) + 1..] + [beyond])[..n - 1] == Without(s[..n], id)
  {
    WithoutAt(s[..n], id);
    var k := IndexOf(s[..n], id);
    assert forall i :: 0 <= i < k ==> s[i] == s[..n][i];
    FoundAt(s, id, k);
    assert s[..n][..k] == s[..k];
    assert s[..n][k + 1..] == s[k + 1..n];
  }

  /** On a live prefix, the shift deletes one client that is registered, and
      reports its descriptor. */
  method DeleteClient(cells: array2<Client>, topic: nat, ghost s: seq<Client>, id: int, beyond: Client, unset: int)
    returns (fd: int)
    requires topic < cells.Length0 && Stored(cells, topic, s) && Listed(s, id)
    modifies cells
    ensures Stored(cells, topic, Without(s, id)) && |Without(s, id)| == |s| - 1
    ensures Client(id, fd) in s
    ensures forall t, i :: 0 <= t < cells.Length0 && 0 <= i < cells.Length1 && t != topic ==>
      cells[t, i] == old(cells[t, i])
  {
    ghost var before := Row(cells, topic);
    assert before[..|s|] == s;
    ShiftedPrefix(before, |s|, id, beyond);
    WithoutAt(s, id);
    fd := ShiftClientList(cells, topic, id, beyond, unset);
    assert Row(cells, topic)[..|s| - 1] == Without(s, id);
    assert s[IndexOf(before, id)] == Client(id, fd);
  }

  // ------------------------------------------------------------------
  // The tables
  // ------------------------------------------------------------------

  /** The topic table, one row a topic in each array. */
  class Broker {
    const limits: Limits
    const names: array<string>
    const numSubscribers: array<int>
    const numPublishers: array<int>
    const subscribers: array2<Client>
    const publishers: array2<Client>
    var currentTopics: nat
    var nextPublisherId: int
    var nextSubscriberId: int
    var currentSubscribers: int
    var published: nat
    var log: seq<Delivery>
    ghost var table: seq<Entry>  // the live part of the arrays
    ghost var subs: Ledger
    ghost var pubs: Ledger

    constructor (limits: Limits)
      requires limits.subscribers > 0
      ensures Valid() && this.limits == limits && View() == START
      ensures fresh(names) && fresh(numSubscribers) && fresh(numPublishers) && fresh(subscribers) && fresh(publishers)
    {
      this.limits := limits;
      names := new string[limits.topics];
      numSubscribers := new int[limits.topics];
      numPublishers := new int[limits.topics];
      subscribers := new Client[limits.topics, limits.subscribers];
      publishers := new Client[limits.topics, limits.publishers];
      currentTopics, nextPublisherId, nextSubscriberId, currentSubscribers := 0, 0, 1, 0;
      published, log := 0, [];
      table, subs, pubs := [], Ledger(map[], {}), Ledger(map[], {});
    }

    ghost predicate Shape() {
      && names.Length == numSubscribers.Length == numPublishers.Length == limits.topics
      && subscribers.Length0 == publishers.Length0 == limits.topics
      && subscribers.Length1 == limits.subscribers && publishers.Length1 == limits.publishers
      && numSubscribers != numPublishers && subscribers != publishers
      && limits.subscribers > 0
    }

    /** The arrays hold the topics of the table, each list in the first cells of
        its row. */
    ghost predicate Tied()
      reads this`table, this`currentTopics, names, numSubscribers, numPublishers, subscribers, publishers
    {
      && Shape()
      && |table| == currentTopics <= limits.topics
      && forall t :: 0 <= t < |table| ==>
           && names[t] == table[t].name
           && numSubscribers[t] == |table[t].subs| && Stored(subscribers, t, table[t].subs)
           && numPublishers[t] == |table[t].pubs| && Stored(publishers, t, table[t].pubs)
    }

    ghost predicate Valid()
      reads this, names, numSubscribers, numPublishers, subscribers, publishers
    {
      && Tied()
      && currentSubscribers == 0
      && 0 <= nextPublisherId <= limits.publishers && 1 <= nextSubscriberId
      && PubsBounded(table, nextPublisherId)
      && DistinctNames(table)
    }

    /** The state of the broker as the history model has it. */
    ghost function View(): World
      reads this
    {
      World(RegistryOf(table, nextSubscriberId, nextPublisherId), subs, pubs, published, log)
    }

    /** The index of a topic, or the number of topics when there is none. */
    method GetTopicId(name: string) returns (id: nat)
      requires Tied()
      ensures id <= |table|
      ensures id < |table| ==> table[id].name == name
      ensures forall i :: 0 <= i < id ==> table[i].name != name
    {
      id := 0;
      while id < currentTopics
        invariant id <= currentTopics
        invariant forall i :: 0 <= i < id ==> table[i].name != name
      {
        if names[id] == name {
          break;
        }
        id := id + 1;
      }
    }

    /** 0: created, 1: the table is full, 2: it was there. A full table is reported
        before looking for the name. */
    method CreateTopic(name: string) returns (status: int)
      requires Valid()
      modifies this`currentTopics, this`table, names, numSubscribers, numPublishers
      ensures Valid()
      ensures status == if |old(table)| >= limits.topics then 1 else if Named(old(table), name) then 2 else 0
      ensures table == if status == 1 then old(table) else WithTopic(old(table), name)
    {
      if currentTopics >= limits.topics {
        return 1;
      }
      var i := 0;
      while i < currentTopics
        invariant i <= currentTopics
        invariant forall j :: 0 <= j < i ==> table[j].name != name
      {
        if names[i] == name {
          return 2;
        }
        i := i + 1;
      }
      names[currentTopics] := name;
      numPublishers[currentTopics] := 0;
      numSubscribers[currentTopics] := 0;
      OpenedKeeps(table, name, nextPublisherId);
      table := WithTopic(table, name);
      currentTopics := currentTopics + 1;
      return 0;
    }

    /** The loop after the response: it counts the new client in every topic of
        that name, which is one. */
    method CountClient(name: string, kind: Kind)
      requires Shape() && currentTopics <= limits.topics
      modifies numSubscribers, numPublishers
      ensures forall t :: 0 <= t < limits.topics ==>
        && numSubscribers[t] == old(numSubscribers[t])
             + (if t < currentTopics && names[t] == name && kind == Subscribers then 1 else 0)
        && numPublishers[t] == old(numPublishers[t])
             + (if t < currentTopics && names[t] == name && kind == Publishers then 1 else 0)
    {
      var i := 0;
      while i < currentTopics
        invariant 0 <= i <= currentTopics
        invariant forall t :: 0 <= t < limits.topics ==>
          && numSubscribers[t] == old(numSubscribers[t])
               + (if t < i && names[t] == name && kind == Subscribers then 1 else 0)
          && numPublishers[t] == old(numPublishers[t])
               + (if t < i && names[t] == name && kind == Publishers then 1 else 0)
      {
        if names[i] == name {
          if kind == Publishers {
            numPublishers[i] := numPublishers[i] + 1;
          } else {
            numSubscribers[i] := numSubscribers[i] + 1;
          }
        }
        i := i + 1;
      }
    }

    /** Stores a subscriber past the live prefix of its topic, gives it an id, and
        counts it: it becomes the last of its list and no other topic changes. */
    method EnrollSubscriber(k: nat, name: string, fd: int) returns (response: Response)
      requires Valid() && k < |table| && table[k].name == name
      requires |table[k].subs| < limits.subscribers
      modifies this`nextSubscriberId, this`table, subscribers, numSubscribers, numPublishers
      ensures Valid()
      ensures response == Response(OK, old(nextSubscriberId)) && nextSubscriberId == response.id + 1
      ensures table == SubscriberAdded(old(table), k, Client(response.id, fd))
    {
      subscribers[k, numSubscribers[k]] := Client(nextSubscriberId, fd);
      response := Response(OK, nextSubscriberId);
      nextSubscriberId := nextSubscriberId + 1;
      CountClient(name, Subscribers);
      table := SubscriberAdded(table, k, Client(response.id, fd));
    }

    method EnrollPublisher(k: nat, name: string, fd: int) returns (response: Response)
      requires Valid() && k < |table| && table[k].name == name
      requires nextPublisherId < limits.publishers
      modifies this`nextPublisherId, this`table, publishers, numSubscribers, numPublishers
      ensures Valid()
      ensures response == Response(OK, old(nextPublisherId)) && nextPublisherId == response.id + 1
      ensures table == PublisherAdded(old(table), k, Client(response.id, fd))
    {
      publishers[k, numPublishers[k]] := Client(nextPublisherId, fd);
      response := Response(OK, nextPublisherId);
      nextPublisherId := nextPublisherId + 1;
      CountClient(name, Publishers);
      table := PublisherAdded(table, k, Client(response.id, fd));
    }

    /** The registration of a subscriber once its topic is there. `before` is the
        table without that topic, if the topic is new. */
    method AddToTopic(name: string, fd: int, ghost before: seq<Entry>) returns (response: Response)
      requires Valid() && table == WithTopic(before, name) && HasRoom(before, name, limits.subscribers)
      requires DistinctNames(before) && |before| < limits.topics
      modifies this`nextSubscriberId, this`table, subscribers, numSubscribers, numPublishers
      ensures Valid() && SameTopics(before, table)
      ensures response == Response(OK, old(nextSubscriberId)) && nextSubscriberId == old(nextSubscriberId) + 1
      ensures ClientAdded(before, table, Subscribers, name, Client(response.id, fd))
      ensures (RegistryOf(table, nextSubscriberId, nextPublisherId), response)
           == RegisterSubscriber(RegistryOf(before, old(nextSubscriberId), nextPublisherId), limits, name, fd)
    {
      OpenedNamed(before, name);
      var k := GetTopicId(name);
      RegisterRefines(before, nextSubscriberId, nextPublisherId, limits, name, fd, k);
      RegisterKeepsTopics(before, name, k, Client(nextSubscriberId, fd));
      SubscriberIsAdded(before, name, k, Client(nextSubscriberId, fd));
      response := EnrollSubscriber(k, name, fd);
    }

    /** The registration of a subscriber, on the tables. */
    method AddSubscriber(name: string, fd: int) returns (response: Response)
      requires Valid() && HasRoom(table, name, limits.subscribers)
      modifies this`nextSubscriberId, this`currentTopics, this`table
      modifies names, numSubscribers, numPublishers, subscribers
      ensures Valid() && SameTopics(old(table), table)
      ensures SubscriberServed(old(table), table, limits, name, fd, old(nextSubscriberId), nextSubscriberId, response)
      ensures (RegistryOf(table, nextSubscriberId, nextPublisherId), response)
           == RegisterSubscriber(RegistryOf(old(table), old(nextSubscriberId), nextPublisherId), limits, name, fd)
    {
      ghost var before := table;
      var status := CreateTopic(name);
      if status != 1 {
        if currentSubscribers < limits.subscribers {
          response := AddToTopic(name, fd, before);
        } else {
          response := Response(LIMIT, -1);
        }
      } else {
        RegisterRefused(before, nextSubscriberId, nextPublisherId, limits, name, fd);
        response := Response(ERROR, -1);
      }
    }

    /** The registration of a subscriber, from the message to the updated counts. */
    method Register(name: string, fd: int) returns (response: Response)
      requires Valid() && Permitted(View(), limits, Subscribe(name, fd))
      modifies this, names, numSubscribers, numPublishers, subscribers
      ensures Valid()
      ensures View() == Do(old(View()), limits, Subscribe(name, fd))
      ensures SameTopics(old(table), table)
      ensures response == RegisterSubscriber(old(View()).reg, limits, name, fd).1
      ensures SubscriberServed(old(table), table, limits, name, fd, old(nextSubscriberId), nextSubscriberId, response)
    {
      ghost var w := View();
      RoomFor(table, limits, name);
      response := AddSubscriber(name, fd);
      DoSubscribe(w, limits, name, fd, RegistryOf(table, nextSubscriberId, nextPublisherId), response);
      if response.status == OK {
        subs := Enter(subs, response.id, name, fd);
      }
    }

    /** The registration of a publisher, on the tables. */
    method AddPublisher(name: string, fd: int) returns (response: Response)
      requires Valid()
      modifies this`nextPublisherId, this`table, publishers, numSubscribers, numPublishers
      ensures Valid() && SameTopics(old(table), table)
      ensures PublisherServed(old(table), table, limits, name, fd, old(nextPublisherId), nextPublisherId, response)
      ensures (RegistryOf(table, nextSubscriberId, nextPublisherId), response)
           == RegisterPublisher(RegistryOf(old(table), nextSubscriberId, old(nextPublisherId)), limits, name, fd)
    {
      var k := GetTopicId(name);
      if k < currentTopics {
        if nextPublisherId < limits.publishers {
          AdvertiseRefines(table, nextSubscriberId, nextPublisherId, limits, name, fd, k);
          PublisherIsAdded(table, name, k, Client(nextPublisherId, fd));
          response := EnrollPublisher(k, name, fd);
        } else {
          AdvertiseRefused(table, nextSubscriberId, nextPublisherId, limits, name, fd);
          response := Response(LIMIT, -1);
        }
      } else {
        AdvertiseRefused(table, nextSubscriberId, nextPublisherId, limits, name, fd);
        response := Response(ERROR, -1);
      }
    }

    /** The registration of a publisher, from the message to the updated counts. */
    method RegisterAsPublisher(name: string, fd: int) returns (response: Response)
      requires Valid() && Permitted(View(), limits, Advertise(name, fd))
      modifies this, names, numSubscribers, numPublishers, subscribers, publishers
      ensures Valid()
      ensures View() == Do(old(View()), limits, Advertise(name, fd))
      ensures SameTopics(old(table), table)
      ensures response == RegisterPublisher(old(View()).reg, limits, name, fd).1
      ensures PublisherServed(old(table), table, limits, name, fd, old(nextPublisherId), nextPublisherId, response)
    {
      response := AddPublisher(name, fd);
      if response.status == OK {
        pubs := Enter(pubs, response.id, name, fd);
      }
    }

    /** Deletes a registered client from topic `k` and counts it out. */
    method Remove(k: nat, kind: Kind, id: int, beyond: Client, unset: int) returns (fd: int)
      requires Valid() && k < |table| && Listed(table[k].List(kind), id)
      modifies this`table, numSubscribers, numPublishers, subscribers, publishers
      ensures Valid() && table == ClientGone(old(table), k, kind, id) && SameTopics(old(table), table)
      ensures Client(id, fd) in old(table)[k].List(kind)
    {
      ClientGoneKeeps(table, k, kind, id, nextPublisherId);
      if kind == Subscribers {
        fd := DeleteClient(subscribers, k, table[k].subs, id, beyond, unset);
        numSubscribers[k] := numSubscribers[k] - 1;
      } else {
        fd := DeleteClient(publishers, k, table[k].pubs, id, beyond, unset);
        numPublishers[k] := numPublishers[k] - 1;
      }
      table := ClientGone(table, k, kind, id);
    }

    /** The unregistration of a client, on the tables. */
    method DropClient(kind: Kind, name: string, id: int, beyond: Client, unset: int) returns (fd: int)
      requires Valid() && name in ListsOf(table, kind) && Listed(ListsOf(table, kind)[name], id)
      modifies this`table, numSubscribers, numPublishers, subscribers, publishers
      ensures Valid() && SameTopics(old(table), table)
      ensures name in ListsOf(old(table), Subscribers) && name in ListsOf(old(table), Publishers)
      ensures RegistryOf(table, nextSubscriberId, nextPublisherId)
           == Unregistered(RegistryOf(old(table), nextSubscriberId, nextPublisherId), kind, name, id)
      ensures Client(id, fd) in ListsOf(old(table), kind)[name]
      ensures ClientLeft(old(table), table, kind, name, id)
    {
      ListedInEntry(table, kind, name, id);
      var k := GetTopicId(name);
      UnregisterRefines(table, nextSubscriberId, nextPublisherId, kind, name, id, k);
      ClientIsLeftOut(table, k, kind, name, id);
      fd := Remove(k, kind, id, beyond, unset);
    }

    /** An unregister. The descriptor that gets the response is the client's own. */
    method Unregister(kind: Kind, name: string, id: int, beyond: Client, unset: int) returns (fd: int, response: Response)
      requires Valid() && Permitted(View(), limits, Unregistration(kind, name, id))
      modifies this`table, this`subs, this`pubs, numSubscribers, numPublishers, subscribers, publishers
      ensures Valid()
      ensures View() == Do(old(View()), limits, Unregistration(kind, name, id))
      ensures SameTopics(old(table), table)
      ensures ClientLeft(old(table), table, kind, name, id)
      ensures response == Response(OK, id)
      ensures var t := if kind == Subscribers then old(View()).reg.subs else old(View()).reg.pubs;
        name in t.lists && Client(id, fd) in t.lists[name]
    {
      fd := DropClient(kind, name, id, beyond, unset);
      if kind == Subscribers {
        subs := Leave(subs, id);
      } else {
        pubs := Leave(pubs, id);
      }
      response := Response(OK, id);
    }

    /** Sends to every subscriber of topic `k`, in the order of its array. */
    method SendSequential(k: nat, payload: string)
      requires Valid() && k < |table|
      modifies this`published, this`log
      ensures Valid()
      ensures View() == old(View()).(
        published := old(published) + 1,
        log := old(log) + Deliveries(old(published) + 1, FdsOf(table[k].subs), payload))
    {
      ghost var fds, ticket, before := FdsOf(table[k].subs), published + 1, log;
      published := published + 1;
      var i, n := 0, numSubscribers[k];
      assert before == before + Deliveries(ticket, fds[..0], payload);
      while i < n
        invariant 0 <= i <= n == |fds| && published == ticket
        invariant log == before + Deliveries(ticket, fds[..i], payload)
      {
        assert subscribers[k, i].fd == fds[i];
        SentSoFar(before, ticket, fds, i, payload);
        log := log + [Delivery(published, subscribers[k, i].fd, payload)];
        i := i + 1;
      }
      assert fds[..n] == fds;
    }

    /** The index of a topic that is there. */
    method FindTopic(name: string) returns (k: nat)
      requires Tied() && Named(table, name)
      ensures k < |table| && table[k].name == name
    {
      k := GetTopicId(name);
    }

    /** A publish in SECUENCIAL mode. */
    method PublishMessage(name: string, payload: string)
      requires Valid() && Permitted(View(), limits, Publish(name, payload))
      modifies this`published, this`log
      ensures Valid()
      ensures View() == Do(old(View()), limits, Publish(name, payload))
    {
      ghost var w, s := View(), table;
      ListsKeys(s, Subscribers, name);
      var k := FindTopic(name);
      SendSequential(k, payload);
      PublishIs(w, limits, s, name, payload, k, View());
    }
  }
}
