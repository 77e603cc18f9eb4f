/** The broker's registry without its arrays: for each topic name the clients
    registered on it, in registration order. */
module Registry {

  datatype Client = Client(id: int, fd: int)

  /** The clients of one kind, by topic, and the next id of that kind. */
  datatype Table = Table(lists: map<string, seq<Client>>, next: int)

  datatype Registry = Registry(subs: Table, pubs: Table)

  datatype Limits = Limits(topics: nat, subscribers: nat, publishers: nat)

  datatype Status = ERROR | LIMIT | OK

  datatype Response = Response(status: Status, id: int)

  const EMPTY := Registry(Table(map[], 1), Table(map[], 0))

  function IndexOf(s: seq<Client>, id: int): (k: nat)
    ensures k <= |s|
    ensures k < |s| ==> s[k].id == id
    ensures forall i :: 0 <= i < k ==> s[i].id != id
  {
    if s == [] || s[0].id == id then 0 else 1 + IndexOf(s[1..], id)
  }

  predicate Listed(s: seq<Client>, id: int) {
    exists i :: 0 <= i < |s| && s[i].id == id
  }

  /** The list without its client `id`; the others keep their order. */
  function Without(s: seq<Client>, id: int): seq<Client> {
    var k := IndexOf(s, id);
    if k < |s| then s[..k] + s[k + 1..] else s
  }

  function Opened(t: Table, name: string): Table {
    if name in t.lists then t else t.(lists := t.lists[name := []])
  }

  function Added(t: Table, name: string, fd: int): Table
    requires name in t.lists
  {
    t.(lists := t.lists[name := t.lists[name] + [Client(t.next, fd)]], next := t.next + 1)
  }

  function Removed(t: Table, name: string, id: int): Table
    requires name in t.lists
  {
    t.(lists := t.lists[name := Without(t.lists[name], id)])
  }

  function RegisterSubscriber(r: Registry, limits: Limits, name: string, fd: int): (Registry, Response) {
    if |r.subs.lists| >= limits.topics then (r, Response(ERROR, -1))
    else (Registry(Added(Opened(r.subs, name), name, fd), Opened(r.pubs, name)), Response(OK, r.subs.next))
  }

  function RegisterPublisher(r: Registry, limits: Limits, name: string, fd: int): (Registry, Response) {
    if name !in r.pubs.lists then (r, Response(ERROR, -1))
    else if r.pubs.next >= limits.publishers then (r, Response(LIMIT, -1))
    else (r.(pubs := Added(r.pubs, name, fd)), Response(OK, r.pubs.next))
  }

  function UnregisterSubscriber(r: Registry, name: string, id: int): Registry
    requires name in r.subs.lists
  {
    r.(subs := Removed(r.subs, name, id))
  }

  function UnregisterPublisher(r: Registry, name: string, id: int): Registry
    requires name in r.pubs.lists
  {
    r.(pubs := Removed(r.pubs, name, id))
  }

  function FdsOf(s: seq<Client>): (r: seq<int>)
    ensures |r| == |s|
    ensures forall i :: 0 <= i < |s| ==> r[i] == s[i].fd
  {
    seq(|s|, i requires 0 <= i < |s| => s[i].fd)
  }

  // ------------------------------------------------------------------
  // Ledgers: which ids a table has issued, and to whom
  // ------------------------------------------------------------------

  datatype Issue = Issue(name: string, fd: int)

  /** The ids issued so far, and those whose client has unregistered. */
  datatype Ledger = Ledger(issued: map<int, Issue>, gone: set<int>)

  predicate Ascending(s: seq<Client>) {
    forall i, j :: 0 <= i < j < |s| ==> s[i].id < s[j].id
  }

  predicate Matches(s: seq<Client>, name: string, l: Ledger) {
    forall i :: 0 <= i < |s| ==>
      s[i].id in l.issued && s[i].id !in l.gone && l.issued[s[i].id] == Issue(name, s[i].fd)
  }

  /** Every list is in ascending order of id and holds clients of its own topic. */
  ghost predicate ListsOk(t: Table, l: Ledger) {
    forall name :: name in t.lists ==> Ascending(t.lists[name]) && Matches(t.lists[name], name, l)
  }

  /** An id that is not gone is listed under the topic it was issued for. */
  ghost predicate AllListed(t: Table, l: Ledger) {
    forall id :: id in l.issued && id !in l.gone ==>
      l.issued[id].name in t.lists && Listed(t.lists[l.issued[id].name], id)
  }

  ghost predicate OneFdEach(l: Ledger) {
    forall a, b :: a in l.issued && b in l.issued && l.issued[a].fd == l.issued[b].fd ==> a == b
  }

  ghost predicate IdsOk(t: Table, l: Ledger, first: int) {
    && first <= t.next
    && l.gone <= l.issued.Keys
    && forall id :: id in l.issued <==> first <= id < t.next
  }

  /** The ids issued are `first .. next`; an issued id is either gone or listed,
      never both, and no two ids share a descriptor. */
  ghost predicate LedgerOk(t: Table, l: Ledger, first: int) {
    IdsOk(t, l, first) && ListsOk(t, l) && AllListed(t, l) && OneFdEach(l)
  }

  function Enter(l: Ledger, id: int, name: string, fd: int): Ledger {
    l.(issued := l.issued[id := Issue(name, fd)])
  }

  function Leave(l: Ledger, id: int): Ledger {
    l.(gone := l.gone + {id})
  }

  predicate FreshFd(l: Ledger, fd: int) {
    forall id :: id in l.issued ==> l.issued[id].fd != fd
  }

  lemma OpenedOk(t: Table, l: Ledger, first: int, name: string)
    requires LedgerOk(t, l, first)
    ensures LedgerOk(Opened(t, name), l, first)
  {
  }

  lemma AddedLists(t: Table, l: Ledger, first: int, name: string, fd: int)
    requires IdsOk(t, l, first) && ListsOk(t, l) && name in t.lists
    ensures ListsOk(Added(t, name, fd), Enter(l, t.next, name, fd))
  {
    var t', l' := Added(t, name, fd), Enter(l, t.next, name, fd);
    assert t.next !in l.issued;
    forall n | n in t'.lists
      ensures Ascending(t'.lists[n]) && Matches(t'.lists[n], n, l')
    {
      assert Ascending(t.lists[n]) && Matches(t.lists[n], n, l);
      if n == name {
        assert t'.lists[n] == t.lists[n] + [Client(t.next, fd)];
      }
    }
  }

  lemma AddedListed(t: Table, l: Ledger, name: string, fd: int)
    requires AllListed(t, l) && name in t.lists
    ensures AllListed(Added(t, name, fd), Enter(l, t.next, name, fd))
  {
    var t', l' := Added(t, name, fd), Enter(l, t.next, name, fd);
    forall id | id in l'.issued && id !in l'.gone
      ensures l'.issued[id].name in t'.lists && Listed(t'.lists[l'.issued[id].name], id)
    {
      if id == t.next {
        assert t'.lists[name][|t.lists[name]|].id == id;
      } else {
        var n := l.issued[id].name;
        var i :| 0 <= i < |t.lists[n]| && t.lists[n][i].id == id;
        assert t'.lists[n][i].id == id;
      }
    }
  }

  lemma AddedOk(t: Table, l: Ledger, first: int, name: string, fd: int)
    requires LedgerOk(t, l, first) && name in t.lists && FreshFd(l, fd)
    ensures LedgerOk(Added(t, name, fd), Enter(l, t.next, name, fd), first)
  {
    AddedLists(t, l, first, name, fd);
    AddedListed(t, l, name, fd);
  }

  lemma {:induction false} WithoutAt(s: seq<Client>, id: int)
    requires Listed(s, id)
    ensures IndexOf(s, id) < |s|
    ensures Without(s, id) == s[..IndexOf(s, id)] + s[IndexOf(s, id) + 1..]
  {
    var i :| 0 <= i < |s| && s[i].id == id;
    assert IndexOf(s, id) <= i;
  }

  /** Past the client that leaves, everyone moves up by one. */
  lemma WithoutElement(s: seq<Client>, id: int, i: nat)
    requires Listed(s, id) && i < |s| - 1
    ensures |Without(s, id)| == |s| - 1
    ensures var j := if i < IndexOf(s, id) then i else i + 1;
      Without(s, id)[i] == s[j] && j != IndexOf(s, id)
  {
    WithoutAt(s, id);
  }

  lemma WithoutAscends(s: seq<Client>, id: int)
    requires Ascending(s) && Listed(s, id)
    ensures Ascending(Without(s, id))
  {
    WithoutAt(s, id);
    var rest := Without(s, id);
    forall i, j | 0 <= i < j < |rest|
      ensures rest[i].id < rest[j].id
    {
      WithoutElement(s, id, i);
      WithoutElement(s, id, j);
    }
  }

  lemma WithoutMatches(s: seq<Client>, name: string, l: Ledger, id: int)
    requires Ascending(s) && Matches(s, name, l) && Listed(s, id)
    ensures Matches(Without(s, id), name, Leave(l, id))
  {
    WithoutAt(s, id);
    var k, rest := IndexOf(s, id), Without(s, id);
    forall i | 0 <= i < |rest|
      ensures rest[i].id in l.issued && rest[i].id !in Leave(l, id).gone
      ensures l.issued[rest[i].id] == Issue(name, rest[i].fd)
    {
      WithoutElement(s, id, i);
      assert if i < k then s[i].id < s[k].id else s[k].id < s[i + 1].id;
    }
  }

  lemma WithoutOk(s: seq<Client>, name: string, l: Ledger, id: int)
    requires Ascending(s) && Matches(s, name, l) && Listed(s, id)
    ensures Ascending(Without(s, id)) && Matches(Without(s, id), name, Leave(l, id))
  {
    WithoutAscends(s, id);
    WithoutMatches(s, name, l, id);
  }

  /** Everyone else is still there. */
  lemma WithoutKeeps(s: seq<Client>, id: int, client: Client)
    requires Listed(s, id) && client in s && client.id != id
    ensures client in Without(s, id)
  {
    WithoutAt(s, id);
    var i :| 0 <= i < |s| && s[i] == client;
    WithoutElement(s, id, if i < IndexOf(s, id) then i else i - 1);
  }

  lemma RemovedLists(t: Table, l: Ledger, name: string, id: int)
    requires ListsOk(t, l) && name in t.lists && Listed(t.lists[name], id)
    ensures ListsOk(Removed(t, name, id), Leave(l, id))
  {
    var t' := Removed(t, name, id);
    forall n | n in t'.lists
      ensures Ascending(t'.lists[n]) && Matches(t'.lists[n], n, Leave(l, id))
    {
      assert Ascending(t.lists[n]) && Matches(t.lists[n], n, l);
      assert Ascending(t.lists[name]) && Matches(t.lists[name], name, l);
      if n == name {
        WithoutOk(t.lists[n], n, l, id);
      } else {
        var i :| 0 <= i < |t.lists[name]| && t.lists[name][i].id == id;
      }
    }
  }

  lemma RemovedListed(t: Table, l: Ledger, name: string, id: int)
    requires AllListed(t, l) && name in t.lists && Listed(t.lists[name], id)
    ensures AllListed(Removed(t, name, id), Leave(l, id))
  {
    var t', l' := Removed(t, name, id), Leave(l, id);
    WithoutAt(t.lists[name], id);
    var k := IndexOf(t.lists[name], id);
    forall other | other in l'.issued && other !in l'.gone
      ensures l'.issued[other].name in t'.lists && Listed(t'.lists[l'.issued[other].name], other)
    {
      var n := l.issued[other].name;
      var i :| 0 <= i < |t.lists[n]| && t.lists[n][i].id == other;
      assert t'.lists[n][if n != name || i < k then i else i - 1].id == other;
    }
  }

  lemma RemovedOk(t: Table, l: Ledger, first: int, name: string, id: int)
    requires LedgerOk(t, l, first) && name in t.lists && Listed(t.lists[name], id)
    ensures LedgerOk(Removed(t, name, id), Leave(l, id), first)
  {
    assert Matches(t.lists[name], name, l);
    RemovedLists(t, l, name, id);
    RemovedListed(t, l, name, id);
  }

  /** An id, or a descriptor, names at most one place in the whole table. */
  lemma OnePlace(t: Table, l: Ledger, first: int, a: string, i: nat, b: string, j: nat)
    requires LedgerOk(t, l, first) && a in t.lists && b in t.lists
    requires i < |t.lists[a]| && j < |t.lists[b]|
    ensures t.lists[a][i].id == t.lists[b][j].id || t.lists[a][i].fd == t.lists[b][j].fd ==> a == b && i == j
  {
    assert Matches(t.lists[a], a, l) && Matches(t.lists[b], b, l) && Ascending(t.lists[a]);
    assert l.issued[t.lists[a][i].id].fd == t.lists[a][i].fd;
    assert l.issued[t.lists[b][j].id].fd == t.lists[b][j].fd;
  }
}
