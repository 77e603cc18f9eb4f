/** A process of the shutdown protocol: its Lamport clock, what it sends, and its
    receive loop, as imperative code. Messages are represented by their clocks. */
module Processes {
  import opened FilteredReceive
  import opened LamportClock

  /** A message taken from one of the two channels of the server. */
  datatype Pop = Pop(fromFirst: bool, clock: nat)

  function Clocks(order: seq<Pop>): (r: seq<nat>)
    ensures |r| == |order|
  {
    seq(|order|, i requires 0 <= i < |order| => order[i].clock)
  }

  /** The messages taken from one channel, in order. */
  function From(order: seq<Pop>, first: bool): seq<nat> {
    if order == [] then []
    else
      var last := order[|order| - 1];
      From(order[..|order| - 1], first) + if last.fromFirst == first then [last.clock] else []
  }

  lemma AcceptedSnoc(stream: seq<nat>, x: nat, table: seq<nat>)
    ensures var m := Accepted(stream, table);
      m <= |table| && Accepted(stream + [x], table) == if m < |table| && table[m] == x then m + 1 else m
  {
    PositionsSplit(stream, [x], table, 0, 0);
    var m := Accepted(stream, table);
    var i := |stream|;
    if m < |table| && table[m] == x {
      assert Positions(stream + [x], table, i + 1, m + 1) == [];
    } else if m < |table| {
      assert Positions(stream + [x], table, i + 1, m) == [];
    }
  }

  lemma PopAccepted(order: seq<Pop>, p: Pop, table: seq<nat>)
    ensures var m := Accepted(Clocks(order), table);
      m <= |table|
      && Accepted(Clocks(order + [p]), table) == if m < |table| && table[m] == p.clock then m + 1 else m
  {
    assert Clocks(order + [p]) == Clocks(order) + [p.clock];
    AcceptedSnoc(Clocks(order), p.clock, table);
  }

  lemma PopFrom(order: seq<Pop>, p: Pop)
    ensures From(order + [p], p.fromFirst) == From(order, p.fromFirst) + [p.clock]
    ensures From(order + [p], !p.fromFirst) == From(order, !p.fromFirst)
  {
    assert (order + [p])[..|order|] == order;
  }

  // ------------------------------------------------------------------
  // What a schedule of polls takes
  // ------------------------------------------------------------------

  /** How far the server is: `i` messages taken from the first channel and `j` from
      the second, in this order, and `used` polls of the schedule made. */
  datatype Progress = Progress(order: seq<Pop>, i: nat, j: nat, used: nat)

  const START := Progress([], 0, 0, 0)

  predicate Fits(p: Progress, first: seq<nat>, second: seq<nat>, ready: seq<bool>) {
    p.i <= |first| && p.j <= |second| && p.used <= |ready|
  }

  /** One poll. If it is not ready, or finds the end of file, it takes nothing. */
  function AfterPoll(p: Progress, first: seq<nat>, second: seq<nat>, ready: seq<bool>, onFirst: bool): (r: Progress)
    requires Fits(p, first, second, ready) && p.used < |ready|
    ensures Fits(r, first, second, ready) && r.used == p.used + 1
  {
    if onFirst then
      if ready[p.used] && p.i < |first|
      then Progress(p.order + [Pop(true, first[p.i])], p.i + 1, p.j, p.used + 1) else p.(used := p.used + 1)
    else
      if ready[p.used] && p.j < |second|
      then Progress(p.order + [Pop(false, second[p.j])], p.i, p.j + 1, p.used + 1) else p.(used := p.used + 1)
  }

  /** The poll took the clock that was awaited. */
  predicate Hit(p: Progress, q: Progress, table: seq<nat>, k: nat)
    requires k < |table|
  {
    |q.order| > |p.order| && q.order[|q.order| - 1].clock == table[k]
  }

  /** Where a schedule of polls leads, with the clocks from `k` on still awaited. A poll
      of the second channel follows one of the first unless that one took the clock
      awaited; with the table complete there are no more polls. */
  function Polled(p: Progress, first: seq<nat>, second: seq<nat>, ready: seq<bool>, table: seq<nat>, k: nat, onFirst: bool): Progress
    requires Fits(p, first, second, ready) && k <= |table|
    decreases |ready| - p.used
  {
    if p.used == |ready| || k == |table| then p
    else
      var q := AfterPoll(p, first, second, ready, onFirst);
      var hit := Hit(p, q, table, k);
      Polled(q, first, second, ready, table, if hit then k + 1 else k, !onFirst || hit)
  }

  /** The messages taken under a schedule, in order. */
  function Taken(first: seq<nat>, second: seq<nat>, ready: seq<bool>, table: seq<nat>): seq<Pop> {
    Polled(START, first, second, ready, table, 0, true).order
  }

  /** The order lists the beginnings of the two streams, and `k` of its messages were
      accepted. */
  predicate Sound(p: Progress, first: seq<nat>, second: seq<nat>, ready: seq<bool>, table: seq<nat>, k: nat) {
    && Fits(p, first, second, ready)
    && From(p.order, true) == first[..p.i] && From(p.order, false) == second[..p.j]
    && k == Accepted(Clocks(p.order), table) <= |table|
  }

  lemma PollSound(p: Progress, first: seq<nat>, second: seq<nat>, ready: seq<bool>, table: seq<nat>, k: nat, onFirst: bool)
    requires Sound(p, first, second, ready, table, k) && p.used < |ready| && k < |table|
    ensures var q := AfterPoll(p, first, second, ready, onFirst);
      Sound(q, first, second, ready, table, if Hit(p, q, table, k) then k + 1 else k)
  {
    if ready[p.used] && onFirst && p.i < |first| {
      PopAccepted(p.order, Pop(true, first[p.i]), table);
      PopFrom(p.order, Pop(true, first[p.i]));
    } else if ready[p.used] && !onFirst && p.j < |second| {
      PopAccepted(p.order, Pop(false, second[p.j]), table);
      PopFrom(p.order, Pop(false, second[p.j]));
    }
  }

  lemma {:induction false} PolledSound(p: Progress, first: seq<nat>, second: seq<nat>, ready: seq<bool>, table: seq<nat>, k: nat, onFirst: bool)
    requires Sound(p, first, second, ready, table, k)
    ensures var r := Polled(p, first, second, ready, table, k, onFirst);
      Sound(r, first, second, ready, table, Accepted(Clocks(r.order), table))
    decreases |ready| - p.used
  {
    if p.used < |ready| && k < |table| {
      var q := AfterPoll(p, first, second, ready, onFirst);
      var hit := Hit(p, q, table, k);
      PollSound(p, first, second, ready, table, k, onFirst);
      PolledSound(q, first, second, ready, table, if hit then k + 1 else k, !onFirst || hit);
    }
  }

  lemma NothingTaken(first: seq<nat>, second: seq<nat>, ready: seq<bool>, table: seq<nat>)
    ensures Sound(START, first, second, ready, table, 0)
  {
  }

  /** The messages taken from each channel are the beginning of its stream. */
  lemma TakenInOrder(first: seq<nat>, second: seq<nat>, ready: seq<bool>, table: seq<nat>)
    ensures From(Taken(first, second, ready, table), true) <= first
    ensures From(Taken(first, second, ready, table), false) <= second
  {
    NothingTaken(first, second, ready, table);
    PolledSound(START, first, second, ready, table, 0, true);
  }

  /** The schedule leads through `p`, with `k` clocks accepted so far. */
  predicate OnTrack(p: Progress, first: seq<nat>, second: seq<nat>, ready: seq<bool>, table: seq<nat>, k: nat, onFirst: bool) {
    && Sound(p, first, second, ready, table, k)
    && Polled(p, first, second, ready, table, k, onFirst) == Polled(START, first, second, ready, table, 0, true)
  }

  lemma Advance(p: Progress, first: seq<nat>, second: seq<nat>, ready: seq<bool>, table: seq<nat>, k: nat, onFirst: bool)
    requires OnTrack(p, first, second, ready, table, k, onFirst) && p.used < |ready| && k < |table|
    ensures var q := AfterPoll(p, first, second, ready, onFirst);
      var hit := Hit(p, q, table, k);
      OnTrack(q, first, second, ready, table, if hit then k + 1 else k, !onFirst || hit)
  {
    PollSound(p, first, second, ready, table, k, onFirst);
  }

  lemma Arrived(p: Progress, first: seq<nat>, second: seq<nat>, ready: seq<bool>, table: seq<nat>, k: nat, onFirst: bool)
    requires OnTrack(p, first, second, ready, table, k, onFirst) && (p.used == |ready| || k == |table|)
    ensures p.order == Taken(first, second, ready, table) && k == Accepted(Clocks(p.order), table) <= |table|
    ensures From(p.order, true) <= first && From(p.order, false) <= second
  {
  }

  // ------------------------------------------------------------------
  // Enough polls
  // ------------------------------------------------------------------

  /** How many ready polls are enough to take the `n` and `m` messages that are left. */
  function Enough(n: nat, m: nat, onFirst: bool): nat {
    if n + m == 0 then 0
    else if onFirst then 2 * (n + m)
    else if m > 0 then 2 * (n + m) - 1
    else 2 * (n + m) + 1
  }

  /** From `cut` on every poll finds its channel ready. */
  predicate ReadyFrom(ready: seq<bool>, cut: nat) {
    forall i :: cut <= i < |ready| ==> ready[i]
  }

  /** The polls left are enough. */
  predicate WillDo(p: Progress, first: seq<nat>, second: seq<nat>, ready: seq<bool>, onFirst: bool, cut: nat)
    requires Fits(p, first, second, ready)
  {
    var n, m := |first| - p.i, |second| - p.j;
    if p.used <= cut then |ready| - cut > 2 * (n + m) else |ready| - p.used >= Enough(n, m, onFirst)
  }

  lemma {:induction false} PolledAll(p: Progress, first: seq<nat>, second: seq<nat>, ready: seq<bool>, table: seq<nat>,
                                     k: nat, onFirst: bool, cut: nat)
    requires Fits(p, first, second, ready) && k <= |table|
    requires ReadyFrom(ready, cut) && WillDo(p, first, second, ready, onFirst, cut)
    requires k == Accepted(Clocks(p.order), table) && Sound(p, first, second, ready, table, k)
    ensures var r := Polled(p, first, second, ready, table, k, onFirst);
      Accepted(Clocks(r.order), table) == |table| || (r.i == |first| && r.j == |second|)
    decreases |ready| - p.used
  {
    if p.used < |ready| && k < |table| {
      var q := AfterPoll(p, first, second, ready, onFirst);
      var hit := Hit(p, q, table, k);
      PollSound(p, first, second, ready, table, k, onFirst);
      PolledAll(q, first, second, ready, table, if hit then k + 1 else k, !onFirst || hit, cut);
    }
  }

  /** Whatever the schedule was before: once more than twice as many polls as there are
      messages have found data ready, the table is complete or both channels are empty. */
  lemma EnoughPollsTakeAll(first: seq<nat>, second: seq<nat>, ready: seq<bool>, table: seq<nat>, cut: nat)
    requires cut <= |ready| && ReadyFrom(ready, cut) && |ready| - cut > 2 * (|first| + |second|)
    ensures var order := Taken(first, second, ready, table);
      Accepted(Clocks(order), table) == |table| || (From(order, true) == first && From(order, false) == second)
  {
    NothingTaken(first, second, ready, table);
    PolledAll(START, first, second, ready, table, 0, true, cut);
    PolledSound(START, first, second, ready, table, 0, true);
  }

  // ------------------------------------------------------------------
  // Which channel is polled
  // ------------------------------------------------------------------

  /** After a match the first channel is polled again: while it has what is awaited, the
      second channel is not touched. */
  lemma {:induction false} FirstServesAlone(p: Progress, first: seq<nat>, second: seq<nat>, ready: seq<bool>, table: seq<nat>, k: nat)
    requires Fits(p, first, second, ready) && k <= |table| && table <= first && p.i == p.used == k
    requires |table| <= |ready| && forall i :: 0 <= i < |table| ==> ready[i]
    ensures var r := Polled(p, first, second, ready, table, k, true);
      r.i == r.used == |table| && r.j == p.j && From(r.order, false) == From(p.order, false)
    decreases |table| - k
  {
    if k < |table| {
      var q := AfterPoll(p, first, second, ready, true);
      assert first[k] == table[k];
      PopFrom(p.order, Pop(true, first[k]));
      FirstServesAlone(q, first, second, ready, table, k + 1);
    }
  }

  /** The stream does not contain the clock. */
  predicate Foreign(stream: seq<nat>, m: nat) {
    forall i :: 0 <= i < |stream| ==> stream[i] != m
  }

  /** Otherwise the channels take turns: if data is always ready and nothing matches, the
      messages come from the first and the second channel alternately. */
  lemma {:induction false} TakeTurns(p: Progress, first: seq<nat>, second: seq<nat>, ready: seq<bool>, table: seq<nat>, onFirst: bool)
    requires Fits(p, first, second, ready) && table != []
    requires Foreign(first, table[0]) && Foreign(second, table[0])
    requires ReadyFrom(ready, 0) && |ready| <= 2 * |second| && |ready| <= 2 * |first|
    requires |p.order| == p.used == p.i + p.j && p.i == p.j + (if onFirst then 0 else 1)
    requires forall i :: 0 <= i < p.used ==> (p.order[i].fromFirst <==> i % 2 == 0)
    ensures var order := Polled(p, first, second, ready, table, 0, onFirst).order;
      |order| == |ready| && forall i :: 0 <= i < |order| ==> (order[i].fromFirst <==> i % 2 == 0)
    decreases |ready| - p.used
  {
    if p.used < |ready| {
      var q := AfterPoll(p, first, second, ready, onFirst);
      TakeTurns(q, first, second, ready, table, !onFirst);
    }
  }

  /** Both, for a whole schedule. */
  lemma PollsInTurn(first: seq<nat>, second: seq<nat>, ready: seq<bool>, table: seq<nat>)
    requires table != []
    ensures table <= first && |table| <= |ready| && (forall i :: 0 <= i < |table| ==> ready[i]) ==>
      From(Taken(first, second, ready, table), false) == []
    ensures Foreign(first, table[0]) && Foreign(second, table[0])
            && ReadyFrom(ready, 0) && |ready| <= 2 * |second| && |ready| <= 2 * |first| ==>
      var order := Taken(first, second, ready, table);
      |order| == |ready| && forall i :: 0 <= i < |order| ==> (order[i].fromFirst <==> i % 2 == 0)
  {
    if table <= first && |table| <= |ready| && (forall i :: 0 <= i < |table| ==> ready[i]) {
      FirstServesAlone(START, first, second, ready, table, 0);
    }
    if Foreign(first, table[0]) && Foreign(second, table[0])
       && ReadyFrom(ready, 0) && |ready| <= 2 * |second| && |ready| <= 2 * |first| {
      TakeTurns(START, first, second, ready, table, true);
    }
  }

  /** Mixing in the messages of another channel never loses an acceptance. */
  lemma {:induction false} MergeAccepts(order: seq<Pop>, table: seq<nat>, channel: bool)
    ensures Accepted(From(order, channel), table) <= Accepted(Clocks(order), table) <= |table|
  {
    if order == [] {
      assert Clocks(order) == From(order, channel);
      PositionsSplit([], [], table, 0, 0);
    } else {
      var init, p := order[..|order| - 1], order[|order| - 1];
      assert order == init + [p];
      MergeAccepts(init, table, channel);
      PopAccepted(init, p, table);
      AcceptedSnoc(From(init, channel), p.clock, table);
      if p.fromFirst != channel {
        assert From(order, channel) == From(init, channel);
      }
    }
  }

  /** So a table that is contained in either stream is completed by any schedule with
      enough ready polls, whatever the other stream holds. */
  lemma EitherStreamSuffices(first: seq<nat>, second: seq<nat>, ready: seq<bool>, table: seq<nat>, cut: nat)
    requires cut <= |ready| && ReadyFrom(ready, cut) && |ready| - cut > 2 * (|first| + |second|)
    requires IsSubsequence(table, first) || IsSubsequence(table, second)
    ensures Accepted(Clocks(Taken(first, second, ready, table)), table) == |table|
  {
    var order := Taken(first, second, ready, table);
    EnoughPollsTakeAll(first, second, ready, table, cut);
    GreedyIsLeftmost(first, table);
    GreedyIsLeftmost(second, table);
    MergeAccepts(order, table, true);
    MergeAccepts(order, table, false);
  }

  /** The clock, the trace of it and the messages sent are those of a server that has
      accepted `ms` and started with `clock` and `before`. */
  predicate Served(clock: nat, before: seq<nat>, ms: seq<nat>, clocks: seq<nat>, lamport: nat, sent: seq<nat>) {
    && Ticks(clocks, ms, true) && clocks[0] == clock && lamport == clocks[|ms|]
    && lamport == ServerClock(clock, ms)
    && sent == before + Answers(clock, ms)
  }

  class Process {
    var lamport: nat
    var sent: seq<nat>

    constructor ()
      ensures lamport == 0 && sent == []
    {
      lamport, sent := 0, [];
    }

    method Notify()
      modifies this
      ensures lamport == old(lamport) + 1 && sent == old(sent) + [lamport]
    {
      lamport := lamport + 1;
      sent := sent + [lamport];
    }

    method Accept(m: nat)
      modifies this`lamport
      ensures lamport == (if m > old(lamport) then m + 1 else old(lamport)) == Bump(old(lamport), m)
    {
      if m > lamport {
        lamport := m + 1;
      }
    }

    /** Announces that it is ready, then receives `stream` and `eofs` times end of
        file, until the table is complete. `clocks` lists the clock before each
        acceptance and after the last. */
    method ClientReceive(stream: seq<nat>, junk: nat, eofs: nat, table: seq<nat>)
      returns (currentId: nat, ghost clocks: seq<nat>)
      requires table != []
      modifies this
      ensures currentId == Accepted(Reads(stream, junk, eofs), table) <= |table|
      ensures sent == old(sent) + [old(lamport) + 1]
      ensures Ticks(clocks, table[..currentId], false) && clocks[0] == old(lamport) + 1 && lamport == clocks[currentId]
      ensures lamport == ClientClock(old(lamport) + 1, table[..currentId])
      ensures Moves(old(lamport) + 1, table[..currentId], false, lamport)
    {
      Notify();
      currentId, clocks := ReceiveTable(stream, junk, eofs, table);
      ClockMoves(old(lamport) + 1, table[..currentId], false);
    }

    /** The receive loop of a client. */
    method ReceiveTable(stream: seq<nat>, junk: nat, eofs: nat, table: seq<nat>)
      returns (currentId: nat, ghost clocks: seq<nat>)
      requires table != []
      modifies this`lamport
      ensures currentId == Accepted(Reads(stream, junk, eofs), table) <= |table|
      ensures Ticks(clocks, table[..currentId], false) && clocks[0] == old(lamport) && lamport == clocks[currentId]
      ensures lamport == ClientClock(old(lamport), table[..currentId])
    {
      clocks := [lamport];
      ghost var seen := Reads(stream, junk, eofs);
      var message := junk;
      currentId := 0;
      var i := 0;
      while i < |stream| + eofs
        invariant i <= |seen| && currentId < |table|
        invariant message == if i == 0 then junk else seen[i - 1]
        invariant Accepted(seen, table) == currentId + |Positions(seen, table, i, currentId)|
        invariant lamport == ClientClock(old(lamport), table[..currentId])
        invariant Ticks(clocks, table[..currentId], false) && clocks[0] == old(lamport) && lamport == clocks[currentId]
      {
        if i < |stream| {
          message := stream[i];
        }
        i := i + 1;
        assert message == seen[i - 1];
        if message == table[currentId] {
          currentId := currentId + 1;
          assert table[..currentId][..currentId - 1] == table[..currentId - 1];
          Accept(message);
          clocks := clocks + [lamport];
          if currentId == |table| {
            break;
          }
        }
      }
    }

    /** Polls a channel from which `at` messages have been taken. A message that is ready
        is taken into the buffer; at end of file there is data and the buffer keeps what
        it held; else nothing happens. */
    static method Poll(ready: bool, channel: seq<nat>, at: nat, message: nat)
      returns (isData: bool, next: nat, buffer: nat)
      requires at <= |channel|
      ensures isData <==> ready
      ensures if ready && at < |channel| then next == at + 1 && buffer == channel[at] else next == at && buffer == message
    {
      isData, next, buffer := ready, at, message;
      if ready && at < |channel| {
        next, buffer := at + 1, channel[at];
      }
    }

    method Reply(m: nat)
      modifies this
      ensures lamport == old(lamport) + if m == 1 || m == 5 then 1 else 0
      ensures sent == old(sent) + if m == 1 || m == 5 then [lamport] else []
    {
      match m {
        case 1 => Notify();
        case 5 => Notify();
        case _ =>
      }
    }

    method AcceptAndReply(table: seq<nat>, k: nat, ghost clock: nat, ghost before: seq<nat>, ghost clocks: seq<nat>)
      requires k < |table| && Served(clock, before, table[..k], clocks, lamport, sent)
      modifies this
      ensures lamport == (if table[k] > old(lamport) then table[k] + 1 else old(lamport))
                         + if table[k] == 1 || table[k] == 5 then 1 else 0
      ensures sent == old(sent) + if table[k] == 1 || table[k] == 5 then [lamport] else []
      ensures Served(clock, before, table[..k + 1], clocks + [lamport], lamport, sent)
    {
      assert table[..k + 1][..k] == table[..k];
      Accept(table[k]);
      Reply(table[k]);
    }

    /** Polls two channels in turn, with data ready or not as `ready` says, until the
        table is complete or the schedule ends. */
    method ServerReceive(first: seq<nat>, second: seq<nat>, ready: seq<bool>, junk: nat, table: seq<nat>)
      returns (currentId: nat, used: nat, ghost order: seq<Pop>, ghost clocks: seq<nat>)
      requires table != [] && (forall k :: 0 <= k < |table| ==> table[k] != 0) && junk != table[0]
      modifies this
      ensures order == Taken(first, second, ready, table)
      ensures From(order, true) <= first && From(order, false) <= second
      ensures currentId == Accepted(Clocks(order), table) <= |table|
      ensures used <= |ready| && (currentId < |table| ==> used == |ready|)
      ensures Ticks(clocks, table[..currentId], true) && clocks[0] == old(lamport) && lamport == clocks[currentId]
      ensures lamport == ServerClock(old(lamport), table[..currentId])
      ensures sent == old(sent) + Answers(old(lamport), table[..currentId])
      ensures Moves(old(lamport), table[..currentId], true, lamport)
      ensures |old(sent)| <= |sent| && AnswersMatch(old(lamport), table[..currentId], sent[|old(sent)|..], lamport)
    {
      currentId, used, order, clocks := PollTable(first, second, ready, junk, table);
      ClockMoves(old(lamport), table[..currentId], true);
      AnswersFollow(old(lamport), table[..currentId]);
      assert sent[|old(sent)|..] == Answers(old(lamport), table[..currentId]);
    }

    /** One turn of the inner loop: a poll of the first channel, and unless it took the
        clock awaited one of the second, if the schedule goes on. `p` and `q` say how far
        the server is before and after, and `turn` that the first channel is next. */
    static method PollBoth(first: seq<nat>, second: seq<nat>, ready: seq<bool>, table: seq<nat>, currentId: nat,
                           i: nat, j: nat, used: nat, message: nat, ghost p: Progress)
      returns (i': nat, j': nat, used': nat, buffer: nat, ghost q: Progress, ghost turn: bool)
      requires OnTrack(p, first, second, ready, table, currentId, true) && p.i == i && p.j == j && p.used == used
      requires currentId < |table| && used < |ready| && message != table[currentId]
      ensures q.i == i' && q.j == j' && used < q.used == used' <= |ready|
      ensures OnTrack(q, first, second, ready, table, if buffer == table[currentId] then currentId + 1 else currentId, turn)
      ensures !turn ==> used' == |ready| && buffer != table[currentId]
    {
      var isData;
      i', j', used', turn := i, j, used, true;
      Advance(p, first, second, ready, table, currentId, true);
      q := AfterPoll(p, first, second, ready, true);
      isData, i', buffer := Poll(ready[used'], first, i', message);
      used' := used' + 1;
      if !(isData && buffer == table[currentId]) {
        if used' == |ready| {
          turn := false;
        } else {
          Advance(q, first, second, ready, table, currentId, false);
          q := AfterPoll(q, first, second, ready, false);
          isData, j', buffer := Poll(ready[used'], second, j', buffer);
          used' := used' + 1;
        }
      }
    }

    /** The polling loop of the server. */
    method PollTable(first: seq<nat>, second: seq<nat>, ready: seq<bool>, junk: nat, table: seq<nat>)
      returns (currentId: nat, used: nat, ghost order: seq<Pop>, ghost clocks: seq<nat>)
      requires table != [] && (forall k :: 0 <= k < |table| ==> table[k] != 0) && junk != table[0]
      modifies this
      ensures order == Taken(first, second, ready, table)
      ensures From(order, true) <= first && From(order, false) <= second
      ensures currentId == Accepted(Clocks(order), table) <= |table|
      ensures used <= |ready| && (currentId < |table| ==> used == |ready|)
      ensures Served(old(lamport), old(sent), table[..currentId], clocks, lamport, sent)
    {
      NothingTaken(first, second, ready, table);
      ghost var p, turn := START, true;
      var message, i, j := junk, 0, 0;
      currentId, used := 0, 0;
      clocks := [lamport];
      while currentId < |table| && used < |ready|
        invariant p.i == i && p.j == j && p.used == used <= |ready|
        invariant OnTrack(p, first, second, ready, table, currentId, turn) && (!turn ==> used == |ready|)
        invariant currentId < |table| ==> message != table[currentId]
        invariant Served(old(lamport), old(sent), table[..currentId], clocks, lamport, sent)
      {
        i, j, used, message, p, turn := PollBoth(first, second, ready, table, currentId, i, j, used, message, p);
        if message == table[currentId] {
          AcceptAndReply(table, currentId, old(lamport), old(sent), clocks);
          clocks := clocks + [lamport];
          currentId := currentId + 1;
          message := 0;
        }
      }
      Arrived(p, first, second, ready, table, currentId, turn);
      order := p.order;
    }
  }
}
