/** The Lamport clock of a process that accepts messages and may answer some of them.
    Messages are represented by their clocks. */
module LamportClock {

  /** The clock after accepting a message: it moves only if the message is ahead. */
  function Bump(clock: nat, m: nat): nat {
    if m > clock then m + 1 else clock
  }

  /** The messages that the server answers. */
  predicate Answered(m: nat) { m == 1 || m == 5 }

  /** The clock after accepting the messages `ms`, by a process that answers or not. */
  function ClockAfter(clock: nat, ms: seq<nat>, answers: bool): nat {
    if ms == [] then clock
    else
      var m := ms[|ms| - 1];
      Bump(ClockAfter(clock, ms[..|ms| - 1], answers), m) + if answers && Answered(m) then 1 else 0
  }

  function ClientClock(clock: nat, ms: seq<nat>): nat { ClockAfter(clock, ms, false) }

  function ServerClock(clock: nat, ms: seq<nat>): nat { ClockAfter(clock, ms, true) }

  /** The clocks of the answers. */
  function Answers(clock: nat, ms: seq<nat>): seq<nat> {
    if ms == [] then []
    else
      Answers(clock, ms[..|ms| - 1]) + if Answered(ms[|ms| - 1]) then [ServerClock(clock, ms)] else []
  }

  /** The clocks before each acceptance and after the last: an acceptance sets the clock
      to the message's plus one if the message is ahead, else leaves it, and an answer
      adds one. */
  predicate Ticks(clocks: seq<nat>, ms: seq<nat>, answers: bool) {
    && |clocks| == |ms| + 1
    && forall k :: 0 <= k < |ms| ==>
         clocks[k + 1] == (if ms[k] > clocks[k] then ms[k] + 1 else clocks[k])
                          + (if answers && (ms[k] == 1 || ms[k] == 5) then 1 else 0)
  }

  // ------------------------------------------------------------------
  // The clock against the messages
  // ------------------------------------------------------------------

  /** The clock never goes back. */
  lemma {:induction false} NeverBack(clock: nat, ms: seq<nat>, answers: bool, k: nat)
    requires k <= |ms|
    ensures clock <= ClockAfter(clock, ms[..k], answers) <= ClockAfter(clock, ms, answers)
  {
    if ms == [] {
      assert ms[..k] == [];
    } else if k == |ms| {
      assert ms[..k] == ms;
      NeverBack(clock, ms[..|ms| - 1], answers, |ms| - 1);
    } else {
      assert ms[..|ms| - 1][..k] == ms[..k];
      NeverBack(clock, ms[..|ms| - 1], answers, k);
    }
  }

  /** It reaches every accepted message. */
  lemma ReachesAccepted(clock: nat, ms: seq<nat>, answers: bool, k: nat)
    requires k < |ms|
    ensures ms[k] <= ClockAfter(clock, ms, answers)
  {
    assert ms[..k + 1][..k] == ms[..k];
    NeverBack(clock, ms, answers, k + 1);
  }

  /** Every message is ahead of the clock at the time when it is accepted. */
  predicate Ahead(clock: nat, ms: seq<nat>, answers: bool) {
    && (ms != [] ==> ms[0] > clock)
    && forall k :: 0 < k < |ms| ==> ms[k] > ms[k - 1] + (if answers && Answered(ms[k - 1]) then 2 else 1)
  }

  /** With every message ahead the clock is just past the last one, and its answer. */
  lemma {:induction false} AheadClock(clock: nat, ms: seq<nat>, answers: bool)
    requires Ahead(clock, ms, answers) && ms != []
    ensures ClockAfter(clock, ms, answers) == ms[|ms| - 1] + (if answers && Answered(ms[|ms| - 1]) then 2 else 1)
    ensures forall k :: 0 <= k < |ms| ==> ms[k] < ClockAfter(clock, ms, answers)
  {
    var init := ms[..|ms| - 1];
    if init != [] {
      AheadClock(clock, init, answers);
      assert init[|init| - 1] == ms[|ms| - 2];
      assert forall k :: 0 <= k < |init| ==> init[k] == ms[k];
    }
  }

  /** Messages that are not ahead and not answered do not move the clock. */
  lemma {:induction false} StaysPut(clock: nat, ms: seq<nat>, answers: bool)
    requires forall k :: 0 <= k < |ms| ==> ms[k] <= clock && !(answers && Answered(ms[k]))
    ensures ClockAfter(clock, ms, answers) == clock
  {
    if ms != [] {
      StaysPut(clock, ms[..|ms| - 1], answers);
    }
  }

  /** A message found the clock exactly at its own value, and nothing moved the clock
      afterwards. */
  predicate Tied(clock: nat, ms: seq<nat>, answers: bool) {
    exists k :: 0 <= k < |ms| && TiedAt(clock, ms, answers, k)
  }

  predicate TiedAt(clock: nat, ms: seq<nat>, answers: bool, k: nat)
    requires k < |ms|
  {
    && ms[k] == ClockAfter(clock, ms[..k], answers)
    && forall j :: k <= j < |ms| ==> ms[j] <= ms[k] && !(answers && Answered(ms[j]))
  }

  /** After a tie the clock stays at the message's value. */
  lemma {:induction false} TieHolds(clock: nat, ms: seq<nat>, answers: bool, k: nat, n: nat)
    requires k < n <= |ms| && TiedAt(clock, ms, answers, k)
    ensures ClockAfter(clock, ms[..n], answers) == ms[k]
  {
    assert ms[..n][..n - 1] == ms[..n - 1];
    if n > k + 1 {
      TieHolds(clock, ms, answers, k, n - 1);
    }
  }

  /** If the clock is not past an accepted message, there was a tie. */
  lemma {:induction false} NotPastIsTied(clock: nat, ms: seq<nat>, answers: bool, k: nat)
    requires k < |ms| && ms[k] >= ClockAfter(clock, ms, answers)
    ensures Tied(clock, ms, answers)
  {
    var init, last := ms[..|ms| - 1], ms[|ms| - 1];
    if k == |ms| - 1 {
      assert TiedAt(clock, ms, answers, k);
    } else {
      assert init[k] == ms[k];
      ReachesAccepted(clock, ms, answers, |ms| - 1);
      NeverBack(clock, ms, answers, |ms| - 1);
      NotPastIsTied(clock, init, answers, k);
      var i :| 0 <= i < |init| && TiedAt(clock, init, answers, i);
      TieHolds(clock, init, answers, i, |init|);
      assert init[..|init|] == init && init[..i] == ms[..i];
      assert forall j :: 0 <= j < |init| ==> init[j] == ms[j];
      ReachesAccepted(clock, init, answers, k);
      assert TiedAt(clock, ms, answers, i);
    }
  }

  /** The clock is past every accepted message if and only if no message was tied. */
  lemma PastAllIffNoTie(clock: nat, ms: seq<nat>, answers: bool)
    ensures (forall k :: 0 <= k < |ms| ==> ms[k] < ClockAfter(clock, ms, answers)) <==> !Tied(clock, ms, answers)
  {
    if Tied(clock, ms, answers) {
      var k :| 0 <= k < |ms| && TiedAt(clock, ms, answers, k);
      TieHolds(clock, ms, answers, k, |ms|);
      assert ms[..|ms|] == ms;
    } else if k :| 0 <= k < |ms| && ms[k] >= ClockAfter(clock, ms, answers) {
      NotPastIsTied(clock, ms, answers, k);
    }
  }

  /** A message with exactly the receiver's clock leaves the clock at its own value: the
      receive is then not later than the send. */
  lemma TieExample()
    ensures ClientClock(3, [3]) == 3 && ServerClock(9, [9]) == 9
  {
    assert ClockAfter(3, [], false) == 3 && ClockAfter(9, [], true) == 9;
    assert [3][..0] == [] && [9][..0] == [];
  }

  // ------------------------------------------------------------------
  // The answers
  // ------------------------------------------------------------------

  /** The answered messages, with the clocks that their answers carry if each message
      is ahead: one for the acceptance and one for the answer. */
  function PlusTwo(ms: seq<nat>): seq<nat> {
    if ms == [] then []
    else PlusTwo(ms[..|ms| - 1]) + if ms[|ms| - 1] == 1 || ms[|ms| - 1] == 5 then [ms[|ms| - 1] + 2] else []
  }

  predicate Increasing(s: seq<nat>) {
    forall i, j :: 0 <= i < j < |s| ==> s[i] < s[j]
  }

  /** One answer for each accepted 1 or 5, with increasing clocks after the first clock
      and up to the last. */
  lemma {:induction false} AnswersIncrease(clock: nat, ms: seq<nat>)
    ensures |Answers(clock, ms)| == |PlusTwo(ms)|
    ensures Increasing(Answers(clock, ms))
    ensures forall i :: 0 <= i < |Answers(clock, ms)| ==> clock < Answers(clock, ms)[i] <= ServerClock(clock, ms)
  {
    if ms != [] {
      AnswersIncrease(clock, ms[..|ms| - 1]);
      NeverBack(clock, ms, true, |ms| - 1);
    }
  }

  /** With every message ahead an answer carries the message's clock plus two. */
  lemma {:induction false} AheadAnswers(clock: nat, ms: seq<nat>)
    requires Ahead(clock, ms, true)
    ensures Answers(clock, ms) == PlusTwo(ms)
  {
    if ms != [] {
      var init := ms[..|ms| - 1];
      assert forall k :: 0 <= k < |init| ==> init[k] == ms[k];
      AheadAnswers(clock, init);
      AheadClock(clock, ms, true);
    }
  }

  // ------------------------------------------------------------------
  // The clocks of the shutdown protocol
  // ------------------------------------------------------------------

  lemma PlusTwoOfTable()
    ensures PlusTwo([1]) == [3] && PlusTwo([1, 5]) == PlusTwo([1, 5, 9]) == [3, 7]
  {
    assert [1, 5, 9][..2] == [1, 5] && [1, 5][..1] == [1] && [1][..0] == [];
    assert PlusTwo([1]) == [3];
    assert PlusTwo([1, 5]) == [3, 7];
  }

  /** The server goes from 0 to 10 over 1, 5 and 9, and answers with 3 and 7. */
  lemma ServerClocks()
    ensures ServerClock(0, [1, 5, 9]) == 10 && Answers(0, [1, 5, 9]) == [3, 7]
  {
    AheadClock(0, [1, 5, 9], true);
    AheadAnswers(0, [1, 5, 9]);
    PlusTwoOfTable();
  }

  /** A client that has announced itself goes from 1 to 4 over 3, and to 8 over 7. */
  lemma ClientClocks()
    ensures ClientClock(1, [3]) == 4 && ClientClock(1, [7]) == 8
  {
    AheadClock(1, [3], false);
    AheadClock(1, [7], false);
  }

  // ------------------------------------------------------------------
  // What a receiver promises
  // ------------------------------------------------------------------

  /** What the clock `c` of a process is, that was `clock` before it accepted `ms`: it
      has not gone back and has reached every message; it is past all of them if and
      only if none was tied; with every message ahead it is just past the last one, and
      its answer; and what is neither ahead nor answered does not move it. */
  predicate Moves(clock: nat, ms: seq<nat>, answers: bool, c: nat) {
    && c >= clock
    && (forall k :: 0 <= k < |ms| ==> ms[k] <= c)
    && ((forall k :: 0 <= k < |ms| ==> ms[k] < c) <==> !Tied(clock, ms, answers))
    && (ms != [] && Ahead(clock, ms, answers) ==>
          c == ms[|ms| - 1] + (if answers && (ms[|ms| - 1] == 1 || ms[|ms| - 1] == 5) then 2 else 1))
    && ((forall k :: 0 <= k < |ms| ==> ms[k] <= clock && !(answers && (ms[k] == 1 || ms[k] == 5))) ==> c == clock)
    && (clock == 1 && ms == [3] && !answers ==> c == 4)
    && (clock == 1 && ms == [7] && !answers ==> c == 8)
    && (clock == 0 && ms == [1, 5, 9] && answers ==> c == 10)
  }

  lemma ClockMoves(clock: nat, ms: seq<nat>, answers: bool)
    ensures Moves(clock, ms, answers, ClockAfter(clock, ms, answers))
  {
    NeverBack(clock, ms, answers, |ms|);
    assert ms[..|ms|] == ms;
    forall k | 0 <= k < |ms|
      ensures ms[k] <= ClockAfter(clock, ms, answers)
    {
      ReachesAccepted(clock, ms, answers, k);
    }
    PastAllIffNoTie(clock, ms, answers);
    if ms != [] && Ahead(clock, ms, answers) {
      AheadClock(clock, ms, answers);
    }
    if forall k :: 0 <= k < |ms| ==> ms[k] <= clock && !(answers && Answered(ms[k])) {
      StaysPut(clock, ms, answers);
    }
    ClientClocks();
    ServerClocks();
  }

  /** What the server sent while its clock went from `clock` to `c` over `ms`: one answer
      for each accepted 1 or 5, with increasing clocks; with every message ahead an
      answer carries the message's clock plus two. */
  predicate AnswersMatch(clock: nat, ms: seq<nat>, answers: seq<nat>, c: nat) {
    && |answers| == |PlusTwo(ms)| && Increasing(answers)
    && (forall i :: 0 <= i < |answers| ==> clock < answers[i] <= c)
    && (Ahead(clock, ms, true) ==> answers == PlusTwo(ms))
    && (clock == 0 && ms == [1, 5, 9] ==> answers == [3, 7])
  }

  lemma AnswersFollow(clock: nat, ms: seq<nat>)
    ensures AnswersMatch(clock, ms, Answers(clock, ms), ServerClock(clock, ms))
  {
    AnswersIncrease(clock, ms);
    if Ahead(clock, ms, true) {
      AheadAnswers(clock, ms);
    }
    ServerClocks();
  }
}
