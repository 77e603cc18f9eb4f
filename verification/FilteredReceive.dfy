/** Receiving through a table of expected clocks.

    A client reads one channel, the server polls two. Both compare what the
    receive buffer holds with the next clock of a table, and skip everything else.
    At end of file a receive succeeds and leaves the buffer as it was. */
module FilteredReceive {

  // ------------------------------------------------------------------
  // Greedy matching
  // ------------------------------------------------------------------

  /** Where the clocks of `table` from `j` on are accepted in `stream` from `i` on,
      when each is accepted as soon as it appears. */
  function Positions(stream: seq<nat>, table: seq<nat>, i: nat, j: nat): seq<nat>
    requires i <= |stream| && j <= |table|
    decreases |stream| - i
  {
    if i == |stream| || j == |table| then []
    else if stream[i] == table[j] then [i] + Positions(stream, table, i + 1, j + 1)
    else Positions(stream, table, i + 1, j)
  }

  function Accepted(stream: seq<nat>, table: seq<nat>): nat {
    |Positions(stream, table, 0, 0)|
  }

  /** `at` lists increasing positions of `stream`, from `i` on, that hold the clocks
      of `table` from `j` on. */
  predicate Embeds(at: seq<nat>, stream: seq<nat>, table: seq<nat>, i: nat, j: nat) {
    && j + |at| <= |table|
    && (forall k :: 0 <= k < |at| ==> i <= at[k] < |stream| && stream[at[k]] == table[j + k])
    && (forall k, l :: 0 <= k < l < |at| ==> at[k] < at[l])
  }

  /** The table is a subsequence of the stream. */
  ghost predicate IsSubsequence(table: seq<nat>, stream: seq<nat>) {
    exists at :: Embeds(at, stream, table, 0, 0) && |at| == |table|
  }

  lemma EmbedsCons(at: seq<nat>, stream: seq<nat>, table: seq<nat>, i: nat, j: nat)
    requires i < |stream| && j < |table| && stream[i] == table[j] && Embeds(at, stream, table, i + 1, j + 1)
    ensures Embeds([i] + at, stream, table, i, j)
  {
    var all := [i] + at;
    forall k | 0 <= k < |all| ensures i <= all[k] < |stream| && stream[all[k]] == table[j + k] {
      assert k > 0 ==> all[k] == at[k - 1];
    }
    forall k, l | 0 <= k < l < |all| ensures all[k] < all[l] {
      assert all[l] == at[l - 1] && (k > 0 ==> all[k] == at[k - 1]);
    }
  }

  lemma EmbedsTail(at: seq<nat>, stream: seq<nat>, table: seq<nat>, i: nat, j: nat)
    requires at != [] && Embeds(at, stream, table, i, j)
    ensures i <= at[0] < |stream| && stream[at[0]] == table[j]
    ensures Embeds(at[1..], stream, table, at[0] + 1, j + 1)
  {
    forall k | 0 <= k < |at[1..]|
      ensures at[0] + 1 <= at[1..][k] < |stream| && stream[at[1..][k]] == table[j + 1 + k]
    {
      assert at[1..][k] == at[k + 1];
    }
  }

  lemma EmbedsLater(at: seq<nat>, stream: seq<nat>, table: seq<nat>, i: nat, i': nat, j: nat)
    requires Embeds(at, stream, table, i, j) && (at != [] ==> i' <= at[0])
    ensures Embeds(at, stream, table, i', j)
  {
  }

  lemma {:induction false} PositionsEmbed(stream: seq<nat>, table: seq<nat>, i: nat, j: nat)
    requires i <= |stream| && j <= |table|
    ensures Embeds(Positions(stream, table, i, j), stream, table, i, j)
    decreases |stream| - i
  {
    if i < |stream| && j < |table| {
      if stream[i] == table[j] {
        PositionsEmbed(stream, table, i + 1, j + 1);
        EmbedsCons(Positions(stream, table, i + 1, j + 1), stream, table, i, j);
      } else {
        PositionsEmbed(stream, table, i + 1, j);
      }
    }
  }

  /** `r` is at least as long as `at`, and nowhere further right. */
  predicate LeftOf(r: seq<nat>, at: seq<nat>) {
    |at| <= |r| && forall k :: 0 <= k < |at| ==> r[k] <= at[k]
  }

  lemma LeftOfCons(i: nat, r: seq<nat>, at: seq<nat>)
    requires at != [] && i <= at[0] && LeftOf(r, at[1..])
    ensures LeftOf([i] + r, at)
  {
    forall k | 0 <= k < |at|
      ensures ([i] + r)[k] <= at[k]
    {
      assert k > 0 ==> ([i] + r)[k] == r[k - 1] && at[k] == at[1..][k - 1];
    }
  }

  /** No embedding is longer than the greedy one, and none is further left. */
  lemma {:induction false} PositionsLeftmost(stream: seq<nat>, table: seq<nat>, i: nat, j: nat, at: seq<nat>)
    requires i <= |stream| && j <= |table| && Embeds(at, stream, table, i, j)
    ensures LeftOf(Positions(stream, table, i, j), at)
    decreases |stream| - i
  {
    if at != [] {
      EmbedsTail(at, stream, table, i, j);
      if stream[i] == table[j] {
        EmbedsLater(at[1..], stream, table, at[0] + 1, i + 1, j + 1);
        PositionsLeftmost(stream, table, i + 1, j + 1, at[1..]);
        LeftOfCons(i, Positions(stream, table, i + 1, j + 1), at);
      } else {
        EmbedsLater(at, stream, table, i, i + 1, j);
        PositionsLeftmost(stream, table, i + 1, j, at);
      }
    }
  }

  /** Greedy matching accepts the leftmost embedding, and the whole table exactly
      when it is a subsequence of the stream. */
  lemma GreedyIsLeftmost(stream: seq<nat>, table: seq<nat>)
    ensures Embeds(Positions(stream, table, 0, 0), stream, table, 0, 0)
    ensures forall at, k :: Embeds(at, stream, table, 0, 0) && 0 <= k < |at| ==>
      k < Accepted(stream, table) && Positions(stream, table, 0, 0)[k] <= at[k]
    ensures Accepted(stream, table) == |table| <==> IsSubsequence(table, stream)
  {
    PositionsEmbed(stream, table, 0, 0);
    forall at | Embeds(at, stream, table, 0, 0)
      ensures |at| <= Accepted(stream, table)
      ensures forall k :: 0 <= k < |at| ==> Positions(stream, table, 0, 0)[k] <= at[k]
    {
      PositionsLeftmost(stream, table, 0, 0, at);
    }
  }

  // ------------------------------------------------------------------
  // End of file
  // ------------------------------------------------------------------

  /** What the buffer holds after each receive: the messages of the stream, then
      `eofs` times the last of them, or what it held at first if there is none. */
  function Reads(stream: seq<nat>, junk: nat, eofs: nat): seq<nat>
    ensures |Reads(stream, junk, eofs)| == |stream| + eofs
  {
    stream + seq(eofs, _ => Stale(stream, junk))
  }

  function Stale(stream: seq<nat>, junk: nat): nat {
    if stream == [] then junk else stream[|stream| - 1]
  }

  /** The buffer is accepted a second time at end of file. */
  predicate Restarts(stream: seq<nat>, table: seq<nat>, junk: nat) {
    var m := Accepted(stream, table);
    m < |table| && table[m] == Stale(stream, junk)
  }

  lemma {:induction false} PositionsSplit(stream: seq<nat>, more: seq<nat>, table: seq<nat>, i: nat, j: nat)
    requires i <= |stream| && j <= |table|
    ensures j + |Positions(stream, table, i, j)| <= |table|
    ensures |Positions(stream + more, table, i, j)| == |Positions(stream, table, i, j)|
              + |Positions(stream + more, table, |stream|, j + |Positions(stream, table, i, j)|)|
    decreases |stream| - i
  {
    if i < |stream| && j < |table| {
      assert (stream + more)[i] == stream[i];
      if stream[i] == table[j] {
        PositionsSplit(stream, more, table, i + 1, j + 1);
      } else {
        PositionsSplit(stream, more, table, i + 1, j);
      }
    } else if j == |table| {
      assert Positions(stream + more, table, i, j) == [];
    }
  }

  /** A buffer that is not the next clock is never accepted, however often it is seen. */
  lemma {:induction false} NothingMore(seen: seq<nat>, table: seq<nat>, i: nat, j: nat)
    requires i <= |seen| && j <= |table|
    requires j < |table| ==> forall k :: i <= k < |seen| ==> seen[k] != table[j]
    ensures Positions(seen, table, i, j) == []
    decreases |seen| - i
  {
    if i < |seen| && j < |table| {
      NothingMore(seen, table, i + 1, j);
    }
  }

  /** End of file adds something to what was accepted exactly when the stale buffer
      is the next clock. */
  lemma EofAddsIffStale(stream: seq<nat>, table: seq<nat>, junk: nat, eofs: nat)
    requires eofs > 0
    ensures Accepted(Reads(stream, junk, eofs), table) == Accepted(stream, table) <==> !Restarts(stream, table, junk)
  {
    var more := seq(eofs, _ => Stale(stream, junk));
    var seen, m := stream + more, Accepted(stream, table);
    PositionsSplit(stream, more, table, 0, 0);
    if !Restarts(stream, table, junk) {
      NothingMore(seen, table, |stream|, m);
    } else {
      assert seen[|stream|] == more[0] == table[m];
    }
  }

  /** The last message read is the last one accepted, or it is not the next clock. */
  lemma {:induction false} LastRead(stream: seq<nat>, table: seq<nat>, i: nat, j: nat)
    requires i < |stream| && j <= |table|
    ensures var m := j + |Positions(stream, table, i, j)|;
      m < |table| && table[m] == stream[|stream| - 1] ==> m > j && table[m - 1] == table[m]
    decreases |stream| - i
  {
    if j < |table| {
      var next := if stream[i] == table[j] then j + 1 else j;
      if i + 1 < |stream| {
        LastRead(stream, table, i + 1, next);
      } else {
        assert Positions(stream, table, i + 1, next) == [];
      }
    }
  }

  /** One value seen over and over completes a table only if nothing else is left in it. */
  lemma {:induction false} OnlyStale(seen: seq<nat>, table: seq<nat>, i: nat, j: nat, x: nat)
    requires i <= |seen| && j <= |table| && forall k :: i <= k < |seen| ==> seen[k] == x
    requires |Positions(seen, table, i, j)| == |table| - j
    ensures forall k :: j <= k < |table| ==> table[k] == x
    decreases |seen| - i
  {
    if i < |seen| && j < |table| {
      if seen[i] == table[j] {
        OnlyStale(seen, table, i + 1, j + 1, x);
      } else {
        OnlyStale(seen, table, i + 1, j, x);
      }
    }
  }

  /** The end of the table cannot be taken from a stale buffer. */
  predicate EndsSafely(table: seq<nat>, junk: nat)
    requires table != []
  {
    if |table| == 1 then junk != table[0] else table[|table| - 2] != table[|table| - 1]
  }

  lemma EofHarmless(stream: seq<nat>, table: seq<nat>, junk: nat, eofs: nat)
    requires table != [] && EndsSafely(table, junk)
    ensures Accepted(Reads(stream, junk, eofs), table) == |table| <==> IsSubsequence(table, stream)
  {
    var more := seq(eofs, _ => Stale(stream, junk));
    var seen, m := stream + more, Accepted(stream, table);
    GreedyIsLeftmost(stream, table);
    PositionsSplit(stream, more, table, 0, 0);
    if Accepted(seen, table) == |table| && m < |table| {
      OnlyStale(seen, table, |stream|, m, Stale(stream, junk));
      if stream != [] {
        LastRead(stream, table, 0, 0);
      }
    }
  }

  /** All of a stream is accepted if it is the beginning of the table. */
  lemma {:induction false} AcceptsPrefix(seen: seq<nat>, table: seq<nat>, i: nat)
    requires i <= |seen| <= |table| && forall k :: 0 <= k < |seen| ==> seen[k] == table[k]
    ensures |Positions(seen, table, i, i)| == |seen| - i
    decreases |seen| - i
  {
    if i < |seen| {
      AcceptsPrefix(seen, table, i + 1);
    }
  }

  /** Otherwise all but the end of the table is sent, and end of file completes it. */
  lemma EofHarmful(table: seq<nat>, junk: nat) returns (stream: seq<nat>)
    requires table != [] && !EndsSafely(table, junk)
    ensures Accepted(Reads(stream, junk, 1), table) == |table| && !IsSubsequence(table, stream)
  {
    stream := table[..|table| - 1];
    AcceptsPrefix(stream, table, 0);
    AcceptsPrefix(Reads(stream, junk, 1), table, 0);
    GreedyIsLeftmost(stream, table);
  }

  ghost predicate FinishesOnSubsequences(table: seq<nat>, junk: nat) {
    forall stream, eofs: nat ::
      Accepted(Reads(stream, junk, eofs), table) == |table| <==> IsSubsequence(table, stream)
  }

  /** A receiver finishes exactly on the streams that contain its table, no matter
      how often it reads at end of file, if and only if the table ends safely. */
  lemma FinishesIffEndsSafely(table: seq<nat>, junk: nat)
    requires table != []
    ensures FinishesOnSubsequences(table, junk) <==> EndsSafely(table, junk)
  {
    if EndsSafely(table, junk) {
      forall stream, eofs: nat
        ensures Accepted(Reads(stream, junk, eofs), table) == |table| <==> IsSubsequence(table, stream)
      {
        EofHarmless(stream, table, junk, eofs);
      }
    } else {
      var stream := EofHarmful(table, junk);
    }
  }
}
