/** Weighted sums over sequences.

    The concurrent models keep one record per thread in a sequence. A shared
    counter of the program then corresponds to a sum over that sequence, and a
    step of one thread changes the sum by what it changes at one index. */
module Counting {

  /** The weight of the first `n` elements. */
  function SumTo<T>(s: seq<T>, n: nat, w: T -> nat): nat
    requires n <= |s|
  {
    if n == 0 then 0 else SumTo(s, n - 1, w) + w(s[n - 1])
  }

  function Sum<T>(s: seq<T>, w: T -> nat): nat { SumTo(s, |s|, w) }

  lemma {:induction false} SumToUpdate<T>(s: seq<T>, n: nat, i: nat, x: T, w: T -> nat)
    requires i < |s| && n <= |s|
    ensures SumTo(s[i := x], n, w) + (if i < n then w(s[i]) else 0) == SumTo(s, n, w) + (if i < n then w(x) else 0)
  {
    if n != 0 {
      SumToUpdate(s, n - 1, i, x, w);
    }
  }

  lemma SumUpdate<T>(s: seq<T>, i: nat, x: T, w: T -> nat)
    requires i < |s|
    ensures Sum(s[i := x], w) + w(s[i]) == Sum(s, w) + w(x)
  {
    SumToUpdate(s, |s|, i, x, w);
  }

  lemma {:induction false} SumToAppend<T>(s: seq<T>, n: nat, x: T, w: T -> nat)
    requires n <= |s|
    ensures SumTo(s + [x], n, w) == SumTo(s, n, w)
  {
    if n != 0 {
      SumToAppend(s, n - 1, x, w);
    }
  }

  lemma SumAppend<T>(s: seq<T>, x: T, w: T -> nat)
    ensures Sum(s + [x], w) == Sum(s, w) + w(x)
  {
    SumToAppend(s, |s|, x, w);
  }

  /** One element weighs no more than the whole. */
  lemma {:induction false} SumToMember<T>(s: seq<T>, n: nat, i: nat, w: T -> nat)
    requires i < n <= |s|
    ensures w(s[i]) <= SumTo(s, n, w)
  {
    if i != n - 1 {
      SumToMember(s, n - 1, i, w);
    }
  }

  /** A positive sum has a positive element. */
  lemma {:induction false} SumToWitness<T>(s: seq<T>, n: nat, w: T -> nat) returns (i: nat)
    requires n <= |s| && SumTo(s, n, w) != 0
    ensures i < n && w(s[i]) != 0
  {
    if w(s[n - 1]) != 0 {
      i := n - 1;
    } else {
      i := SumToWitness(s, n - 1, w);
    }
  }

  /** With weights of at most `k`, the sum is at most `k` times the length. */
  lemma {:induction false} SumToBound<T>(s: seq<T>, n: nat, k: nat, w: T -> nat)
    requires n <= |s| && forall i :: 0 <= i < n ==> w(s[i]) <= k
    ensures SumTo(s, n, w) <= k * n
  {
    if n != 0 {
      SumToBound(s, n - 1, k, w);
    }
  }

  lemma SumBound<T>(s: seq<T>, k: nat, w: T -> nat)
    requires forall i :: 0 <= i < |s| ==> w(s[i]) <= k
    ensures Sum(s, w) <= k * |s|
  {
    SumToBound(s, |s|, k, w);
  }

  lemma {:induction false} SumToAll<T>(s: seq<T>, n: nat, k: nat, w: T -> nat)
    requires n <= |s| && forall i :: 0 <= i < n ==> w(s[i]) == k
    ensures SumTo(s, n, w) == k * n
  {
    if n != 0 {
      SumToAll(s, n - 1, k, w);
    }
  }

  lemma SumAll<T>(s: seq<T>, k: nat, w: T -> nat)
    requires forall i :: 0 <= i < |s| ==> w(s[i]) == k
    ensures Sum(s, w) == k * |s|
  {
    SumToAll(s, |s|, k, w);
  }

  lemma SumZero<T>(s: seq<T>, w: T -> nat)
    requires forall i :: 0 <= i < |s| ==> w(s[i]) == 0
    ensures Sum(s, w) == 0
  {
    SumToAll(s, |s|, 0, w);
  }

  /** With weights of at most one, a sum that reaches the length uses every element. */
  lemma {:induction false} SumToFull<T>(s: seq<T>, n: nat, w: T -> nat)
    requires n <= |s| && forall i :: 0 <= i < n ==> w(s[i]) <= 1
    requires SumTo(s, n, w) >= n
    ensures forall i :: 0 <= i < n ==> w(s[i]) == 1
  {
    if n != 0 {
      SumToBound(s, n - 1, 1, w);
      SumToFull(s, n - 1, w);
    }
  }

  /** Pointwise comparison of two sequences. */
  lemma {:induction false} SumToPointwise<T>(s: seq<T>, t: seq<T>, n: nat, w: T -> nat)
    requires n <= |s| == |t|
    requires forall i :: 0 <= i < n ==> w(s[i]) <= w(t[i])
    ensures SumTo(s, n, w) <= SumTo(t, n, w)
  {
    if n != 0 {
      SumToPointwise(s, t, n - 1, w);
    }
  }

  lemma SumPointwise<T>(s: seq<T>, t: seq<T>, w: T -> nat)
    requires |s| == |t|
    requires forall i :: 0 <= i < |s| ==> w(s[i]) <= w(t[i])
    ensures Sum(s, w) <= Sum(t, w)
  {
    SumToPointwise(s, t, |s|, w);
  }
}
