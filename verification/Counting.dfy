/** Sums over the threads of a system, and what one thread's move does to them. */
module Counting {

  ghost function Sum<T(!new)>(s: seq<T>, w: T -> nat): nat
  {
    if s == [] then 0 else w(s[0]) + Sum(s[1..], w)
  }

  /** Replacing one element changes the sum by the difference of the two weights. */
  lemma {:induction false} SumUpdate<T(!new)>(s: seq<T>, i: nat, v: T, w: T -> nat)
    requires i < |s|
    ensures Sum(s[i := v], w) == Sum(s, w) - w(s[i]) + w(v)
  {
    if i == 0 {
      assert s[i := v][1..] == s[1..];
    } else {
      assert s[i := v][1..] == s[1..][i - 1 := v];
      SumUpdate(s[1..], i - 1, v, w);
    }
  }

  lemma {:induction false} SumAtLeast<T(!new)>(s: seq<T>, i: nat, w: T -> nat)
    requires i < |s|
    ensures Sum(s, w) >= w(s[i])
  {
    if i > 0 {
      SumAtLeast(s[1..], i - 1, w);
    }
  }

  lemma {:induction false} SumAtLeastTwo<T(!new)>(s: seq<T>, i: nat, j: nat, w: T -> nat)
    requires i < |s| && j < |s| && i != j
    ensures Sum(s, w) >= w(s[i]) + w(s[j])
  {
    if i == 0 {
      SumAtLeast(s[1..], j - 1, w);
    } else if j == 0 {
      SumAtLeast(s[1..], i - 1, w);
    } else {
      SumAtLeastTwo(s[1..], i - 1, j - 1, w);
    }
  }

  /** A positive sum has a positive summand. */
  lemma {:induction false} SumWitness<T(!new)>(s: seq<T>, w: T -> nat) returns (i: nat)
    requires Sum(s, w) > 0
    ensures i < |s| && w(s[i]) > 0
  {
    if w(s[0]) > 0 {
      i := 0;
    } else {
      i := SumWitness(s[1..], w);
      i := i + 1;
    }
  }

  lemma {:induction false} SumZero<T(!new)>(s: seq<T>, w: T -> nat)
    requires forall i :: 0 <= i < |s| ==> w(s[i]) == 0
    ensures Sum(s, w) == 0
  {
    if s != [] {
      SumZero(s[1..], w);
    }
  }

  lemma {:induction false} SumMonotone<T(!new)>(s: seq<T>, w: T -> nat, v: T -> nat)
    requires forall i :: 0 <= i < |s| ==> w(s[i]) <= v(s[i])
    ensures Sum(s, w) <= Sum(s, v)
  {
    if s != [] {
      SumMonotone(s[1..], w, v);
    }
  }

  lemma {:induction false} SumBounded<T(!new)>(s: seq<T>, w: T -> nat)
    requires forall i :: 0 <= i < |s| ==> w(s[i]) <= 1
    ensures Sum(s, w) <= |s|
  {
    if s != [] {
      SumBounded(s[1..], w);
    }
  }

  /** Only one element has a weight. */
  lemma {:induction false} SumOnlyAt<T(!new)>(s: seq<T>, t: nat, w: T -> nat)
    requires t < |s|
    requires forall u :: 0 <= u < |s| && u != t ==> w(s[u]) == 0
    ensures Sum(s, w) == w(s[t])
  {
    if t == 0 {
      SumZero(s[1..], w);
    } else {
      forall u | 0 <= u < |s[1..]| && u != t - 1 ensures w(s[1..][u]) == 0 {
        assert s[1..][u] == s[u + 1];
      }
      SumOnlyAt(s[1..], t - 1, w);
    }
  }

  lemma {:induction false} SumAdd<T(!new)>(s: seq<T>, w: T -> nat, a: T -> nat, b: T -> nat)
    requires forall i :: 0 <= i < |s| ==> w(s[i]) == a(s[i]) + b(s[i])
    ensures Sum(s, w) == Sum(s, a) + Sum(s, b)
  {
    if s != [] {
      SumAdd(s[1..], w, a, b);
    }
  }
}
