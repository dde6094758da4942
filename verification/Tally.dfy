/** Weighted counts over sequences: how a count moves when one element is replaced, removed or appended. */
module Tally {
  function Sum<T>(s: seq<T>, weight: T -> nat): nat {
    if s == [] then 0 else weight(s[0]) + Sum(s[1..], weight)
  }

  lemma {:induction false} SumConcat<T>(a: seq<T>, b: seq<T>, weight: T -> nat)
    ensures Sum(a + b, weight) == Sum(a, weight) + Sum(b, weight)
  {
    if a == [] {
      assert a + b == b;
    } else {
      assert (a + b)[1..] == a[1..] + b;
      SumConcat(a[1..], b, weight);
    }
  }

  lemma SumAppend<T>(s: seq<T>, x: T, weight: T -> nat)
    ensures Sum(s + [x], weight) == Sum(s, weight) + weight(x)
  {
    SumConcat(s, [x], weight);
  }

  lemma SumSplit<T>(s: seq<T>, i: nat, weight: T -> nat)
    requires i < |s|
    ensures Sum(s, weight) == Sum(s[..i], weight) + weight(s[i]) + Sum(s[i + 1..], weight)
  {
    assert s == (s[..i] + [s[i]]) + s[i + 1..];
    SumConcat(s[..i] + [s[i]], s[i + 1..], weight);
    SumAppend(s[..i], s[i], weight);
  }

  lemma SumUpdate<T>(s: seq<T>, i: nat, x: T, weight: T -> nat)
    requires i < |s|
    ensures Sum(s[i := x], weight) + weight(s[i]) == Sum(s, weight) + weight(x)
  {
    SumSplit(s, i, weight);
    SumSplit(s[i := x], i, weight);
    assert s[i := x][..i] == s[..i] && s[i := x][i + 1..] == s[i + 1..];
  }

  lemma SumRemove<T>(s: seq<T>, i: nat, weight: T -> nat)
    requires i < |s|
    ensures Sum(s[..i] + s[i + 1..], weight) + weight(s[i]) == Sum(s, weight)
  {
    SumSplit(s, i, weight);
    SumConcat(s[..i], s[i + 1..], weight);
  }

  lemma {:induction false} SumZero<T>(s: seq<T>, weight: T -> nat)
    requires forall x :: x in s ==> weight(x) == 0
    ensures Sum(s, weight) == 0
  {
    if s != [] {
      SumZero(s[1..], weight);
    }
  }

  lemma SumAtLeast<T>(s: seq<T>, i: nat, weight: T -> nat)
    requires i < |s|
    ensures weight(s[i]) <= Sum(s, weight)
  {
    SumSplit(s, i, weight);
  }
}
