/** Stable argsort, and permutations of `0..n` as sequences. */
module Sorting {
  predicate InRange(p: seq<nat>, n: nat) {
    forall i :: 0 <= i < |p| ==> p[i] < n
  }

  predicate Distinct<T(==)>(p: seq<T>) {
    forall i, j :: 0 <= i < j < |p| ==> p[i] != p[j]
  }

  predicate IsPermutation(p: seq<nat>) {
    InRange(p, |p|) && Distinct(p)
  }

  ghost predicate SortedBy(p: seq<nat>, less: (nat, nat) -> bool) {
    forall i, j :: 0 <= i < j < |p| ==> less(p[i], p[j])
  }

  function ByKey(keys: seq<int>): (nat, nat) -> bool {
    (a: nat, b: nat) => a < |keys| && b < |keys| && (keys[a] < keys[b] || (keys[a] == keys[b] && a < b))
  }

  /** `p` lists the indices of `keys` by key, and by index where keys are equal. */
  ghost predicate IsStableArgsort(keys: seq<int>, p: seq<nat>) {
    |p| == |keys| && IsPermutation(p) && SortedBy(p, ByKey(keys))
  }

  function Insert(keys: seq<int>, p: seq<nat>, i: nat): (r: seq<nat>)
    requires i < |keys| && InRange(p, i) && SortedBy(p, ByKey(keys))
    ensures |r| == |p| + 1 && InRange(r, i + 1) && SortedBy(r, ByKey(keys))
    ensures forall k :: 0 <= k < |r| ==> r[k] == i || r[k] in p
  {
    if p == [] || keys[p[|p| - 1]] <= keys[i] then p + [i]
    else
      var front := p[..|p| - 1];
      assert forall k :: 0 <= k < |front| ==> front[k] == p[k];
      Insert(keys, front, i) + [p[|p| - 1]]
  }

  function ArgsortUpTo(keys: seq<int>, n: nat): (p: seq<nat>)
    requires n <= |keys|
    ensures |p| == n && InRange(p, n) && SortedBy(p, ByKey(keys))
  {
    if n == 0 then [] else Insert(keys, ArgsortUpTo(keys, n - 1), n - 1)
  }

  function StableArgsort(keys: seq<int>): (p: seq<nat>)
    ensures IsStableArgsort(keys, p)
  {
    ArgsortUpTo(keys, |keys|)
  }

  function Elements(p: seq<nat>): set<nat> {
    set i | 0 <= i < |p| :: p[i]
  }

  lemma {:induction false} DistinctElements(p: seq<nat>)
    requires Distinct(p)
    ensures |Elements(p)| == |p|
  {
    if p != [] {
      var front, last := p[..|p| - 1], p[|p| - 1];
      DistinctElements(front);
      assert Elements(p) == Elements(front) + {last};
    }
  }

  function NumbersBelow(n: nat): (r: set<nat>)
    ensures |r| == n && forall k: nat :: k in r <==> k < n
  {
    if n == 0 then {} else NumbersBelow(n - 1) + {n - 1}
  }

  lemma SameSizeSubset<T>(a: set<T>, b: set<T>)
    requires a <= b && |a| == |b|
    ensures a == b
  {
    if a != b {
      var x :| x in b && x !in a;
      assert a <= b - {x};
      SubsetIsSmaller(a, b - {x});
    }
  }

  lemma {:induction false} SubsetIsSmaller<T>(a: set<T>, b: set<T>)
    requires a <= b
    ensures |a| <= |b|
  {
    if a != {} {
      var x :| x in a;
      SubsetIsSmaller(a - {x}, b - {x});
    }
  }

  lemma PermutationIsOnto(p: seq<nat>, x: nat) returns (i: nat)
    requires IsPermutation(p) && x < |p|
    ensures i < |p| && p[i] == x
  {
    DistinctElements(p);
    SameSizeSubset(Elements(p), NumbersBelow(|p|));
    assert x in Elements(p);
    i :| 0 <= i < |p| && p[i] == x;
  }

  lemma FirstDifference(p: seq<nat>, q: seq<nat>) returns (i: nat)
    requires |p| == |q| && p != q
    ensures i < |p| && p[i] != q[i] && forall l :: 0 <= l < i ==> p[l] == q[l]
  {
    i := 0;
    while p[i] == q[i]
      invariant i < |p| && forall l :: 0 <= l < i ==> p[l] == q[l]
      invariant exists k :: i <= k < |p| && p[k] != q[k]
      decreases |p| - i
    {
      i := i + 1;
    }
  }

  lemma DifferenceIsBefore(p: seq<nat>, q: seq<nat>, less: (nat, nat) -> bool, i: nat)
    requires |p| == |q| && IsPermutation(p) && IsPermutation(q) && SortedBy(p, less)
    requires i < |p| && p[i] != q[i] && forall l :: 0 <= l < i ==> p[l] == q[l]
    ensures less(p[i], q[i])
  {
    var j := PermutationIsOnto(p, q[i]);
    assert j >= i;
  }

  /** Only one permutation is sorted by a given strict order. */
  lemma SortedPermutationUnique(p: seq<nat>, q: seq<nat>, less: (nat, nat) -> bool)
    requires |p| == |q| && IsPermutation(p) && IsPermutation(q) && SortedBy(p, less) && SortedBy(q, less)
    requires forall a: nat, b: nat :: less(a, b) ==> !less(b, a)
    ensures p == q
  {
    if p != q {
      var i := FirstDifference(p, q);
      DifferenceIsBefore(p, q, less, i);
      DifferenceIsBefore(q, p, less, i);
    }
  }

  function Compose(p: seq<nat>, q: seq<nat>): (r: seq<nat>)
    requires InRange(q, |p|)
    ensures |r| == |q| && forall i :: 0 <= i < |r| ==> r[i] == p[q[i]]
  {
    seq(|q|, i requires 0 <= i < |q| => p[q[i]])
  }

  lemma ComposePermutations(p: seq<nat>, q: seq<nat>)
    requires |p| == |q| && IsPermutation(p) && IsPermutation(q)
    ensures IsPermutation(Compose(p, q))
  {
    forall i, j | 0 <= i < j < |q|
      ensures p[q[i]] != p[q[j]]
    {
      assert q[i] != q[j];
    }
  }

  /** Sorting shuffled keys finds the keys in the same order, when no two are equal. */
  lemma ShuffledArgsort(keys: seq<int>, shuffled: seq<int>, p: seq<nat>)
    requires |p| == |keys| == |shuffled| && IsPermutation(p) && Distinct(keys)
    requires forall i :: 0 <= i < |p| ==> shuffled[i] == keys[p[i]]
    ensures Compose(p, StableArgsort(shuffled)) == StableArgsort(keys)
  {
    var order := StableArgsort(shuffled);
    var back := Compose(p, order);
    ComposePermutations(p, order);
    forall i, j | 0 <= i < j < |back|
      ensures ByKey(keys)(back[i], back[j])
    {
      assert ByKey(shuffled)(order[i], order[j]);
      assert order[i] != order[j] && p[order[i]] != p[order[j]];
    }
    SortedPermutationUnique(back, StableArgsort(keys), ByKey(keys));
  }

  // ---------- permuting keeps every element ----------

  function Gather<T>(s: seq<T>, p: seq<nat>): (r: seq<T>)
    requires InRange(p, |s|)
    ensures |r| == |p| && forall i :: 0 <= i < |p| ==> r[i] == s[p[i]]
  {
    seq(|p|, i requires 0 <= i < |p| => s[p[i]])
  }

  /** How often `v` stands in `s[..n]` at the places in `at`. */
  function Picked<T(==)>(s: seq<T>, at: set<nat>, n: nat, v: T): nat
    requires n <= |s|
  {
    if n == 0 then 0 else Picked(s, at, n - 1, v) + if n - 1 in at && s[n - 1] == v then 1 else 0
  }

  lemma {:induction false} PickOneMore<T>(s: seq<T>, at: set<nat>, x: nat, n: nat, v: T)
    requires n <= |s| && x < |s| && x !in at
    ensures Picked(s, at + {x}, n, v) == Picked(s, at, n, v) + if x < n && s[x] == v then 1 else 0
  {
    if n > 0 {
      PickOneMore(s, at, x, n - 1, v);
    }
  }

  lemma {:induction false} PickNothing<T>(s: seq<T>, n: nat, v: T)
    requires n <= |s|
    ensures Picked(s, {}, n, v) == 0
  {
    if n > 0 {
      PickNothing(s, n - 1, v);
    }
  }

  lemma {:induction false} PickAll<T>(s: seq<T>, at: set<nat>, n: nat, v: T)
    requires n <= |s| && forall i: nat :: i < n ==> i in at
    ensures Picked(s, at, n, v) == multiset(s[..n])[v]
  {
    if n > 0 {
      PickAll(s, at, n - 1, v);
      assert s[..n] == s[..n - 1] + [s[n - 1]];
    }
  }

  lemma {:induction false} GatherPicks<T>(s: seq<T>, p: seq<nat>, v: T)
    requires InRange(p, |s|) && Distinct(p)
    ensures multiset(Gather(s, p))[v] == Picked(s, Elements(p), |s|, v)
  {
    if p != [] {
      var front, last := p[..|p| - 1], p[|p| - 1];
      GatherPicks(s, front, v);
      assert Elements(p) == Elements(front) + {last};
      PickOneMore(s, Elements(front), last, |s|, v);
      assert Gather(s, p) == Gather(s, front) + [s[last]];
    } else {
      PickNothing(s, |s|, v);
      assert Elements(p) == {};
    }
  }

  /** Permuting loses, adds and repeats nothing. */
  lemma PermutedElements<T>(s: seq<T>, p: seq<nat>)
    requires |p| == |s| && IsPermutation(p)
    ensures multiset(Gather(s, p)) == multiset(s)
  {
    forall i: nat | i < |s|
      ensures i in Elements(p)
    {
      var j := PermutationIsOnto(p, i);
    }
    forall v: T
      ensures multiset(Gather(s, p))[v] == multiset(s)[v]
    {
      GatherPicks(s, p, v);
      PickAll(s, Elements(p), |s|, v);
      assert s[..|s|] == s;
    }
  }
}
