/** Finite sums of reals. */
module RealSums {
  function Sum(n: nat, f: int -> real): real {
    if n == 0 then 0.0 else Sum(n - 1, f) + f(n - 1)
  }

  lemma {:induction false} SumEq(n: nat, f: int -> real, g: int -> real)
    requires forall i :: 0 <= i < n ==> f(i) == g(i)
    ensures Sum(n, f) == Sum(n, g)
  {
    if n > 0 {
      SumEq(n - 1, f, g);
    }
  }

  lemma {:induction false} SumZero(n: nat, f: int -> real)
    requires forall i :: 0 <= i < n ==> f(i) == 0.0
    ensures Sum(n, f) == 0.0
  {
    if n > 0 {
      SumZero(n - 1, f);
    }
  }

  lemma {:induction false} SumConst(n: nat, c: real, f: int -> real)
    requires forall i :: 0 <= i < n ==> f(i) == c
    ensures Sum(n, f) == n as real * c
  {
    if n > 0 {
      SumConst(n - 1, c, f);
      assert (n - 1) as real * c == n as real * c - c;
    }
  }

  lemma {:induction false} SumAdd(n: nat, f: int -> real, g: int -> real, h: int -> real)
    requires forall i :: 0 <= i < n ==> h(i) == f(i) + g(i)
    ensures Sum(n, h) == Sum(n, f) + Sum(n, g)
  {
    if n > 0 {
      SumAdd(n - 1, f, g, h);
    }
  }

  lemma {:induction false} SumScale(n: nat, c: real, f: int -> real, h: int -> real)
    requires forall i :: 0 <= i < n ==> h(i) == c * f(i)
    ensures Sum(n, h) == c * Sum(n, f)
  {
    if n > 0 {
      SumScale(n - 1, c, f, h);
    }
  }

  function Row(f: (int, int) -> real, i: int): int -> real {
    (j: int) => f(i, j)
  }

  function Col(f: (int, int) -> real, j: int): int -> real {
    (i: int) => f(i, j)
  }

  function RowSums(m: nat, f: (int, int) -> real): int -> real {
    (i: int) => Sum(m, Row(f, i))
  }

  function ColSums(n: nat, f: (int, int) -> real): int -> real {
    (j: int) => Sum(n, Col(f, j))
  }

  lemma {:induction false} SumSwap(n: nat, m: nat, f: (int, int) -> real)
    ensures Sum(n, RowSums(m, f)) == Sum(m, ColSums(n, f))
  {
    if n == 0 {
      SumZero(m, ColSums(0, f));
    } else {
      SumSwap(n - 1, m, f);
      SumAdd(m, ColSums(n - 1, f), Row(f, n - 1), ColSums(n, f));
    }
  }

  /** A sum with one nonzero term. */
  lemma {:induction false} SumOnly(n: nat, k: nat, f: int -> real)
    requires k < n && forall i :: 0 <= i < n && i != k ==> f(i) == 0.0
    ensures Sum(n, f) == f(k)
  {
    if k == n - 1 {
      SumZero(n - 1, f);
    } else {
      SumOnly(n - 1, k, f);
    }
  }
}
