/** Integer quotients, rounded down and up. */
module Quotients {
  lemma TimesMonotone(d: nat, a: int, b: int)
    requires a <= b
    ensures d * a <= d * b && d * (a - 1) == d * a - d && d * (b - 1) == d * b - d
  {
  }

  lemma QuotientMonotone(a: int, b: int, d: nat)
    requires d > 0 && a <= b
    ensures a / d <= b / d
  {
    var q, s := a / d, b / d;
    if s < q {
      TimesMonotone(d, s + 1, q);
    }
  }

  lemma QuotientIs(j: nat, d: nat, t: nat)
    requires d > 0 && d * t <= j < d * t + d
    ensures j / d == t
  {
    var q := j / d;
    if q < t {
      TimesMonotone(d, q + 1, t);
    } else if t < q {
      TimesMonotone(d, t + 1, q);
    }
  }

  function Ceil(a: nat, b: nat): nat
    requires b > 0
  {
    (a + b - 1) / b
  }

  lemma CeilBounds(a: nat, b: nat)
    requires b > 0
    ensures a <= b * Ceil(a, b) <= a + b - 1
  {
    var m := a + b - 1;
    assert m == b * (m / b) + m % b;
  }
}
