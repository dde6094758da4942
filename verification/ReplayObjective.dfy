/** The PPO surrogate and the KL penalty of one minibatch, averaged over rows that are not padding. */
module ReplayObjective {
  import Plane
  import opened ReplayPacking
  import opened Wrappers

  /** A row after the new log-probability has been computed; `kl` is its divergence from the reference model. */
  datatype LossRow = LossRow(newLogprob: real, oldLogprob: real, advantage: real, kl: real, isPadding: bool)

  function Min(a: real, b: real): (r: real)
    ensures r <= a && r <= b && (r == a || r == b)
  {
    if a < b then a else b
  }

  function Max(a: real, b: real): (r: real)
    ensures a <= r && b <= r && (r == a || r == b)
  {
    if a < b then b else a
  }

  /** The upper bound wins when the bounds cross. */
  function Clamp(x: real, low: real, high: real): real {
    Min(Max(x, low), high)
  }

  /** `exp` plays the part of the exponential. */
  function Ratio(exp: real -> real, row: LossRow): real {
    exp(Clamp(row.newLogprob - row.oldLogprob, -5.0, 5.0))
  }

  function RowLoss(exp: real -> real, clipLow: real, clipHigh: real, row: LossRow): real {
    var ratio := Ratio(exp, row);
    -Min(ratio * row.advantage, Clamp(ratio, 1.0 - clipLow, 1.0 + clipHigh) * row.advantage)
  }

  type Weight = LossRow -> real

  /** Padding counts as zero. */
  function Masked(weight: Weight): Weight {
    (row: LossRow) => if row.isPadding then 0.0 else weight(row)
  }

  function Total(rows: seq<LossRow>, weight: Weight): real {
    if rows == [] then 0.0 else Total(rows[..|rows| - 1], weight) + weight(rows[|rows| - 1])
  }

  function One(): Weight {
    (row: LossRow) => 1.0
  }

  function LossOf(exp: real -> real, clipLow: real, clipHigh: real): Weight {
    (row: LossRow) => RowLoss(exp, clipLow, clipHigh, row)
  }

  function KlOf(): Weight {
    (row: LossRow) => row.kl
  }

  function PpoSurrogate(exp: real -> real, clipLow: real, clipHigh: real, rows: seq<LossRow>): real {
    var valid := Total(rows, Masked(One()));
    var most := Max(valid, 1.0);
    Total(rows, Masked(LossOf(exp, clipLow, clipHigh))) / most
  }

  function Valid(rows: seq<LossRow>): (r: seq<LossRow>)
    ensures |r| <= |rows| && forall i :: 0 <= i < |r| ==> !r[i].isPadding
  {
    if rows == [] then []
    else
      var rest := Valid(rows[..|rows| - 1]);
      if rows[|rows| - 1].isPadding then rest else rest + [rows[|rows| - 1]]
  }

  /** `enabled` is false when no divergence was computed. */
  function KlPenalty(enabled: bool, beta: real, rows: seq<LossRow>): real {
    if !enabled || beta <= 0.0 then 0.0
    else
      var valid := Valid(rows);
      if valid == [] then 0.0 else Total(valid, KlOf()) / |valid| as real * beta
  }

  // ---------- padding and order do not matter ----------

  lemma {:induction false} MaskedIsValid(rows: seq<LossRow>, weight: Weight)
    ensures Total(rows, Masked(weight)) == Total(Valid(rows), weight)
  {
    if rows != [] {
      MaskedIsValid(rows[..|rows| - 1], weight);
      var rest := Valid(rows[..|rows| - 1]);
      assert !rows[|rows| - 1].isPadding ==> Valid(rows)[..|Valid(rows)| - 1] == rest;
    }
  }

  lemma {:induction false} ValidTwice(rows: seq<LossRow>)
    requires forall i :: 0 <= i < |rows| ==> !rows[i].isPadding
    ensures Valid(rows) == rows
  {
    if rows != [] {
      ValidTwice(rows[..|rows| - 1]);
    }
  }

  lemma {:induction false} CountOfValid(rows: seq<LossRow>)
    ensures Total(rows, One()) == |rows| as real
  {
    if rows != [] {
      CountOfValid(rows[..|rows| - 1]);
    }
  }

  lemma SurrogateOfValid(exp: real -> real, clipLow: real, clipHigh: real, rows: seq<LossRow>)
    ensures PpoSurrogate(exp, clipLow, clipHigh, rows)
            == Total(Valid(rows), LossOf(exp, clipLow, clipHigh)) / Max(|Valid(rows)| as real, 1.0)
  {
    MaskedIsValid(rows, One());
    MaskedIsValid(rows, LossOf(exp, clipLow, clipHigh));
    CountOfValid(Valid(rows));
  }

  /** Loss and penalty of a padded minibatch are those of its valid rows alone. */
  lemma PaddingIsNeutral(exp: real -> real, clipLow: real, clipHigh: real, enabled: bool, beta: real,
                         rows: seq<LossRow>)
    ensures PpoSurrogate(exp, clipLow, clipHigh, rows) == PpoSurrogate(exp, clipLow, clipHigh, Valid(rows))
    ensures KlPenalty(enabled, beta, rows) == KlPenalty(enabled, beta, Valid(rows))
  {
    hide PpoSurrogate, Max, Total, Valid;
    ValidTwice(Valid(rows));
    SurrogateOfValid(exp, clipLow, clipHigh, rows);
    SurrogateOfValid(exp, clipLow, clipHigh, Valid(rows));
  }

  lemma {:induction false} TotalConcat(a: seq<LossRow>, b: seq<LossRow>, weight: Weight)
    ensures Total(a + b, weight) == Total(a, weight) + Total(b, weight)
  {
    if b == [] {
      assert a + b == a;
    } else {
      assert (a + b)[..|a + b| - 1] == a + b[..|b| - 1];
      TotalConcat(a, b[..|b| - 1], weight);
    }
  }

  lemma TotalSnoc(rows: seq<LossRow>, row: LossRow, weight: Weight)
    ensures Total(rows + [row], weight) == Total(rows, weight) + weight(row)
  {
    assert (rows + [row])[..|rows|] == rows;
  }

  function Without(rows: seq<LossRow>, i: nat): seq<LossRow>
    requires i < |rows|
  {
    rows[..i] + rows[i + 1..]
  }

  lemma TotalWithout(rows: seq<LossRow>, i: nat, weight: Weight)
    requires i < |rows|
    ensures Total(rows, weight) == Total(Without(rows, i), weight) + weight(rows[i])
  {
    hide Total;
    TotalSnoc(rows[..i], rows[i], weight);
    TotalConcat(rows[..i], rows[i + 1..], weight);
    TotalConcat(rows[..i] + [rows[i]], rows[i + 1..], weight);
    assert rows == rows[..i] + [rows[i]] + rows[i + 1..];
  }

  lemma MultisetWithout(rows: seq<LossRow>, i: nat)
    requires i < |rows|
    ensures multiset(Without(rows, i)) == multiset(rows) - multiset{rows[i]}
  {
    assert rows == rows[..i] + [rows[i]] + rows[i + 1..];
  }

  lemma SameSize(rows: seq<LossRow>, others: seq<LossRow>)
    requires multiset(rows) == multiset(others)
    ensures |rows| == |others|
  {
    assert |multiset(rows)| == |rows| && |multiset(others)| == |others|;
  }

  lemma {:induction false} TotalPermuted(rows: seq<LossRow>, others: seq<LossRow>, weight: Weight)
    requires multiset(rows) == multiset(others)
    ensures Total(rows, weight) == Total(others, weight)
    decreases |rows|
  {
    SameSize(rows, others);
    if rows != [] {
      hide Total, Without;
      var last := |rows| - 1;
      assert rows[last] in multiset(others);
      var i :| 0 <= i < |others| && others[i] == rows[last];
      MultisetWithout(rows, last);
      MultisetWithout(others, i);
      TotalWithout(rows, last, weight);
      TotalWithout(others, i, weight);
      WithoutIsShorter(rows, last);
      TotalPermuted(Without(rows, last), Without(others, i), weight);
    }
  }

  lemma WithoutIsShorter(rows: seq<LossRow>, i: nat)
    requires i < |rows|
    ensures |Without(rows, i)| == |rows| - 1
  {
  }

  lemma {:induction false} MembersOfValid(rows: seq<LossRow>)
    ensures forall row :: multiset(Valid(rows))[row] == if row.isPadding then 0 else multiset(rows)[row]
  {
    if rows != [] {
      MembersOfValid(rows[..|rows| - 1]);
      assert rows == rows[..|rows| - 1] + [rows[|rows| - 1]];
    }
  }

  lemma ValidPermuted(rows: seq<LossRow>, others: seq<LossRow>, weight: Weight)
    requires multiset(rows) == multiset(others)
    ensures |Valid(rows)| == |Valid(others)| && Total(Valid(rows), weight) == Total(Valid(others), weight)
  {
    hide Total, Valid;
    MembersOfValid(rows);
    MembersOfValid(others);
    assert multiset(Valid(rows)) == multiset(Valid(others));
    SameSize(Valid(rows), Valid(others));
    TotalPermuted(Valid(rows), Valid(others), weight);
  }

  /** Shuffling the rows of a minibatch changes neither. */
  lemma OrderIsNeutral(exp: real -> real, clipLow: real, clipHigh: real, enabled: bool, beta: real, rows: seq<LossRow>,
                       others: seq<LossRow>)
    requires multiset(rows) == multiset(others)
    ensures PpoSurrogate(exp, clipLow, clipHigh, rows) == PpoSurrogate(exp, clipLow, clipHigh, others)
    ensures KlPenalty(enabled, beta, rows) == KlPenalty(enabled, beta, others)
  {
    hide PpoSurrogate, Max, Total, Valid;
    ValidPermuted(rows, others, LossOf(exp, clipLow, clipHigh));
    ValidPermuted(rows, others, KlOf());
    SurrogateOfValid(exp, clipLow, clipHigh, rows);
    SurrogateOfValid(exp, clipLow, clipHigh, others);
  }

  lemma {:induction false} NothingValid(rows: seq<LossRow>)
    requires forall i :: 0 <= i < |rows| ==> rows[i].isPadding
    ensures Valid(rows) == []
  {
    if rows != [] {
      NothingValid(rows[..|rows| - 1]);
    }
  }

  /** A minibatch of nothing but padding costs nothing. */
  lemma AllPaddingIsFree(exp: real -> real, clipLow: real, clipHigh: real, enabled: bool, beta: real,
                         rows: seq<LossRow>)
    requires forall i :: 0 <= i < |rows| ==> rows[i].isPadding
    ensures PpoSurrogate(exp, clipLow, clipHigh, rows) == 0.0 && KlPenalty(enabled, beta, rows) == 0.0
  {
    NothingValid(rows);
    SurrogateOfValid(exp, clipLow, clipHigh, rows);
  }

  lemma {:induction false} TotalOfEqual(rows: seq<LossRow>, weight: Weight, c: real)
    requires forall i :: 0 <= i < |rows| ==> weight(rows[i]) == c
    ensures Total(rows, weight) == |rows| as real * c
  {
    if rows != [] {
      TotalOfEqual(rows[..|rows| - 1], weight, c);
      assert |rows| as real * c == (|rows| - 1) as real * c + c;
    }
  }

  /** The surrogate times the number of valid rows is the sum of their losses, the penalty that of their divergences;
      there is no penalty when none was computed or its weight is not positive. */
  lemma SurrogateIsAverage(exp: real -> real, clipLow: real, clipHigh: real, enabled: bool, beta: real,
                           rows: seq<LossRow>)
    ensures (var (valid, n) := (Valid(rows), |Valid(rows)| as real);
             && PpoSurrogate(exp, clipLow, clipHigh, rows) * n == Total(valid, LossOf(exp, clipLow, clipHigh))
             && (enabled && beta > 0.0 ==> KlPenalty(enabled, beta, rows) * n == Total(valid, KlOf()) * beta)
             && (!enabled || beta <= 0.0 ==> KlPenalty(enabled, beta, rows) == 0.0))
  {
    SurrogateOfValid(exp, clipLow, clipHigh, rows);
    var valid := Valid(rows);
    NoneTotal(LossOf(exp, clipLow, clipHigh));
    NoneTotal(KlOf());
    hide PpoSurrogate, Total, Valid, RowLoss;
    if valid != [] {
      MostIsCount(|valid|);
      TimesCount(Total(valid, LossOf(exp, clipLow, clipHigh)), |valid| as real, 1.0);
      TimesCount(Total(valid, KlOf()), |valid| as real, beta);
    }
  }

  lemma NoneTotal(weight: Weight)
    ensures Total([], weight) == 0.0
  {
  }

  lemma MostIsCount(n: nat)
    requires n > 0
    ensures Max(n as real, 1.0) == n as real
  {
  }

  lemma TimesCount(a: real, n: real, b: real)
    requires n > 0.0
    ensures a / n * b * n == a * b && a / n * n == a
  {
    var q := a / n;
    assert q * n == a;
    assert q * b * n == q * n * b;
  }

  lemma MeanOfEqual(n: nat, c: real)
    requires n > 0
    ensures n as real * c / n as real == c && Max(n as real, 1.0) == n as real
  {
  }

  /** Both are averages over the valid rows, however many there are: rows that agree give their common value. */
  lemma AverageOfEqual(exp: real -> real, clipLow: real, clipHigh: real, beta: real, rows: seq<LossRow>, loss: real,
                       kl: real)
    requires Valid(rows) != [] && beta > 0.0
    requires forall i :: 0 <= i < |Valid(rows)| ==>
                           RowLoss(exp, clipLow, clipHigh, Valid(rows)[i]) == loss && Valid(rows)[i].kl == kl
    ensures PpoSurrogate(exp, clipLow, clipHigh, rows) == loss && KlPenalty(true, beta, rows) == kl * beta
  {
    hide PpoSurrogate, RowLoss, Total, Valid;
    var valid := Valid(rows);
    SurrogateOfValid(exp, clipLow, clipHigh, rows);
    TotalOfEqual(valid, LossOf(exp, clipLow, clipHigh), loss);
    TotalOfEqual(valid, KlOf(), kl);
    MeanOfEqual(|valid|, loss);
    MeanOfEqual(|valid|, kl);
  }

  // ---------- one row ----------

  lemma TimesOrdered(a: real, b: real, c: real)
    ensures a <= b && c >= 0.0 ==> a * c <= b * c
    ensures a <= b && c <= 0.0 ==> b * c <= a * c
  {
  }

  /** What the ratio needs of the exponential. */
  ghost predicate IsExponential(exp: real -> real) {
    && exp(0.0) == 1.0
    && (forall a: real, b: real :: exp(a + b) == exp(a) * exp(b))
    && forall a: real, b: real :: a < b ==> exp(a) < exp(b)
  }

  /** The ratio turns the old probability into the new one, unless the two are more than a factor of exp(5) apart:
      then it stops at that factor. */
  lemma RatioCorrects(exp: real -> real, row: LossRow)
    requires IsExponential(exp)
    ensures -5.0 <= row.newLogprob - row.oldLogprob <= 5.0 ==>
              Ratio(exp, row) * exp(row.oldLogprob) == exp(row.newLogprob)
    ensures row.newLogprob - row.oldLogprob > 5.0 ==> Ratio(exp, row) == exp(5.0)
    ensures row.newLogprob - row.oldLogprob < -5.0 ==> Ratio(exp, row) == exp(-5.0)
  {
    assert row.newLogprob - row.oldLogprob + row.oldLogprob == row.newLogprob;
  }

  /** Making an action of positive advantage likelier never raises its loss, making one of negative advantage likelier
      never lowers it, whatever the clip bounds. */
  lemma LossFollowsAdvantage(exp: real -> real, clipLow: real, clipHigh: real, row: LossRow, likelier: LossRow)
    requires IsExponential(exp)
    requires likelier == row.(newLogprob := likelier.newLogprob) && row.newLogprob <= likelier.newLogprob
    ensures row.advantage >= 0.0 ==> RowLoss(exp, clipLow, clipHigh, likelier) <= RowLoss(exp, clipLow, clipHigh, row)
    ensures row.advantage < 0.0 ==> RowLoss(exp, clipLow, clipHigh, likelier) >= RowLoss(exp, clipLow, clipHigh, row)
  {
    hide Ratio, Clamp, Min, IsExponential;
    var r, s := Ratio(exp, row), Ratio(exp, likelier);
    RatioGrows(exp, row, likelier);
    ClampGrows(r, s, 1.0 - clipLow, 1.0 + clipHigh);
    SurrogatesOrdered(row.advantage, r, Clamp(r, 1.0 - clipLow, 1.0 + clipHigh),
                      s, Clamp(s, 1.0 - clipLow, 1.0 + clipHigh));
  }

  lemma RatioGrows(exp: real -> real, row: LossRow, likelier: LossRow)
    requires IsExponential(exp) && row.oldLogprob == likelier.oldLogprob && row.newLogprob <= likelier.newLogprob
    ensures Ratio(exp, row) <= Ratio(exp, likelier)
  {
    var (u, v) := (Clamp(row.newLogprob - row.oldLogprob, -5.0, 5.0),
                   Clamp(likelier.newLogprob - likelier.oldLogprob, -5.0, 5.0));
    assert u <= v;
    assert u < v ==> exp(u) < exp(v);
  }

  lemma ClampGrows(r: real, s: real, low: real, high: real)
    requires r <= s
    ensures Clamp(r, low, high) <= Clamp(s, low, high)
  {
  }

  lemma MinOrdered(a: real, b: real, c: real, d: real)
    requires a <= c && b <= d
    ensures Min(a, b) <= Min(c, d)
  {
  }

  lemma TimesUp(a: real, b: real, c: real)
    requires a <= b && c >= 0.0
    ensures Plane.Times(a, c) <= Plane.Times(b, c)
  {
  }

  lemma TimesDown(a: real, b: real, c: real)
    requires a <= b && c < 0.0
    ensures Plane.Times(b, c) <= Plane.Times(a, c)
  {
    TimesUp(a, b, -c);
    assert Plane.Times(a, -c) == -Plane.Times(a, c) && Plane.Times(b, -c) == -Plane.Times(b, c);
  }

  /** The smaller of the two surrogates follows the advantage's sign. */
  lemma SurrogatesOrdered(a: real, r: real, u: real, s: real, v: real)
    requires r <= s && u <= v
    ensures a >= 0.0 ==> Min(Plane.Times(r, a), Plane.Times(u, a)) <= Min(Plane.Times(s, a), Plane.Times(v, a))
    ensures a < 0.0 ==> Min(Plane.Times(s, a), Plane.Times(v, a)) <= Min(Plane.Times(r, a), Plane.Times(u, a))
  {
    hide Plane.Times;
    if a >= 0.0 {
      TimesUp(r, s, a);
      TimesUp(u, v, a);
      MinOrdered(Plane.Times(r, a), Plane.Times(u, a), Plane.Times(s, a), Plane.Times(v, a));
    } else {
      TimesDown(r, s, a);
      TimesDown(u, v, a);
      MinOrdered(Plane.Times(s, a), Plane.Times(v, a), Plane.Times(r, a), Plane.Times(u, a));
    }
  }

  /** A valid row's loss rewards a larger ratio up to the upper clip when its advantage is not negative, and
      punishes it from the lower clip on when it is, provided the clip bounds do not cross. */
  lemma RowLossFormula(exp: real -> real, clipLow: real, clipHigh: real, row: LossRow)
    ensures row.advantage >= 0.0 ==>
              RowLoss(exp, clipLow, clipHigh, row) == -(Min(Ratio(exp, row), 1.0 + clipHigh) * row.advantage)
    ensures row.advantage < 0.0 && clipLow + clipHigh >= 0.0 ==>
              RowLoss(exp, clipLow, clipHigh, row) == -(Max(Ratio(exp, row), 1.0 - clipLow) * row.advantage)
  {
    var ratio, a := Ratio(exp, row), row.advantage;
    var clipped := Clamp(ratio, 1.0 - clipLow, 1.0 + clipHigh);
    TimesOrdered(ratio, clipped, a);
    TimesOrdered(clipped, ratio, a);
  }

  /** The loss of a row with a positive advantage is flat above the upper clip, that of one with a negative
      advantage below the lower clip. */
  lemma ClippedRowsAreFlat(exp: real -> real, clipLow: real, clipHigh: real, row: LossRow, other: LossRow)
    requires clipLow + clipHigh >= 0.0 && row.advantage == other.advantage
    requires || (row.advantage >= 0.0 && Ratio(exp, row) >= 1.0 + clipHigh && Ratio(exp, other) >= 1.0 + clipHigh)
             || (row.advantage < 0.0 && Ratio(exp, row) <= 1.0 - clipLow && Ratio(exp, other) <= 1.0 - clipLow)
    ensures RowLoss(exp, clipLow, clipHigh, row) == RowLoss(exp, clipLow, clipHigh, other)
  {
    hide RowLoss, Ratio;
    RowLossFormula(exp, clipLow, clipHigh, row);
    RowLossFormula(exp, clipLow, clipHigh, other);
  }

  // ---------- sanitising ----------

  function Sane(x: Logprob): Logprob {
    if x.NonFinite? then Finite(0.0) else x
  }

  function SaneAll(s: seq<Logprob>): (r: seq<Logprob>)
    ensures |r| == |s| && forall i :: 0 <= i < |r| ==> r[i] == Sane(s[i])
  {
    seq(|s|, i requires 0 <= i < |s| => Sane(s[i]))
  }

  /** After sanitising every entry is finite; those that were finite are untouched, and the others say nothing: two of
      them have the ratio one. */
  lemma SanitisedIsNeutral(exp: real -> real, s: seq<Logprob>, i: nat, j: nat)
    requires IsExponential(exp) && i < |s| && j < |s|
    ensures SaneAll(s)[i].Finite? && (s[i].Finite? ==> SaneAll(s)[i] == s[i])
    ensures s[i].NonFinite? && s[j].NonFinite? ==>
              && SaneAll(s)[i].x == 0.0
              && Ratio(exp, LossRow(SaneAll(s)[i].x, SaneAll(s)[j].x, 0.0, 0.0, false)) == 1.0
  {
    assert Clamp(0.0, -5.0, 5.0) == 0.0;
  }

  method Sanitise(a: array<Logprob>)
    modifies a
    ensures a[..] == SaneAll(old(a[..]))
  {
    for i := 0 to a.Length
      invariant forall k :: 0 <= k < a.Length ==> a[k] == if k < i then Sane(old(a[k])) else old(a[k])
    {
      if a[i].NonFinite? {
        a[i] := Finite(0.0);
      }
    }
  }

  lemma SaneTwice(s: seq<Logprob>)
    ensures SaneAll(SaneAll(s)) == SaneAll(s)
  {
  }

  /** Shapes that differ raise before anything is overwritten; otherwise every non-finite entry becomes zero in
      place, also when one tensor is passed in several places. */
  method AssertReplayShapes(newLogprobs: array<Logprob>, oldLogprobs: array<Logprob>, advantages: array<Logprob>,
                            klDiv: array?<Logprob>) returns (ok: bool)
    modifies newLogprobs, oldLogprobs, klDiv
    ensures ok <==> newLogprobs.Length == oldLogprobs.Length == advantages.Length
                    && (klDiv != null ==> klDiv.Length == oldLogprobs.Length)
    ensures !ok ==> newLogprobs[..] == old(newLogprobs[..]) && oldLogprobs[..] == old(oldLogprobs[..])
    ensures !ok && klDiv != null ==> klDiv[..] == old(klDiv[..])
    ensures ok ==> newLogprobs[..] == SaneAll(old(newLogprobs[..])) && oldLogprobs[..] == SaneAll(old(oldLogprobs[..]))
    ensures ok && klDiv != null ==> klDiv[..] == SaneAll(old(klDiv[..]))
  {
    if newLogprobs.Length != oldLogprobs.Length || advantages.Length != oldLogprobs.Length
      || (klDiv != null && klDiv.Length != oldLogprobs.Length) {
      return false;
    }
    SaneTwice(old(newLogprobs[..]));
    SaneTwice(old(oldLogprobs[..]));
    Sanitise(newLogprobs);
    Sanitise(oldLogprobs);
    if klDiv != null {
      Sanitise(klDiv);
    }
    ok := true;
  }
}
