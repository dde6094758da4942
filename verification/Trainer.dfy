/** The trainer's pool of packed rows with one advantage each, and the shuffled minibatches it is cut into. */
module Trainer {
  import opened Quotients
  import opened ReplayPacking
  import opened Sorting
  import opened Wrappers

  datatype Rollout<R> = Rollout(outputs: seq<Option<R>>, advantage: real, rolloutId: string)

  datatype Pool = Pool(samples: seq<Row>, advantages: seq<real>)

  function AdvantageOf(row: Row, advantage: real): real {
    if row.isPadding || row.oldLogprob.NonFinite? then 0.0 else advantage
  }

  /** A row as the second filter leaves it. */
  function Filtered(row: Row): Row {
    if !row.isPadding && row.oldLogprob.NonFinite? then row.(isPadding := true, oldLogprob := Finite(0.0)) else row
  }

  method FilterRows(rows: seq<Row>, advantage: real) returns (samples: seq<Row>, advantages: seq<real>)
    ensures |samples| == |advantages| == |rows|
    ensures forall i :: 0 <= i < |rows| ==> samples[i] == Filtered(rows[i])
    ensures forall i :: 0 <= i < |rows| ==> advantages[i] == AdvantageOf(rows[i], advantage)
  {
    samples, advantages := rows, [];
    for i := 0 to |rows|
      invariant |samples| == |rows| && |advantages| == i
      invariant forall k :: 0 <= k < |rows| ==> samples[k] == if k < i then Filtered(rows[k]) else rows[k]
      invariant forall k :: 0 <= k < i ==> advantages[k] == AdvantageOf(rows[k], advantage)
    {
      var isPadding := samples[i].isPadding;
      if !isPadding && samples[i].oldLogprob.NonFinite? {
        isPadding := true;
        samples := samples[i := samples[i].(isPadding := true, oldLogprob := Finite(0.0))];
      }
      advantages := advantages + [if isPadding then 0.0 else advantage];
    }
  }

  /** After the second filter every row that still counts is finite and carries the rollout's advantage; a row that
      counted and was finite is unchanged, padding stays padding, inputs stay, and filtering again changes nothing. */
  lemma FilteredRowsTrain(row: Row, advantage: real)
    ensures (var after := Filtered(row);
             && (after.isPadding || after.oldLogprob.Finite?)
             && (after.isPadding <==> row.isPadding || row.oldLogprob.NonFinite?)
             && (row.isPadding || row.oldLogprob.Finite? ==> after == row)
             && (after != row ==> after.oldLogprob == Finite(0.0))
             && after.inputs == row.inputs && after.rolloutId == row.rolloutId && Filtered(after) == after
             && AdvantageOf(row, advantage) == if after.isPadding then 0.0 else advantage)
  {
  }

  predicate AllAccepted<R>(build: R -> Step, rollouts: seq<Rollout<R>>, expectedSteps: nat) {
    forall k :: 0 <= k < |rollouts| ==> Accepted(build, rollouts[k].outputs, expectedSteps, rollouts[k].rolloutId)
  }

  function Packed<R>(build: R -> Step, rollout: Rollout<R>, expectedSteps: nat): seq<Row>
    requires Accepted(build, rollout.outputs, expectedSteps, rollout.rolloutId)
  {
    Pack(build, rollout.outputs, expectedSteps, rollout.rolloutId)
  }

  /** Row `i` of rollout `k` in the pool. */
  function Place(k: nat, expectedSteps: nat, i: nat): nat {
    k * expectedSteps + i
  }

  /** Rollout `k` fills its own stretch of the pool with its packed rows, unchanged, and each row's advantage is the
      rollout's own, or zero on padding. */
  predicate FillsStretch<R>(build: R -> Step, rollouts: seq<Rollout<R>>, expectedSteps: nat, pool: Pool, k: nat)
    requires k < |rollouts| && AllAccepted(build, rollouts, expectedSteps)
  {
    var rows := Packed(build, rollouts[k], expectedSteps);
    |rows| == expectedSteps && |pool.samples| == |pool.advantages| &&
    forall i: nat :: i < expectedSteps ==>
                       && Place(k, expectedSteps, i) < |pool.samples|
                       && pool.samples[Place(k, expectedSteps, i)] == rows[i]
                       && pool.advantages[Place(k, expectedSteps, i)]
                          == if rows[i].isPadding then 0.0 else rollouts[k].advantage
  }

  predicate Aligned<R>(build: R -> Step, rollouts: seq<Rollout<R>>, expectedSteps: nat, pool: Pool)
    requires AllAccepted(build, rollouts, expectedSteps)
  {
    && |pool.samples| == |pool.advantages| == |rollouts| * expectedSteps
    && forall k: nat :: k < |rollouts| ==> FillsStretch(build, rollouts, expectedSteps, pool, k)
  }

  lemma PackedRowsAreFinite<R>(build: R -> Step, rollout: Rollout<R>, expectedSteps: nat)
    requires Accepted(build, rollout.outputs, expectedSteps, rollout.rolloutId)
    ensures |Packed(build, rollout, expectedSteps)| == expectedSteps
    ensures forall i :: 0 <= i < expectedSteps ==> Packed(build, rollout, expectedSteps)[i].oldLogprob.Finite?
  {
    PackKeepsValidSteps(build, rollout.outputs, expectedSteps, rollout.rolloutId);
  }

  lemma EarlierStretch<R>(build: R -> Step, rollouts: seq<Rollout<R>>, expectedSteps: nat, pool: Pool, last: Rollout<R>,
                          more: Pool, k: nat)
    requires AllAccepted(build, rollouts, expectedSteps) && AllAccepted(build, rollouts + [last], expectedSteps)
    requires k < |rollouts| && FillsStretch(build, rollouts, expectedSteps, pool, k)
    requires |more.samples| == |more.advantages|
    ensures FillsStretch(build, rollouts + [last], expectedSteps,
                         Pool(pool.samples + more.samples, pool.advantages + more.advantages), k)
  {
    hide Packed, Place;
    assert (rollouts + [last])[k] == rollouts[k];
  }

  lemma PlaceAt(k: nat, expectedSteps: nat, i: nat)
    ensures Place(k, expectedSteps, i) == k * expectedSteps + i
  {
  }

  lemma NewStretch<R>(build: R -> Step, rollouts: seq<Rollout<R>>, expectedSteps: nat, pool: Pool, last: Rollout<R>,
                      more: Pool)
    requires AllAccepted(build, rollouts + [last], expectedSteps)
    requires |pool.samples| == |pool.advantages| == |rollouts| * expectedSteps
    requires Accepted(build, last.outputs, expectedSteps, last.rolloutId)
    requires more.samples == Packed(build, last, expectedSteps) && |more.advantages| == |more.samples| == expectedSteps
    requires forall i :: 0 <= i < expectedSteps ==>
                           more.advantages[i] == if more.samples[i].isPadding then 0.0 else last.advantage
    ensures FillsStretch(build, rollouts + [last], expectedSteps,
                         Pool(pool.samples + more.samples, pool.advantages + more.advantages), |rollouts|)
  {
    hide Packed, Accepted, Place;
    assert (rollouts + [last])[|rollouts|] == last;
    var samples, advantages := pool.samples + more.samples, pool.advantages + more.advantages;
    forall i: nat | i < expectedSteps
      ensures (var at := Place(|rollouts|, expectedSteps, i);
               && at < |samples| && samples[at] == more.samples[i] && advantages[at] == more.advantages[i])
    {
      PlaceAt(|rollouts|, expectedSteps, i);
    }
  }

  lemma AcceptOneMore<R>(build: R -> Step, rollouts: seq<Rollout<R>>, expectedSteps: nat, last: Rollout<R>)
    requires AllAccepted(build, rollouts, expectedSteps)
    requires Accepted(build, last.outputs, expectedSteps, last.rolloutId)
    ensures AllAccepted(build, rollouts + [last], expectedSteps)
  {
    hide Accepted;
  }

  lemma StretchesGrow<R>(build: R -> Step, rollouts: seq<Rollout<R>>, expectedSteps: nat, pool: Pool, last: Rollout<R>,
                         more: Pool)
    requires AllAccepted(build, rollouts, expectedSteps) && Aligned(build, rollouts, expectedSteps, pool)
    requires Accepted(build, last.outputs, expectedSteps, last.rolloutId)
    requires more.samples == Packed(build, last, expectedSteps) && |more.advantages| == |more.samples| == expectedSteps
    requires forall i :: 0 <= i < expectedSteps ==>
                           more.advantages[i] == if more.samples[i].isPadding then 0.0 else last.advantage
    ensures AllAccepted(build, rollouts + [last], expectedSteps)
    ensures Aligned(build, rollouts + [last], expectedSteps,
                    Pool(pool.samples + more.samples, pool.advantages + more.advantages))
  {
    hide Packed, FillsStretch, Accepted;
    var all := rollouts + [last];
    assert |all| * expectedSteps == |rollouts| * expectedSteps + expectedSteps;
    AcceptOneMore(build, rollouts, expectedSteps, last);
    NewStretch(build, rollouts, expectedSteps, pool, last, more);
    forall k: nat | k < |rollouts|
      ensures FillsStretch(build, all, expectedSteps,
                           Pool(pool.samples + more.samples, pool.advantages + more.advantages), k)
    {
      EarlierStretch(build, rollouts, expectedSteps, pool, last, more, k);
    }
  }

  /** The pool is aligned row for row with its advantages, and the second filter for non-finite values changes
      nothing the packer let through. */
  method PrepareTrainingData<R>(build: R -> Step, rollouts: seq<Rollout<R>>, expectedSteps: nat)
    returns (r: Result<Pool>)
    ensures r.Ok? <==> AllAccepted(build, rollouts, expectedSteps)
    ensures r.Ok? ==> Aligned(build, rollouts, expectedSteps, r.value)
  {
    var samples: seq<Row>, advantages: seq<real> := [], [];
    for k := 0 to |rollouts|
      invariant AllAccepted(build, rollouts[..k], expectedSteps)
      invariant Aligned(build, rollouts[..k], expectedSteps, Pool(samples, advantages))
    {
      var packed := GetPolicyInput(build, rollouts[k].outputs, expectedSteps, rollouts[k].rolloutId);
      if packed.Err? {
        return Err(packed.message);
      }
      PackedRowsAreFinite(build, rollouts[k], expectedSteps);
      var rows, own := FilterRows(packed.value, rollouts[k].advantage);
      assert rows == packed.value;
      StretchesGrow(build, rollouts[..k], expectedSteps, Pool(samples, advantages), rollouts[k], Pool(rows, own));
      assert rollouts[..k] + [rollouts[k]] == rollouts[..k + 1];
      samples, advantages := samples + rows, advantages + own;
    }
    assert rollouts[..|rollouts|] == rollouts;
    r := Ok(Pool(samples, advantages));
  }

  // ---------- minibatches ----------

  datatype Minibatch = Minibatch(indices: seq<nat>, samples: seq<Row>, advantages: seq<real>)

  /** The samples and advantages of a minibatch are those the pool has at its indices. */
  predicate Drawn(pool: Pool, batch: Minibatch)
    requires |pool.samples| == |pool.advantages|
  {
    && InRange(batch.indices, |pool.samples|)
    && |batch.samples| == |batch.advantages| == |batch.indices|
    && forall i :: 0 <= i < |batch.indices| ==>
                     && batch.samples[i] == pool.samples[batch.indices[i]]
                     && batch.advantages[i] == pool.advantages[batch.indices[i]]
  }

  function AllIndices(batches: seq<Minibatch>): seq<nat> {
    if batches == [] then [] else AllIndices(batches[..|batches| - 1]) + batches[|batches| - 1].indices
  }

  function Min(a: nat, b: nat): (r: nat)
    ensures r <= a && r <= b && (r == a || r == b)
  {
    if a < b then a else b
  }

  /** One optimisation iteration: every row of the pool is drawn exactly once, in minibatches that are never empty nor
      larger than configured. */
  predicate IsEpoch(pool: Pool, miniBatch: nat, permutation: seq<nat>, batches: seq<Minibatch>)
    requires |pool.samples| == |pool.advantages|
  {
    && AllIndices(batches) == permutation
    && forall b :: 0 <= b < |batches| ==> Drawn(pool, batches[b]) && 1 <= |batches[b].indices| <= miniBatch
  }

  lemma BatchStarts(n: nat, m: nat, b: nat)
    requires m > 0 && b < Ceil(n, m)
    ensures b * m < n
  {
    CeilBounds(n, m);
    TimesMonotone(m, b + 1, Ceil(n, m));
  }

  lemma BatchesCover(n: nat, m: nat)
    requires m > 0
    ensures Ceil(n, m) * m >= n
  {
    CeilBounds(n, m);
    hide Ceil;
  }

  function DrawSamples(pool: Pool, indices: seq<nat>): (r: seq<Row>)
    requires InRange(indices, |pool.samples|)
    ensures |r| == |indices| && forall i :: 0 <= i < |r| ==> r[i] == pool.samples[indices[i]]
  {
    seq(|indices|, i requires 0 <= i < |indices| => pool.samples[indices[i]])
  }

  function DrawAdvantages(pool: Pool, indices: seq<nat>): (r: seq<real>)
    requires InRange(indices, |pool.advantages|)
    ensures |r| == |indices| && forall i :: 0 <= i < |r| ==> r[i] == pool.advantages[indices[i]]
  {
    seq(|indices|, i requires 0 <= i < |indices| => pool.advantages[indices[i]])
  }

  method RunIteration(pool: Pool, miniBatch: nat, permutation: seq<nat>) returns (batches: seq<Minibatch>)
    requires |pool.samples| == |pool.advantages| == |permutation| && IsPermutation(permutation) && miniBatch > 0
    ensures IsEpoch(pool, miniBatch, permutation, batches) && |batches| == Ceil(|permutation|, miniBatch)
  {
    hide Ceil;
    var n := |permutation|;
    batches := [];
    for b := 0 to Ceil(n, miniBatch)
      invariant |batches| == b
      invariant IsEpoch(pool, miniBatch, permutation[..Min(b * miniBatch, n)], batches)
    {
      BatchStarts(n, miniBatch, b);
      var start := b * miniBatch;
      var end := Min(start + miniBatch, n);
      assert (b + 1) * miniBatch == start + miniBatch;
      var indices := permutation[start..end];
      var batch := Minibatch(indices, DrawSamples(pool, indices), DrawAdvantages(pool, indices));
      assert permutation[..end] == permutation[..start] + indices;
      assert (batches + [batch])[..b] == batches;
      batches := batches + [batch];
    }
    BatchesCover(n, miniBatch);
    assert permutation[..n] == permutation;
  }

  /** `permutations` are the fresh shuffles, one an iteration; an empty pool fails on a division by zero. */
  method RunTrainingLoop(pool: Pool, miniBatch: nat, permutations: seq<seq<nat>>)
    returns (r: Result<seq<seq<Minibatch>>>)
    requires |pool.samples| == |pool.advantages|
    requires forall p :: 0 <= p < |permutations| ==>
                           IsPermutation(permutations[p]) && |permutations[p]| == |pool.samples|
    ensures r.Ok? <==> pool.samples != [] && miniBatch > 0
    ensures r.Ok? ==> |r.value| == |permutations|
    ensures r.Ok? ==> forall p :: 0 <= p < |permutations| ==> IsEpoch(pool, miniBatch, permutations[p], r.value[p])
  {
    var miniBatchSize := Min(miniBatch, |pool.samples|);
    if miniBatchSize == 0 {
      return Err("integer division or modulo by zero");
    }
    var trained: seq<seq<Minibatch>> := [];
    for p := 0 to |permutations|
      invariant |trained| == p
      invariant forall q :: 0 <= q < p ==> IsEpoch(pool, miniBatch, permutations[q], trained[q])
    {
      var batches := RunIteration(pool, miniBatchSize, permutations[p]);
      trained := trained + [batches];
    }
    r := Ok(trained);
  }

  function Occurrences(indices: seq<nat>, row: nat): nat {
    if indices == [] then 0
    else Occurrences(indices[..|indices| - 1], row) + if indices[|indices| - 1] == row then 1 else 0
  }

  lemma {:induction false} OccursOnce(p: seq<nat>, row: nat)
    requires Distinct(p)
    ensures Occurrences(p, row) == if row in p then 1 else 0
  {
    if p != [] {
      var front := p[..|p| - 1];
      OccursOnce(front, row);
      assert p == front + [p[|p| - 1]];
    }
  }

  /** Each optimisation iteration trains every row of the pool exactly once. */
  lemma EveryRowOnce(pool: Pool, miniBatch: nat, permutation: seq<nat>, batches: seq<Minibatch>, row: nat)
    requires |pool.samples| == |pool.advantages| == |permutation| && IsPermutation(permutation)
    requires IsEpoch(pool, miniBatch, permutation, batches) && row < |pool.samples|
    ensures Occurrences(AllIndices(batches), row) == 1
  {
    var i := PermutationIsOnto(permutation, row);
    OccursOnce(permutation, row);
  }
}
