/** Packing one rollout's replay steps into a fixed number of training rows. Steps without a finite log-probability and
    missing steps become padding that borrows the inputs of a usable step. */
module ReplayPacking {
  import opened Wrappers

  datatype Logprob = Finite(x: real) | NonFinite

  type ModelInputs = map<string, seq<real>>

  /** What building the model inputs of one replay step gives. */
  datatype Step = Step(inputs: ModelInputs, oldLogprob: Logprob)

  datatype Row = Row(inputs: ModelInputs, oldLogprob: Logprob, isPadding: bool, rolloutId: string)

  predicate Bad(step: Step) {
    step.oldLogprob.NonFinite?
  }

  /** The first step with a finite log-probability. */
  function FirstGood(steps: seq<Step>): (k: Option<nat>)
    ensures k.Some? ==> k.value < |steps| && !Bad(steps[k.value]) && forall i :: 0 <= i < k.value ==> Bad(steps[i])
    ensures k.None? ==> forall i :: 0 <= i < |steps| ==> Bad(steps[i])
  {
    if steps == [] then None
    else if !Bad(steps[0]) then Some(0)
    else
      var k := FirstGood(steps[1..]);
      if k.None? then None else Some(k.value + 1)
  }

  /** The row of step `i`: its own inputs and log-probability, or those of a padding row. */
  function RowOf(steps: seq<Step>, i: nat, rolloutId: string): Row
    requires i < |steps|
  {
    var good := FirstGood(steps);
    if !Bad(steps[i]) then Row(steps[i].inputs, steps[i].oldLogprob, false, rolloutId)
    else Row(if good.Some? then steps[good.value].inputs else steps[i].inputs, Finite(0.0), true, rolloutId)
  }

  function StepRows(steps: seq<Step>, rolloutId: string): (r: seq<Row>)
    ensures |r| == |steps| && forall i :: 0 <= i < |r| ==> r[i] == RowOf(steps, i, rolloutId)
  {
    seq(|steps|, i requires 0 <= i < |steps| => RowOf(steps, i, rolloutId))
  }

  predicate SameKeys(rows: seq<Row>) {
    forall i :: 0 <= i < |rows| ==> rows[i].inputs.Keys == rows[0].inputs.Keys
  }

  function PaddingRow(rows: seq<Row>, rolloutId: string): Row
    requires rows != []
  {
    Row(rows[0].inputs, Finite(0.0), true, rolloutId)
  }

  predicate AllPresent<R>(outputs: seq<Option<R>>) {
    forall i :: 0 <= i < |outputs| ==> outputs[i].Some?
  }

  function StepsOf<R>(build: R -> Step, outputs: seq<Option<R>>): (r: seq<Step>)
    requires AllPresent(outputs)
    ensures |r| == |outputs| && forall i :: 0 <= i < |r| ==> r[i] == build(outputs[i].value)
  {
    seq(|outputs|, i requires 0 <= i < |outputs| => build(outputs[i].value))
  }

  /** A rollout is accepted when every output has replay data, there is one and no more than fit, and the rows'
      inputs have the same keys. */
  predicate Accepted<R>(build: R -> Step, outputs: seq<Option<R>>, expectedSteps: nat, rolloutId: string) {
    && AllPresent(outputs) && 0 < |outputs| <= expectedSteps
    && SameKeys(StepRows(StepsOf(build, outputs), rolloutId))
  }

  function Padded(rows: seq<Row>, expectedSteps: nat, rolloutId: string): (r: seq<Row>)
    requires 0 < |rows| <= expectedSteps
    ensures |r| == expectedSteps
    ensures forall i :: 0 <= i < |r| ==> r[i] == if i < |rows| then rows[i] else PaddingRow(rows, rolloutId)
  {
    seq(expectedSteps, i requires 0 <= i < expectedSteps => if i < |rows| then rows[i] else PaddingRow(rows, rolloutId))
  }

  function Pack<R>(build: R -> Step, outputs: seq<Option<R>>, expectedSteps: nat, rolloutId: string): seq<Row>
    requires Accepted(build, outputs, expectedSteps, rolloutId)
  {
    Padded(StepRows(StepsOf(build, outputs), rolloutId), expectedSteps, rolloutId)
  }

  method BuildRows<R>(build: R -> Step, replayRows: seq<R>, rolloutId: string, ghost steps: seq<Step>)
    returns (rows: seq<Row>, badIndices: seq<nat>)
    requires |steps| == |replayRows| && forall i :: 0 <= i < |steps| ==> steps[i] == build(replayRows[i])
    ensures |rows| == |steps|
    ensures forall i :: 0 <= i < |steps| ==>
                          rows[i] == Row(steps[i].inputs, if Bad(steps[i]) then Finite(0.0) else steps[i].oldLogprob,
                                         Bad(steps[i]), rolloutId)
    ensures forall i: nat :: i in badIndices <==> i < |steps| && Bad(steps[i])
  {
    rows, badIndices := [], [];
    for idx := 0 to |replayRows|
      invariant |rows| == idx
      invariant forall i :: 0 <= i < idx ==>
                              rows[i] == Row(steps[i].inputs,
                                             if Bad(steps[i]) then Finite(0.0) else steps[i].oldLogprob,
                                             Bad(steps[i]), rolloutId)
      invariant forall i: nat :: i in badIndices <==> i < idx && Bad(steps[i])
    {
      var built := build(replayRows[idx]);
      var oldLogprob, padFlag := built.oldLogprob, false;
      if Bad(built) {
        oldLogprob, padFlag := Finite(0.0), true;
        badIndices := badIndices + [idx];
      }
      rows := rows + [Row(built.inputs, oldLogprob, padFlag, rolloutId)];
    }
  }

  /** Overwrites the inputs of every bad row with those of the first good one. */
  method BorrowInputs(rows: seq<Row>, badIndices: seq<nat>, ghost steps: seq<Step>, rolloutId: string)
    returns (r: seq<Row>)
    requires |rows| == |steps|
    requires forall i :: 0 <= i < |steps| ==>
                           rows[i] == Row(steps[i].inputs, if Bad(steps[i]) then Finite(0.0) else steps[i].oldLogprob,
                                          Bad(steps[i]), rolloutId)
    requires forall i: nat :: i in badIndices <==> i < |steps| && Bad(steps[i])
    ensures r == StepRows(steps, rolloutId)
  {
    r := rows;
    if badIndices == [] {
      forall i | 0 <= i < |steps|
        ensures !Bad(steps[i])
      {
        assert i !in badIndices;
      }
      return;
    }
    var goodIdx := 0;
    while goodIdx < |rows| && goodIdx in badIndices
      invariant goodIdx <= |rows| && forall i :: 0 <= i < goodIdx ==> Bad(steps[i])
    {
      goodIdx := goodIdx + 1;
    }
    if goodIdx == |rows| {
      return;
    }
    assert FirstGood(steps) == Some(goodIdx);
    var template := rows[goodIdx].inputs;
    for b := 0 to |badIndices|
      invariant |r| == |rows|
      invariant forall i :: 0 <= i < |rows| ==>
                              r[i] == if i in badIndices[..b] then rows[i].(inputs := template) else rows[i]
    {
      assert badIndices[b] in badIndices;
      r := r[badIndices[b] := r[badIndices[b]].(inputs := template)];
    }
    assert badIndices[..|badIndices|] == badIndices;
  }

  method GetPolicyInput<R>(build: R -> Step, outputs: seq<Option<R>>, expectedSteps: nat, rolloutId: string)
    returns (r: Result<seq<Row>>)
    ensures r.Ok? <==> Accepted(build, outputs, expectedSteps, rolloutId)
    ensures r.Ok? ==> r.value == Pack(build, outputs, expectedSteps, rolloutId)
  {
    var replayRows: seq<R> := [];
    for i := 0 to |outputs|
      invariant |replayRows| == i && forall j :: 0 <= j < i ==> outputs[j] == Some(replayRows[j])
    {
      if outputs[i].None? {
        return Err("Policy output is missing replay_data");
      }
      replayRows := replayRows + [outputs[i].value];
    }
    if |replayRows| > expectedSteps {
      return Err("refusing to drop replay rows");
    }
    if replayRows == [] {
      return Err("Rollout produced no replay rows");
    }
    ghost var steps := StepsOf(build, outputs);
    var rows, badIndices := BuildRows(build, replayRows, rolloutId, steps);
    var samples := BorrowInputs(rows, badIndices, steps, rolloutId);
    if !SameKeys(samples) {
      return Err("Replay step model-input keys differ");
    }
    var template := samples[0].inputs;
    while |samples| < expectedSteps
      invariant |replayRows| <= |samples| <= expectedSteps
      invariant forall i :: 0 <= i < |samples| ==>
                              samples[i] == Pack(build, outputs, expectedSteps, rolloutId)[i]
      decreases expectedSteps - |samples|
    {
      samples := samples + [Row(template, Finite(0.0), true, rolloutId)];
    }
    r := Ok(samples);
  }

  // ---------- what packing keeps ----------

  function ValidRows(rows: seq<Row>): seq<Row> {
    if rows == [] then []
    else
      var rest := ValidRows(rows[..|rows| - 1]);
      if rows[|rows| - 1].isPadding then rest else rest + [rows[|rows| - 1]]
  }

  /** The finite steps as rows, in order. */
  function GoodRows(steps: seq<Step>, rolloutId: string): seq<Row> {
    if steps == [] then []
    else
      var (rest, last) := (GoodRows(steps[..|steps| - 1], rolloutId), steps[|steps| - 1]);
      if Bad(last) then rest else rest + [Row(last.inputs, last.oldLogprob, false, rolloutId)]
  }

  lemma {:induction false} ValidAreGood(steps: seq<Step>, rows: seq<Row>, rolloutId: string)
    requires |rows| >= |steps|
    requires forall i :: 0 <= i < |steps| ==> rows[i].isPadding == Bad(steps[i])
    requires forall i :: 0 <= i < |steps| && !Bad(steps[i]) ==>
                           rows[i] == Row(steps[i].inputs, steps[i].oldLogprob, false, rolloutId)
    requires forall i :: |steps| <= i < |rows| ==> rows[i].isPadding
    ensures ValidRows(rows) == GoodRows(steps, rolloutId)
    decreases |rows|
  {
    if |rows| > |steps| {
      ValidAreGood(steps, rows[..|rows| - 1], rolloutId);
    } else if rows != [] {
      ValidAreGood(steps[..|steps| - 1], rows[..|rows| - 1], rolloutId);
    }
  }

  /** An accepted rollout packs to exactly the expected number of rows, all with finite log-probabilities, and the valid
      rows are its finite steps with their order and values. */
  lemma PackKeepsValidSteps<R>(build: R -> Step, outputs: seq<Option<R>>, expectedSteps: nat, rolloutId: string)
    requires Accepted(build, outputs, expectedSteps, rolloutId)
    ensures (var rows := Pack(build, outputs, expectedSteps, rolloutId);
             && |rows| == expectedSteps
             && (forall i :: 0 <= i < |rows| ==> rows[i].oldLogprob.Finite?)
             && ValidRows(rows) == GoodRows(StepsOf(build, outputs), rolloutId))
  {
    ValidAreGood(StepsOf(build, outputs), Pack(build, outputs, expectedSteps, rolloutId), rolloutId);
  }

  /** If any step is finite, every row's inputs come from a finite step, padding and bad rows included; and all rows
      have the same keys. */
  lemma InputsComeFromFiniteSteps<R>(build: R -> Step, outputs: seq<Option<R>>, expectedSteps: nat, rolloutId: string,
                                     i: nat)
    requires Accepted(build, outputs, expectedSteps, rolloutId) && i < expectedSteps
    requires exists k :: 0 <= k < |outputs| && !Bad(StepsOf(build, outputs)[k])
    ensures exists k :: && 0 <= k < |outputs| && !Bad(StepsOf(build, outputs)[k])
                        && Pack(build, outputs, expectedSteps, rolloutId)[i].inputs == StepsOf(build, outputs)[k].inputs
    ensures Pack(build, outputs, expectedSteps, rolloutId)[i].inputs.Keys
            == Pack(build, outputs, expectedSteps, rolloutId)[0].inputs.Keys
  {
    var steps := StepsOf(build, outputs);
    var good := FirstGood(steps).value;
    var source := if i < |steps| then i else 0;
    var k := if Bad(steps[source]) then good else source;
    assert !Bad(steps[k]) && Pack(build, outputs, expectedSteps, rolloutId)[i].inputs == steps[k].inputs;
  }

  /** A step without a finite log-probability trains as padding, on its own inputs exactly when no step is finite or the
      first finite one has the same inputs. */
  lemma BadInputsKeptIff<R>(build: R -> Step, outputs: seq<Option<R>>, expectedSteps: nat, rolloutId: string, i: nat)
    requires Accepted(build, outputs, expectedSteps, rolloutId) && i < |outputs| && Bad(StepsOf(build, outputs)[i])
    ensures (var (steps, row) := (StepsOf(build, outputs), Pack(build, outputs, expectedSteps, rolloutId)[i]);
             var good := FirstGood(steps);
             && row.isPadding && row.oldLogprob == Finite(0.0)
             && (good.Some? ==> row.inputs == steps[good.value].inputs)
             && (row.inputs == steps[i].inputs <==> good.None? || steps[good.value].inputs == steps[i].inputs))
  {
  }

  /** Padding rows after the last step carry the inputs of the first finite step, or of the very first when none is,
      a log-probability of zero and the rollout's own name; and only they and the steps without a finite one are
      padding. */
  lemma PaddingCarriesFirstFinite<R>(build: R -> Step, outputs: seq<Option<R>>, expectedSteps: nat, rolloutId: string,
                                     i: nat)
    requires Accepted(build, outputs, expectedSteps, rolloutId) && i < expectedSteps
    ensures (var (steps, row) := (StepsOf(build, outputs), Pack(build, outputs, expectedSteps, rolloutId)[i]);
             var good := FirstGood(steps);
             && row.rolloutId == rolloutId
             && (row.isPadding <==> i >= |outputs| || Bad(steps[i]))
             && (i >= |outputs| ==> row.oldLogprob == Finite(0.0)
                                    && row.inputs == steps[if good.Some? then good.value else 0].inputs))
  {
    var steps := StepsOf(build, outputs);
    if !Bad(steps[0]) {
      assert FirstGood(steps) == Some(0);
    }
  }

  /** All steps whose inputs are used have the same keys. */
  predicate AgreeOnKeys(steps: seq<Step>, finiteOnly: bool) {
    forall i, j :: 0 <= i < |steps| && 0 <= j < |steps| && !(finiteOnly && (Bad(steps[i]) || Bad(steps[j]))) ==>
                     steps[i].inputs.Keys == steps[j].inputs.Keys
  }

  /** A rollout is refused exactly for an output without replay data, for none or more than fit, or for steps whose
      model inputs differ in their keys; as soon as one step is finite, only the finite ones are compared. */
  lemma AcceptedIff<R>(build: R -> Step, outputs: seq<Option<R>>, expectedSteps: nat, rolloutId: string)
    ensures Accepted(build, outputs, expectedSteps, rolloutId) <==>
              && (forall i :: 0 <= i < |outputs| ==> outputs[i] != None)
              && outputs != [] && |outputs| <= expectedSteps
              && var steps := StepsOf(build, outputs);
                 AgreeOnKeys(steps, exists k :: 0 <= k < |steps| && !Bad(steps[k]))
  {
    if AllPresent(outputs) && outputs != [] {
      var steps, rows := StepsOf(build, outputs), StepRows(StepsOf(build, outputs), rolloutId);
      var good := FirstGood(steps);
      if SameKeys(rows) {
        forall i, j | 0 <= i < |steps| && 0 <= j < |steps| && !(good.Some? && (Bad(steps[i]) || Bad(steps[j])))
          ensures steps[i].inputs.Keys == steps[j].inputs.Keys
        {
          assert rows[i].inputs == steps[i].inputs && rows[j].inputs == steps[j].inputs;
        }
      }
    }
  }
}
