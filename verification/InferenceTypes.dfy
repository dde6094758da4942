/** Collating single model inputs into a batch and slicing a batched output back into single outputs. */
module InferenceTypes {
  import opened Wrappers

  datatype Tensor = Tensor(shape: seq<nat>, content: seq<real>)

  /** A tensor with a leading batch axis, row by row. */
  type Stacked = seq<Tensor>

  datatype ModelInput = ModelInput(egoHistoryXyz: Tensor, egoHistoryRot: Tensor, cameraFrames: Tensor,
                                   cameraIndices: Tensor, relativeTimestamps: Tensor, routeXy: Tensor,
                                   seed: Option<Tensor>)

  datatype BatchedModelInput = BatchedModelInput(egoHistoryXyz: Stacked, egoHistoryRot: Stacked, cameraFrames: Stacked,
                                                 cameraIndices: Stacked, relativeTimestamps: Stacked, routeXy: Stacked,
                                                 seed: Option<Stacked>)

  predicate SameShape(rows: Stacked) {
    forall i :: 0 <= i < |rows| ==> rows[i].shape == rows[0].shape
  }

  function Column(field: ModelInput -> Tensor, inputs: seq<ModelInput>): (r: Stacked)
    ensures |r| == |inputs| && forall i :: 0 <= i < |r| ==> r[i] == field(inputs[i])
  {
    seq(|inputs|, i requires 0 <= i < |inputs| => field(inputs[i]))
  }

  predicate NoSeeds(inputs: seq<ModelInput>) {
    forall i :: 0 <= i < |inputs| ==> inputs[i].seed.None?
  }

  predicate AllSeeds(inputs: seq<ModelInput>) {
    forall i :: 0 <= i < |inputs| ==> inputs[i].seed.Some?
  }

  function Seeds(inputs: seq<ModelInput>): (r: Stacked)
    requires AllSeeds(inputs)
    ensures |r| == |inputs| && forall i :: 0 <= i < |r| ==> Some(r[i]) == inputs[i].seed
  {
    seq(|inputs|, i requires 0 <= i < |inputs| => inputs[i].seed.value)
  }

  /** No seed in any input, or one in each; anything else cannot be stacked. */
  function StackSeeds(inputs: seq<ModelInput>): Result<Option<Stacked>> {
    if NoSeeds(inputs) then Ok(None)
    else if !AllSeeds(inputs) then Err("expected Tensor but got None")
    else if !SameShape(Seeds(inputs)) then Err("stack expects each tensor to be equal size")
    else Ok(Some(Seeds(inputs)))
  }

  function Stack(inputs: seq<ModelInput>): Result<BatchedModelInput> {
    if inputs == [] then Err("stack requires at least one ModelInput")
    else
      var xyz := Column((m: ModelInput) => m.egoHistoryXyz, inputs);
      var rot := Column((m: ModelInput) => m.egoHistoryRot, inputs);
      var frames := Column((m: ModelInput) => m.cameraFrames, inputs);
      var cameras := Column((m: ModelInput) => m.cameraIndices, inputs);
      var times := Column((m: ModelInput) => m.relativeTimestamps, inputs);
      var route := Column((m: ModelInput) => m.routeXy, inputs);
      if !(SameShape(xyz) && SameShape(rot) && SameShape(frames) && SameShape(cameras) && SameShape(times)
           && SameShape(route))
      then Err("stack expects each tensor to be equal size")
      else
        var seeds := StackSeeds(inputs);
        if seeds.Err? then Err(seeds.message)
        else Ok(BatchedModelInput(xyz, rot, frames, cameras, times, route, seeds.value))
  }

  /** Row `i` of a batch as a single input. */
  function InputRow(batch: BatchedModelInput, i: nat): ModelInput
    requires i < |batch.egoHistoryXyz| && i < |batch.egoHistoryRot| && i < |batch.cameraFrames|
    requires i < |batch.cameraIndices| && i < |batch.relativeTimestamps| && i < |batch.routeXy|
    requires batch.seed.Some? ==> i < |batch.seed.value|
  {
    ModelInput(batch.egoHistoryXyz[i], batch.egoHistoryRot[i], batch.cameraFrames[i], batch.cameraIndices[i],
               batch.relativeTimestamps[i], batch.routeXy[i],
               if batch.seed.Some? then Some(batch.seed.value[i]) else None)
  }

  predicate Rectangular(batch: BatchedModelInput, n: nat) {
    && |batch.egoHistoryXyz| == n && |batch.egoHistoryRot| == n && |batch.cameraFrames| == n
    && |batch.cameraIndices| == n && |batch.relativeTimestamps| == n && |batch.routeXy| == n
    && (batch.seed.Some? ==> |batch.seed.value| == n)
  }

  /** Two inputs that may share a batch: every tensor has the same shape and both have a seed or neither does. */
  predicate Alike(a: ModelInput, b: ModelInput) {
    && a.egoHistoryXyz.shape == b.egoHistoryXyz.shape && a.egoHistoryRot.shape == b.egoHistoryRot.shape
    && a.cameraFrames.shape == b.cameraFrames.shape && a.cameraIndices.shape == b.cameraIndices.shape
    && a.relativeTimestamps.shape == b.relativeTimestamps.shape && a.routeXy.shape == b.routeXy.shape
    && a.seed.Some? == b.seed.Some?
    && (a.seed.Some? ==> a.seed.value.shape == b.seed.value.shape)
  }

  predicate AllAlike(inputs: seq<ModelInput>) {
    forall i :: 0 <= i < |inputs| ==> Alike(inputs[0], inputs[i])
  }

  /** Stacking loses nothing, and works exactly on nonempty lists of inputs of one shape. */
  lemma StackRoundTrip(inputs: seq<ModelInput>)
    ensures Stack(inputs).Ok? <==> inputs != [] && AllAlike(inputs)
    ensures Stack(inputs).Ok? ==>
              && Rectangular(Stack(inputs).value, |inputs|)
              && forall i :: 0 <= i < |inputs| ==> InputRow(Stack(inputs).value, i) == inputs[i]
  {
    if inputs != [] && AllAlike(inputs) {
      assert NoSeeds(inputs) || AllSeeds(inputs) by {
        if inputs[0].seed.Some? {
          assert AllSeeds(inputs);
        }
      }
    }
  }

  // ---------- outputs ----------

  /** A leaf of the extra dictionary: rows along a leading axis, a list, or something that cannot be split. */
  datatype Leaf = ArrayLeaf(rows: seq<Tensor>) | ScalarLeaf(content: real) | ListLeaf(items: seq<Tensor>) | OtherLeaf

  datatype ModelOutput =
    ModelOutput(predXyz: Tensor, predRot: Tensor, logprob: Option<Tensor>, extra: map<string, Tensor>)

  datatype BatchedModelOutput = BatchedModelOutput(predXyz: Stacked, predRot: Stacked, logprob: Option<Stacked>,
                                                   extra: map<string, Leaf>)

  predicate Splits(leaf: Leaf, batchSize: nat) {
    match leaf
    case ArrayLeaf(rows) => |rows| == batchSize
    case ListLeaf(items) => |items| == batchSize
    case _ => false
  }

  function Slice(leaf: Leaf, index: nat, batchSize: nat): Tensor
    requires Splits(leaf, batchSize) && index < batchSize
  {
    if leaf.ArrayLeaf? then leaf.rows[index] else leaf.items[index]
  }

  predicate ExtraSplits(extra: map<string, Leaf>, batchSize: nat) {
    forall key :: key in extra ==> Splits(extra[key], batchSize)
  }

  method SplitExtraPerModelOutput(extra: map<string, Leaf>, index: nat, batchSize: nat)
    returns (r: Result<map<string, Tensor>>)
    requires index < batchSize
    ensures r.Ok? <==> ExtraSplits(extra, batchSize)
    ensures r.Ok? ==> r.value.Keys == extra.Keys
                      && forall key :: key in extra ==> r.value[key] == Slice(extra[key], index, batchSize)
  {
    var out: map<string, Tensor> := map[];
    var keys := extra.Keys;
    while keys != {}
      invariant keys <= extra.Keys && out.Keys == extra.Keys - keys
      invariant forall key :: key in out ==>
                                Splits(extra[key], batchSize) && out[key] == Slice(extra[key], index, batchSize)
      decreases |keys|
    {
      var key :| key in keys;
      keys := keys - {key};
      match extra[key] {
        case ArrayLeaf(rows) =>
          if |rows| != batchSize {
            return Err("leading dim must equal batch_size");
          }
          out := out[key := rows[index]];
        case ScalarLeaf(_) =>
          return Err("leading dim must equal batch_size");
        case ListLeaf(items) =>
          if |items| != batchSize {
            return Err("len must equal batch_size");
          }
          out := out[key := items[index]];
        case OtherLeaf =>
          return Err("unsupported leaf type");
      }
    }
    r := Ok(out);
  }

  predicate Unbinds(output: BatchedModelOutput) {
    var n := |output.predXyz|;
    && |output.predRot| == n
    && (output.logprob.Some? ==> |output.logprob.value| == n)
    && (n > 0 ==> ExtraSplits(output.extra, n))
  }

  function OutputRow(output: BatchedModelOutput, i: nat): ModelOutput
    requires Unbinds(output) && i < |output.predXyz|
  {
    ModelOutput(output.predXyz[i], output.predRot[i],
                if output.logprob.Some? then Some(output.logprob.value[i]) else None,
                map key | key in output.extra :: Slice(output.extra[key], i, |output.predXyz|))
  }

  function UnbindRows(output: BatchedModelOutput): (rows: seq<ModelOutput>)
    requires Unbinds(output)
    ensures |rows| == |output.predXyz| && forall i :: 0 <= i < |rows| ==> rows[i] == OutputRow(output, i)
  {
    seq(|output.predXyz|, i requires 0 <= i < |output.predXyz| => OutputRow(output, i))
  }

  method Unbind(output: BatchedModelOutput) returns (r: Result<seq<ModelOutput>>)
    ensures r.Ok? <==> Unbinds(output)
    ensures r.Ok? ==> r.value == UnbindRows(output)
  {
    var batchSize := |output.predXyz|;
    if |output.predRot| != batchSize {
      return Err("pred_rot leading dim differs from pred_xyz leading dim");
    }
    if output.logprob.Some? && |output.logprob.value| != batchSize {
      return Err("logprob leading dim differs from pred_xyz leading dim");
    }
    var modelOutputs: seq<ModelOutput> := [];
    for i := 0 to batchSize
      invariant |modelOutputs| == i && (i > 0 ==> ExtraSplits(output.extra, batchSize))
      invariant i > 0 ==> forall k :: 0 <= k < i ==> modelOutputs[k] == OutputRow(output, k)
    {
      var extra := SplitExtraPerModelOutput(output.extra, i, batchSize);
      if extra.Err? {
        return Err(extra.message);
      }
      var logprob := if output.logprob.Some? then Some(output.logprob.value[i]) else None;
      modelOutputs := modelOutputs + [ModelOutput(output.predXyz[i], output.predRot[i], logprob, extra.value)];
      assert extra.value == OutputRow(output, i).extra;
    }
    r := Ok(modelOutputs);
  }

  /** A batch of outputs from its rows, for outputs that all carry a log-probability or none and the same extra keys. */
  predicate Conforming(outputs: seq<ModelOutput>) {
    forall i :: 0 <= i < |outputs| ==>
                  && outputs[i].logprob.Some? == outputs[0].logprob.Some?
                  && outputs[i].extra.Keys == outputs[0].extra.Keys
  }

  /** The entries under one key, as an array or as a list. */
  function BindLeaf(items: seq<Tensor>, asList: bool): Leaf {
    if asList then ListLeaf(items) else ArrayLeaf(items)
  }

  /** `lists` are the keys whose entries come as lists. */
  function BindRows(outputs: seq<ModelOutput>, lists: set<string>): BatchedModelOutput
    requires outputs != [] && Conforming(outputs)
  {
    var n := |outputs|;
    BatchedModelOutput(
      seq(n, i requires 0 <= i < n => outputs[i].predXyz),
      seq(n, i requires 0 <= i < n => outputs[i].predRot),
      if outputs[0].logprob.None? then None else Some(seq(n, i requires 0 <= i < n => outputs[i].logprob.value)),
      map key | key in outputs[0].extra ::
        BindLeaf(seq(n, i requires 0 <= i < n => outputs[i].extra[key]), key in lists))
  }

  /** Unbinding undoes binding, whichever extra entries are arrays and whichever lists. */
  lemma UnbindUndoesBind(outputs: seq<ModelOutput>, lists: set<string>)
    requires outputs != [] && Conforming(outputs)
    ensures Unbinds(BindRows(outputs, lists)) && UnbindRows(BindRows(outputs, lists)) == outputs
  {
    var batch := BindRows(outputs, lists);
    assert Unbinds(batch);
    forall i | 0 <= i < |outputs|
      ensures OutputRow(batch, i) == outputs[i]
    {
      assert OutputRow(batch, i).extra == outputs[i].extra;
    }
  }

  /** The keys whose entries come as lists. */
  function Lists(extra: map<string, Leaf>): set<string> {
    set key | key in extra && extra[key].ListLeaf?
  }

  /** Binding undoes unbinding: every batch that can be unbound is its rows, bound again. */
  lemma BindUndoesUnbind(batch: BatchedModelOutput)
    requires Unbinds(batch) && |batch.predXyz| > 0
    ensures Conforming(UnbindRows(batch)) && BindRows(UnbindRows(batch), Lists(batch.extra)) == batch
  {
    var rows := UnbindRows(batch);
    assert forall i :: 0 <= i < |rows| ==> rows[i].extra.Keys == batch.extra.Keys;
    var again := BindRows(rows, Lists(batch.extra));
    assert again.predXyz == batch.predXyz && again.predRot == batch.predRot;
    if batch.logprob.Some? {
      assert again.logprob.value == batch.logprob.value;
    }
    forall key | key in batch.extra
      ensures again.extra[key] == batch.extra[key]
    {
      var items := seq(|rows|, i requires 0 <= i < |rows| => rows[i].extra[key]);
      assert Splits(batch.extra[key], |rows|);
      assert items == if batch.extra[key].ListLeaf? then batch.extra[key].items else batch.extra[key].rows;
    }
    assert again.extra == batch.extra;
  }
}
