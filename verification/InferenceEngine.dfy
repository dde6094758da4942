/** The batching dispatcher: one loop drains a shared queue into batches, runs the model once per batch and resolves one
    future per request. */
module InferenceEngine {
  import opened InferenceTypes
  import opened Wrappers

  datatype Item = Request(input: ModelInput, future: nat) | Shutdown

  /** A resolved future. */
  datatype Answer = Answer(future: nat, output: ModelOutput)

  type Model = BatchedModelInput -> Result<BatchedModelOutput>

  /** How `RunLoop` ends: by the sentinel, waiting for ever on a queue nobody feeds, or by killing the process over a
      batch. */
  datatype Outcome = Stopped | Blocked | Killed(batch: seq<Item>, sawShutdown: bool)

  predicate AreRequests(items: seq<Item>) {
    forall i :: 0 <= i < |items| ==> items[i].Request?
  }

  function Sentinel(saw: bool): seq<Item> {
    if saw then [Item.Shutdown] else []
  }

  function Flatten<T>(s: seq<seq<T>>): seq<T> {
    if s == [] then [] else s[0] + Flatten(s[1..])
  }

  lemma {:induction false} FlattenAppend<T>(s: seq<seq<T>>, x: seq<T>)
    ensures Flatten(s + [x]) == Flatten(s) + x
  {
    if s == [] {
      assert Flatten([x]) == x;
    } else {
      assert (s + [x])[1..] == s[1..] + [x];
      FlattenAppend(s[1..], x);
    }
  }

  function Inputs(batch: seq<Item>): (r: seq<ModelInput>)
    requires AreRequests(batch)
    ensures |r| == |batch| && forall i :: 0 <= i < |r| ==> r[i] == batch[i].input
  {
    seq(|batch|, i requires 0 <= i < |batch| => batch[i].input)
  }

  /** One batched forward pass, from single inputs to single outputs. */
  function Forward(model: Model, inputs: seq<ModelInput>): (r: Result<seq<ModelOutput>>)
    ensures r.Ok? ==> |r.value| == |inputs|
  {
    var stacked := Stack(inputs);
    if stacked.Err? then Err(stacked.message)
    else
      var batched := model(stacked.value);
      if batched.Err? then Err(batched.message)
      else if !Unbinds(batched.value) then Err("output cannot be unbound")
      else if |UnbindRows(batched.value)| != |inputs| then Err("wrong number of ModelOutputs")
      else Ok(UnbindRows(batched.value))
  }

  function Zip(batch: seq<Item>, outputs: seq<ModelOutput>): (r: seq<Answer>)
    requires AreRequests(batch) && |batch| == |outputs|
    ensures |r| == |batch| && forall i :: 0 <= i < |r| ==> r[i] == Answer(batch[i].future, outputs[i])
  {
    seq(|batch|, i requires 0 <= i < |batch| => Answer(batch[i].future, outputs[i]))
  }

  predicate Served(model: Model, batch: seq<Item>) {
    AreRequests(batch) && Forward(model, Inputs(batch)).Ok?
  }

  predicate AllServed(model: Model, batches: seq<seq<Item>>) {
    forall b :: 0 <= b < |batches| ==> Served(model, batches[b])
  }

  /** The futures resolved by dispatching these batches one after the other. */
  function Answers(model: Model, batches: seq<seq<Item>>): seq<Answer>
    requires AllServed(model, batches)
  {
    if batches == [] then []
    else
      var last := batches[|batches| - 1];
      Answers(model, batches[..|batches| - 1]) + Zip(last, Forward(model, Inputs(last)).value)
  }

  /** A batch holds between one request and the configured number, which never means less than one. */
  predicate SizedBatch(batch: seq<Item>, maxBatchSize: int) {
    1 <= |batch| <= if maxBatchSize > 1 then maxBatchSize else 1
  }

  predicate Sized(batches: seq<seq<Item>>, maxBatchSize: int) {
    forall b :: 0 <= b < |batches| ==> SizedBatch(batches[b], maxBatchSize)
  }

  lemma OneMoreBatch(model: Model, batches: seq<seq<Item>>, batch: seq<Item>)
    requires AllServed(model, batches) && Served(model, batch)
    ensures AllServed(model, batches + [batch])
    ensures Answers(model, batches + [batch])
            == Answers(model, batches) + Zip(batch, Forward(model, Inputs(batch)).value)
  {
    assert (batches + [batch])[..|batches|] == batches;
  }

  class InferenceEngine {
    const model: Model
    const maxBatchSize: int
    var queue: seq<Item>
    /** What other threads will put, one burst before each look at the queue. */
    var arrivals: seq<seq<Item>>
    var resolved: seq<Answer>
    var nextFuture: nat

    constructor (model: Model, maxBatchSize: int, arrivals: seq<seq<Item>>)
      ensures this.model == model && this.maxBatchSize == maxBatchSize
      ensures queue == [] && this.arrivals == arrivals && resolved == [] && nextFuture == 0
    {
      this.model, this.maxBatchSize := model, maxBatchSize;
      queue, this.arrivals, resolved, nextFuture := [], arrivals, [], 0;
    }

    /** Everything not yet taken, in arrival order. */
    ghost function Stream(): seq<Item>
      reads this
    {
      queue + Flatten(arrivals)
    }

    method Infer(input: ModelInput) returns (future: nat)
      modifies this`queue, this`nextFuture
      ensures queue == old(queue) + [Request(input, future)]
      ensures future == old(nextFuture) < nextFuture
    {
      future := nextFuture;
      nextFuture := nextFuture + 1;
      queue := queue + [Request(input, future)];
    }

    method PostShutdown()
      modifies this`queue
      ensures queue == old(queue) + [Item.Shutdown]
    {
      queue := queue + [Item.Shutdown];
    }

    method Arrive()
      modifies this`queue, this`arrivals
      ensures Stream() == old(Stream())
      ensures old(arrivals) != [] ==> |arrivals| < |old(arrivals)|
      ensures old(arrivals) == [] ==> queue == old(queue) && arrivals == []
    {
      if arrivals != [] {
        assert queue + Flatten(arrivals) == (queue + arrivals[0]) + Flatten(arrivals[1..]);
        queue, arrivals := queue + arrivals[0], arrivals[1..];
      }
    }

    /** A blocking get; `None` when nothing ever comes. */
    method Get() returns (item: Option<Item>)
      modifies this`queue, this`arrivals
      ensures item.Some? ==> old(Stream()) == [item.value] + Stream()
      ensures item.None? ==> old(Stream()) == [] && Stream() == []
    {
      while queue == [] && arrivals != []
        invariant Stream() == old(Stream())
        decreases |arrivals|
      {
        Arrive();
      }
      if queue == [] {
        return None;
      }
      item := Some(queue[0]);
      assert Stream() == [queue[0]] + (queue[1..] + Flatten(arrivals));
      queue := queue[1..];
    }

    /** A get that does not wait; `None` when the queue is empty at this moment. */
    method GetNowait() returns (item: Option<Item>)
      modifies this`queue, this`arrivals
      ensures item.Some? ==> old(Stream()) == [item.value] + Stream()
      ensures item.None? ==> old(Stream()) == Stream() && queue == []
    {
      Arrive();
      if queue == [] {
        return None;
      }
      item := Some(queue[0]);
      assert Stream() == [queue[0]] + (queue[1..] + Flatten(arrivals));
      queue := queue[1..];
    }

    /** Phase 1 after the first request: a batch stops short only at the sentinel or at an empty queue. */
    method CollectBatch(first: Item) returns (batch: seq<Item>, sawShutdown: bool)
      requires first.Request?
      modifies this`queue, this`arrivals
      ensures AreRequests(batch) && SizedBatch(batch, maxBatchSize)
      ensures [first] + old(Stream()) == batch + Sentinel(sawShutdown) + Stream()
      ensures |batch| < maxBatchSize && !sawShutdown ==> queue == []
    {
      batch, sawShutdown := [first], false;
      while |batch| < maxBatchSize
        invariant AreRequests(batch) && SizedBatch(batch, maxBatchSize) && !sawShutdown
        invariant [first] + old(Stream()) == batch + Stream()
        decreases maxBatchSize - |batch|
      {
        ghost var before := Stream();
        var item := GetNowait();
        if item.None? {
          break;
        }
        if item.value.Shutdown? {
          sawShutdown := true;
          assert batch + before == batch + [Item.Shutdown] + Stream();
          break;
        }
        assert batch + before == (batch + [item.value]) + Stream();
        batch := batch + [item.value];
      }
    }

    /** Phase 2. */
    method Dispatch(batch: seq<Item>) returns (r: Result<seq<ModelOutput>>)
      requires AreRequests(batch)
      ensures r.Ok? <==> Served(model, batch)
      ensures r.Ok? ==> r.value == Forward(model, Inputs(batch)).value
    {
      var stacked := Stack(Inputs(batch));
      if stacked.Err? {
        return Err(stacked.message);
      }
      var batched := model(stacked.value);
      if batched.Err? {
        return Err(batched.message);
      }
      var outputs := Unbind(batched.value);
      if outputs.Err? {
        return Err(outputs.message);
      }
      if |outputs.value| != |batch| {
        return Err("wrong number of ModelOutputs");
      }
      r := outputs;
    }

    /** Phase 3. */
    method Resolve(batch: seq<Item>, outputs: seq<ModelOutput>)
      requires AreRequests(batch) && |batch| == |outputs|
      modifies this`resolved
      ensures resolved == old(resolved) + Zip(batch, outputs)
    {
      var zipped := Zip(batch, outputs);
      for i := 0 to |batch|
        invariant resolved == old(resolved) + zipped[..i]
      {
        resolved := resolved + [Answer(batch[i].future, outputs[i])];
      }
      assert zipped[..|batch|] == zipped;
    }

    /** Phases 1 to 3 for one batch, which is empty when the queue blocks for ever or starts with the sentinel. The
        process dies instead of resolving when `ok` is false. */
    method ServeBatch() returns (batch: seq<Item>, sawShutdown: bool, ok: bool)
      modifies this`queue, this`arrivals, this`resolved
      ensures AreRequests(batch) && old(Stream()) == batch + Sentinel(sawShutdown) + Stream()
      ensures batch == [] ==> ok && resolved == old(resolved) && (sawShutdown || old(Stream()) == [])
      ensures batch != [] ==> SizedBatch(batch, maxBatchSize) && (ok <==> Served(model, batch))
      ensures batch != [] ==>
                resolved == old(resolved) + if ok then Zip(batch, Forward(model, Inputs(batch)).value) else []
    {
      var first := Get();
      if first.None? {
        return [], false, true;
      }
      if first.value.Shutdown? {
        return [], true, true;
      }
      batch, sawShutdown := CollectBatch(first.value);
      var outputs := Dispatch(batch);
      ok := outputs.Ok?;
      if ok {
        Resolve(batch, outputs.value);
      }
    }

    /** Batches taken together are the stream up to the sentinel, nothing skipped, repeated or reordered, and the
        futures resolved are those of the batches. */
    method RunLoop() returns (outcome: Outcome, batches: seq<seq<Item>>)
      modifies this`queue, this`arrivals, this`resolved
      ensures Sized(batches, maxBatchSize) && AllServed(model, batches)
      ensures resolved == old(resolved) + Answers(model, batches)
      ensures outcome.Stopped? ==> InOrder(old(Stream()), batches, [Item.Shutdown] + Stream())
      ensures outcome.Blocked? ==> InOrder(old(Stream()), batches, []) && Stream() == []
      ensures outcome.Killed? ==>
                && InOrder(old(Stream()), batches, outcome.batch + Sentinel(outcome.sawShutdown) + Stream())
                && AreRequests(outcome.batch) && SizedBatch(outcome.batch, maxBatchSize)
                && !Served(model, outcome.batch)
    {
      hide Served, AllServed, Answers, Zip, SizedBatch, Stream, AreRequests, InOrder, Flatten, Forward, Inputs;
      batches := [];
      NoBatches(model, Stream());
      while true
        invariant Sized(batches, maxBatchSize) && AllServed(model, batches)
        invariant resolved == old(resolved) + Answers(model, batches)
        invariant InOrder(old(Stream()), batches, Stream())
        decreases |Stream()|
      {
        var batch, sawShutdown, ok := ServeBatch();
        if batch == [] {
          assert Sentinel(sawShutdown) == [] + Sentinel(sawShutdown);
          return if sawShutdown then Stopped else Blocked, batches;
        }
        if !ok {
          return Killed(batch, sawShutdown), batches;
        }
        OneMoreBatch(model, batches, batch);
        BatchInOrder(old(Stream()), batches, batch, Sentinel(sawShutdown), Stream());
        batches := batches + [batch];
        if sawShutdown {
          return Stopped, batches;
        }
        assert Sentinel(sawShutdown) + Stream() == Stream();
      }
    }
  }

  /** `all` is the batches, one after the other, and then `rest`. */
  ghost predicate InOrder(all: seq<Item>, batches: seq<seq<Item>>, rest: seq<Item>) {
    all == Flatten(batches) + rest
  }

  lemma BatchInOrder(all: seq<Item>, batches: seq<seq<Item>>, batch: seq<Item>, mark: seq<Item>, rest: seq<Item>)
    requires InOrder(all, batches, batch + mark + rest)
    ensures InOrder(all, batches + [batch], mark + rest)
  {
    FlattenAppend(batches, batch);
    assert batch + mark + rest == batch + (mark + rest);
  }

  lemma NoBatches(model: Model, all: seq<Item>)
    ensures AllServed(model, []) && Answers(model, []) == [] && InOrder(all, [], all)
  {
  }

  // ---------- batching changes nothing ----------

  /** The model treats every row of a batch as it would treat it alone. */
  ghost predicate RowWise(model: Model) {
    forall inputs: seq<ModelInput>, i: nat :: i < |inputs| && AllAlike(inputs) ==>
                                                RowAlone(model, inputs, i)
  }

  /** The model takes these inputs stacked, and gives one output row for each. */
  predicate Runs(model: Model, inputs: seq<ModelInput>) {
    && Stack(inputs).Ok? && model(Stack(inputs).value).Ok?
    && Unbinds(model(Stack(inputs).value).value) && |model(Stack(inputs).value).value.predXyz| == |inputs|
  }

  /** The model's output row for the `i`-th of these inputs. */
  function RowFor(model: Model, inputs: seq<ModelInput>, i: nat): ModelOutput
    requires Runs(model, inputs) && i < |inputs|
  {
    OutputRow(model(Stack(inputs).value).value, i)
  }

  predicate RowAlone(model: Model, inputs: seq<ModelInput>, i: nat)
    requires i < |inputs|
  {
    && Runs(model, inputs) && Runs(model, [inputs[i]])
    && RowFor(model, inputs, i) == RowFor(model, [inputs[i]], 0)
  }

  /** What the model gives for the request's own input alone. */
  predicate IsOwnAnswer(model: Model, item: Item, answer: Answer) {
    && item.Request? && answer.future == item.future
    && Runs(model, [item.input]) && answer.output == RowFor(model, [item.input], 0)
  }

  /** A batch is served exactly when the model runs on its inputs, and output `i` is then the row of input `i`. */
  lemma ForwardIsRows(model: Model, inputs: seq<ModelInput>)
    ensures Forward(model, inputs).Ok? <==> Runs(model, inputs)
    ensures Runs(model, inputs) ==>
              forall i :: 0 <= i < |inputs| ==> Forward(model, inputs).value[i] == RowFor(model, inputs, i)
  {
    hide Stack;
  }

  /** The inputs the requests carry may all share one batch. */
  predicate Compatible(items: seq<Item>) {
    AreRequests(items) && forall i, j :: 0 <= i < |items| && 0 <= j < |items| ==> Alike(items[i].input, items[j].input)
  }

  lemma BatchAnswers(model: Model, batch: seq<Item>)
    requires RowWise(model) && batch != [] && Compatible(batch)
    ensures Served(model, batch)
    ensures (var answers := Zip(batch, Forward(model, Inputs(batch)).value);
             forall i :: 0 <= i < |batch| ==> IsOwnAnswer(model, batch[i], answers[i]))
  {
    hide Alike, Forward, Runs, RowFor;
    var inputs := Inputs(batch);
    assert AllAlike(inputs);
    assert RowAlone(model, inputs, 0);
    ForwardIsRows(model, inputs);
    var answers := Zip(batch, Forward(model, inputs).value);
    forall i: nat | i < |batch|
      ensures IsOwnAnswer(model, batch[i], answers[i])
    {
      assert RowAlone(model, inputs, i);
      assert inputs[i] == batch[i].input;
    }
  }

  lemma FlattenLast(batches: seq<seq<Item>>)
    requires batches != []
    ensures Flatten(batches) == Flatten(batches[..|batches| - 1]) + batches[|batches| - 1]
  {
    var last := |batches| - 1;
    FlattenAppend(batches[..last], batches[last]);
    assert batches == batches[..last] + [batches[last]];
  }

  lemma CompatiblePart(a: seq<Item>, b: seq<Item>)
    requires Compatible(a + b)
    ensures Compatible(a) && Compatible(b)
  {
    hide Alike;
    assert forall i :: 0 <= i < |a| ==> (a + b)[i] == a[i];
    forall i | 0 <= i < |b|
      ensures b[i].Request?
    {
      assert b[i] == (a + b)[|a| + i];
    }
    forall i, j | 0 <= i < |b| && 0 <= j < |b|
      ensures Alike(b[i].input, b[j].input)
    {
      assert b[i] == (a + b)[|a| + i] && b[j] == (a + b)[|a| + j];
    }
  }

  /** However the requests were cut into batches, each future gets what one-by-one inference gives it, once, in arrival
      order, and no batch kills the process. */
  lemma {:induction false} BatchingIsOneByOne(model: Model, batches: seq<seq<Item>>, maxBatchSize: int)
    requires RowWise(model) && Sized(batches, maxBatchSize) && Compatible(Flatten(batches))
    ensures AllServed(model, batches) && |Answers(model, batches)| == |Flatten(batches)|
    ensures forall i :: 0 <= i < |Flatten(batches)| ==>
                          IsOwnAnswer(model, Flatten(batches)[i], Answers(model, batches)[i])
  {
    hide Forward, Alike, RowWise, IsOwnAnswer, Compatible;
    if batches != [] {
      var front, last := batches[..|batches| - 1], batches[|batches| - 1];
      FlattenLast(batches);
      CompatiblePart(Flatten(front), last);
      BatchingIsOneByOne(model, front, maxBatchSize);
      BatchAnswers(model, last);
      assert batches == front + [last];
      OneMoreBatch(model, front, last);
    }
  }

  /** A served batch resolves the futures of its own requests whatever the model does with them. */
  lemma {:induction false} AnswersInOrder(model: Model, batches: seq<seq<Item>>)
    requires AllServed(model, batches)
    ensures AreRequests(Flatten(batches)) && |Answers(model, batches)| == |Flatten(batches)|
    ensures forall i :: 0 <= i < |Flatten(batches)| ==> Answers(model, batches)[i].future == Flatten(batches)[i].future
  {
    hide Forward;
    if batches != [] {
      FlattenLast(batches);
      AnswersInOrder(model, batches[..|batches| - 1]);
    }
  }

  /** Two ways of cutting the same requests into batches resolve the same futures with the same outputs. */
  lemma BatchingIrrelevant(model: Model, batches: seq<seq<Item>>, others: seq<seq<Item>>, maxBatchSize: int,
                           otherMax: int)
    requires RowWise(model) && Compatible(Flatten(batches)) && Flatten(batches) == Flatten(others)
    requires Sized(batches, maxBatchSize) && Sized(others, otherMax)
    ensures AllServed(model, batches) && AllServed(model, others) && Answers(model, batches) == Answers(model, others)
  {
    hide Forward, Alike, RowWise, Compatible, Answers, AllServed;
    BatchingIsOneByOne(model, batches, maxBatchSize);
    BatchingIsOneByOne(model, others, otherMax);
    forall i | 0 <= i < |Flatten(batches)|
      ensures Answers(model, batches)[i] == Answers(model, others)[i]
    {
      assert IsOwnAnswer(model, Flatten(batches)[i], Answers(model, batches)[i]);
      assert IsOwnAnswer(model, Flatten(batches)[i], Answers(model, others)[i]);
    }
  }
}
