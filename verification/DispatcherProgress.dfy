/** A measure every step but submit, shutdown and the entry into the revive branch strictly decreases, and so a bound
    on the length of every run. */
module DispatcherProgress {
  import opened Wrappers
  import opened Tally
  import opened DispatcherState
  import opened DispatcherProtocol
  import opened DispatcherInvariant
  import opened DispatcherSteps
  import opened DispatcherIndex
  import opened DispatcherRuns

  function OfEntry(): Entry -> nat {
    (e: Entry) => if e.job.Some? then 8 else 1
  }

  function OfWorker(retries: nat): Worker -> nat {
    (x: Worker) =>
      match x
      case Waiting => 0
      case Stopped => 0
      case Fetched(_) => 7
      case Simulating(_) => 6
      case Landed(_, _) => 5
      case Resolving(_, _) => 1
      case Dropping(_) => 3
      case Reviving(_, _) => 13 + 9 * retries
      case Unresolving(_, _) => 12 + 9 * retries
      case Rebudgeting(_, _) => 10 + 9 * retries
      case Requeueing(_, _) => 9
  }

  function OfCloser(workers: nat): Closer -> nat {
    (x: Closer) =>
      match x
      case Draining(owed) => 2 * workers + 2 + |owed|
      case Posting(left, owed) => 2 * left + 1 + |owed|
      case Releasing(owed) => |owed|
  }

  function OfPayload(): Payload -> nat {
    (s: Payload) => (if s.retriesLeft > 0 then 9 * s.retriesLeft else 0) + if s.futureResolved then 0 else 1
  }

  function OfLedger(): Ledger -> nat {
    (l: Ledger) => l.revives
  }

  /** Work still to be done. */
  function Measure(w: World): nat {
    Sum(w.shared.queue, OfEntry()) + Sum(w.workers, OfWorker(w.shared.maxRetries))
      + Sum(w.closers, OfCloser(|w.workers|)) + Sum(w.shared.states, OfPayload())
  }

  function Revives(w: World): nat {
    Sum(w.ledger, OfLedger())
  }

  /** What one action from outside adds. */
  function Price(target: nat, retries: nat, workers: nat): Action -> nat {
    (a: Action) => if a.Submit? then 8 * target + 9 * retries + 2 else if a.Shutdown? then 2 * workers + 3 else 0
  }

  /** What entering the revive branch `revives` times adds. */
  function Toll(retries: nat, revives: nat): nat {
    if revives == 0 then 0 else Toll(retries, revives - 1) + 11 + 9 * retries
  }

  lemma {:induction false} TollIsLinear(retries: nat, revives: nat)
    ensures Toll(retries, revives) == (11 + 9 * retries) * revives
  {
    if revives > 0 {
      TollIsLinear(retries, revives - 1);
    }
  }

  /** One step pays for itself, out of the action's price or of the revive it enters. */
  predicate Pays(w: World, a: Action, w': World) {
    Measure(w') + 1 + Toll(w.shared.maxRetries, Revives(w)) <=
      Measure(w) + Price(w.shared.target, w.shared.maxRetries, |w.workers|)(a) + Toll(w.shared.maxRetries, Revives(w'))
  }

  lemma {:induction false} PutFreshMeasure(c: Shared, payload: nat, scene: SceneId, count: nat)
    ensures Sum(PutFresh(c, payload, scene, count).queue, OfEntry()) == Sum(c.queue, OfEntry()) + 8 * count
  {
    if count > 0 {
      PutFreshMeasure(c, payload, scene, count - 1);
      var before := PutFresh(c, payload, scene, count - 1);
      SumAppend(before.queue, Entry(FRESH, before.nextOrder, Some(Job(payload, before.nextSession, scene, 0, false))),
                OfEntry());
    }
  }

  lemma SubmitPays(w: World, prompt: int, scene: SceneId)
    requires Grounded(w)
    ensures Pays(w, Submit(prompt, scene), Step(w, Submit(prompt, scene)))
  {
    var c, w' := w.shared, Step(w, Submit(prompt, scene));
    if !c.closed && prompt !in c.active {
      var entrant := Payload(prompt, c.maxRetries, [], false, false, []);
      var grown := c.(states := c.states + [entrant], active := c.active[prompt := |c.states|]);
      PutFreshShape(grown, |c.states|, scene, c.target);
      PutFreshMeasure(grown, |c.states|, scene, c.target);
      SumAppend(c.states, entrant, OfPayload());
      SumAppend(w.ledger, Ledger(0, 0, c.maxRetries, 0, 0), OfLedger());
    } else {
      assert w'.ledger == w.ledger;
    }
  }

  /** How a worker's step moves the measure, payload change and queue change given. */
  lemma MoveMeasure(w: World, c: Shared, t: nat, x: Worker)
    requires t < |w.workers| && c.maxRetries == w.shared.maxRetries
    ensures Measure(Move(w, c, t, x)) + OfWorker(c.maxRetries)(w.workers[t])
              + Sum(w.shared.queue, OfEntry()) + Sum(w.shared.states, OfPayload())
            == Measure(w) + OfWorker(c.maxRetries)(x) + Sum(c.queue, OfEntry()) + Sum(c.states, OfPayload())
  {
    SumUpdate(w.workers, t, x, OfWorker(c.maxRetries));
  }

  lemma SameRevives(w: World, id: nat, l: Ledger)
    requires id < |w.ledger| && l.revives == w.ledger[id].revives
    ensures Sum(w.ledger[id := l], OfLedger()) == Revives(w)
  {
    SumUpdate(w.ledger, id, l, OfLedger());
  }

  lemma FetchPays(w: World, t: nat)
    requires Grounded(w) && Enabled(w, Fetch(t))
    ensures Pays(w, Fetch(t), Step(w, Fetch(t)))
  {
    hide Head, Sum;
    var (c', e) := Pop(w.shared);
    SumRemove(w.shared.queue, Head(w.shared.queue), OfEntry());
    MoveMeasure(w, c', t, if e.job.Some? then Fetched(e.job.value) else Stopped);
  }

  lemma CheckPays(w: World, t: nat)
    requires Grounded(w) && Enabled(w, Check(t))
    ensures Pays(w, Check(t), StepCheck(w, t))
  {
    var w' := StepCheck(w, t);
    var id := w.workers[t].job.payload;
    MoveMeasure(w, w.shared, t, w'.workers[t]);
    SameRevives(w, id, w'.ledger[id]);
  }

  lemma SimulateOkPays(w: World, t: nat)
    requires Grounded(w) && Enabled(w, SimulateOk(t))
    ensures Pays(w, SimulateOk(t), Step(w, SimulateOk(t)))
  {
    var w' := Step(w, SimulateOk(t));
    MoveMeasure(w, w'.shared, t, w'.workers[t]);
  }

  lemma SucceedPays(w: World, t: nat)
    requires Grounded(w) && Enabled(w, Succeed(t))
    ensures Pays(w, Succeed(t), StepSucceed(w, t))
  {
    hide Sum;
    var w' := StepSucceed(w, t);
    var id := w.workers[t].job.payload;
    MoveMeasure(w, w'.shared, t, w'.workers[t]);
    SumUpdate(w.shared.states, id, w'.shared.states[id], OfPayload());
    SameRevives(w, id, w'.ledger[id]);
  }

  lemma RetryPays(w: World, t: nat)
    requires Grounded(w) && Enabled(w, Fail(t))
    requires DispatcherState.Fail(w.shared, w.workers[t].job).1 == Retried
    ensures Pays(w, Fail(t), StepFail(w, t))
  {
    var w' := StepFail(w, t);
    var job := w.workers[t].job;
    MoveMeasure(w, w'.shared, t, Waiting);
    SumUpdate(w.shared.states, job.payload, w'.shared.states[job.payload], OfPayload());
    SameRevives(w, job.payload, w'.ledger[job.payload]);
    SumAppend(w.shared.queue, w'.shared.queue[|w.shared.queue|], OfEntry());
  }

  lemma FailPays(w: World, t: nat)
    requires Grounded(w) && Enabled(w, Fail(t))
    requires DispatcherState.Fail(w.shared, w.workers[t].job).1 != Retried
    ensures Pays(w, Fail(t), StepFail(w, t))
  {
    var w' := StepFail(w, t);
    var id := w.workers[t].job.payload;
    MoveMeasure(w, w'.shared, t, w'.workers[t]);
    SumUpdate(w.shared.states, id, w'.shared.states[id], OfPayload());
    SameRevives(w, id, w'.ledger[id]);
  }

  lemma ResolvePays(w: World, t: nat)
    requires Grounded(w) && Enabled(w, Resolve(t))
    ensures Pays(w, Resolve(t), Step(w, Resolve(t)))
  {
    var w' := Step(w, Resolve(t));
    var id := w.workers[t].payload;
    MoveMeasure(w, w'.shared, t, w'.workers[t]);
    SumUpdate(w.shared.states, id, w'.shared.states[id], OfPayload());
  }

  lemma DecideRevivePays(w: World, t: nat, pool: Option<SceneId>)
    requires Grounded(w) && Enabled(w, Decide(t, pool)) && StepDecide(w, t, pool).workers[t].Reviving?
    ensures Pays(w, Decide(t, pool), StepDecide(w, t, pool))
  {
    var w' := StepDecide(w, t, pool);
    var id := w.workers[t].job.payload;
    MoveMeasure(w, w'.shared, t, w'.workers[t]);
    SumUpdate(w.ledger, id, w'.ledger[id], OfLedger());
    assert Revives(w') == Revives(w) + 1;
  }

  lemma DecideDropPays(w: World, t: nat, pool: Option<SceneId>)
    requires Grounded(w) && Enabled(w, Decide(t, pool)) && !StepDecide(w, t, pool).workers[t].Reviving?
    ensures Pays(w, Decide(t, pool), StepDecide(w, t, pool))
  {
    var w' := StepDecide(w, t, pool);
    var id := w.workers[t].job.payload;
    MoveMeasure(w, w'.shared, t, w'.workers[t]);
    SameRevives(w, id, w'.ledger[id]);
  }

  lemma DecidePays(w: World, t: nat, pool: Option<SceneId>)
    requires Grounded(w) && Enabled(w, Decide(t, pool))
    ensures Pays(w, Decide(t, pool), StepDecide(w, t, pool))
  {
    if StepDecide(w, t, pool).workers[t].Reviving? {
      DecideRevivePays(w, t, pool);
    } else {
      DecideDropPays(w, t, pool);
    }
  }

  lemma RequeuePays(w: World, t: nat)
    requires Grounded(w) && Enabled(w, Revive(t)) && w.workers[t].Requeueing?
    ensures Pays(w, Revive(t), StepRevive(w, t))
  {
    var w' := StepRevive(w, t);
    MoveMeasure(w, w'.shared, t, w'.workers[t]);
    SumAppend(w.shared.queue, w'.shared.queue[|w.shared.queue|], OfEntry());
  }

  lemma RevivePays(w: World, t: nat)
    requires Grounded(w) && Enabled(w, Revive(t)) && !w.workers[t].Requeueing?
    ensures Pays(w, Revive(t), StepRevive(w, t))
  {
    hide Sum;
    var w' := StepRevive(w, t);
    var id := w.workers[t].job.payload;
    MoveMeasure(w, w'.shared, t, w'.workers[t]);
    SumUpdate(w.shared.states, id, w'.shared.states[id], OfPayload());
  }

  /** Shutdown trades each unresolved indexed payload for one owed result. */
  lemma {:induction false} CloseMeasure(c: Shared, bound: nat)
    requires bound <= |c.states|
    ensures Sum(DispatcherState.Close(c).0.states[..bound], OfPayload()) + |Unresolved(c, bound)|
            == Sum(c.states[..bound], OfPayload())
  {
    var marked := DispatcherState.Close(c).0.states;
    if bound > 0 {
      CloseMeasure(c, bound - 1);
      SumAppend(marked[..bound - 1], marked[bound - 1], OfPayload());
      SumAppend(c.states[..bound - 1], c.states[bound - 1], OfPayload());
      assert marked[..bound] == marked[..bound - 1] + [marked[bound - 1]];
      assert c.states[..bound] == c.states[..bound - 1] + [c.states[bound - 1]];
    }
  }

  lemma ShutdownPays(w: World)
    requires Grounded(w)
    ensures Pays(w, Shutdown, Step(w, Shutdown))
  {
    var c := w.shared;
    var (c', owed) := DispatcherState.Close(c);
    CloseMeasure(c, |c.states|);
    assert c'.states[..|c.states|] == c'.states && c.states[..|c.states|] == c.states;
    SumAppend(w.closers, Draining(owed), OfCloser(|w.workers|));
  }

  lemma DrainPays(w: World, k: nat)
    requires Grounded(w) && Enabled(w, Close(k)) && w.closers[k].Draining? && w.shared.queue != []
    ensures Pays(w, Close(k), StepClose(w, k))
  {
    var queue, w' := w.shared.queue, StepClose(w, k);
    var i := Head(queue);
    SumRemove(queue, i, OfEntry());
    if queue[i].job.Some? {
      var id := queue[i].job.value.payload;
      SameRevives(w, id, w'.ledger[id]);
    }
  }

  lemma ReleasePays(w: World, k: nat)
    requires Grounded(w) && Enabled(w, Close(k)) && w.closers[k].Releasing?
    ensures Pays(w, Close(k), StepClose(w, k))
  {
    var c, w' := w.shared, StepClose(w, k);
    var id := w.closers[k].owed[0];
    SumUpdate(w.closers, k, w'.closers[k], OfCloser(|w.workers|));
    SumUpdate(c.states, id, w'.shared.states[id], OfPayload());
  }

  lemma PostPays(w: World, k: nat)
    requires Grounded(w) && Enabled(w, Close(k)) && !w.closers[k].Releasing?
    requires w.closers[k].Draining? ==> w.shared.queue == []
    ensures Pays(w, Close(k), StepClose(w, k))
  {
    var c, w' := w.shared, StepClose(w, k);
    SumUpdate(w.closers, k, w'.closers[k], OfCloser(|w.workers|));
    SumAppend(c.queue, Entry(SENTINEL, c.nextOrder, None), OfEntry());
  }

  lemma ClosePays(w: World, k: nat)
    requires Grounded(w) && Enabled(w, Close(k))
    ensures Pays(w, Close(k), StepClose(w, k))
  {
    if w.closers[k].Releasing? {
      ReleasePays(w, k);
    } else if w.closers[k].Draining? && w.shared.queue != [] {
      DrainPays(w, k);
    } else {
      PostPays(w, k);
    }
  }

  lemma WorkerPays(w: World, a: Action)
    requires Grounded(w) && Enabled(w, a) && (a.Fail? || a.Decide? || a.Revive? || a.Succeed? || a.Check?)
    ensures Pays(w, a, Step(w, a))
  {
    match a {
      case Check(t) => CheckPays(w, t);
      case Succeed(t) => SucceedPays(w, t);
      case Fail(t) =>
        if DispatcherState.Fail(w.shared, w.workers[t].job).1 == Retried { RetryPays(w, t); } else { FailPays(w, t); }
      case Decide(t, pool) => DecidePays(w, t, pool);
      case Revive(t) => if w.workers[t].Requeueing? { RequeuePays(w, t); } else { RevivePays(w, t); }
    }
  }

  lemma StepPays(w: World, a: Action)
    requires Grounded(w) && Enabled(w, a)
    ensures Pays(w, a, Step(w, a))
  {
    match a {
      case Submit(prompt, scene) => SubmitPays(w, prompt, scene);
      case Fetch(t) => FetchPays(w, t);
      case SimulateOk(t) => SimulateOkPays(w, t);
      case Resolve(t) => ResolvePays(w, t);
      case Shutdown => ShutdownPays(w);
      case Close(k) => ClosePays(w, k);
      case _ => WorkerPays(w, a);
    }
  }

  lemma SameWorkers(w: World, a: Action)
    requires Grounded(w) && Enabled(w, a)
    ensures |Step(w, a).workers| == |w.workers|
  {
  }

  lemma {:induction false} RunPays(w: World, run: seq<Action>)
    requires Grounded(w) && Possible(w, run)
    ensures Measure(After(w, run)) + |run| + Toll(w.shared.maxRetries, Revives(w)) <=
              Measure(w) + Sum(run, Price(w.shared.target, w.shared.maxRetries, |w.workers|))
                + Toll(w.shared.maxRetries, Revives(After(w, run)))
    decreases |run|
  {
    if run != [] {
      StepPays(w, run[0]);
      SameWorkers(w, run[0]);
      StepGrounded(w, run[0]);
      StepExtends(w, run[0]);
      RunPays(Step(w, run[0]), run[1..]);
    }
  }

  /** Every run is finite in what it was asked to do: its length is bounded by its submits, its shutdowns and the
      revives it entered. */
  lemma RunsAreBounded(target: nat, maxRetries: nat, workers: nat, run: seq<Action>)
    requires Possible(Start(target, maxRetries, workers), run)
    ensures |run| <= Sum(run, Price(target, maxRetries, workers))
                     + (11 + 9 * maxRetries) * Revives(After(Start(target, maxRetries, workers), run))
  {
    var w := Start(target, maxRetries, workers);
    RunPays(w, run);
    forall x | x in w.workers ensures OfWorker(maxRetries)(x) == 0 {
    }
    SumZero(w.workers, OfWorker(maxRetries));
    assert Revives(w) == 0 && Measure(w) == 0;
    TollIsLinear(maxRetries, Revives(After(w, run)));
  }
}
