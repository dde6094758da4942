/** What the fallback mark does hold back: each job that is no fallback itself can be revived once. */
module DispatcherFallback {
  import opened Wrappers
  import opened Tally
  import opened DispatcherState
  import opened DispatcherProtocol
  import opened DispatcherInvariant
  import opened DispatcherIndex
  import opened DispatcherRuns
  import opened DispatcherBudget

  function PlainQueued(id: nat): Entry -> nat {
    (e: Entry) => if e.job.Some? && e.job.value.payload == id && !e.job.value.isFallback then 1 else 0
  }

  /** A worker with a job of the payload that a drop could still revive. */
  function PlainCarried(id: nat): Worker -> nat {
    (x: Worker) =>
      var carries := x.Fetched? || x.Simulating? || x.Landed? || x.Dropping?;
      if carries && x.job.payload == id && !x.job.isFallback then 1 else 0
  }

  /** Revives use up jobs that are no fallback, and only retries make new ones. */
  predicate PlainInv(w: World, id: nat)
    requires id < |w.ledger|
  {
    Sum(w.shared.queue, PlainQueued(id)) + Sum(w.workers, PlainCarried(id)) + w.ledger[id].revives
      <= w.shared.target + w.ledger[id].retries
  }

  lemma {:induction false} PutFreshPlain(c: Shared, payload: nat, scene: SceneId, count: nat, id: nat)
    ensures Sum(PutFresh(c, payload, scene, count).queue, PlainQueued(id))
            == Sum(c.queue, PlainQueued(id)) + if id == payload then count else 0
  {
    if count > 0 {
      PutFreshPlain(c, payload, scene, count - 1, id);
      var before := PutFresh(c, payload, scene, count - 1);
      SumAppend(before.queue, Entry(FRESH, before.nextOrder, Some(Job(payload, before.nextSession, scene, 0, false))),
                PlainQueued(id));
    }
  }

  lemma NoneQueued(queue: seq<Entry>, id: nat)
    requires forall i :: 0 <= i < |queue| ==> GroundedEntry(queue[i], id)
    ensures Sum(queue, PlainQueued(id)) == 0
  {
    forall e | e in queue
      ensures PlainQueued(id)(e) == 0
    {
      var i :| 0 <= i < |queue| && queue[i] == e;
      assert GroundedEntry(queue[i], id);
    }
    SumZero(queue, PlainQueued(id));
  }

  lemma NoneCarried(workers: seq<Worker>, id: nat)
    requires forall t :: 0 <= t < |workers| ==> GroundedWorker(workers[t], id)
    ensures Sum(workers, PlainCarried(id)) == 0
  {
    forall x | x in workers
      ensures PlainCarried(id)(x) == 0
    {
      var t :| 0 <= t < |workers| && workers[t] == x;
      assert GroundedWorker(workers[t], id);
    }
    SumZero(workers, PlainCarried(id));
  }

  lemma SubmitPlain(w: World, prompt: int, scene: SceneId, id: nat)
    requires Grounded(w) && (id < |w.ledger| ==> PlainInv(w, id))
    ensures Grounded(Step(w, Submit(prompt, scene)))
    ensures id < |Step(w, Submit(prompt, scene)).ledger| ==> PlainInv(Step(w, Submit(prompt, scene)), id)
  {
    hide Sum;
    StepGrounded(w, Submit(prompt, scene));
    var c := w.shared;
    if !c.closed && prompt !in c.active {
      var grown := c.(states := c.states + [Payload(prompt, c.maxRetries, [], false, false, [])],
                      active := c.active[prompt := |c.states|]);
      PutFreshShape(grown, |c.states|, scene, c.target);
      PutFreshPlain(grown, |c.states|, scene, c.target, id);
      if id == |c.states| {
        NoneQueued(c.queue, id);
        NoneCarried(w.workers, id);
      }
    }
  }

  /** A worker's step, its effect on queue and ledger given. */
  lemma WorkerPlain(w: World, w': World, t: nat, id: nat)
    requires t < |w.workers| == |w'.workers| && w'.workers == w.workers[t := w'.workers[t]]
    requires id < |w.ledger| == |w'.ledger| && PlainInv(w, id) && w'.shared.target == w.shared.target
    requires Sum(w'.shared.queue, PlainQueued(id)) + PlainCarried(id)(w'.workers[t]) + w'.ledger[id].revives
               + w.ledger[id].retries
             <= Sum(w.shared.queue, PlainQueued(id)) + PlainCarried(id)(w.workers[t]) + w.ledger[id].revives
                + w'.ledger[id].retries
    ensures PlainInv(w', id)
  {
    hide Sum;
    SumUpdate(w.workers, t, w'.workers[t], PlainCarried(id));
  }

  lemma FetchPlain(w: World, t: nat, id: nat)
    requires Grounded(w) && Enabled(w, Fetch(t)) && id < |w.ledger| && PlainInv(w, id)
    ensures id < |Step(w, Fetch(t)).ledger| && PlainInv(Step(w, Fetch(t)), id)
  {
    hide Sum, Head;
    SumRemove(w.shared.queue, Head(w.shared.queue), PlainQueued(id));
    WorkerPlain(w, Step(w, Fetch(t)), t, id);
  }

  lemma FailPlain(w: World, t: nat, id: nat)
    requires Grounded(w) && Enabled(w, Fail(t)) && id < |w.ledger| && PlainInv(w, id)
    ensures id < |Step(w, Fail(t)).ledger| && PlainInv(Step(w, Fail(t)), id)
  {
    hide Sum;
    var job := w.workers[t].job;
    var retry := Job(job.payload, w.shared.nextSession, job.scene, job.attempts + 1, false);
    SumAppend(w.shared.queue, Entry(RETRY, w.shared.nextOrder, Some(retry)), PlainQueued(id));
    WorkerPlain(w, Step(w, Fail(t)), t, id);
  }

  lemma RevivePlain(w: World, t: nat, id: nat)
    requires Grounded(w) && Enabled(w, Revive(t)) && id < |w.ledger| && PlainInv(w, id)
    ensures id < |Step(w, Revive(t)).ledger| && PlainInv(Step(w, Revive(t)), id)
  {
    hide Sum;
    var x, c := w.workers[t], w.shared;
    SumAppend(c.queue, Entry(RETRY, c.nextOrder, Some(Job(x.job.payload, c.nextSession, x.scene, 0, true))),
              PlainQueued(id));
    WorkerPlain(w, Step(w, Revive(t)), t, id);
  }

  lemma ClosePlain(w: World, k: nat, id: nat)
    requires Grounded(w) && Enabled(w, Close(k)) && id < |w.ledger| && PlainInv(w, id)
    ensures id < |Step(w, Close(k)).ledger| && PlainInv(Step(w, Close(k)), id)
  {
    hide Sum, Head;
    match w.closers[k] {
      case Draining(_) =>
        if w.shared.queue != [] {
          SumRemove(w.shared.queue, Head(w.shared.queue), PlainQueued(id));
        }
      case Posting(_, _) => SumAppend(w.shared.queue, Entry(SENTINEL, w.shared.nextOrder, None), PlainQueued(id));
      case Releasing(_) =>
    }
  }

  lemma StepPlain(w: World, a: Action, id: nat)
    requires Grounded(w) && Enabled(w, a) && (id < |w.ledger| ==> PlainInv(w, id))
    ensures id < |Step(w, a).ledger| ==> PlainInv(Step(w, a), id)
  {
    hide Sum;
    if a.Submit? {
      SubmitPlain(w, a.prompt, a.scene, id);
    } else if id < |w.ledger| {
      match a {
        case Fetch(t) => FetchPlain(w, t, id);
        case Fail(t) => FailPlain(w, t, id);
        case Revive(t) => RevivePlain(w, t, id);
        case Close(k) => ClosePlain(w, k, id);
        case Shutdown =>
        case Check(t) => WorkerPlain(w, Step(w, a), t, id);
        case SimulateOk(t) => WorkerPlain(w, Step(w, a), t, id);
        case Succeed(t) => WorkerPlain(w, Step(w, a), t, id);
        case Resolve(t) => WorkerPlain(w, Step(w, a), t, id);
        case Decide(t, _) => WorkerPlain(w, Step(w, a), t, id);
      }
    } else {
      StepExtends(w, a);
      SameStates(w, a);
    }
  }

  lemma SameStates(w: World, a: Action)
    requires Grounded(w) && Enabled(w, a) && !a.Submit?
    ensures |Step(w, a).ledger| == |w.ledger|
  {
  }

  lemma {:induction false} RunPlain(w: World, run: seq<Action>, id: nat)
    requires Grounded(w) && Possible(w, run) && (id < |w.ledger| ==> PlainInv(w, id))
    ensures id < |After(w, run).ledger| ==> PlainInv(After(w, run), id)
    decreases |run|
  {
    if run != [] {
      hide PlainInv, Step;
      StepGrounded(w, run[0]);
      StepPlain(w, run[0], id);
      RunPlain(Step(w, run[0]), run[1..], id);
    }
  }

  /** A payload is revived at most once for each of its jobs and retries. */
  lemma RevivesWithinJobs(w: World, id: nat)
    requires Reachable(w) && id < |w.ledger|
    ensures w.ledger[id].revives <= w.shared.target + w.ledger[id].retries
  {
    var workers: nat, run :| Possible(Start(w.shared.target, w.shared.maxRetries, workers), run) &&
                             w == After(Start(w.shared.target, w.shared.maxRetries, workers), run);
    RunPlain(Start(w.shared.target, w.shared.maxRetries, workers), run, id);
  }

  /** Without a retry budget there are no retries, so calls stay within twice the target. */
  lemma CallsWithoutRetries(w: World, id: nat)
    requires Reachable(w) && id < |w.ledger| && w.shared.maxRetries == 0
    ensures w.ledger[id].calls <= 2 * w.shared.target
  {
    ReachableInv(w);
    assert CellInv(w, id);
    assert w.ledger[id].granted == 0;
    RevivesWithinJobs(w, id);
    CallsWithinBudget(w, id);
  }

  lemma {:induction false} RunTerms(w: World, run: seq<Action>)
    requires Grounded(w) && Possible(w, run)
    ensures SameTerms(w, After(w, run))
    decreases |run|
  {
    if run != [] {
      StepGrounded(w, run[0]);
      StepExtends(w, run[0]);
      RunTerms(Step(w, run[0]), run[1..]);
    }
  }

  lemma LedIsReachable(target: nat, maxRetries: nat, workers: nat, w: World)
    requires target > 0 && Led(target, maxRetries, workers, w)
    ensures Reachable(w) && w.shared.target == target && w.shared.maxRetries == maxRetries
  {
    var run :| OneSubmit(run) && Possible(Start(target, maxRetries, workers), run)
               && w == After(Start(target, maxRetries, workers), run);
    RunTerms(Start(target, maxRetries, workers), run);
  }

  ghost predicate CallsBounded(target: nat, maxRetries: nat, workers: nat, bound: nat) {
    forall w: World, id: nat :: Led(target, maxRetries, workers, w) && id < |w.ledger| ==> w.ledger[id].calls <= bound
  }

  /** The simulate calls a single submit can cause are bounded exactly when the configuration allows no retries. */
  lemma CallsBoundedIff(target: nat, maxRetries: nat, workers: nat)
    requires target > 0 && workers > 0
    ensures (exists bound: nat :: CallsBounded(target, maxRetries, workers, bound)) <==> maxRetries == 0
  {
    if maxRetries == 0 {
      forall w: World, id: nat | Led(target, maxRetries, workers, w) && id < |w.ledger|
        ensures w.ledger[id].calls <= 2 * target
      {
        LedIsReachable(target, maxRetries, workers, w);
        CallsWithoutRetries(w, id);
      }
      assert CallsBounded(target, maxRetries, workers, 2 * target);
    } else {
      forall bound: nat
        ensures !CallsBounded(target, maxRetries, workers, bound)
      {
        RevivesAreUnbounded(target, maxRetries, workers, bound);
      }
    }
  }
}
