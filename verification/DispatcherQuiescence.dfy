/** Where runs that are given nothing more to do come to rest. */
module DispatcherQuiescence {
  import opened Wrappers
  import opened Tally
  import opened DispatcherState
  import opened DispatcherProtocol
  import opened DispatcherInvariant
  import opened DispatcherIndex
  import opened DispatcherRuns

  predicate ComesFromShutdown(e: Entry, closed: bool) {
    e.job.None? ==> closed
  }

  /** Sentinels, stopped workers and shutting threads all come from a shutdown. */
  predicate Dismissed(w: World) {
    && (forall i :: 0 <= i < |w.shared.queue| ==> ComesFromShutdown(w.shared.queue[i], w.shared.closed))
    && (forall t :: 0 <= t < |w.workers| ==> (w.workers[t].Stopped? ==> w.shared.closed))
    && (w.closers != [] ==> w.shared.closed)
  }

  lemma SubmitDismissed(w: World, prompt: int, scene: SceneId)
    requires Grounded(w) && Dismissed(w)
    ensures Dismissed(Step(w, Submit(prompt, scene)))
  {
    var c := w.shared;
    if !c.closed && prompt !in c.active {
      PutFreshShape(c.(states := c.states + [Payload(prompt, c.maxRetries, [], false, false, [])],
                       active := c.active[prompt := |c.states|]), |c.states|, scene, c.target);
      var queue := Step(w, Submit(prompt, scene)).shared.queue;
      assert forall i :: 0 <= i < |c.queue| ==> queue[..|c.queue|][i] == c.queue[i];
    }
  }

  lemma FetchDismissed(w: World, t: nat)
    requires Grounded(w) && Dismissed(w) && Enabled(w, Fetch(t))
    ensures Dismissed(Step(w, Fetch(t)))
  {
    hide Head;
    assert ComesFromShutdown(w.shared.queue[Head(w.shared.queue)], w.shared.closed);
  }

  lemma FailDismissed(w: World, t: nat)
    requires Grounded(w) && Dismissed(w) && Enabled(w, Fail(t))
    ensures Dismissed(Step(w, Fail(t)))
  {
  }

  lemma CloseDismissed(w: World, k: nat)
    requires Grounded(w) && Dismissed(w) && Enabled(w, Close(k))
    ensures Dismissed(Step(w, Close(k)))
  {
    hide Head;
  }

  lemma StepDismissed(w: World, a: Action)
    requires Grounded(w) && Dismissed(w) && Enabled(w, a)
    ensures Dismissed(Step(w, a))
  {
    match a {
      case Submit(prompt, scene) => SubmitDismissed(w, prompt, scene);
      case Fetch(t) => FetchDismissed(w, t);
      case Fail(t) => FailDismissed(w, t);
      case Close(k) => CloseDismissed(w, k);
      case _ =>
    }
  }

  lemma {:induction false} RunDismissed(w: World, run: seq<Action>)
    requires Grounded(w) && Possible(w, run) && Dismissed(w)
    ensures Dismissed(After(w, run))
    decreases |run|
  {
    if run != [] {
      StepGrounded(w, run[0]);
      StepDismissed(w, run[0]);
      RunDismissed(Step(w, run[0]), run[1..]);
    }
  }

  lemma ReachableDismissed(w: World)
    requires Reachable(w)
    ensures Dismissed(w)
  {
    var workers: nat, run :| Possible(Start(w.shared.target, w.shared.maxRetries, workers), run) &&
                             w == After(Start(w.shared.target, w.shared.maxRetries, workers), run);
    RunDismissed(Start(w.shared.target, w.shared.maxRetries, workers), run);
  }

  /** No thread can move: only a new submit or a new shutdown could. */
  ghost predicate Quiet(w: World) {
    forall a: Action :: Enabled(w, a) ==> a.Submit? || a.Shutdown?
  }

  lemma QuietThreads(w: World)
    requires Quiet(w)
    ensures forall t: nat :: t < |w.workers| ==>
                               w.workers[t].Stopped? || (w.workers[t].Waiting? && w.shared.queue == [])
    ensures forall k: nat :: k < |w.closers| ==> w.closers[k] == Releasing([])
  {
    forall t: nat | t < |w.workers|
      ensures w.workers[t].Stopped? || (w.workers[t].Waiting? && w.shared.queue == [])
    {
      assert !Enabled(w, Fetch(t)) && !Enabled(w, Check(t)) && !Enabled(w, SimulateOk(t)) && !Enabled(w, Succeed(t));
      assert !Enabled(w, Resolve(t)) && !Enabled(w, Decide(t, None)) && !Enabled(w, Revive(t));
    }
    forall k: nat | k < |w.closers|
      ensures w.closers[k] == Releasing([])
    {
      assert !Enabled(w, Close(k));
    }
  }

  lemma QuietCounts(w: World, id: nat)
    requires Quiet(w)
    ensures CountsOf(w, id).carried == 0 && CountsOf(w, id).held == 0 && CountsOf(w, id).owed == 0
  {
    QuietThreads(w);
    forall x | x in w.workers
      ensures Carries(id)(x) == 0 && Holds(id)(x) == 0
    {
      var t :| 0 <= t < |w.workers| && w.workers[t] == x;
    }
    SumZero(w.workers, Carries(id));
    SumZero(w.workers, Holds(id));
    SumZero(w.closers, Owes(id));
  }

  /** Whenever all threads have come to rest, every payload no revive has touched has had its future resolved. Every run
      without further submits, shutdowns and revives does come to rest, by the bound on its length. */
  lemma RestMeansDelivered(w: World, id: nat)
    requires Reachable(w) && w.workers != [] && id < |w.shared.states| && |w.ledger| == |w.shared.states|
    ensures Quiet(w) && Untouched(w, id) ==> |w.shared.states[id].delivered| == 1
  {
    if Quiet(w) && Untouched(w, id) {
      hide CountsOf, Untouched;
      ReachableInv(w);
      ReachableDismissed(w);
      QuietThreads(w);
      QuietCounts(w, id);
      assert CellInv(w, id);
      if w.workers[0].Stopped? {
        ClosedPayload(w, id);
      } else {
        EmptyQueue(w, id);
        IdleMeansResolved(w, id);
      }
    }
  }

  lemma EmptyQueue(w: World, id: nat)
    requires w.shared.queue == []
    ensures CountsOf(w, id).queued == 0
  {
  }

  // ---------- shutdown dismisses every worker ----------

  function IsSentinel(): Entry -> nat {
    (e: Entry) => if e.job.None? then 1 else 0
  }

  function IsStopped(): Worker -> nat {
    (x: Worker) => if x.Stopped? then 1 else 0
  }

  function StillPosts(): Closer -> nat {
    (x: Closer) => if x.Posting? then x.left else 0
  }

  predicate IsDraining(x: Closer) {
    x.Draining?
  }

  /** Unless some shutdown still drains the queue, there is a sentinel for every worker: taken, queued or to be
      posted. */
  predicate Dismissing(w: World) {
    w.shared.closed ==>
      || (exists k :: 0 <= k < |w.closers| && IsDraining(w.closers[k]))
      || Sum(w.shared.queue, IsSentinel()) + Sum(w.workers, IsStopped()) + Sum(w.closers, StillPosts()) >= |w.workers|
  }

  lemma {:induction false} PutFreshSentinels(c: Shared, payload: nat, scene: SceneId, count: nat)
    ensures Sum(PutFresh(c, payload, scene, count).queue, IsSentinel()) == Sum(c.queue, IsSentinel())
  {
    if count > 0 {
      PutFreshSentinels(c, payload, scene, count - 1);
      var before := PutFresh(c, payload, scene, count - 1);
      SumAppend(before.queue, Entry(FRESH, before.nextOrder, Some(Job(payload, before.nextSession, scene, 0, false))),
                IsSentinel());
    }
  }

  /** A step of a worker or a submitter takes no sentinel away but to stop on it. */
  lemma WorkerDismissing(w: World, a: Action)
    requires Grounded(w) && Enabled(w, a) && Dismissing(w) && !a.Shutdown? && !a.Close? && !a.Submit?
    ensures Dismissing(Step(w, a))
  {
    hide Sum, Head;
    var w' := Step(w, a);
    SumUpdate(w.workers, a.t, w'.workers[a.t], IsStopped());
    match a {
      case Fetch(t) => SumRemove(w.shared.queue, Head(w.shared.queue), IsSentinel());
      case Fail(t) => FailSentinels(w, t);
      case Revive(t) => ReviveSentinels(w, t);
      case _ =>
    }
  }

  lemma FailSentinels(w: World, t: nat)
    requires Grounded(w) && Enabled(w, Fail(t))
    ensures Sum(StepFail(w, t).shared.queue, IsSentinel()) == Sum(w.shared.queue, IsSentinel())
    ensures StepFail(w, t).closers == w.closers && StepFail(w, t).shared.closed == w.shared.closed
    ensures !StepFail(w, t).workers[t].Stopped? && StepFail(w, t).workers == w.workers[t := StepFail(w, t).workers[t]]
  {
    var job := w.workers[t].job;
    var retry := Job(job.payload, w.shared.nextSession, job.scene, job.attempts + 1, false);
    SumAppend(w.shared.queue, Entry(RETRY, w.shared.nextOrder, Some(retry)), IsSentinel());
  }

  lemma ReviveSentinels(w: World, t: nat)
    requires Grounded(w) && Enabled(w, Revive(t))
    ensures Sum(StepRevive(w, t).shared.queue, IsSentinel()) == Sum(w.shared.queue, IsSentinel())
  {
    if w.workers[t].Requeueing? {
      SumAppend(w.shared.queue, StepRevive(w, t).shared.queue[|w.shared.queue|], IsSentinel());
    }
  }

  lemma CloserDismissing(w: World, k: nat)
    requires Grounded(w) && Enabled(w, Close(k)) && Dismissing(w) && w.shared.closed
    ensures Dismissing(Step(w, Close(k)))
  {
    hide Sum, Head;
    var w' := StepClose(w, k);
    SumUpdate(w.closers, k, w'.closers[k], StillPosts());
    SumAppend(w.shared.queue, Entry(SENTINEL, w.shared.nextOrder, None), IsSentinel());
    if w.closers[k].Draining? && w.shared.queue != [] {
      assert IsDraining(w'.closers[k]);
    } else if w.closers[k].Draining? {
      SumAtLeast(w'.closers, k, StillPosts());
    } else if exists l :: 0 <= l < |w.closers| && IsDraining(w.closers[l]) {
      var l :| 0 <= l < |w.closers| && IsDraining(w.closers[l]);
      assert IsDraining(w'.closers[l]);
    }
  }

  lemma StepDismissing(w: World, a: Action)
    requires Grounded(w) && Enabled(w, a) && Dismissing(w) && Dismissed(w)
    ensures Dismissing(Step(w, a))
  {
    hide Sum, Head, Unresolved;
    match a {
      case Submit(prompt, scene) => SubmitDismissing(w, prompt, scene);
      case Shutdown => assert IsDraining(Step(w, a).closers[|w.closers|]);
      case Close(k) => CloserDismissing(w, k);
      case _ => WorkerDismissing(w, a);
    }
  }

  lemma SubmitDismissing(w: World, prompt: int, scene: SceneId)
    requires Grounded(w) && Dismissing(w)
    ensures Dismissing(Step(w, Submit(prompt, scene)))
  {
    hide Sum;
    var c := w.shared;
    if !c.closed && prompt !in c.active {
      PutFreshShape(c.(states := c.states + [Payload(prompt, c.maxRetries, [], false, false, [])],
                       active := c.active[prompt := |c.states|]), |c.states|, scene, c.target);
    }
  }

  lemma {:induction false} RunDismissing(w: World, run: seq<Action>)
    requires Grounded(w) && Possible(w, run) && Dismissing(w) && Dismissed(w)
    ensures Dismissing(After(w, run))
    decreases |run|
  {
    hide Dismissing, Dismissed, Step, Enabled;
    if run != [] {
      StepGrounded(w, run[0]);
      StepDismissing(w, run[0]);
      StepDismissed(w, run[0]);
      RunDismissing(Step(w, run[0]), run[1..]);
    }
  }

  lemma {:induction false} AllStopped(workers: seq<Worker>)
    ensures Sum(workers, IsStopped()) <= |workers|
    ensures Sum(workers, IsStopped()) == |workers| ==> forall t :: 0 <= t < |workers| ==> workers[t].Stopped?
  {
    if workers != [] {
      AllStopped(workers[1..]);
      assert forall t :: 1 <= t < |workers| ==> workers[t] == workers[1..][t - 1];
    }
  }

  /** Once shut down, threads come to rest only with every worker dismissed, however many shutdowns overlap. */
  lemma RestMeansDismissed(w: World)
    requires Reachable(w) && Quiet(w) && w.shared.closed
    ensures forall t :: 0 <= t < |w.workers| ==> w.workers[t].Stopped?
  {
    var workers: nat, run :| Possible(Start(w.shared.target, w.shared.maxRetries, workers), run) &&
                             w == After(Start(w.shared.target, w.shared.maxRetries, workers), run);
    RunDismissing(Start(w.shared.target, w.shared.maxRetries, workers), run);
    QuietThreads(w);
    SumZero(w.closers, StillPosts());
    AllStopped(w.workers);
    forall t | 0 <= t < |w.workers|
      ensures w.workers[t].Stopped?
    {
      assert w.workers[t].Stopped? || w.shared.queue == [];
    }
  }
}
