/** How far the revive branch stretches the retry budget: runs of one payload in which worker 0 does everything. */
module DispatcherBudget {
  import opened Wrappers
  import opened DispatcherState
  import opened DispatcherProtocol
  import opened DispatcherIndex
  import opened DispatcherRuns

  // ---------- worlds with one payload ----------

  /** One payload, not given up, with `left` retries; worker 0 is at `x`. */
  predicate Solo(w: World, x: Worker, left: int) {
    && Grounded(w) && |w.shared.states| == 1 && |w.workers| > 0 && w.workers[0] == x
    && !w.shared.states[0].permanentlyFailed && !w.shared.states[0].futureResolved
    && w.shared.states[0].retriesLeft == left
  }

  predicate IsFresh(e: Entry) {
    e.priority == FRESH && e.job.Some? && !e.job.value.isFallback
  }

  predicate AllFresh(queue: seq<Entry>) {
    forall i :: 0 <= i < |queue| ==> IsFresh(queue[i])
  }

  /** Fresh jobs, of which a retry or a fallback job may stand last. */
  predicate Shaped(queue: seq<Entry>) {
    && queue != [] && AllFresh(queue[..|queue| - 1])
    && (IsFresh(queue[|queue| - 1]) || (queue[|queue| - 1].priority == RETRY && queue[|queue| - 1].job.Some?))
  }

  predicate NoFallback(queue: seq<Entry>) {
    forall i :: 0 <= i < |queue| ==> queue[i].job.Some? && !queue[i].job.value.isFallback
  }

  /** Serving a shaped queue leaves fresh jobs only. */
  lemma ServeShaped(c: Shared)
    requires Shaped(c.queue)
    ensures (var (c', e) := Pop(c);
             && AllFresh(c'.queue) && |c'.queue| == |c.queue| - 1 && e.job.Some?
             && (NoFallback(c.queue) ==> !e.job.value.isFallback))
  {
    var i, last := Head(c.queue), |c.queue| - 1;
    assert forall j :: 0 <= j < last ==> IsFresh(c.queue[..last][j]);
    assert !Before(c.queue[last], c.queue[i]);
    hide Head;
  }

  lemma FreshIsShaped(queue: seq<Entry>)
    requires AllFresh(queue) && queue != []
    ensures Shaped(queue) && NoFallback(queue)
  {
    assert forall i :: 0 <= i < |queue| ==> IsFresh(queue[i]);
  }

  lemma ShapedAgain(queue: seq<Entry>, e: Entry)
    requires AllFresh(queue) && e.priority == RETRY && e.job.Some?
    ensures Shaped(queue + [e]) && (!e.job.value.isFallback ==> NoFallback(queue + [e]))
  {
    assert (queue + [e])[..|queue|] == queue;
    assert forall i :: 0 <= i < |queue| ==> IsFresh(queue[i]);
  }

  // ---------- what worker 0 does ----------

  lemma TakeJob(w: World, left: int) returns (job: Job)
    requires Solo(w, Waiting, left) && Shaped(w.shared.queue)
    ensures Enabled(w, Fetch(0))
    ensures (var w' := Step(w, Fetch(0));
             && Solo(w', Fetched(job), left) && AllFresh(w'.shared.queue) && |w'.shared.queue| == |w.shared.queue| - 1
             && w'.ledger == w.ledger && w'.shared.states == w.shared.states
             && w'.shared.maxRetries == w.shared.maxRetries && w'.shared.target == w.shared.target)
    ensures NoFallback(w.shared.queue) ==> !job.isFallback
  {
    ServeShaped(w.shared);
    job := Pop(w.shared).1.job.value;
    StepGrounded(w, Fetch(0));
    hide Head, GroundedEntry, GroundedCloser;
  }

  lemma Call(w: World, left: int, job: Job)
    requires Solo(w, Fetched(job), left)
    ensures (var w' := Step(w, Check(0));
             && Enabled(w, Check(0)) && Solo(w', Simulating(job), left) && w'.shared == w.shared
             && w'.ledger == w.ledger[0 := w.ledger[0].(calls := w.ledger[0].calls + 1)])
  {
    StepGrounded(w, Check(0));
  }

  lemma Retry(w: World, left: int, job: Job)
    requires Solo(w, Simulating(job), left) && left > 0 && AllFresh(w.shared.queue)
    ensures (var w' := Step(w, Fail(0));
             && Enabled(w, Fail(0)) && Solo(w', Waiting, left - 1) && Shaped(w'.shared.queue)
             && NoFallback(w'.shared.queue) && |w'.shared.queue| == |w.shared.queue| + 1
             && w'.shared.states[0].collected == w.shared.states[0].collected
             && w'.ledger == w.ledger[0 := w.ledger[0].(retries := w.ledger[0].retries + 1)]
             && w'.shared.maxRetries == w.shared.maxRetries && w'.shared.target == w.shared.target)
  {
    var entry := Entry(RETRY, w.shared.nextOrder,
                       Some(Job(0, w.shared.nextSession, job.scene, job.attempts + 1, false)));
    StepGrounded(w, Fail(0));
    ShapedAgain(w.shared.queue, entry);
    assert Step(w, Fail(0)).shared.queue == w.shared.queue + [entry];
  }

  /** Beside the flags of a dropped payload, what `Solo` says. */
  predicate Alone(w: World, x: Worker) {
    Grounded(w) && |w.shared.states| == 1 && |w.workers| > 0 && w.workers[0] == x
  }

  predicate SameTerms(w: World, w': World) {
    w'.shared.maxRetries == w.shared.maxRetries && w'.shared.target == w.shared.target
  }

  lemma Drop(w: World, job: Job)
    requires Solo(w, Simulating(job), 0)
    ensures (var w' := Step(w, Fail(0));
             && Enabled(w, Fail(0)) && Alone(w', Dropping(job)) && SameTerms(w, w')
             && w'.shared.queue == w.shared.queue && w'.ledger == w.ledger
             && w'.shared.states[0].collected == w.shared.states[0].collected)
  {
    StepGrounded(w, Fail(0));
  }

  lemma PickScene(w: World, job: Job) returns (scene: SceneId)
    requires Alone(w, Dropping(job)) && !job.isFallback
    ensures (var w' := Step(w, Decide(0, Some("b")));
             && Alone(w', Reviving(job, scene)) && SameTerms(w, w')
             && w'.shared.queue == w.shared.queue && w'.shared.states == w.shared.states
             && w'.ledger[0].calls == w.ledger[0].calls && w'.ledger[0].revives == w.ledger[0].revives + 1)
  {
    scene := ChooseFallback(w.shared, Some("b")).1.value;
    StepGrounded(w, Decide(0, Some("b")));
  }

  /** One unlocked write of the revive branch. */
  lemma Write(w: World, x: Worker)
    requires Alone(w, x) && (x.Reviving? || x.Unresolving? || x.Rebudgeting?)
    ensures (var (w', s) := (Step(w, Revive(0)), w.shared.states[0]);
             && Alone(w', if x.Reviving? then Unresolving(x.job, x.scene)
                          else if x.Unresolving? then Rebudgeting(x.job, x.scene) else Requeueing(x.job, x.scene))
             && SameTerms(w, w') && w'.shared.queue == w.shared.queue && w'.ledger == w.ledger
             && w'.shared.states[0] == if x.Reviving? then s.(permanentlyFailed := false)
                                       else if x.Unresolving? then s.(futureResolved := false)
                                       else s.(retriesLeft := w.shared.maxRetries))
  {
    StepGrounded(w, Revive(0));
  }

  lemma Requeue(w: World, job: Job, scene: SceneId)
    requires Alone(w, Requeueing(job, scene)) && job.payload == 0 && AllFresh(w.shared.queue)
    ensures (var w' := Step(w, Revive(0));
             && Alone(w', Waiting) && SameTerms(w, w') && w'.shared.states == w.shared.states && w'.ledger == w.ledger
             && Shaped(w'.shared.queue) && |w'.shared.queue| == |w.shared.queue| + 1)
  {
    var entry := Entry(RETRY, w.shared.nextOrder, Some(Job(0, w.shared.nextSession, scene, 0, true)));
    StepGrounded(w, Revive(0));
    ShapedAgain(w.shared.queue, entry);
    assert Step(w, Revive(0)).shared.queue == w.shared.queue + [entry];
  }

  lemma Land(w: World, left: int, job: Job)
    requires Solo(w, Simulating(job), left)
    ensures (var w' := Step(w, SimulateOk(0));
             && Solo(w', Landed(job, Episode(job.scene, job.session)), left) && SameTerms(w, w')
             && w'.shared.queue == w.shared.queue && w'.ledger == w.ledger && w'.shared.states == w.shared.states)
  {
    StepGrounded(w, SimulateOk(0));
  }

  lemma Collect(w: World, left: int, job: Job, episode: Episode)
    requires Solo(w, Landed(job, episode), left) && |w.shared.states[0].collected| + 1 < w.shared.target
    ensures (var w' := Step(w, Succeed(0));
             && Solo(w', Waiting, left) && SameTerms(w, w')
             && w'.shared.queue == w.shared.queue && w'.ledger == w.ledger
             && |w'.shared.states[0].collected| == |w.shared.states[0].collected| + 1)
  {
    StepGrounded(w, Succeed(0));
  }

  // ---------- runs with a single submit ----------

  predicate OneSubmit(run: seq<Action>) {
    run != [] && run[0].Submit? && forall i :: 1 <= i < |run| ==> !run[i].Submit? && !run[i].Shutdown?
  }

  /** Some run of a fresh worker that submits once, and never shuts down, leads to `w`. */
  ghost predicate Led(target: nat, maxRetries: nat, workers: nat, w: World) {
    exists run :: OneSubmit(run) && Possible(Start(target, maxRetries, workers), run)
                  && w == After(Start(target, maxRetries, workers), run)
  }

  lemma LedStep(target: nat, maxRetries: nat, workers: nat, w: World, a: Action)
    requires Led(target, maxRetries, workers, w) && Grounded(w) && Enabled(w, a) && !a.Submit? && !a.Shutdown?
    ensures Grounded(Step(w, a)) && Led(target, maxRetries, workers, Step(w, a))
  {
    var run :| OneSubmit(run) && Possible(Start(target, maxRetries, workers), run)
               && w == After(Start(target, maxRetries, workers), run);
    RunThen(Start(target, maxRetries, workers), run, a);
    assert OneSubmit(run + [a]);
    StepGrounded(w, a);
  }

  /** One payload with all its jobs queued, worker 0 waiting, after `calls` calls and `revives` revives. */
  ghost predicate Poised(target: nat, maxRetries: nat, workers: nat, w: World, left: int, calls: nat, revives: nat,
                         collected: nat)
  {
    && Led(target, maxRetries, workers, w) && Solo(w, Waiting, left) && Shaped(w.shared.queue)
    && w.shared.target == target && w.shared.maxRetries == maxRetries
    && |w.shared.queue| + collected == target && |w.shared.states[0].collected| == collected
    && |w.ledger| == 1 && w.ledger[0].calls == calls && w.ledger[0].revives == revives
  }

  lemma {:induction false} FreshQueue(c: Shared, payload: nat, scene: SceneId, count: nat)
    requires AllFresh(c.queue)
    ensures AllFresh(PutFresh(c, payload, scene, count).queue)
    ensures |PutFresh(c, payload, scene, count).queue| == |c.queue| + count
  {
    if count > 0 {
      FreshQueue(c, payload, scene, count - 1);
    }
  }

  lemma Begin(target: nat, maxRetries: nat, workers: nat) returns (w: World)
    requires target > 0 && workers > 0
    ensures Poised(target, maxRetries, workers, w, maxRetries, 0, 0, 0) && NoFallback(w.shared.queue)
  {
    var start := Start(target, maxRetries, workers);
    var a := Submit(7, "a");
    StepGrounded(start, a);
    w := Step(start, a);
    assert Possible(w, []) && After(w, []) == w;
    assert Possible(start, [a]) && After(start, [a]) == w && OneSubmit([a]);
    var grown := start.shared.(states := start.shared.states + [Payload(7, maxRetries, [], false, false, [])],
                               active := start.shared.active[7 := 0]);
    PutFreshShape(grown, 0, "a", target);
    FreshQueue(grown, 0, "a", target);
    FreshIsShaped(w.shared.queue);
  }

  /** Serve one job up to its call. */
  lemma CallNext(target: nat, maxRetries: nat, workers: nat, w: World, left: int, calls: nat, revives: nat,
                 collected: nat) returns (w': World, job: Job)
    requires Poised(target, maxRetries, workers, w, left, calls, revives, collected)
    ensures Led(target, maxRetries, workers, w') && Solo(w', Simulating(job), left) && AllFresh(w'.shared.queue)
    ensures SameTerms(w, w') && |w'.shared.queue| == |w.shared.queue| - 1
    ensures w'.shared.states == w.shared.states && |w'.ledger| == 1
    ensures w'.ledger[0].calls == calls + 1 && w'.ledger[0].revives == revives
    ensures NoFallback(w.shared.queue) ==> !job.isFallback
    ensures job.payload == 0
  {
    hide Led, Step, Shaped;
    job := TakeJob(w, left);
    LedStep(target, maxRetries, workers, w, Fetch(0));
    var w1 := Step(w, Fetch(0));
    Call(w1, left, job);
    LedStep(target, maxRetries, workers, w1, Check(0));
    w' := Step(w1, Check(0));
  }

  /** A failure while retries are left costs one. */
  lemma FailOnce(target: nat, maxRetries: nat, workers: nat, w: World, left: nat, calls: nat, revives: nat)
    returns (w': World)
    requires Poised(target, maxRetries, workers, w, left, calls, revives, 0) && left > 0
    ensures Poised(target, maxRetries, workers, w', left - 1, calls + 1, revives, 0) && NoFallback(w'.shared.queue)
  {
    hide Led, Step, Shaped, NoFallback;
    var w1, job := CallNext(target, maxRetries, workers, w, left, calls, revives, 0);
    Retry(w1, left, job);
    LedStep(target, maxRetries, workers, w1, Fail(0));
    w' := Step(w1, Fail(0));
  }

  /** The failure after the last retry revives the payload, unless its job was a fallback itself. */
  lemma FailAndRevive(target: nat, maxRetries: nat, workers: nat, w: World, calls: nat, revives: nat)
    returns (w': World)
    requires Poised(target, maxRetries, workers, w, 0, calls, revives, 0) && NoFallback(w.shared.queue)
    ensures Poised(target, maxRetries, workers, w', maxRetries, calls + 1, revives + 1, 0)
  {
    hide Led, Step, Shaped, NoFallback;
    var w1, job := CallNext(target, maxRetries, workers, w, 0, calls, revives, 0);
    Drop(w1, job);
    LedStep(target, maxRetries, workers, w1, Fail(0));
    var w2 := Step(w1, Fail(0));
    var scene := PickScene(w2, job);
    LedStep(target, maxRetries, workers, w2, Decide(0, Some("b")));
    w' := ReviveHere(target, maxRetries, workers, Step(w2, Decide(0, Some("b"))), job, scene);
  }

  lemma ReviveHere(target: nat, maxRetries: nat, workers: nat, w: World, job: Job, scene: SceneId)
    returns (w': World)
    requires Led(target, maxRetries, workers, w) && Alone(w, Reviving(job, scene)) && job.payload == 0
    requires AllFresh(w.shared.queue)
    ensures Led(target, maxRetries, workers, w') && Solo(w', Waiting, w.shared.maxRetries) && Shaped(w'.shared.queue)
    ensures SameTerms(w, w') && |w'.shared.queue| == |w.shared.queue| + 1 && w'.ledger == w.ledger
    ensures w'.shared.states[0].collected == w.shared.states[0].collected
  {
    hide Led, Step, Shaped;
    Write(w, Reviving(job, scene));
    LedStep(target, maxRetries, workers, w, Revive(0));
    var w1 := Step(w, Revive(0));
    Write(w1, Unresolving(job, scene));
    LedStep(target, maxRetries, workers, w1, Revive(0));
    var w2 := Step(w1, Revive(0));
    Write(w2, Rebudgeting(job, scene));
    LedStep(target, maxRetries, workers, w2, Revive(0));
    var w3 := Step(w2, Revive(0));
    Requeue(w3, job, scene);
    LedStep(target, maxRetries, workers, w3, Revive(0));
    w' := Step(w3, Revive(0));
  }

  /** A success short of the last. */
  lemma SucceedOnce(target: nat, maxRetries: nat, workers: nat, w: World, left: int, calls: nat, revives: nat,
                    collected: nat) returns (w': World)
    requires Poised(target, maxRetries, workers, w, left, calls, revives, collected) && collected + 1 < target
    ensures Poised(target, maxRetries, workers, w', left, calls + 1, revives, collected + 1)
  {
    hide Led, Step, Shaped, NoFallback;
    var w1, job := CallNext(target, maxRetries, workers, w, left, calls, revives, collected);
    Land(w1, left, job);
    LedStep(target, maxRetries, workers, w1, SimulateOk(0));
    var w2 := Step(w1, SimulateOk(0));
    Collect(w2, left, job, Episode(job.scene, job.session));
    LedStep(target, maxRetries, workers, w2, Succeed(0));
    w' := Step(w2, Succeed(0));
    FreshIsShaped(w'.shared.queue);
  }

  // ---------- the theorems ----------

  lemma {:induction false} FailMany(target: nat, maxRetries: nat, workers: nat, n: nat) returns (w: World)
    requires target > 0 && workers > 0 && n <= maxRetries
    ensures Poised(target, maxRetries, workers, w, maxRetries - n, n, 0, 0) && NoFallback(w.shared.queue)
  {
    hide Poised, NoFallback;
    if n == 0 {
      w := Begin(target, maxRetries, workers);
    } else {
      var before := FailMany(target, maxRetries, workers, n - 1);
      w := FailOnce(target, maxRetries, workers, before, maxRetries - (n - 1), n - 1, 0);
    }
  }

  lemma {:induction false} SucceedMany(target: nat, maxRetries: nat, workers: nat, n: nat) returns (w: World)
    requires workers > 0 && n < target
    ensures Poised(target, maxRetries, workers, w, maxRetries, maxRetries + 1 + n, 1, n)
  {
    hide Poised, NoFallback;
    if n == 0 {
      var before := FailMany(target, maxRetries, workers, maxRetries);
      w := FailAndRevive(target, maxRetries, workers, before, maxRetries, 0);
    } else {
      var before := SucceedMany(target, maxRetries, workers, n - 1);
      w := SucceedOnce(target, maxRetries, workers, before, maxRetries, maxRetries + n, 1, n - 1);
    }
  }

  /** Whatever the configuration, one revive is enough to exceed the calls that jobs and retries allow. */
  lemma ReviveOverspends(target: nat, maxRetries: nat, workers: nat)
    requires target > 0 && workers > 0
    ensures exists w :: && Led(target, maxRetries, workers, w) && |w.ledger| == 1
                        && w.ledger[0].calls == target + maxRetries + 1 && w.ledger[0].revives == 1
  {
    var w := SucceedMany(target, maxRetries, workers, target - 1);
    var w', job := CallNext(target, maxRetries, workers, w, maxRetries, maxRetries + target, 1, target - 1);
  }

  /** With at least one retry, the retried fallback job is no fallback any more and can be revived again. */
  lemma {:induction false} CallsAfter(target: nat, maxRetries: nat, workers: nat, n: nat)
    returns (w: World, left: nat, revives: nat)
    requires target > 0 && workers > 0 && maxRetries > 0
    ensures Poised(target, maxRetries, workers, w, left, n, revives, 0)
    ensures left <= maxRetries && (left == 0 ==> NoFallback(w.shared.queue))
  {
    hide Poised, NoFallback;
    if n == 0 {
      w := Begin(target, maxRetries, workers);
      left, revives := maxRetries, 0;
    } else {
      var before, some, soFar := CallsAfter(target, maxRetries, workers, n - 1);
      if some > 0 {
        w := FailOnce(target, maxRetries, workers, before, some, n - 1, soFar);
        left, revives := some - 1, soFar;
      } else {
        w := FailAndRevive(target, maxRetries, workers, before, n - 1, soFar);
        left, revives := maxRetries, soFar + 1;
      }
    }
  }

  /** So no number of calls bounds what a single submit can cause. */
  lemma RevivesAreUnbounded(target: nat, maxRetries: nat, workers: nat, n: nat)
    requires target > 0 && workers > 0 && maxRetries > 0
    ensures exists w :: Led(target, maxRetries, workers, w) && |w.ledger| == 1 && w.ledger[0].calls > n
  {
    var w, left, revives := CallsAfter(target, maxRetries, workers, n + 1);
  }
}
