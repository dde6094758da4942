/** The streaming dispatcher as a transition system: worker threads and `shutdown` callers interleave at every
    point where the code holds no lock. */
module DispatcherProtocol {
  import opened Wrappers
  import opened DispatcherState

  /** Where a worker thread stands. */
  datatype Worker =
    | Waiting
    | Fetched(job: Job)                            // got a job, has not yet read `permanently_failed`
    | Simulating(job: Job)
    | Landed(job: Job, episode: Episode)           // healthy scene noted, lock not yet taken
    | Resolving(payload: nat, result: seq<Episode>) // flipped `future_resolved`, owes `set_result`
    | Dropping(job: Job)                           // flipped `future_resolved`, looks for a substitute scene
    | Reviving(job: Job, scene: SceneId)           // about to clear `permanently_failed`
    | Unresolving(job: Job, scene: SceneId)        // about to clear `future_resolved`
    | Rebudgeting(job: Job, scene: SceneId)        // about to reset `retries_left`
    | Requeueing(job: Job, scene: SceneId)         // about to enqueue the fallback job
    | Stopped

  /** Where a `shutdown` call stands once its locked section is over. */
  datatype Closer =
    | Draining(owed: seq<nat>)
    | Posting(left: nat, owed: seq<nat>)
    | Releasing(owed: seq<nat>)

  /** What has happened to one payload so far. `lost` counts jobs and episodes thrown away. */
  datatype Ledger = Ledger(calls: nat, retries: nat, granted: nat, revives: nat, lost: nat)

  datatype World = World(shared: Shared, workers: seq<Worker>, closers: seq<Closer>, ledger: seq<Ledger>)

  datatype Action =
    | Submit(prompt: int, scene: SceneId)
    | Fetch(t: nat)
    | Check(t: nat)
    | SimulateOk(t: nat)
    | Succeed(t: nat)
    | Fail(t: nat)
    | Resolve(t: nat)
    | Decide(t: nat, pool: Option<SceneId>)
    | Revive(t: nat)
    | Shutdown
    | Close(k: nat)

  function Start(target: nat, maxRetries: nat, workers: nat): World {
    World(Fresh(target, maxRetries), seq(workers, _ => Waiting), [], [])
  }

  /** Ids held anywhere outside the state table name an existing state. */
  predicate Grounded(w: World) {
    && |w.ledger| == |w.shared.states|
    && (forall i :: 0 <= i < |w.shared.queue| ==> GroundedEntry(w.shared.queue[i], |w.shared.states|))
    && (forall t :: 0 <= t < |w.workers| ==> GroundedWorker(w.workers[t], |w.shared.states|))
    && (forall k :: 0 <= k < |w.closers| ==> GroundedCloser(w.closers[k], |w.shared.states|))
  }

  predicate GroundedEntry(e: Entry, bound: nat) {
    e.job.Some? ==> e.job.value.payload < bound
  }

  predicate GroundedWorker(x: Worker, bound: nat) {
    match x
    case Waiting => true
    case Stopped => true
    case Resolving(id, _) => id < bound
    case _ => x.job.payload < bound
  }

  predicate GroundedCloser(x: Closer, bound: nat) {
    forall i :: 0 <= i < |x.owed| ==> x.owed[i] < bound
  }

  predicate Enabled(w: World, a: Action) {
    match a
    case Submit(_, _) => true
    case Fetch(t) => t < |w.workers| && w.workers[t].Waiting? && w.shared.queue != []
    case Check(t) => t < |w.workers| && w.workers[t].Fetched?
    case SimulateOk(t) => t < |w.workers| && w.workers[t].Simulating?
    case Succeed(t) => t < |w.workers| && w.workers[t].Landed?
    case Fail(t) => t < |w.workers| && w.workers[t].Simulating?
    case Resolve(t) => t < |w.workers| && w.workers[t].Resolving?
    case Decide(t, _) => t < |w.workers| && w.workers[t].Dropping?
    case Revive(t) => t < |w.workers| && IsReviving(w.workers[t])
    case Shutdown => true
    case Close(k) => k < |w.closers| && (w.closers[k].Releasing? ==> w.closers[k].owed != [])
  }

  predicate IsReviving(x: Worker) {
    x.Reviving? || x.Unresolving? || x.Rebudgeting? || x.Requeueing?
  }

  function Move(w: World, c: Shared, t: nat, x: Worker): World
    requires t < |w.workers|
  {
    w.(shared := c, workers := w.workers[t := x])
  }

  function Lose(w: World, id: nat): World
    requires id < |w.ledger|
  {
    w.(ledger := w.ledger[id := w.ledger[id].(lost := w.ledger[id].lost + 1)])
  }

  function Step(w: World, a: Action): World
    requires Grounded(w) && Enabled(w, a)
  {
    var c := w.shared;
    match a
    case Submit(prompt, scene) =>
      var c' := DispatcherState.Submit(c, prompt, scene).0;
      w.(shared := c',
         ledger := w.ledger + if |c'.states| > |c.states| then [Ledger(0, 0, c.maxRetries, 0, 0)] else [])
    case Fetch(t) =>
      var (c', e) := Pop(c);
      Move(w, c', t, if e.job.Some? then Fetched(e.job.value) else Stopped)
    case Check(t) => StepCheck(w, t)
    case SimulateOk(t) =>
      var job := w.workers[t].job;
      Move(w, NoteHealthy(c, job), t, Landed(job, Episode(job.scene, job.session)))
    case Succeed(t) => StepSucceed(w, t)
    case Fail(t) => StepFail(w, t)
    case Resolve(t) => Move(w, SetResult(c, w.workers[t].payload, w.workers[t].result), t, Waiting)
    case Decide(t, pool) => StepDecide(w, t, pool)
    case Revive(t) => StepRevive(w, t)
    case Shutdown =>
      var (c', owed) := DispatcherState.Close(c);
      w.(shared := c', closers := w.closers + [Draining(owed)])
    case Close(k) => StepClose(w, k)
  }

  /** The unlocked read of `permanently_failed` before simulating. */
  function StepCheck(w: World, t: nat): World
    requires Grounded(w) && Enabled(w, Check(t))
  {
    var job := w.workers[t].job;
    var id := job.payload;
    if w.shared.states[id].permanentlyFailed then Lose(Move(w, w.shared, t, Waiting), id)
    else
      var l := w.ledger[id];
      Move(w, w.shared, t, Simulating(job)).(ledger := w.ledger[id := l.(calls := l.calls + 1)])
  }

  function StepSucceed(w: World, t: nat): World
    requires Grounded(w) && Enabled(w, Succeed(t))
  {
    var id := w.workers[t].job.payload;
    var (c', owed) := DispatcherState.Succeed(w.shared, id, w.workers[t].episode);
    var moved := Move(w, c', t, if owed.Some? then Resolving(id, owed.value) else Waiting);
    if w.shared.states[id].permanentlyFailed then Lose(moved, id) else moved
  }

  function StepFail(w: World, t: nat): World
    requires Grounded(w) && Enabled(w, Fail(t))
  {
    var job := w.workers[t].job;
    var id := job.payload;
    var (c', verdict) := DispatcherState.Fail(w.shared, job);
    match verdict
    case Ignored => Lose(Move(w, c', t, Waiting), id)
    case Retried =>
      var l := w.ledger[id];
      Move(w, c', t, Waiting).(ledger := w.ledger[id := l.(retries := l.retries + 1)])
    case Exhausted(mustDrop) =>
      if mustDrop then Move(w, c', t, Dropping(job)) else Lose(Move(w, c', t, Waiting), id)
  }

  function StepDecide(w: World, t: nat, pool: Option<SceneId>): World
    requires Grounded(w) && Enabled(w, Decide(t, pool))
  {
    var job := w.workers[t].job;
    var id := job.payload;
    var (c', scene) := ChooseFallback(w.shared, pool);
    if scene.Some? && !job.isFallback then
      var l := w.ledger[id];
      Move(w, c', t, Reviving(job, scene.value))
        .(ledger := w.ledger[id := l.(revives := l.revives + 1, granted := l.granted + c'.maxRetries)])
    else
      Lose(Move(w, c', t, Resolving(id, [])), id)
  }

  /** The four unlocked writes of the revive branch, one step each. */
  function StepRevive(w: World, t: nat): World
    requires Grounded(w) && Enabled(w, Revive(t))
  {
    var c := w.shared;
    var x := w.workers[t];
    var id := x.job.payload;
    var s := c.states[id];
    match x
    case Reviving(job, scene) =>
      Move(w, c.(states := c.states[id := s.(permanentlyFailed := false)]), t, Unresolving(job, scene))
    case Unresolving(job, scene) =>
      Move(w, c.(states := c.states[id := s.(futureResolved := false)]), t, Rebudgeting(job, scene))
    case Rebudgeting(job, scene) =>
      Move(w, c.(states := c.states[id := s.(retriesLeft := c.maxRetries)]), t, Requeueing(job, scene))
    case Requeueing(_, scene) =>
      Move(w, PutJob(c, RETRY, id, scene, 0, true), t, Waiting)
  }

  /** One step of a `shutdown` call after its locked section: drain, post one sentinel per worker, resolve. */
  function StepClose(w: World, k: nat): World
    requires Grounded(w) && Enabled(w, Close(k))
  {
    var c := w.shared;
    match w.closers[k]
    case Draining(owed) =>
      if c.queue == [] then w.(closers := w.closers[k := Posting(|w.workers|, owed)])
      else
        var (c', e) := Pop(c);
        if e.job.Some? then Lose(w.(shared := c'), e.job.value.payload) else w.(shared := c')
    case Posting(left, owed) =>
      if left == 0 then w.(closers := w.closers[k := Releasing(owed)])
      else w.(shared := Put(c, SENTINEL, None), closers := w.closers[k := Posting(left - 1, owed)])
    case Releasing(owed) =>
      w.(shared := SetResult(c, owed[0], []), closers := w.closers[k := Releasing(owed[1..])])
  }

  lemma PutFreshShape(c: Shared, payload: nat, scene: SceneId, count: nat)
    ensures var c' := PutFresh(c, payload, scene, count);
      && c'.states == c.states && c'.active == c.active && c'.closed == c.closed
      && c'.target == c.target && c'.maxRetries == c.maxRetries && c'.lastGood == c.lastGood
      && |c'.queue| == |c.queue| + count && c'.queue[..|c.queue|] == c.queue
      && (forall i :: |c.queue| <= i < |c'.queue| ==>
            c'.queue[i].priority == FRESH && c'.queue[i].job.Some? && c'.queue[i].job.value.payload == payload)
  {
  }

  lemma UnresolvedIds(c: Shared, bound: nat)
    requires bound <= |c.states|
    ensures forall id: nat :: id in Unresolved(c, bound) <==>
              id < bound && Indexed(c, id) && !c.states[id].futureResolved
    ensures forall i :: 0 <= i < |Unresolved(c, bound)| ==> Unresolved(c, bound)[i] < bound
  {
  }

  /** Every step leaves all references valid. */
  lemma StepGrounded(w: World, a: Action)
    requires Grounded(w) && Enabled(w, a)
    ensures Grounded(Step(w, a))
  {
    match a {
      case Submit(prompt, scene) => SubmitGrounded(w, prompt, scene);
      case Fetch(t) => FetchGrounded(w, t);
      case Check(t) =>
      case SimulateOk(t) =>
      case Succeed(t) => SucceedGrounded(w, t);
      case Fail(t) => FailGrounded(w, t);
      case Resolve(t) =>
      case Decide(t, pool) =>
      case Revive(t) => ReviveGrounded(w, t);
      case Shutdown => UnresolvedIds(w.shared, |w.shared.states|);
      case Close(k) => CloseGrounded(w, k);
    }
  }

  lemma SubmitGrounded(w: World, prompt: int, scene: SceneId)
    requires Grounded(w)
    ensures Grounded(Step(w, Submit(prompt, scene)))
  {
    var c, w' := w.shared, Step(w, Submit(prompt, scene));
    if !c.closed && prompt !in c.active {
      var id := |c.states|;
      var entrant := Payload(prompt, c.maxRetries, [], false, false, []);
      PutFreshShape(c.(states := c.states + [entrant], active := c.active[prompt := id]), id, scene, c.target);
      forall i | 0 <= i < |w'.shared.queue| ensures GroundedEntry(w'.shared.queue[i], |w'.shared.states|) {
        if i < |c.queue| {
          assert w'.shared.queue[..|c.queue|][i] == c.queue[i];
        }
      }
    }
  }

  lemma FetchGrounded(w: World, t: nat)
    requires Grounded(w) && Enabled(w, Fetch(t))
    ensures Grounded(Step(w, Fetch(t)))
  {
    var i := Head(w.shared.queue);
    assert GroundedEntry(w.shared.queue[i], |w.shared.states|);
  }

  lemma SucceedGrounded(w: World, t: nat)
    requires Grounded(w) && Enabled(w, Succeed(t))
    ensures Grounded(Step(w, Succeed(t)))
  {
  }

  lemma FailGrounded(w: World, t: nat)
    requires Grounded(w) && Enabled(w, Fail(t))
    ensures Grounded(Step(w, Fail(t)))
  {
  }

  lemma ReviveGrounded(w: World, t: nat)
    requires Grounded(w) && Enabled(w, Revive(t))
    ensures Grounded(Step(w, Revive(t)))
  {
  }

  lemma CloseGrounded(w: World, k: nat)
    requires Grounded(w) && Enabled(w, Close(k))
    ensures Grounded(Step(w, Close(k)))
  {
    if w.closers[k].Draining? && w.shared.queue != [] {
      assert GroundedEntry(w.shared.queue[Head(w.shared.queue)], |w.shared.states|);
    }
  }
}
