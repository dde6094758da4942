/** Scenes: what a payload's episodes show, which scene counts as healthy, and which ones revives fall back on. */
module DispatcherScenes {
  import opened Wrappers
  import opened Tally
  import opened DispatcherState
  import opened DispatcherProtocol
  import opened DispatcherInvariant
  import opened DispatcherIndex
  import opened DispatcherRuns
  import opened DispatcherSessions

  // ---------- the scene a payload was submitted with ----------

  /** The scenes a run submits new payloads with, in the order of their ids. */
  function Submitted(w: World, run: seq<Action>): seq<SceneId>
    requires Grounded(w) && Possible(w, run)
    decreases |run|
  {
    if run == [] then []
    else (StepGrounded(w, run[0]); NewScene(w, run[0]) + Submitted(Step(w, run[0]), run[1..]))
  }

  /** An open worker whose index does not have the prompt takes it on. */
  function NewScene(w: World, a: Action): seq<SceneId> {
    if a.Submit? && !w.shared.closed && a.prompt !in w.shared.active then [a.scene] else []
  }

  predicate JobShows(job: Job, w: World, scenes: seq<SceneId>)
    requires |w.ledger| == |scenes|
  {
    job.payload < |scenes| && (w.ledger[job.payload].revives == 0 ==> job.scene == scenes[job.payload])
  }

  predicate WorkerShows(x: Worker, w: World, scenes: seq<SceneId>)
    requires |w.ledger| == |scenes|
  {
    && (x.Fetched? || x.Simulating? || x.Landed? ==> JobShows(x.job, w, scenes))
    && (x.Landed? ==> x.episode.scene == x.job.scene)
  }

  predicate PayloadShows(s: Payload, l: Ledger, scene: SceneId) {
    l.revives == 0 ==> forall i :: 0 <= i < |s.collected| ==> s.collected[i].scene == scene
  }

  /** As long as no revive has touched a payload, all its jobs and episodes are of the scene it was submitted with. */
  predicate Shows(w: World, scenes: seq<SceneId>) {
    && |scenes| == |w.ledger| == |w.shared.states|
    && (forall i :: 0 <= i < |w.shared.queue| && w.shared.queue[i].job.Some? ==>
          JobShows(w.shared.queue[i].job.value, w, scenes))
    && (forall t :: 0 <= t < |w.workers| ==> WorkerShows(w.workers[t], w, scenes))
    && (forall id :: 0 <= id < |w.shared.states| ==> PayloadShows(w.shared.states[id], w.ledger[id], scenes[id]))
  }

  lemma {:induction false} PutFreshScenes(c: Shared, payload: nat, scene: SceneId, count: nat)
    ensures (var queue := PutFresh(c, payload, scene, count).queue;
             && |queue| == |c.queue| + count
             && forall i :: |c.queue| <= i < |queue| ==>
                              queue[i].job.Some? && queue[i].job.value.payload == payload
                              && queue[i].job.value.scene == scene)
  {
    if count > 0 {
      PutFreshScenes(c, payload, scene, count - 1);
    }
  }

  lemma SubmitShows(w: World, prompt: int, scene: SceneId, scenes: seq<SceneId>)
    requires Grounded(w) && Shows(w, scenes)
    ensures Shows(Step(w, Submit(prompt, scene)), scenes + NewScene(w, Submit(prompt, scene)))
  {
    var c, w' := w.shared, Step(w, Submit(prompt, scene));
    if !c.closed && prompt !in c.active {
      var grown := c.(states := c.states + [Payload(prompt, c.maxRetries, [], false, false, [])],
                      active := c.active[prompt := |c.states|]);
      PutFreshShape(grown, |c.states|, scene, c.target);
      PutFreshScenes(grown, |c.states|, scene, c.target);
      var longer := scenes + [scene];
      forall i | 0 <= i < |w'.shared.queue| && w'.shared.queue[i].job.Some?
        ensures JobShows(w'.shared.queue[i].job.value, w', longer)
      {
        if i < |c.queue| {
          assert w'.shared.queue[..|c.queue|][i] == c.queue[i];
          assert JobShows(c.queue[i].job.value, w, scenes);
        }
      }
      forall t | 0 <= t < |w'.workers|
        ensures WorkerShows(w'.workers[t], w', longer)
      {
        assert WorkerShows(w.workers[t], w, scenes);
      }
    } else {
      assert w'.ledger == w.ledger && scenes + [] == scenes;
    }
  }

  /** Revives only ever widen what a payload may show. */
  lemma JobStillShows(job: Job, w: World, w': World, scenes: seq<SceneId>)
    requires |w.ledger| == |w'.ledger| == |scenes| && JobShows(job, w, scenes)
    requires forall id :: 0 <= id < |w.ledger| ==> w'.ledger[id].revives >= w.ledger[id].revives
    ensures JobShows(job, w', scenes)
  {
  }

  /** A step of one worker that puts at most jobs into the queue that show what they should. */
  lemma WorkerStepShows(w: World, w': World, t: nat, scenes: seq<SceneId>)
    requires Shows(w, scenes) && Extends(w, w') && |w'.shared.states| == |w.shared.states|
    requires t < |w.workers| == |w'.workers| && w'.workers == w.workers[t := w'.workers[t]]
    requires WorkerShows(w'.workers[t], w', scenes)
    requires forall e :: e in w'.shared.queue && e.job.Some? ==>
                           e in w.shared.queue || JobShows(e.job.value, w', scenes)
    requires forall id :: 0 <= id < |w.shared.states| ==>
                            PayloadShows(w'.shared.states[id], w'.ledger[id], scenes[id])
    ensures Shows(w', scenes)
  {
    forall i | 0 <= i < |w'.shared.queue| && w'.shared.queue[i].job.Some?
      ensures JobShows(w'.shared.queue[i].job.value, w', scenes)
    {
      var e := w'.shared.queue[i];
      if e in w.shared.queue {
        var j :| 0 <= j < |w.shared.queue| && w.shared.queue[j] == e;
        JobStillShows(e.job.value, w, w', scenes);
      }
    }
    forall u | 0 <= u < |w'.workers|
      ensures WorkerShows(w'.workers[u], w', scenes)
    {
      if u != t && (w.workers[u].Fetched? || w.workers[u].Simulating? || w.workers[u].Landed?) {
        assert WorkerShows(w.workers[u], w, scenes);
        JobStillShows(w.workers[u].job, w, w', scenes);
      }
    }
  }

  lemma FetchShows(w: World, t: nat, scenes: seq<SceneId>)
    requires Grounded(w) && Enabled(w, Fetch(t)) && Shows(w, scenes)
    ensures Shows(Step(w, Fetch(t)), scenes)
  {
    hide Head;
    StepExtends(w, Fetch(t));
    var w' := Step(w, Fetch(t));
    assert w.shared.queue[Head(w.shared.queue)].job.Some? ==>
        JobShows(w.shared.queue[Head(w.shared.queue)].job.value, w, scenes);
    WorkerStepShows(w, w', t, scenes);
  }

  lemma PlainShows(w: World, a: Action, scenes: seq<SceneId>)
    requires Grounded(w) && Enabled(w, a) && Shows(w, scenes) && (a.Check? || a.SimulateOk? || a.Decide? || a.Resolve?)
    ensures Shows(Step(w, a), scenes)
  {
    StepExtends(w, a);
    hide Extends, Untouched;
    var w' := Step(w, a);
    assert WorkerShows(w.workers[a.t], w, scenes);
    forall id | 0 <= id < |w.shared.states|
      ensures PayloadShows(w'.shared.states[id], w'.ledger[id], scenes[id])
    {
      assert PayloadShows(w.shared.states[id], w.ledger[id], scenes[id]);
    }
    WorkerStepShows(w, w', a.t, scenes);
  }

  lemma SucceedShows(w: World, t: nat, scenes: seq<SceneId>)
    requires Grounded(w) && Enabled(w, Succeed(t)) && Shows(w, scenes)
    ensures Shows(Step(w, Succeed(t)), scenes)
  {
    StepExtends(w, Succeed(t));
    var w' := StepSucceed(w, t);
    assert WorkerShows(w.workers[t], w, scenes);
    forall id | 0 <= id < |w.shared.states|
      ensures PayloadShows(w'.shared.states[id], w'.ledger[id], scenes[id])
    {
      assert PayloadShows(w.shared.states[id], w.ledger[id], scenes[id]);
    }
    WorkerStepShows(w, w', t, scenes);
  }

  lemma FailShows(w: World, t: nat, scenes: seq<SceneId>)
    requires Grounded(w) && Enabled(w, Fail(t)) && Shows(w, scenes)
    ensures Shows(Step(w, Fail(t)), scenes)
  {
    StepExtends(w, Fail(t));
    var w' := StepFail(w, t);
    hide Extends;
    assert JobShows(w.workers[t].job, w, scenes) by {
      assert WorkerShows(w.workers[t], w, scenes);
    }
    forall id | 0 <= id < |w.shared.states|
      ensures PayloadShows(w'.shared.states[id], w'.ledger[id], scenes[id])
    {
      assert PayloadShows(w.shared.states[id], w.ledger[id], scenes[id]);
    }
    WorkerStepShows(w, w', t, scenes);
  }

  lemma ReviveShows(w: World, t: nat, scenes: seq<SceneId>)
    requires Inv(w) && Enabled(w, Revive(t)) && Shows(w, scenes)
    ensures Shows(Step(w, Revive(t)), scenes)
  {
    StepExtends(w, Revive(t));
    assert CellInv(w, w.workers[t].job.payload);
    RevivingTouched(w, t);
    hide CellInv, IndexInv, ActiveInv, ResultInv, GrantInv, Extends;
    var w' := StepRevive(w, t);
    forall id | 0 <= id < |w.shared.states|
      ensures PayloadShows(w'.shared.states[id], w'.ledger[id], scenes[id])
    {
      assert PayloadShows(w.shared.states[id], w.ledger[id], scenes[id]);
    }
    WorkerStepShows(w, w', t, scenes);
  }

  lemma CloseShows(w: World, a: Action, scenes: seq<SceneId>)
    requires Grounded(w) && Enabled(w, a) && Shows(w, scenes) && (a.Shutdown? || a.Close?)
    ensures Shows(Step(w, a), scenes)
  {
    hide Head, Unresolved;
    StepExtends(w, a);
    CloseRevives(w, a);
    hide Extends;
    var w' := Step(w, a);
    forall id | 0 <= id < |w.shared.states|
      ensures PayloadShows(w'.shared.states[id], w'.ledger[id], scenes[id])
    {
      assert PayloadShows(w.shared.states[id], w.ledger[id], scenes[id]);
    }
    forall t | 0 <= t < |w'.workers|
      ensures WorkerShows(w'.workers[t], w', scenes)
    {
      assert WorkerShows(w.workers[t], w, scenes);
    }
  }

  lemma CloseRevives(w: World, a: Action)
    requires Grounded(w) && Enabled(w, a) && (a.Shutdown? || a.Close?)
    ensures (var w' := Step(w, a);
             && |w'.ledger| == |w.ledger| && w'.workers == w.workers
             && (forall id :: 0 <= id < |w.ledger| ==> w'.ledger[id].revives == w.ledger[id].revives))
  {
    hide Head, Unresolved;
  }

  lemma StepShows(w: World, a: Action, scenes: seq<SceneId>)
    requires Inv(w) && Enabled(w, a) && Shows(w, scenes)
    ensures Shows(Step(w, a), scenes + NewScene(w, a))
  {
    hide Shows;
    assert scenes + [] == scenes;
    match a {
      case Submit(prompt, scene) => SubmitShows(w, prompt, scene, scenes);
      case Fetch(t) => FetchShows(w, t, scenes);
      case Succeed(t) => SucceedShows(w, t, scenes);
      case Fail(t) => FailShows(w, t, scenes);
      case Revive(t) => ReviveShows(w, t, scenes);
      case Shutdown => CloseShows(w, a, scenes);
      case Close(_) => CloseShows(w, a, scenes);
      case _ => PlainShows(w, a, scenes);
    }
  }

  lemma {:induction false} RunShows(w: World, run: seq<Action>, scenes: seq<SceneId>)
    requires Inv(w) && Possible(w, run) && Shows(w, scenes)
    ensures Shows(After(w, run), scenes + Submitted(w, run))
    decreases |run|
  {
    hide Shows, Step, Enabled;
    if run != [] {
      StepInv(w, run[0]);
      StepShows(w, run[0], scenes);
      RunShows(Step(w, run[0]), run[1..], scenes + NewScene(w, run[0]));
      assert scenes + NewScene(w, run[0]) + Submitted(Step(w, run[0]), run[1..]) == scenes + Submitted(w, run);
    } else {
      assert scenes + [] == scenes;
    }
  }

  /** Ids are given in the order of submission, and every episode of a payload no revive has touched is of the scene it
      was submitted with. */
  lemma EpisodesShowSubmitted(target: nat, maxRetries: nat, workers: nat, run: seq<Action>, id: nat)
    requires target > 0 && Possible(Start(target, maxRetries, workers), run)
    ensures (var w := After(Start(target, maxRetries, workers), run);
             var scenes := Submitted(Start(target, maxRetries, workers), run);
             && |scenes| == |w.shared.states| == |w.ledger|
             && (id < |scenes| && w.ledger[id].revives == 0 ==>
                   forall i :: 0 <= i < |w.shared.states[id].collected| ==>
                                 w.shared.states[id].collected[i].scene == scenes[id]))
  {
    var w := Start(target, maxRetries, workers);
    StartInv(target, maxRetries, workers);
    RunShows(w, run, []);
    assert [] + Submitted(w, run) == Submitted(w, run);
    assert id < |Submitted(w, run)| ==>
        PayloadShows(After(w, run).shared.states[id], After(w, run).ledger[id], Submitted(w, run)[id]);
  }

  // ---------- the healthy scene ----------

  /** The job is one that `submit_payload` queued, not a retry nor a fallback. */
  ghost predicate FirstTry(job: Job, seen: set<Entry>) {
    exists e :: e in seen && e.priority == FRESH && e.job == Some(job)
  }

  /** What a step makes of the noted scene: a first try that succeeds is noted, and a drop with nothing noted seeds it
      from the pool. */
  ghost function NoteAfter(w: World, a: Action, seen: set<Entry>, noted: Option<SceneId>): Option<SceneId>
    requires Grounded(w) && Enabled(w, a)
  {
    if a.SimulateOk? && FirstTry(w.workers[a.t].job, seen) then Some(w.workers[a.t].job.scene)
    else if a.Decide? && noted.None? then a.pool
    else noted
  }

  ghost function Noted(w: World, run: seq<Action>, seen: set<Entry>, noted: Option<SceneId>): Option<SceneId>
    requires Grounded(w) && Possible(w, run)
    decreases |run|
  {
    if run == [] then noted
    else
      (StepGrounded(w, run[0]);
       var w' := Step(w, run[0]);
       Noted(w', run[1..], seen + (set e | e in w'.shared.queue), NoteAfter(w, run[0], seen, noted)))
  }

  /** First tries are marked by their attempts, and only they. */
  predicate Marked(e: Entry) {
    e.job.Some? ==> (e.priority == FRESH <==> e.job.value.attempts == 0 && !e.job.value.isFallback)
  }

  predicate AllMarked(entries: set<Entry>) {
    forall e :: e in entries ==> Marked(e)
  }

  predicate MarkedQueue(queue: seq<Entry>) {
    forall i :: 0 <= i < |queue| ==> Marked(queue[i])
  }

  lemma {:induction false} PutFreshMarked(c: Shared, payload: nat, scene: SceneId, count: nat)
    requires MarkedQueue(c.queue)
    ensures MarkedQueue(PutFresh(c, payload, scene, count).queue)
  {
    if count > 0 {
      PutFreshMarked(c, payload, scene, count - 1);
    }
  }

  lemma StepMarked(w: World, a: Action)
    requires Grounded(w) && Enabled(w, a) && MarkedQueue(w.shared.queue)
    ensures MarkedQueue(Step(w, a).shared.queue)
  {
    hide Head, MarkedQueue;
    match a {
      case Fetch(t) => FetchMarked(w, t);
      case Submit(prompt, scene) => SubmitMarked(w, prompt, scene);
      case Revive(t) => ReviveMarked(w, t);
      case Close(k) => CloseMarked(w, k);
      case Fail(t) => FailMarked(w, t);
      case _ =>
    }
  }

  lemma FetchMarked(w: World, t: nat)
    requires Grounded(w) && Enabled(w, Fetch(t)) && MarkedQueue(w.shared.queue)
    ensures MarkedQueue(Step(w, Fetch(t)).shared.queue)
  {
    hide Head;
  }

  lemma SubmitMarked(w: World, prompt: int, scene: SceneId)
    requires Grounded(w) && MarkedQueue(w.shared.queue)
    ensures MarkedQueue(Step(w, Submit(prompt, scene)).shared.queue)
  {
    hide MarkedQueue;
    var c := w.shared;
    if !c.closed && prompt !in c.active {
      PutFreshMarked(c.(states := c.states + [Payload(prompt, c.maxRetries, [], false, false, [])],
                        active := c.active[prompt := |c.states|]), |c.states|, scene, c.target);
    }
  }

  lemma ReviveMarked(w: World, t: nat)
    requires Grounded(w) && Enabled(w, Revive(t)) && MarkedQueue(w.shared.queue)
    ensures MarkedQueue(StepRevive(w, t).shared.queue)
  {
  }

  lemma CloseMarked(w: World, k: nat)
    requires Grounded(w) && Enabled(w, Close(k)) && MarkedQueue(w.shared.queue)
    ensures MarkedQueue(StepClose(w, k).shared.queue)
  {
    hide Head;
  }

  lemma FailMarked(w: World, t: nat)
    requires Grounded(w) && Enabled(w, Fail(t)) && MarkedQueue(w.shared.queue)
    ensures MarkedQueue(StepFail(w, t).shared.queue)
  {
  }

  lemma FirstTryMarked(job: Job, seen: set<Entry>)
    requires AllMarked(seen) && JobSeen(job, seen)
    ensures FirstTry(job, seen) <==> job.attempts == 0 && !job.isFallback
  {
  }

  lemma SubmitNote(w: World, prompt: int, scene: SceneId)
    requires Grounded(w)
    ensures Step(w, Submit(prompt, scene)).shared.lastGood == w.shared.lastGood
  {
    var c := w.shared;
    if !c.closed && prompt !in c.active {
      PutFreshShape(c.(states := c.states + [Payload(prompt, c.maxRetries, [], false, false, [])],
                       active := c.active[prompt := |c.states|]), |c.states|, scene, c.target);
    }
  }

  lemma StepNotes(w: World, a: Action, seen: set<Entry>)
    requires Grounded(w) && Enabled(w, a) && AllSeen(w, seen) && AllMarked(seen)
    ensures Step(w, a).shared.lastGood == NoteAfter(w, a, seen, w.shared.lastGood)
  {
    hide FirstTry, JobSeen, Head, Marked;
    match a {
      case Submit(prompt, scene) => SubmitNote(w, prompt, scene);
      case SimulateOk(t) =>
        assert WorkerSeen(w.workers[t], seen);
        FirstTryMarked(w.workers[t].job, seen);
      case _ =>
    }
  }

  lemma {:induction false} RunNotes(w: World, run: seq<Action>, seen: set<Entry>)
    requires Grounded(w) && Possible(w, run) && AllSeen(w, seen) && AllMarked(seen)
    ensures After(w, run).shared.lastGood == Noted(w, run, seen, w.shared.lastGood)
    decreases |run|
  {
    hide AllSeen, Step, Enabled, NoteAfter, Marked;
    if run != [] {
      StepGrounded(w, run[0]);
      var w' := Step(w, run[0]);
      var more := seen + (set e | e in w'.shared.queue);
      QueueSeen(w, seen);
      StepMarked(w, run[0]);
      StepNotes(w, run[0], seen);
      MoreSeen(w, seen, more);
      StepSeen(w, run[0], more);
      RunNotes(w', run[1..], more);
    }
  }

  lemma QueueSeen(w: World, seen: set<Entry>)
    requires AllSeen(w, seen)
    ensures AllMarked(seen) ==> MarkedQueue(w.shared.queue)
  {
  }

  /** In every run the last good scene is that of the latest first try to succeed, or the pool's if a drop came
      before any. */
  lemma LastGoodIsNoted(target: nat, maxRetries: nat, workers: nat, run: seq<Action>)
    requires Possible(Start(target, maxRetries, workers), run)
    ensures After(Start(target, maxRetries, workers), run).shared.lastGood
            == Noted(Start(target, maxRetries, workers), run, {}, None)
  {
    RunNotes(Start(target, maxRetries, workers), run, {});
  }

  // ---------- what revives fall back on ----------

  /** A fallback job, and the scene a reviving thread carries, were the last good scene at some time. */
  predicate FallsBack(w: World, goods: set<SceneId>) {
    && (w.shared.lastGood.Some? ==> w.shared.lastGood.value in goods)
    && GoodQueue(w.shared.queue, goods)
    && (forall t :: 0 <= t < |w.workers| && IsReviving(w.workers[t]) ==> w.workers[t].scene in goods)
  }

  predicate GoodFallback(e: Entry, goods: set<SceneId>) {
    e.job.Some? && e.job.value.isFallback ==> e.job.value.scene in goods
  }

  function GoodNow(w: World): set<SceneId> {
    if w.shared.lastGood.Some? then {w.shared.lastGood.value} else {}
  }

  /** The last good scenes in the course of a run. */
  function Goods(w: World, run: seq<Action>): set<SceneId>
    requires Grounded(w) && Possible(w, run)
    decreases |run|
  {
    GoodNow(w) + if run == [] then {} else (StepGrounded(w, run[0]); Goods(Step(w, run[0]), run[1..]))
  }

  lemma SubmitFallsBack(w: World, prompt: int, scene: SceneId, goods: set<SceneId>)
    requires Grounded(w) && FallsBack(w, goods)
    ensures FallsBack(Step(w, Submit(prompt, scene)), goods)
  {
    var c, w' := w.shared, Step(w, Submit(prompt, scene));
    if !c.closed && prompt !in c.active {
      var grown := c.(states := c.states + [Payload(prompt, c.maxRetries, [], false, false, [])],
                      active := c.active[prompt := |c.states|]);
      PutFreshShape(grown, |c.states|, scene, c.target);
      PutFreshGood(grown, |c.states|, scene, c.target, goods);
    }
  }

  predicate GoodQueue(queue: seq<Entry>, goods: set<SceneId>) {
    forall i :: 0 <= i < |queue| ==> GoodFallback(queue[i], goods)
  }

  lemma {:induction false} PutFreshGood(c: Shared, payload: nat, scene: SceneId, count: nat, goods: set<SceneId>)
    requires GoodQueue(c.queue, goods)
    ensures GoodQueue(PutFresh(c, payload, scene, count).queue, goods)
  {
    if count > 0 {
      PutFreshGood(c, payload, scene, count - 1, goods);
    }
  }

  lemma FailFallsBack(w: World, t: nat, goods: set<SceneId>)
    requires Grounded(w) && Enabled(w, Fail(t)) && FallsBack(w, goods)
    ensures FallsBack(Step(w, Fail(t)), goods)
  {
  }

  lemma StepFallsBack(w: World, a: Action, goods: set<SceneId>)
    requires Grounded(w) && Enabled(w, a) && FallsBack(w, goods)
    ensures FallsBack(Step(w, a), goods + GoodNow(Step(w, a)))
  {
    var more := goods + GoodNow(Step(w, a));
    MoreGoods(w, goods, more);
    match a {
      case Submit(prompt, scene) =>
        SubmitFallsBack(w, prompt, scene, goods);
        MoreGoods(Step(w, a), goods, more);
      case Fail(t) => FailFallsBack(w, t, more);
      case Revive(t) => ReviveFallsBack(w, t, more);
      case Close(k) => CloseFallsBack(w, k, more);
      case Fetch(t) => FetchFallsBack(w, t, more);
      case _ => hide GoodQueue;
    }
  }

  lemma MoreGoods(w: World, goods: set<SceneId>, more: set<SceneId>)
    requires FallsBack(w, goods) && goods <= more
    ensures FallsBack(w, more)
  {
  }

  lemma PopGood(c: Shared, goods: set<SceneId>)
    requires c.queue != [] && GoodQueue(c.queue, goods)
    ensures GoodQueue(Pop(c).0.queue, goods)
  {
    hide Head;
  }

  lemma FetchFallsBack(w: World, t: nat, goods: set<SceneId>)
    requires Grounded(w) && Enabled(w, Fetch(t)) && FallsBack(w, goods)
    ensures FallsBack(Step(w, Fetch(t)), goods)
  {
    PopGood(w.shared, goods);
    hide GoodQueue, Head;
  }

  lemma ReviveFallsBack(w: World, t: nat, goods: set<SceneId>)
    requires Grounded(w) && Enabled(w, Revive(t)) && FallsBack(w, goods)
    ensures FallsBack(Step(w, Revive(t)), goods)
  {
  }

  lemma CloseFallsBack(w: World, k: nat, goods: set<SceneId>)
    requires Grounded(w) && Enabled(w, Close(k)) && FallsBack(w, goods)
    ensures FallsBack(Step(w, Close(k)), goods)
  {
    if w.closers[k].Draining? && w.shared.queue != [] {
      PopGood(w.shared, goods);
      hide GoodQueue, Head;
    }
  }

  lemma {:induction false} RunFallsBack(w: World, run: seq<Action>, goods: set<SceneId>)
    requires Grounded(w) && Possible(w, run) && FallsBack(w, goods) && GoodNow(w) <= goods
    ensures FallsBack(After(w, run), goods + Goods(w, run))
    decreases |run|
  {
    hide FallsBack, Step, Enabled, GoodNow;
    if run != [] {
      StepGrounded(w, run[0]);
      var w' := Step(w, run[0]);
      StepFallsBack(w, run[0], goods);
      RunFallsBack(w', run[1..], goods + GoodNow(w'));
      assert goods + GoodNow(w') + Goods(w', run[1..]) == goods + Goods(w, run);
      assert Goods(w', run[1..]) == GoodNow(w') + Goods(w', run[1..]);
    } else {
      assert goods + Goods(w, run) == goods;
    }
  }

  /** Every fallback job is for a scene that was the last good one at some time of the run. */
  lemma FallbacksAreGood(target: nat, maxRetries: nat, workers: nat, run: seq<Action>, i: nat)
    requires Possible(Start(target, maxRetries, workers), run)
    requires i < |After(Start(target, maxRetries, workers), run).shared.queue|
    ensures (var e := After(Start(target, maxRetries, workers), run).shared.queue[i];
             e.job.Some? && e.job.value.isFallback ==>
               e.job.value.scene in Goods(Start(target, maxRetries, workers), run))
  {
    var w := Start(target, maxRetries, workers);
    RunFallsBack(w, run, {});
    assert {} + Goods(w, run) == Goods(w, run);
    assert GoodFallback(After(w, run).shared.queue[i], Goods(w, run));
  }
}
