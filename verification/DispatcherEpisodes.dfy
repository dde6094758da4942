/** Which episodes a payload collects and what its future is given. */
module DispatcherEpisodes {
  import opened Wrappers
  import opened Tally
  import opened DispatcherState
  import opened DispatcherProtocol
  import opened DispatcherInvariant
  import opened DispatcherIndex
  import opened DispatcherRuns

  // ---------- the episodes that reach a payload ----------

  /** The episode an action brings to payload `id`, unless the payload has failed for good. */
  function ArrivesAt(w: World, a: Action, id: nat): seq<Episode>
    requires Grounded(w) && Enabled(w, a)
  {
    if a.Succeed? && w.workers[a.t].job.payload == id && !w.shared.states[id].permanentlyFailed
    then [w.workers[a.t].episode] else []
  }

  /** The episodes a run brings to payload `id`, in the order in which threads took the lock with them. */
  function Arrived(w: World, run: seq<Action>, id: nat): seq<Episode>
    requires Grounded(w) && Possible(w, run)
    decreases |run|
  {
    if run == [] then []
    else (StepGrounded(w, run[0]); ArrivesAt(w, run[0], id) + Arrived(Step(w, run[0]), run[1..], id))
  }

  function CollectedBy(w: World, id: nat): seq<Episode> {
    if id < |w.shared.states| then w.shared.states[id].collected else []
  }

  lemma SubmitCollects(w: World, prompt: int, scene: SceneId, id: nat)
    requires Grounded(w)
    ensures CollectedBy(Step(w, Submit(prompt, scene)), id) == CollectedBy(w, id)
  {
    var c := w.shared;
    if !c.closed && prompt !in c.active {
      PutFreshShape(c.(states := c.states + [Payload(prompt, c.maxRetries, [], false, false, [])],
                       active := c.active[prompt := |c.states|]), |c.states|, scene, c.target);
    }
  }

  lemma FailCollects(w: World, t: nat, id: nat)
    requires Grounded(w) && Enabled(w, Fail(t))
    ensures CollectedBy(Step(w, Fail(t)), id) == CollectedBy(w, id)
  {
  }

  lemma CloseCollects(w: World, k: nat, id: nat)
    requires Grounded(w) && Enabled(w, Close(k))
    ensures CollectedBy(Step(w, Close(k)), id) == CollectedBy(w, id)
  {
    hide Head;
  }

  lemma StepCollects(w: World, a: Action, id: nat)
    requires Grounded(w) && Enabled(w, a)
    ensures CollectedBy(Step(w, a), id) == CollectedBy(w, id) + ArrivesAt(w, a, id)
  {
    match a {
      case Submit(prompt, scene) => SubmitCollects(w, prompt, scene, id);
      case Fail(t) => FailCollects(w, t, id);
      case Close(k) => CloseCollects(w, k, id);
      case _ =>
    }
  }

  lemma {:induction false} RunCollects(w: World, run: seq<Action>, id: nat)
    requires Grounded(w) && Possible(w, run)
    ensures CollectedBy(After(w, run), id) == CollectedBy(w, id) + Arrived(w, run, id)
    decreases |run|
  {
    hide Step, Enabled, ArrivesAt, Grounded, CollectedBy;
    if run != [] {
      StepGrounded(w, run[0]);
      StepCollects(w, run[0], id);
      RunCollects(Step(w, run[0]), run[1..], id);
      assert CollectedBy(w, id) + ArrivesAt(w, run[0], id) + Arrived(Step(w, run[0]), run[1..], id)
          == CollectedBy(w, id) + Arrived(w, run, id);
    } else {
      assert CollectedBy(w, id) + [] == CollectedBy(w, id);
    }
  }

  /** A payload has collected exactly the episodes that reached it, in order. */
  lemma CollectedIsArrived(target: nat, maxRetries: nat, workers: nat, run: seq<Action>, id: nat)
    requires Possible(Start(target, maxRetries, workers), run)
    requires id < |After(Start(target, maxRetries, workers), run).shared.states|
    ensures After(Start(target, maxRetries, workers), run).shared.states[id].collected
            == Arrived(Start(target, maxRetries, workers), run, id)
  {
    RunCollects(Start(target, maxRetries, workers), run, id);
  }

  // ---------- what futures are given ----------

  /** Nothing, or the first collected episodes up to the target. */
  predicate FirstOf(result: seq<Episode>, collected: seq<Episode>, target: nat) {
    result == [] || (target <= |collected| && result == collected[..target])
  }

  predicate GenuineWorker(x: Worker, states: seq<Payload>, target: nat) {
    x.Resolving? ==> x.payload < |states| && FirstOf(x.result, states[x.payload].collected, target)
  }

  predicate GenuinePayload(s: Payload, target: nat) {
    forall i :: 0 <= i < |s.delivered| ==> FirstOf(s.delivered[i], s.collected, target)
  }

  predicate Genuine(w: World) {
    && (forall t :: 0 <= t < |w.workers| ==> GenuineWorker(w.workers[t], w.shared.states, w.shared.target))
    && (forall id :: 0 <= id < |w.shared.states| ==> GenuinePayload(w.shared.states[id], w.shared.target))
  }

  /** A step may only add collected episodes, and a value delivered or put on its way is genuine. */
  predicate Grows(w: World, w': World) {
    && w'.shared.target == w.shared.target && |w'.shared.states| >= |w.shared.states|
    && forall id :: 0 <= id < |w.shared.states| ==> w.shared.states[id].collected <= w'.shared.states[id].collected
  }

  lemma StepGrows(w: World, a: Action)
    requires Grounded(w) && Enabled(w, a)
    ensures Grows(w, Step(w, a))
  {
    StepExtends(w, a);
    var w' := Step(w, a);
    forall id | 0 <= id < |w.shared.states|
      ensures w.shared.states[id].collected <= w'.shared.states[id].collected
    {
      StepCollects(w, a, id);
    }
  }

  lemma LongerFirstOf(result: seq<Episode>, collected: seq<Episode>, more: seq<Episode>, target: nat)
    requires FirstOf(result, collected, target) && collected <= more
    ensures FirstOf(result, more, target)
  {
  }

  lemma {:induction false} SucceedGenuine(w: World, t: nat)
    requires Grounded(w) && Enabled(w, Succeed(t)) && Genuine(w) && w.shared.target > 0
    ensures Genuine(Step(w, Succeed(t)))
  {
    hide FirstOf;
    var w' := StepSucceed(w, t);
    StepGrows(w, Succeed(t));
    forall u | 0 <= u < |w'.workers|
      ensures GenuineWorker(w'.workers[u], w'.shared.states, w'.shared.target)
    {
      if u != t && w.workers[u].Resolving? {
        assert GenuineWorker(w.workers[u], w.shared.states, w.shared.target);
        LongerFirstOf(w.workers[u].result, w.shared.states[w.workers[u].payload].collected,
                      w'.shared.states[w.workers[u].payload].collected, w.shared.target);
      } else if u == t && w'.workers[t].Resolving? {
        FreshResult(w, t);
      }
    }
    forall id | 0 <= id < |w'.shared.states|
      ensures GenuinePayload(w'.shared.states[id], w'.shared.target)
    {
      assert GenuinePayload(w.shared.states[id], w.shared.target);
      forall i | 0 <= i < |w'.shared.states[id].delivered|
        ensures FirstOf(w'.shared.states[id].delivered[i], w'.shared.states[id].collected, w'.shared.target)
      {
        LongerFirstOf(w.shared.states[id].delivered[i], w.shared.states[id].collected,
                      w'.shared.states[id].collected, w.shared.target);
      }
    }
  }

  lemma FreshResult(w: World, t: nat)
    requires Grounded(w) && Enabled(w, Succeed(t)) && StepSucceed(w, t).workers[t].Resolving?
    ensures (var w' := StepSucceed(w, t);
             GenuineWorker(w'.workers[t], w'.shared.states, w'.shared.target))
  {
  }

  lemma ResolveGenuine(w: World, t: nat)
    requires Grounded(w) && Enabled(w, Resolve(t)) && Genuine(w)
    ensures Genuine(Step(w, Resolve(t)))
  {
    hide FirstOf;
    assert GenuineWorker(w.workers[t], w.shared.states, w.shared.target);
    assert GenuinePayload(w.shared.states[w.workers[t].payload], w.shared.target);
  }

  lemma CloseGenuine(w: World, k: nat)
    requires Grounded(w) && Enabled(w, Close(k)) && Genuine(w)
    ensures Genuine(Step(w, Close(k)))
  {
    hide Head;
    if w.closers[k].Releasing? {
      assert GenuinePayload(w.shared.states[w.closers[k].owed[0]], w.shared.target);
    }
  }

  lemma FailGenuine(w: World, t: nat)
    requires Grounded(w) && Enabled(w, Fail(t)) && Genuine(w)
    ensures Genuine(Step(w, Fail(t)))
  {
    hide FirstOf;
    assert GenuinePayload(w.shared.states[w.workers[t].job.payload], w.shared.target);
  }

  lemma ReviveGenuine(w: World, t: nat)
    requires Grounded(w) && Enabled(w, Revive(t)) && Genuine(w)
    ensures Genuine(Step(w, Revive(t)))
  {
    hide FirstOf;
    assert GenuinePayload(w.shared.states[w.workers[t].job.payload], w.shared.target);
  }

  lemma SubmitGenuine(w: World, prompt: int, scene: SceneId)
    requires Grounded(w) && Genuine(w)
    ensures Genuine(Step(w, Submit(prompt, scene)))
  {
    hide FirstOf;
    var c := w.shared;
    if !c.closed && prompt !in c.active {
      PutFreshShape(c.(states := c.states + [Payload(prompt, c.maxRetries, [], false, false, [])],
                       active := c.active[prompt := |c.states|]), |c.states|, scene, c.target);
    }
  }

  lemma StepGenuine(w: World, a: Action)
    requires Grounded(w) && Enabled(w, a) && Genuine(w) && w.shared.target > 0
    ensures Genuine(Step(w, a))
  {
    hide GenuinePayload, FirstOf;
    match a {
      case Submit(prompt, scene) => SubmitGenuine(w, prompt, scene);
      case Succeed(t) => SucceedGenuine(w, t);
      case Fail(t) => FailGenuine(w, t);
      case Resolve(t) => ResolveGenuine(w, t);
      case Revive(t) => ReviveGenuine(w, t);
      case Close(k) => CloseGenuine(w, k);
      case Shutdown => ShutdownGenuine(w);
      case Decide(t, pool) => DecideGenuine(w, t, pool);
      case _ =>
    }
  }

  lemma ShutdownGenuine(w: World)
    requires Grounded(w) && Genuine(w)
    ensures Genuine(Step(w, Shutdown))
  {
    hide FirstOf;
    forall id | 0 <= id < |w.shared.states|
      ensures GenuinePayload(Step(w, Shutdown).shared.states[id], w.shared.target)
    {
      assert GenuinePayload(w.shared.states[id], w.shared.target);
    }
  }

  lemma DecideGenuine(w: World, t: nat, pool: Option<SceneId>)
    requires Grounded(w) && Enabled(w, Decide(t, pool)) && Genuine(w)
    ensures Genuine(Step(w, Decide(t, pool)))
  {
  }

  lemma {:induction false} RunGenuine(w: World, run: seq<Action>)
    requires Grounded(w) && Possible(w, run) && Genuine(w) && w.shared.target > 0
    ensures Genuine(After(w, run)) && After(w, run).shared.target == w.shared.target
    decreases |run|
  {
    hide Genuine, Step, Enabled;
    if run != [] {
      StepGrounded(w, run[0]);
      StepGenuine(w, run[0]);
      StepExtends(w, run[0]);
      RunGenuine(Step(w, run[0]), run[1..]);
    }
  }

  /** A future is given nothing, or the first episodes that reached its payload, as many as the target asks for. */
  lemma DeliveredIsFirstArrived(target: nat, maxRetries: nat, workers: nat, run: seq<Action>, id: nat, i: nat)
    requires target > 0 && Possible(Start(target, maxRetries, workers), run)
    requires id < |After(Start(target, maxRetries, workers), run).shared.states|
    requires i < |After(Start(target, maxRetries, workers), run).shared.states[id].delivered|
    ensures (var result := After(Start(target, maxRetries, workers), run).shared.states[id].delivered[i];
             var arrived := Arrived(Start(target, maxRetries, workers), run, id);
             result == [] || (target <= |arrived| && result == arrived[..target]))
  {
    CollectedIsArrived(target, maxRetries, workers, run, id);
    RunGenuine(Start(target, maxRetries, workers), run);
    assert GenuinePayload(After(Start(target, maxRetries, workers), run).shared.states[id], target);
  }
}
