/** One lemma per kind of step: each keeps the dispatcher's counting invariant for every payload. */
module DispatcherSteps {
  import opened Wrappers
  import opened Tally
  import opened DispatcherState
  import opened DispatcherProtocol
  import opened DispatcherInvariant

  predicate Local(w: World, id: nat) {
    Grounded(w) && w.shared.target > 0 && id < |w.shared.states| && CellInv(w, id)
  }

  predicate Keeps(w': World, id: nat) {
    id < |w'.shared.states| && |w'.ledger| == |w'.shared.states| && CellInv(w', id)
  }

  lemma SubmitKeepsOld(w: World, prompt: int, scene: SceneId, id: nat)
    requires Local(w, id)
    ensures Keeps(Step(w, Submit(prompt, scene)), id)
  {
    var c, w' := w.shared, Step(w, Submit(prompt, scene));
    if !c.closed && prompt !in c.active {
      var grown := c.(states := c.states + [Payload(prompt, c.maxRetries, [], false, false, [])],
                      active := c.active[prompt := |c.states|]);
      PutFreshShape(grown, |c.states|, scene, c.target);
      PutFreshCount(grown, |c.states|, scene, c.target, id);
    } else {
      assert w'.ledger == w.ledger;
    }
  }

  lemma SubmitKeepsNew(w: World, prompt: int, scene: SceneId)
    requires Grounded(w) && w.shared.target > 0
    requires !w.shared.closed && prompt !in w.shared.active
    ensures Keeps(Step(w, Submit(prompt, scene)), |w.shared.states|)
  {
    hide Sum;
    var c, w' := w.shared, Step(w, Submit(prompt, scene));
    var id := |c.states|;
    var grown := c.(states := c.states + [Payload(prompt, c.maxRetries, [], false, false, [])],
                    active := c.active[prompt := id]);
    PutFreshShape(grown, id, scene, c.target);
    PutFreshCount(grown, id, scene, c.target, id);
    AbsentFromQueue(c.queue, id);
    AbsentFromWorkers(w, id);
    AbsentFromClosers(w.closers, id);
  }

  lemma FetchKeeps(w: World, t: nat, id: nat)
    requires Local(w, id) && Enabled(w, Fetch(t))
    ensures Keeps(Step(w, Fetch(t)), id)
  {
    hide Sum;
    var (c', e) := Pop(w.shared);
    hide CountsOf, Head;
    Popped(w.shared, id);
    WorkerMoved(w, Step(w, Fetch(t)), t, id);
  }

  lemma CheckKeeps(w: World, t: nat, id: nat)
    requires Local(w, id) && Enabled(w, Check(t))
    ensures Keeps(StepCheck(w, t), id)
  {
    var w' := StepCheck(w, t);
    if w.workers[t].job.payload != id {
      Elsewhere(w, w', t, id);
    } else {
      CheckHere(w, t);
    }
  }

  lemma CheckHere(w: World, t: nat)
    requires t < |w.workers| && w.workers[t].Fetched? && Local(w, w.workers[t].job.payload)
    ensures Keeps(StepCheck(w, t), w.workers[t].job.payload)
  {
    var w' := StepCheck(w, t);
    Moved(w, w.shared, t, w'.workers[t], w.workers[t].job.payload);
    Counted(w, t, w.workers[t].job.payload);
  }

  lemma SimulateOkKeeps(w: World, t: nat, id: nat)
    requires Local(w, id) && Enabled(w, SimulateOk(t))
    ensures Keeps(Step(w, SimulateOk(t)), id)
  {
    var w' := Step(w, SimulateOk(t));
    Moved(w, w'.shared, t, w'.workers[t], id);
    Counted(w, t, id);
  }

  lemma ResolveKeeps(w: World, t: nat, id: nat)
    requires Local(w, id) && Enabled(w, Resolve(t))
    ensures Keeps(Step(w, Resolve(t)), id)
  {
    var w' := Step(w, Resolve(t));
    Moved(w, w'.shared, t, w'.workers[t], id);
    Counted(w, t, id);
  }

  /** The payload a worker's step is about. */
  function Subject(x: Worker): nat
    requires !x.Waiting? && !x.Stopped?
  {
    if x.Resolving? then x.payload else x.job.payload
  }

  predicate Silent(x: Worker, id: nat) {
    x.Waiting? || x.Stopped? || Subject(x) != id
  }

  /** How one worker's step moves the counts of a payload, its effect on the queue given. */
  lemma WorkerMoved(w: World, w': World, t: nat, id: nat)
    requires t < |w.workers| == |w'.workers| && w'.workers == w.workers[t := w'.workers[t]]
    requires w'.closers == w.closers && w'.shared.maxRetries == w.shared.maxRetries
    ensures (var (k, k', budget) := (CountsOf(w, id), CountsOf(w', id), w.shared.maxRetries);
             && k.queued == Sum(w.shared.queue, Queued(id)) && k'.queued == Sum(w'.shared.queue, Queued(id))
             && Plus(k', Share(w.workers[t], id, budget))
                == Plus(k, Share(w'.workers[t], id, budget)).(queued := k'.queued))
  {
    Moved(w, w'.shared, t, w'.workers[t], id);
    assert CountsOf(w', id) == CountsOf(Move(w, w'.shared, t, w'.workers[t]), id);
  }

  /** A worker's step about one payload leaves every other payload's cell alone. */
  lemma Elsewhere(w: World, w': World, t: nat, id: nat)
    requires Local(w, id) && t < |w.workers| && Silent(w.workers[t], id)
    requires t < |w'.workers| && Silent(w'.workers[t], id) && w'.workers == w.workers[t := w'.workers[t]]
    requires w'.closers == w.closers && id < |w'.shared.states| == |w'.ledger|
    requires w'.shared.states[id] == w.shared.states[id] && w'.ledger[id] == w.ledger[id]
    requires w'.shared.target == w.shared.target && w'.shared.maxRetries == w.shared.maxRetries
    requires Sum(w'.shared.queue, Queued(id)) == Sum(w.shared.queue, Queued(id))
    ensures Keeps(w', id)
  {
    Moved(w, w'.shared, t, w'.workers[t], id);
    assert CountsOf(w', id) == CountsOf(Move(w, w'.shared, t, w'.workers[t]), id);
  }

  lemma SucceedKeeps(w: World, t: nat, id: nat)
    requires Local(w, id) && Enabled(w, Succeed(t))
    ensures Keeps(StepSucceed(w, t), id)
  {
    var w' := StepSucceed(w, t);
    if w.workers[t].job.payload != id {
      Elsewhere(w, w', t, id);
    } else {
      hide CountsOf;
      WorkerMoved(w, w', t, id);
      Counted(w, t, id);
    }
  }

  lemma FailQueue(c: Shared, job: Job, id: nat)
    requires job.payload < |c.states|
    ensures var (c', verdict) := DispatcherState.Fail(c, job);
      Sum(c'.queue, Queued(id)) == Sum(c.queue, Queued(id)) + if verdict == Retried && job.payload == id then 1 else 0
  {
    var retry := Job(job.payload, c.nextSession, job.scene, job.attempts + 1, false);
    SumAppend(c.queue, Entry(RETRY, c.nextOrder, Some(retry)), Queued(id));
  }

  lemma FailElsewhere(w: World, t: nat, id: nat)
    requires Local(w, id) && Enabled(w, Fail(t)) && w.workers[t].job.payload != id
    ensures Keeps(StepFail(w, t), id)
  {
    var w' := StepFail(w, t);
    FailQueue(w.shared, w.workers[t].job, id);
    Elsewhere(w, w', t, id);
  }

  lemma RetryCounts(w: World, t: nat, id: nat)
    requires Grounded(w) && Enabled(w, Fail(t)) && w.workers[t].job.payload == id
    requires DispatcherState.Fail(w.shared, w.workers[t].job).1 == Retried
    ensures var k := CountsOf(w, id);
      k.carried > 0 && CountsOf(StepFail(w, t), id) == k.(carried := k.carried - 1, queued := k.queued + 1)
  {
    hide Sum;
    hide CountsOf;
    var w' := StepFail(w, t);
    FailQueue(w.shared, w.workers[t].job, id);
    WorkerMoved(w, w', t, id);
    Counted(w, t, id);
  }

  lemma FailCounts(w: World, t: nat, id: nat)
    requires Grounded(w) && Enabled(w, Fail(t)) && w.workers[t].job.payload == id
    requires DispatcherState.Fail(w.shared, w.workers[t].job).1 != Retried
    ensures var k, verdict := CountsOf(w, id), DispatcherState.Fail(w.shared, w.workers[t].job).1;
      k.carried > 0 && CountsOf(StepFail(w, t), id) ==
        if verdict == Exhausted(true) then k.(held := k.held + 1) else k.(carried := k.carried - 1)
  {
    hide Sum;
    hide CountsOf;
    var w' := StepFail(w, t);
    FailQueue(w.shared, w.workers[t].job, id);
    WorkerMoved(w, w', t, id);
    Counted(w, t, id);
  }

  lemma FailHere(w: World, t: nat, id: nat)
    requires Local(w, id) && Enabled(w, Fail(t)) && w.workers[t].job.payload == id
    ensures Keeps(StepFail(w, t), id)
  {
    hide CountsOf;
    if DispatcherState.Fail(w.shared, w.workers[t].job).1 == Retried {
      RetryCounts(w, t, id);
    } else {
      FailCounts(w, t, id);
    }
  }

  lemma FailKeeps(w: World, t: nat, id: nat)
    requires Local(w, id) && Enabled(w, Fail(t))
    ensures Keeps(StepFail(w, t), id)
  {
    if w.workers[t].job.payload != id {
      FailElsewhere(w, t, id);
    } else {
      FailHere(w, t, id);
    }
  }


  lemma DecideElsewhere(w: World, t: nat, pool: Option<SceneId>, id: nat)
    requires Local(w, id) && Enabled(w, Decide(t, pool)) && w.workers[t].job.payload != id
    ensures Keeps(StepDecide(w, t, pool), id)
  {
    var w' := StepDecide(w, t, pool);
    Elsewhere(w, w', t, id);
  }

  lemma GiveUpCounts(w: World, t: nat, pool: Option<SceneId>, id: nat)
    requires Grounded(w) && Enabled(w, Decide(t, pool)) && w.workers[t].job.payload == id
    requires StepDecide(w, t, pool).workers[t].Resolving?
    ensures var k := CountsOf(w, id);
      k.carried > 0 && CountsOf(StepDecide(w, t, pool), id) == k.(carried := k.carried - 1)
  {
    hide Sum;
    hide CountsOf;
    WorkerMoved(w, StepDecide(w, t, pool), t, id);
    Counted(w, t, id);
  }

  lemma SubstituteCounts(w: World, t: nat, pool: Option<SceneId>, id: nat)
    requires Grounded(w) && Enabled(w, Decide(t, pool)) && w.workers[t].job.payload == id
    requires StepDecide(w, t, pool).workers[t].Reviving?
    ensures var k := CountsOf(w, id);
      k.carried > 0 && CountsOf(StepDecide(w, t, pool), id)
        == k.(substitutes := k.substitutes + 1, refills := k.refills + w.shared.maxRetries)
  {
    hide Sum;
    hide CountsOf;
    WorkerMoved(w, StepDecide(w, t, pool), t, id);
    Counted(w, t, id);
  }

  lemma DecideHere(w: World, t: nat, pool: Option<SceneId>, id: nat)
    requires Local(w, id) && Enabled(w, Decide(t, pool)) && w.workers[t].job.payload == id
    ensures Keeps(StepDecide(w, t, pool), id)
  {
    hide CountsOf;
    if StepDecide(w, t, pool).workers[t].Resolving? {
      GiveUpCounts(w, t, pool, id);
    } else {
      SubstituteCounts(w, t, pool, id);
    }
  }

  lemma DecideKeeps(w: World, t: nat, pool: Option<SceneId>, id: nat)
    requires Local(w, id) && Enabled(w, Decide(t, pool))
    ensures Keeps(StepDecide(w, t, pool), id)
  {
    if w.workers[t].job.payload != id {
      DecideElsewhere(w, t, pool, id);
    } else {
      DecideHere(w, t, pool, id);
    }
  }


  lemma ReviveElsewhere(w: World, t: nat, id: nat)
    requires Local(w, id) && Enabled(w, Revive(t)) && w.workers[t].job.payload != id
    ensures Keeps(StepRevive(w, t), id)
  {
    var w' := StepRevive(w, t);
    if w.workers[t].Requeueing? {
      SumAppend(w.shared.queue, w'.shared.queue[|w.shared.queue|], Queued(id));
    }
    Elsewhere(w, w', t, id);
  }

  lemma RequeueCounts(w: World, t: nat, id: nat)
    requires Grounded(w) && Enabled(w, Revive(t)) && w.workers[t].Requeueing? && w.workers[t].job.payload == id
    ensures var k := CountsOf(w, id);
      k.carried > 0 && k.substitutes > 0 && CountsOf(StepRevive(w, t), id) ==
        k.(carried := k.carried - 1, substitutes := k.substitutes - 1, queued := k.queued + 1)
  {
    var w' := StepRevive(w, t);
    hide CountsOf;
    SumAppend(w.shared.queue, w'.shared.queue[|w.shared.queue|], Queued(id));
    WorkerMoved(w, w', t, id);
    Counted(w, t, id);
  }

  lemma ReviveCounts(w: World, t: nat, id: nat)
    requires Grounded(w) && Enabled(w, Revive(t)) && !w.workers[t].Requeueing? && w.workers[t].job.payload == id
    ensures var k, x := CountsOf(w, id), w.workers[t];
      k.carried > 0 && k.substitutes > 0 && (x.Unresolving? ==> k.held > 0) && CountsOf(StepRevive(w, t), id) ==
        if x.Unresolving? then k.(held := k.held - 1)
        else if x.Rebudgeting? then k.(refills := k.refills - w.shared.maxRetries)
        else k
  {
    hide CountsOf;
    var w' := StepRevive(w, t);
    WorkerMoved(w, w', t, id);
    Counted(w, t, id);
  }

  lemma ReviveHere(w: World, t: nat, id: nat)
    requires Local(w, id) && Enabled(w, Revive(t)) && w.workers[t].job.payload == id
    ensures Keeps(StepRevive(w, t), id)
  {
    hide CountsOf;
    CountsShape(w, id);
    if w.workers[t].Requeueing? {
      RequeueCounts(w, t, id);
    } else {
      ReviveCounts(w, t, id);
    }
  }

  lemma ReviveKeeps(w: World, t: nat, id: nat)
    requires Local(w, id) && Enabled(w, Revive(t))
    ensures Keeps(StepRevive(w, t), id)
  {
    if w.workers[t].job.payload != id {
      ReviveElsewhere(w, t, id);
    } else {
      ReviveHere(w, t, id);
    }
  }


  lemma ShutdownKeeps(w: World, id: nat)
    requires Local(w, id)
    ensures Keeps(Step(w, Shutdown), id)
  {
    var c := w.shared;
    var (c', owed) := DispatcherState.Close(c);
    SumAppend(w.closers, Draining(owed), Owes(id));
    UnresolvedOnce(c, |c.states|, id);
  }

  lemma DrainCounts(w: World, k: nat, id: nat)
    requires Grounded(w) && Enabled(w, Close(k)) && w.closers[k].Draining?
    ensures var n := CountsOf(w, id);
      CountsOf(StepClose(w, k), id)
        == n.(queued := n.queued - if w.shared.queue == [] then 0 else Queued(id)(Pop(w.shared).1))
  {
    hide Head;
    SumUpdate(w.closers, k, StepClose(w, k).closers[k], Owes(id));
    if w.shared.queue != [] {
      Popped(w.shared, id);
    }
  }

  lemma PostCounts(w: World, k: nat, id: nat)
    requires Grounded(w) && Enabled(w, Close(k)) && w.closers[k].Posting?
    ensures CountsOf(StepClose(w, k), id) == CountsOf(w, id)
  {
    SumUpdate(w.closers, k, StepClose(w, k).closers[k], Owes(id));
    SumAppend(w.shared.queue, Entry(SENTINEL, w.shared.nextOrder, None), Queued(id));
  }

  lemma ReleaseCounts(w: World, k: nat, id: nat)
    requires Grounded(w) && Enabled(w, Close(k)) && w.closers[k].Releasing?
    ensures var n, first := CountsOf(w, id), w.closers[k].owed[0];
      CountsOf(StepClose(w, k), id) == n.(owed := n.owed - Is(id)(first)) && (first == id ==> n.owed > 0)
  {
    SumUpdate(w.closers, k, StepClose(w, k).closers[k], Owes(id));
    SumAtLeast(w.closers, k, Owes(id));
  }

  lemma CloseCounts(w: World, k: nat, id: nat)
    requires Grounded(w) && Enabled(w, Close(k)) && id < |w.shared.states|
    ensures var n, x := CountsOf(w, id), w.closers[k];
      CountsOf(StepClose(w, k), id) ==
        if x.Draining? && w.shared.queue != [] then n.(queued := n.queued - Queued(id)(Pop(w.shared).1))
        else if x.Releasing? then n.(owed := n.owed - Is(id)(x.owed[0]))
        else n
    ensures w.closers[k].Releasing? && w.closers[k].owed[0] == id ==> CountsOf(w, id).owed > 0
  {
    hide CountsOf;
    match w.closers[k] {
      case Draining(_) => DrainCounts(w, k, id);
      case Posting(_, _) => PostCounts(w, k, id);
      case Releasing(_) => ReleaseCounts(w, k, id);
    }
  }

  lemma CloseKeeps(w: World, k: nat, id: nat)
    requires Local(w, id) && Enabled(w, Close(k))
    ensures Keeps(StepClose(w, k), id)
  {
    hide CountsOf;
    CountsShape(w, id);
    CloseCounts(w, k, id);
  }
}
