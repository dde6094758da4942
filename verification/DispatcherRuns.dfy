/** Properties of every run of the dispatcher from its initial state, whatever the interleaving. */
module DispatcherRuns {
  import opened Wrappers
  import opened Tally
  import opened DispatcherState
  import opened DispatcherProtocol
  import opened DispatcherInvariant
  import opened DispatcherSteps
  import opened DispatcherIndex

  predicate Possible(w: World, run: seq<Action>)
    requires Grounded(w)
    decreases |run|
  {
    run == [] || (Enabled(w, run[0]) && (StepGrounded(w, run[0]); Possible(Step(w, run[0]), run[1..])))
  }

  function After(w: World, run: seq<Action>): (w': World)
    requires Grounded(w) && Possible(w, run)
    ensures Grounded(w')
    decreases |run|
  {
    if run == [] then w else (StepGrounded(w, run[0]); After(Step(w, run[0]), run[1..]))
  }

  /** Some run of a freshly built worker leads to `w`. */
  ghost predicate Reachable(w: World) {
    exists workers: nat, run ::
      w.shared.target > 0 &&
      Possible(Start(w.shared.target, w.shared.maxRetries, workers), run) &&
      w == After(Start(w.shared.target, w.shared.maxRetries, workers), run)
  }

  lemma {:induction false} RunInv(w: World, run: seq<Action>)
    requires Inv(w) && Possible(w, run)
    ensures Inv(After(w, run))
    decreases |run|
  {
    if run != [] {
      StepInv(w, run[0]);
      RunInv(Step(w, run[0]), run[1..]);
    }
  }

  lemma ReachableInv(w: World)
    requires Reachable(w)
    ensures Inv(w)
  {
    var workers: nat, run :| Possible(Start(w.shared.target, w.shared.maxRetries, workers), run) &&
                             w == After(Start(w.shared.target, w.shared.maxRetries, workers), run);
    StartInv(w.shared.target, w.shared.maxRetries, workers);
    RunInv(Start(w.shared.target, w.shared.maxRetries, workers), run);
  }

  lemma {:induction false} RunThen(w: World, run: seq<Action>, a: Action)
    requires Grounded(w) && Possible(w, run) && Enabled(After(w, run), a)
    ensures Possible(w, run + [a]) && After(w, run + [a]) == Step(After(w, run), a)
    decreases |run|
  {
    if run == [] {
      StepGrounded(w, a);
      assert run + [a] == [a];
    } else {
      StepGrounded(w, run[0]);
      RunThen(Step(w, run[0]), run[1..], a);
      assert (run + [a])[1..] == run[1..] + [a];
    }
  }

  lemma ReachableStep(w: World, a: Action)
    requires Reachable(w) && Grounded(w) && Enabled(w, a)
    ensures Grounded(Step(w, a)) && Reachable(Step(w, a))
  {
    var workers: nat, run :| Possible(Start(w.shared.target, w.shared.maxRetries, workers), run) &&
                             w == After(Start(w.shared.target, w.shared.maxRetries, workers), run);
    RunThen(Start(w.shared.target, w.shared.maxRetries, workers), run, a);
    StepGrounded(w, a);
    StepExtends(w, a);
  }

  /** No run calls `set_result` twice on one future; while a call is still owed there has been none, and the value
      is empty or complete. */
  lemma ResolvedAtMostOnce(w: World, id: nat)
    requires Reachable(w) && id < |w.shared.states|
    ensures CountsOf(w, id).held + CountsOf(w, id).owed + |w.shared.states[id].delivered| <= 1
    ensures forall result :: result in w.shared.states[id].delivered ==> result == [] || |result| == w.shared.target
  {
    ReachableInv(w);
    assert CellInv(w, id) && GoodPayload(w.shared.states[id], w.shared.target);
  }

  /** Every job is queued, carried, collected or recorded as lost; so a payload conserves its jobs exactly when
      none was thrown away, and an unresolved payload no revive has touched has lost none. */
  lemma JobsConserved(w: World, id: nat)
    requires Reachable(w) && id < |w.shared.states|
    ensures |w.ledger| == |w.shared.states|
    ensures var s, k := w.shared.states[id], CountsOf(w, id);
      && k.queued + k.carried + |s.collected| + w.ledger[id].lost == w.shared.target
      && (k.queued + k.carried + |s.collected| == w.shared.target <==> w.ledger[id].lost == 0)
      && (Untouched(w, id) && !s.futureResolved ==> w.ledger[id].lost == 0 && !s.permanentlyFailed)
  {
    ReachableInv(w);
    assert CellInv(w, id) && IndexInv(w, id);
  }

  lemma CallsWithinGrant(w: World, id: nat)
    requires Inv(w) && id < |w.ledger|
    ensures w.ledger[id].calls <= w.shared.target + w.ledger[id].granted + w.ledger[id].revives
  {
    assert CellInv(w, id);
  }

  /** Simulate calls stay within the retry budget, which each entry into the revive branch renews once. */
  lemma CallsWithinBudget(w: World, id: nat)
    requires Reachable(w) && id < |w.ledger|
    ensures w.ledger[id].calls <=
              w.shared.target + w.shared.maxRetries * (1 + w.ledger[id].revives) + w.ledger[id].revives
  {
    ReachableInv(w);
    CallsWithinGrant(w, id);
  }

  lemma UnrevivedCalls(w: World, id: nat)
    requires Reachable(w) && id < |w.ledger| && w.ledger[id].revives == 0
    ensures w.ledger[id].calls <= w.shared.target + w.shared.maxRetries
  {
    CallsWithinBudget(w, id);
    assert w.shared.maxRetries * (1 + w.ledger[id].revives) == w.shared.maxRetries;
  }

  /** Nothing is queued for the payload, no worker carries it and nobody owes its future a value. */
  predicate Idle(w: World, id: nat) {
    var k := CountsOf(w, id);
    k.queued + k.carried + k.held + k.owed == 0
  }

  /** Once a payload has nothing left in flight its future has its value exactly when it is flagged resolved, which
      an untouched payload always is; a payload left hanging has thrown work away. */
  lemma IdleMeansResolved(w: World, id: nat)
    requires Reachable(w) && id < |w.shared.states|
    ensures |w.ledger| == |w.shared.states|
    ensures Idle(w, id) ==>
              && (|w.shared.states[id].delivered| == 1 <==> w.shared.states[id].futureResolved)
              && (!w.shared.states[id].futureResolved ==> w.ledger[id].lost > 0)
              && (Untouched(w, id) ==> |w.shared.states[id].delivered| == 1)
  {
    ReachableInv(w);
    assert CellInv(w, id) && IndexInv(w, id);
  }

  /** At most one unresolved payload per prompt index, as long as no revive has touched that index. */
  lemma OneLivePayloadPerPrompt(w: World, id: nat, other: nat)
    requires Reachable(w) && |w.ledger| == |w.shared.states|
    requires id < |w.shared.states| && other < |w.shared.states| && Untouched(w, id)
    requires w.shared.states[id].prompt == w.shared.states[other].prompt
    requires !w.shared.states[id].futureResolved && !w.shared.states[other].futureResolved
    ensures id == other
  {
    ReachableInv(w);
    assert IndexInv(w, id) && IndexInv(w, other);
  }

  /** The payloads of a prompt index still waiting for their value. */
  function Live(w: World, prompt: int): set<nat> {
    set id: nat | id < |w.shared.states| && w.shared.states[id].prompt == prompt && !w.shared.states[id].futureResolved
  }

  /** Submitting a prompt index puts a second payload beside an unresolved one of that index exactly when the worker is
      open, the index does not have it, and some payload of it is unresolved. */
  lemma SubmitDoublesIff(w: World, prompt: int, scene: SceneId)
    requires Reachable(w) && Grounded(w)
    ensures (var after := Live(Step(w, Submit(prompt, scene)), prompt);
             (exists id, other :: id in after && other in after && id != other && other !in Live(w, prompt)) <==>
               !w.shared.closed && prompt !in w.shared.active && Live(w, prompt) != {})
  {
    ReachableInv(w);
    var before, after := Live(w, prompt), Live(Step(w, Submit(prompt, scene)), prompt);
    SubmitLive(w, prompt, scene);
    var entrant := |w.shared.states|;
    if !w.shared.closed && prompt !in w.shared.active && before != {} {
      var id :| id in before;
      assert id in after && entrant in after && id != entrant;
    }
  }

  lemma SubmitLive(w: World, prompt: int, scene: SceneId)
    requires Grounded(w)
    ensures Live(Step(w, Submit(prompt, scene)), prompt)
            == Live(w, prompt) + if w.shared.closed || prompt in w.shared.active then {} else {|w.shared.states|}
  {
    var c := w.shared;
    if !c.closed && prompt !in c.active {
      PutFreshShape(c.(states := c.states + [Payload(prompt, c.maxRetries, [], false, false, [])],
                       active := c.active[prompt := |c.states|]), |c.states|, scene, c.target);
    }
  }

  // ---------- shutdown ----------

  function AnyJob(): Entry -> nat {
    (e: Entry) => if e.job.Some? then 1 else 0
  }

  /** After shutdown's locked section every payload no revive has touched is resolved, and it has no job left that
      could be queued again: either it failed for good or all its episodes have been collected. */
  lemma ClosedPayload(w: World, id: nat)
    requires Inv(w) && w.shared.closed && id < |w.shared.states| && Untouched(w, id)
    ensures w.shared.states[id].futureResolved
    ensures w.shared.states[id].permanentlyFailed || CountsOf(w, id).queued + CountsOf(w, id).carried == 0
  {
    assert CellInv(w, id) && IndexInv(w, id);
  }

  /** Once closed, only a step about a payload whose prompt index saw a revive can queue a job. */
  lemma NoJobQueuedAfterClose(w: World, a: Action)
    requires Reachable(w) && w.shared.closed && Grounded(w) && Enabled(w, a)
    ensures Step(w, a).shared.closed
    ensures Sum(Step(w, a).shared.queue, AnyJob()) <= Sum(w.shared.queue, AnyJob()) ||
            ((a.Fail? || a.Revive?) && !Untouched(w, w.workers[a.t].job.payload))
  {
    hide Sum;
    ReachableInv(w);
    match a {
      case Fetch(t) => SumRemove(w.shared.queue, Head(w.shared.queue), AnyJob());
      case Fail(t) => FailingQueuesNoJob(w, t);
      case Revive(t) =>
        assert CellInv(w, w.workers[t].job.payload);
        RevivingTouched(w, t);
      case Close(k) => ClosingQueuesNoJob(w, k);
      case _ =>
    }
  }

  lemma FailingQueuesNoJob(w: World, t: nat)
    requires Inv(w) && w.shared.closed && Enabled(w, Fail(t))
    ensures StepFail(w, t).shared.closed
    ensures StepFail(w, t).shared.queue == w.shared.queue || !Untouched(w, w.workers[t].job.payload)
  {
    var id := w.workers[t].job.payload;
    if Untouched(w, id) {
      ClosedPayload(w, id);
      SumAtLeast(w.workers, t, Carries(id));
    }
  }

  lemma ClosingQueuesNoJob(w: World, k: nat)
    requires Grounded(w) && Enabled(w, Close(k))
    ensures Step(w, Close(k)).shared.closed == w.shared.closed
    ensures Sum(Step(w, Close(k)).shared.queue, AnyJob()) <= Sum(w.shared.queue, AnyJob())
  {
    match w.closers[k] {
      case Draining(_) => if w.shared.queue != [] {
        SumRemove(w.shared.queue, Head(w.shared.queue), AnyJob());
      }
      case Posting(_, _) => SumAppend(w.shared.queue, Entry(SENTINEL, w.shared.nextOrder, None), AnyJob());
      case Releasing(_) =>
    }
  }

  /** Some shutdown call still owes the payload its `[]`, or has already delivered it and nothing else. */
  predicate ClosedOut(w: World, id: nat)
    requires id < |w.shared.states|
  {
    w.shared.states[id].futureResolved &&
    if w.shared.states[id].delivered == [] then Sum(w.closers, Owes(id)) == 1
    else w.shared.states[id].delivered == [[]]
  }

  lemma ClosedOutStays(w: World, a: Action, id: nat)
    requires Inv(w) && Enabled(w, a) && id < |w.shared.states| && ClosedOut(w, id)
    ensures id < |Step(w, a).shared.states| && ClosedOut(Step(w, a), id)
  {
    assert CellInv(w, id);
    match a {
      case Submit(prompt, scene) =>
        var c := w.shared;
        if !c.closed && prompt !in c.active {
          PutFreshShape(c.(states := c.states + [Payload(prompt, c.maxRetries, [], false, false, [])],
                           active := c.active[prompt := |c.states|]), |c.states|, scene, c.target);
        }
      case Shutdown =>
        SumAppend(w.closers, Draining(DispatcherState.Close(w.shared).1), Owes(id));
        UnresolvedOnce(w.shared, |w.shared.states|, id);
      case Close(k) => ClosedOutClose(w, k, id);
      case _ => ClosedOutWorker(w, a, id);
    }
  }

  predicate FutureKept(w: World, w': World, id: nat)
    requires id < |w.shared.states|
  {
    && w'.closers == w.closers && id < |w'.shared.states|
    && w'.shared.states[id].futureResolved && w'.shared.states[id].delivered == w.shared.states[id].delivered
  }

  lemma ClosedOutWorker(w: World, a: Action, id: nat)
    requires Grounded(w) && Enabled(w, a) && id < |w.shared.states| && ClosedOut(w, id) && CellInv(w, id)
    requires !a.Submit? && !a.Shutdown? && !a.Close?
    ensures id < |Step(w, a).shared.states| && ClosedOut(Step(w, a), id)
  {
    SumAtLeast(w.workers, a.t, Holds(id));
    assert Holds(id)(w.workers[a.t]) == 0;
    assert FutureKept(w, Step(w, a), id) by {
      match a {
        case Fetch(t) =>
        case Check(t) => CheckKeepsFuture(w, t, id);
        case SimulateOk(t) =>
        case Succeed(t) => SucceedKeepsFuture(w, t, id);
        case Fail(t) => FailKeepsFuture(w, t, id);
        case Resolve(t) =>
        case Decide(t, pool) => DecideKeepsFuture(w, t, pool, id);
        case Revive(t) => ReviveKeepsFuture(w, t, id);
      }
    }
  }

  lemma CheckKeepsFuture(w: World, t: nat, id: nat)
    requires Grounded(w) && Enabled(w, Check(t)) && id < |w.shared.states| && w.shared.states[id].futureResolved
    requires Holds(id)(w.workers[t]) == 0
    ensures FutureKept(w, StepCheck(w, t), id)
  {
  }

  lemma SucceedKeepsFuture(w: World, t: nat, id: nat)
    requires Grounded(w) && Enabled(w, Succeed(t)) && id < |w.shared.states| && w.shared.states[id].futureResolved
    requires Holds(id)(w.workers[t]) == 0
    ensures FutureKept(w, StepSucceed(w, t), id)
  {
  }

  lemma FailKeepsFuture(w: World, t: nat, id: nat)
    requires Grounded(w) && Enabled(w, Fail(t)) && id < |w.shared.states| && w.shared.states[id].futureResolved
    requires Holds(id)(w.workers[t]) == 0
    ensures FutureKept(w, StepFail(w, t), id)
  {
  }

  lemma DecideKeepsFuture(w: World, t: nat, pool: Option<SceneId>, id: nat)
    requires Grounded(w) && Enabled(w, Decide(t, pool)) && id < |w.shared.states| && w.shared.states[id].futureResolved
    requires Holds(id)(w.workers[t]) == 0
    ensures FutureKept(w, StepDecide(w, t, pool), id)
  {
  }

  lemma ReviveKeepsFuture(w: World, t: nat, id: nat)
    requires Grounded(w) && Enabled(w, Revive(t)) && id < |w.shared.states| && w.shared.states[id].futureResolved
    requires Holds(id)(w.workers[t]) == 0
    ensures FutureKept(w, StepRevive(w, t), id)
  {
  }

  lemma ClosedOutClose(w: World, k: nat, id: nat)
    requires Grounded(w) && Enabled(w, Close(k)) && id < |w.shared.states| && ClosedOut(w, id) && CellInv(w, id)
    ensures id < |StepClose(w, k).shared.states| && ClosedOut(StepClose(w, k), id)
  {
    if w.closers[k].Releasing? && w.closers[k].owed[0] == id {
      CloseCounts(w, k, id);
    } else {
      OtherRelease(w, k, id);
    }
  }

  lemma OtherRelease(w: World, k: nat, id: nat)
    requires Grounded(w) && Enabled(w, Close(k)) && id < |w.shared.states|
    requires w.closers[k].Releasing? ==> w.closers[k].owed[0] != id
    ensures var w' := StepClose(w, k); id < |w'.shared.states| && w'.shared.states[id] == w.shared.states[id]
    ensures Sum(StepClose(w, k).closers, Owes(id)) == Sum(w.closers, Owes(id))
  {
    SumUpdate(w.closers, k, StepClose(w, k).closers[k], Owes(id));
  }

  /** Every payload indexed and unresolved when a shutdown takes the lock ends with `[]` and nothing else, in every
      continuation of the run. */
  lemma ShutdownResolvesEmpty(w: World, id: nat, run: seq<Action>)
    requires Reachable(w) && Grounded(w)
    requires id < |w.shared.states| && Indexed(w.shared, id) && !w.shared.states[id].futureResolved
    requires Grounded(Step(w, Shutdown)) && Possible(Step(w, Shutdown), run)
    ensures var w' := After(Step(w, Shutdown), run);
      id < |w'.shared.states| && ClosedOut(w', id) && (Idle(w', id) ==> w'.shared.states[id].delivered == [[]])
  {
    ReachableInv(w);
    assert CellInv(w, id);
    StepInv(w, Shutdown);
    UnresolvedOnce(w.shared, |w.shared.states|, id);
    SumAppend(w.closers, Draining(DispatcherState.Close(w.shared).1), Owes(id));
    ClosedOutRun(Step(w, Shutdown), id, run);
  }

  /** A shutdown takes care of an unresolved payload exactly when the index still maps its prompt to it. */
  lemma ShutdownReachesIffIndexed(w: World, id: nat)
    requires Reachable(w) && Grounded(w) && id < |w.shared.states| && !w.shared.states[id].futureResolved
    ensures id < |Step(w, Shutdown).shared.states|
    ensures ClosedOut(Step(w, Shutdown), id) <==> Indexed(w.shared, id)
  {
    ReachableInv(w);
    UnresolvedUnowed(w, id);
    ShutdownOwes(w, id);
    hide Unresolved, Sum;
  }

  lemma UnresolvedUnowed(w: World, id: nat)
    requires Inv(w) && id < |w.shared.states| && !w.shared.states[id].futureResolved
    ensures w.shared.states[id].delivered == [] && Sum(w.closers, Owes(id)) == 0
  {
    hide Sum, Head, ActiveInv, ResultInv, GrantInv, IndexInv;
    assert CellInv(w, id);
  }

  /** The closer a shutdown starts owes each indexed unresolved payload one value, and the others none. */
  lemma ShutdownOwes(w: World, id: nat)
    requires Grounded(w) && id < |w.shared.states|
    ensures Sum(Step(w, Shutdown).closers, Owes(id)) == Sum(w.closers, Owes(id))
            + if Indexed(w.shared, id) && !w.shared.states[id].futureResolved then 1 else 0
  {
    hide Head, Sum;
    UnresolvedOnce(w.shared, |w.shared.states|, id);
    SumAppend(w.closers, Draining(DispatcherState.Close(w.shared).1), Owes(id));
  }

  lemma {:induction false} ClosedOutRun(w: World, id: nat, run: seq<Action>)
    requires Inv(w) && Possible(w, run) && id < |w.shared.states| && ClosedOut(w, id)
    ensures id < |After(w, run).shared.states| && ClosedOut(After(w, run), id)
    decreases |run|
  {
    if run != [] {
      StepInv(w, run[0]);
      ClosedOutStays(w, run[0], id);
      ClosedOutRun(Step(w, run[0]), id, run[1..]);
    }
  }

  /** Sentinels have the lowest priority and jobs the higher two. */
  predicate Ranked(queue: seq<Entry>) {
    forall i :: 0 <= i < |queue| ==>
      if queue[i].job.None? then queue[i].priority == SENTINEL
      else queue[i].priority == RETRY || queue[i].priority == FRESH
  }

  lemma SubmitRanked(w: World, prompt: int, scene: SceneId)
    requires Grounded(w) && Ranked(w.shared.queue)
    ensures Ranked(Step(w, Submit(prompt, scene)).shared.queue)
  {
    var c := w.shared;
    if !c.closed && prompt !in c.active {
      PutFreshShape(c.(states := c.states + [Payload(prompt, c.maxRetries, [], false, false, [])],
                       active := c.active[prompt := |c.states|]), |c.states|, scene, c.target);
      var queue := Step(w, Submit(prompt, scene)).shared.queue;
      assert forall i :: 0 <= i < |c.queue| ==> queue[..|c.queue|][i] == c.queue[i];
    }
  }

  lemma CloseRanked(w: World, k: nat)
    requires Grounded(w) && Enabled(w, Close(k)) && Ranked(w.shared.queue)
    ensures Ranked(StepClose(w, k).shared.queue)
  {
    hide Head;
  }

  lemma FailRanked(w: World, t: nat)
    requires Grounded(w) && Enabled(w, Fail(t)) && Ranked(w.shared.queue)
    ensures Ranked(StepFail(w, t).shared.queue)
  {
  }

  lemma StepRanked(w: World, a: Action)
    requires Grounded(w) && Enabled(w, a) && Ranked(w.shared.queue)
    ensures Ranked(Step(w, a).shared.queue)
  {
    match a {
      case Submit(prompt, scene) => SubmitRanked(w, prompt, scene);
      case Fail(t) => FailRanked(w, t);
      case Revive(t) =>
      case Close(k) => CloseRanked(w, k);
      case _ =>
    }
  }

  lemma {:induction false} RunRanked(w: World, run: seq<Action>)
    requires Grounded(w) && Possible(w, run) && Ranked(w.shared.queue)
    ensures Ranked(After(w, run).shared.queue)
    decreases |run|
  {
    if run != [] {
      StepGrounded(w, run[0]);
      StepRanked(w, run[0]);
      RunRanked(Step(w, run[0]), run[1..]);
    }
  }

  /** Workers serve every waiting retry before any fresh job, stop on a sentinel only when no job is queued, and a
      stopped worker never acts again. */
  lemma ServingOrder(w: World, t: nat)
    requires Reachable(w) && Grounded(w) && Enabled(w, Fetch(t))
    ensures var x := Step(w, Fetch(t)).workers[t]; var queue := w.shared.queue;
      && (x.Stopped? ==> forall i :: 0 <= i < |queue| ==> queue[i].job.None?)
      && ((exists i :: 0 <= i < |queue| && queue[i].priority == RETRY) ==>
            Pop(w.shared).1.priority == RETRY && x.Fetched?)
    ensures Step(w, Fetch(t)).workers[t].Stopped? ==>
              forall a: Action :: !a.Submit? && !a.Shutdown? && !a.Close? && a.t == t ==> !Enabled(Step(w, Fetch(t)), a)
  {
    var workers: nat, run :| Possible(Start(w.shared.target, w.shared.maxRetries, workers), run) &&
                             w == After(Start(w.shared.target, w.shared.maxRetries, workers), run);
    RunRanked(Start(w.shared.target, w.shared.maxRetries, workers), run);
    var head := w.shared.queue[Head(w.shared.queue)];
    forall i | 0 <= i < |w.shared.queue| ensures !Before(w.shared.queue[i], head) {
    }
  }
}
