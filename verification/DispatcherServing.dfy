/** In what order jobs are served, what a submit hands out, and what a payload that has failed for good still costs. */
module DispatcherServing {
  import opened Wrappers
  import opened Tally
  import opened DispatcherState
  import opened DispatcherProtocol
  import opened DispatcherInvariant
  import opened DispatcherIndex
  import opened DispatcherRuns

  // ---------- first in, first out ----------

  /** Entries stand in the order in which they were put. */
  predicate InPutOrder(queue: seq<Entry>, next: nat) {
    && (forall i :: 0 <= i < |queue| ==> queue[i].order < next)
    && forall i, j :: 0 <= i < j < |queue| ==> queue[i].order < queue[j].order
  }

  lemma {:induction false} PutFreshInOrder(c: Shared, payload: nat, scene: SceneId, count: nat)
    requires InPutOrder(c.queue, c.nextOrder)
    ensures InPutOrder(PutFresh(c, payload, scene, count).queue, PutFresh(c, payload, scene, count).nextOrder)
  {
    if count > 0 {
      PutFreshInOrder(c, payload, scene, count - 1);
    }
  }

  lemma SubmitInOrder(w: World, prompt: int, scene: SceneId)
    requires Grounded(w) && InPutOrder(w.shared.queue, w.shared.nextOrder)
    ensures (var c' := Step(w, Submit(prompt, scene)).shared; InPutOrder(c'.queue, c'.nextOrder))
  {
    var c := w.shared;
    if !c.closed && prompt !in c.active {
      PutFreshInOrder(c.(states := c.states + [Payload(prompt, c.maxRetries, [], false, false, [])],
                         active := c.active[prompt := |c.states|]), |c.states|, scene, c.target);
    }
  }

  lemma FailInOrder(w: World, t: nat)
    requires Grounded(w) && Enabled(w, Fail(t)) && InPutOrder(w.shared.queue, w.shared.nextOrder)
    ensures (var c' := Step(w, Fail(t)).shared; InPutOrder(c'.queue, c'.nextOrder))
  {
  }

  lemma PopInOrder(c: Shared)
    requires c.queue != [] && InPutOrder(c.queue, c.nextOrder)
    ensures InPutOrder(Pop(c).0.queue, c.nextOrder)
  {
    hide Head;
    var i, after := Head(c.queue), Pop(c).0.queue;
    assert forall j :: 0 <= j < |after| ==> after[j] == c.queue[if j < i then j else j + 1];
  }

  lemma CloseInOrder(w: World, k: nat)
    requires Grounded(w) && Enabled(w, Close(k)) && InPutOrder(w.shared.queue, w.shared.nextOrder)
    ensures (var c' := Step(w, Close(k)).shared; InPutOrder(c'.queue, c'.nextOrder))
  {
    if w.closers[k].Draining? && w.shared.queue != [] {
      PopInOrder(w.shared);
      hide Pop, InPutOrder;
    }
  }

  lemma StepInOrder(w: World, a: Action)
    requires Grounded(w) && Enabled(w, a) && InPutOrder(w.shared.queue, w.shared.nextOrder)
    ensures (var c' := Step(w, a).shared; InPutOrder(c'.queue, c'.nextOrder))
  {
    match a {
      case Submit(prompt, scene) => SubmitInOrder(w, prompt, scene);
      case Fetch(t) =>
        PopInOrder(w.shared);
        hide Pop, InPutOrder;
      case Fail(t) => FailInOrder(w, t);
      case Close(k) => CloseInOrder(w, k);
      case _ =>
    }
  }

  lemma {:induction false} RunInOrder(w: World, run: seq<Action>)
    requires Grounded(w) && Possible(w, run) && InPutOrder(w.shared.queue, w.shared.nextOrder)
    ensures (var c' := After(w, run).shared; InPutOrder(c'.queue, c'.nextOrder))
    decreases |run|
  {
    hide InPutOrder, Step, Enabled;
    if run != [] {
      StepGrounded(w, run[0]);
      StepInOrder(w, run[0]);
      RunInOrder(Step(w, run[0]), run[1..]);
    }
  }

  /** The entry served is the one put first among the most urgent. */
  lemma FirstPutFirstServed(w: World)
    requires Reachable(w) && w.shared.queue != []
    ensures (var queue, served := w.shared.queue, Pop(w.shared).1;
             exists i :: && 0 <= i < |queue| && queue[i] == served
                         && (forall j :: 0 <= j < i ==> queue[j].priority > served.priority)
                         && (forall j :: i < j < |queue| ==> queue[j].priority >= served.priority))
  {
    var workers: nat, run :| Possible(Start(w.shared.target, w.shared.maxRetries, workers), run) &&
                             w == After(Start(w.shared.target, w.shared.maxRetries, workers), run);
    RunInOrder(Start(w.shared.target, w.shared.maxRetries, workers), run);
    var queue := w.shared.queue;
    var i := Head(queue);
    hide Head;
    assert forall j :: 0 <= j < |queue| ==> !Before(queue[j], queue[i]);
  }

  // ---------- what a submit hands out ----------

  /** A submit fails exactly on a closed worker; otherwise it hands out an unresolved payload of its own prompt index,
      the one the index has from then on, and a new one is wanted whole: all its jobs queued, nothing collected. */
  lemma SubmitHandsOut(w: World, prompt: int, scene: SceneId)
    requires Reachable(w) && Grounded(w)
    ensures (var (c, r) := DispatcherState.Submit(w.shared, prompt, scene);
             && (r.Err? <==> w.shared.closed)
             && (r.Err? ==> c == w.shared)
             && (r.Ok? ==> && r.value < |c.states| && Indexed(c, r.value) && c.states[r.value].prompt == prompt
                           && !c.states[r.value].futureResolved
                           && (r.value < |w.shared.states| ==> c == w.shared)
                           && (r.value >= |w.shared.states| ==>
                                 && c.states[r.value] == Payload(prompt, c.maxRetries, [], false, false, [])
                                 && Sum(c.queue, Queued(r.value)) == c.target)))
  {
    ReachableInv(w);
    hide Sum;
    var c := w.shared;
    if !c.closed && prompt !in c.active {
      var grown := c.(states := c.states + [Payload(prompt, c.maxRetries, [], false, false, [])],
                      active := c.active[prompt := |c.states|]);
      PutFreshShape(grown, |c.states|, scene, c.target);
      PutFreshCount(grown, |c.states|, scene, c.target, |c.states|);
      AbsentFromQueue(c.queue, |c.states|);
    }
  }

  // ---------- payloads that have failed for good ----------

  /** An unrevived payload that has failed for good stays failed. */
  predicate FailedFor(w: World, id: nat) {
    id < |w.shared.states| && |w.ledger| == |w.shared.states| && w.shared.states[id].permanentlyFailed
  }

  lemma SubmitFailed(w: World, prompt: int, scene: SceneId, id: nat)
    requires Grounded(w) && FailedFor(w, id)
    ensures (var w' := Step(w, Submit(prompt, scene)); FailedFor(w', id) && w'.ledger[id] == w.ledger[id])
  {
    var c := w.shared;
    if !c.closed && prompt !in c.active {
      PutFreshShape(c.(states := c.states + [Payload(prompt, c.maxRetries, [], false, false, [])],
                       active := c.active[prompt := |c.states|]), |c.states|, scene, c.target);
    }
  }

  lemma FailFailed(w: World, t: nat, id: nat)
    requires Grounded(w) && Enabled(w, Fail(t)) && FailedFor(w, id)
    ensures (var w' := StepFail(w, t); FailedFor(w', id) && w'.ledger[id].calls == w.ledger[id].calls)
  {
  }

  lemma CloseFailed(w: World, k: nat, id: nat)
    requires Grounded(w) && Enabled(w, Close(k)) && FailedFor(w, id)
    ensures (var w' := StepClose(w, k); FailedFor(w', id) && w'.ledger[id].calls == w.ledger[id].calls)
  {
    hide Head;
  }

  lemma DecideFailed(w: World, t: nat, pool: Option<SceneId>, id: nat)
    requires Grounded(w) && Enabled(w, Decide(t, pool)) && FailedFor(w, id)
    ensures (var w' := StepDecide(w, t, pool); FailedFor(w', id) && w'.ledger[id].calls == w.ledger[id].calls)
  {
  }

  lemma StepFailed(w: World, a: Action, id: nat)
    requires Inv(w) && Enabled(w, a) && FailedFor(w, id) && w.ledger[id].revives == 0
    ensures FailedFor(Step(w, a), id) && Step(w, a).ledger[id].calls == w.ledger[id].calls
  {
    hide CellInv, IndexInv, ActiveInv, ResultInv, GrantInv;
    match a {
      case Submit(prompt, scene) => SubmitFailed(w, prompt, scene, id);
      case Fail(t) => FailFailed(w, t, id);
      case Decide(t, pool) => DecideFailed(w, t, pool, id);
      case Revive(t) =>
        assert CellInv(w, w.workers[t].job.payload);
        RevivingTouched(w, t);
      case Close(k) => CloseFailed(w, k, id);
      case _ =>
    }
  }

  lemma {:induction false} RunFailed(w: World, run: seq<Action>, id: nat)
    requires Inv(w) && Possible(w, run) && FailedFor(w, id)
    requires id < |After(w, run).ledger| && After(w, run).ledger[id].revives == 0
    ensures FailedFor(After(w, run), id) && After(w, run).ledger[id].calls == w.ledger[id].calls
    decreases |run|
  {
    if run != [] {
      hide Inv, FailedFor;
      var w' := Step(w, run[0]);
      StepInv(w, run[0]);
      StepExtends(w, run[0]);
      RunExtends(w', run[1..]);
      FailedInRange(w, id);
      assert w'.ledger[id].revives == 0;
      StepFailed(w, run[0], id);
      RunFailed(w', run[1..], id);
    }
  }

  lemma FailedInRange(w: World, id: nat)
    requires FailedFor(w, id)
    ensures id < |w.ledger| == |w.shared.states|
  {
  }

  lemma {:induction false} RunExtends(w: World, run: seq<Action>)
    requires Grounded(w) && Possible(w, run)
    ensures Extends(w, After(w, run))
    decreases |run|
  {
    hide Step, Enabled;
    if run != [] {
      StepGrounded(w, run[0]);
      StepExtends(w, run[0]);
      RunExtends(Step(w, run[0]), run[1..]);
    }
  }

  /** Once a payload has failed for good, no thread simulates for it again as long as no revive touches it. */
  lemma NoCallsOnceFailed(w: World, run: seq<Action>, id: nat)
    requires Reachable(w) && Grounded(w) && Possible(w, run)
    requires id < |w.shared.states| && w.shared.states[id].permanentlyFailed
    requires id < |After(w, run).ledger| && After(w, run).ledger[id].revives == 0
    ensures |w.ledger| == |w.shared.states| && After(w, run).ledger[id].calls == w.ledger[id].calls
  {
    ReachableInv(w);
    RunFailed(w, run, id);
  }

  // ---------- what an unrevived payload delivers ----------

  /** What the future of an unrevived payload is due. */
  function Due(s: Payload): seq<Episode> {
    if s.permanentlyFailed then [] else s.collected
  }

  predicate WorkerDue(x: Worker, w: World) {
    && (x.Resolving? && x.payload < |w.ledger| == |w.shared.states| && w.ledger[x.payload].revives == 0 ==>
          x.result == Due(w.shared.states[x.payload]) && w.shared.states[x.payload].futureResolved)
    && (x.Dropping? && x.job.payload < |w.ledger| == |w.shared.states| && w.ledger[x.job.payload].revives == 0 ==>
          w.shared.states[x.job.payload].permanentlyFailed)
  }

  predicate PayloadDue(w: World, id: nat)
    requires id < |w.shared.states| == |w.ledger|
  {
    var s := w.shared.states[id];
    w.ledger[id].revives == 0 ==>
      && (forall i :: 0 <= i < |s.delivered| ==> s.delivered[i] == Due(s))
      && (Sum(w.closers, Owes(id)) > 0 ==> s.permanentlyFailed)
  }

  predicate Dues(w: World) {
    && |w.ledger| == |w.shared.states|
    && (forall t :: 0 <= t < |w.workers| ==> WorkerDue(w.workers[t], w))
    && (forall id :: 0 <= id < |w.shared.states| ==> PayloadDue(w, id))
  }

  /** What the due of a resolved payload rests on: while unrevived it does not change any more. */
  lemma DueSettled(w: World, a: Action, id: nat)
    requires Inv(w) && Enabled(w, a) && id < |w.shared.states| && w.shared.states[id].futureResolved
    requires Grounded(Step(w, a)) && id < |Step(w, a).shared.states| == |Step(w, a).ledger|
    requires Step(w, a).ledger[id].revives == 0 && !a.Revive?
    ensures Due(Step(w, a).shared.states[id]) == Due(w.shared.states[id])
    ensures Step(w, a).shared.states[id].futureResolved
  {
    StepExtends(w, a);
    assert CellInv(w, id);
    hide CellInv, IndexInv, ActiveInv, ResultInv, GrantInv;
    match a {
      case Submit(prompt, scene) => SubmitSettled(w, prompt, scene, id);
      case Succeed(t) => SucceedSettled(w, t, id);
      case Fail(t) => FailSettled(w, t, id);
      case Close(k) => CloseSettled(w, k, id);
      case Shutdown =>
      case _ => OtherSettled(w, a, id);
    }
  }

  lemma OtherSettled(w: World, a: Action, id: nat)
    requires Grounded(w) && Enabled(w, a) && id < |w.shared.states|
    requires a.Fetch? || a.Check? || a.SimulateOk? || a.Resolve? || a.Decide?
    ensures id < |Step(w, a).shared.states|
    ensures Due(Step(w, a).shared.states[id]) == Due(w.shared.states[id])
    ensures Step(w, a).shared.states[id].futureResolved == w.shared.states[id].futureResolved
  {
    hide Head;
  }

  lemma SubmitSettled(w: World, prompt: int, scene: SceneId, id: nat)
    requires Grounded(w) && id < |w.shared.states|
    ensures id < |Step(w, Submit(prompt, scene)).shared.states|
    ensures Step(w, Submit(prompt, scene)).shared.states[id] == w.shared.states[id]
  {
    var c := w.shared;
    if !c.closed && prompt !in c.active {
      PutFreshShape(c.(states := c.states + [Payload(prompt, c.maxRetries, [], false, false, [])],
                       active := c.active[prompt := |c.states|]), |c.states|, scene, c.target);
    }
  }

  lemma CloseSettled(w: World, k: nat, id: nat)
    requires Grounded(w) && Enabled(w, Close(k)) && id < |w.shared.states|
    ensures Due(StepClose(w, k).shared.states[id]) == Due(w.shared.states[id])
    ensures StepClose(w, k).shared.states[id].futureResolved == w.shared.states[id].futureResolved
  {
    hide Head;
  }

  lemma SucceedSettled(w: World, t: nat, id: nat)
    requires Grounded(w) && Enabled(w, Succeed(t)) && id < |w.shared.states| && w.shared.states[id].futureResolved
    requires CellInv(w, id) && w.ledger[id].revives == 0
    ensures Due(StepSucceed(w, t).shared.states[id]) == Due(w.shared.states[id])
    ensures StepSucceed(w, t).shared.states[id].futureResolved
  {
    Counted(w, t, id);
    CountsShape(w, id);
    hide CountsOf;
  }

  lemma FailSettled(w: World, t: nat, id: nat)
    requires Grounded(w) && Enabled(w, Fail(t)) && id < |w.shared.states| && w.shared.states[id].futureResolved
    requires CellInv(w, id) && w.ledger[id].revives == 0
    ensures Due(StepFail(w, t).shared.states[id]) == Due(w.shared.states[id])
    ensures StepFail(w, t).shared.states[id].futureResolved
  {
    Counted(w, t, id);
    CountsShape(w, id);
    hide CountsOf;
  }

  lemma ReviveLeavesDue(w: World, t: nat, id: nat)
    requires Inv(w) && Enabled(w, Revive(t)) && id < |w.shared.states| && w.ledger[id].revives == 0
    ensures Step(w, Revive(t)).shared.states[id] == w.shared.states[id] && Step(w, Revive(t)).ledger[id].revives == 0
  {
    assert CellInv(w, w.workers[t].job.payload);
    RevivingTouched(w, t);
  }

  lemma FailedStays(w: World, a: Action, id: nat)
    requires Inv(w) && Enabled(w, a) && FailedFor(w, id) && id < |Step(w, a).ledger|
    requires Step(w, a).ledger[id].revives == 0
    ensures FailedFor(Step(w, a), id)
  {
    StepExtends(w, a);
    StepFailed(w, a, id);
  }

  /** A worker that stays where it is is still due what it was. */
  lemma WorkerStays(w: World, a: Action, x: Worker)
    requires Inv(w) && Enabled(w, a) && Inv(Step(w, a)) && WorkerDue(x, w) && GroundedWorker(x, |w.shared.states|)
    ensures WorkerDue(x, Step(w, a))
  {
    var w' := Step(w, a);
    StepExtends(w, a);
    hide Inv, Due, Enabled, Step;
    if x.Resolving? && w'.ledger[x.payload].revives == 0 {
      if a.Revive? {
        ReviveLeavesDue(w, a.t, x.payload);
      } else {
        InvGrounded(w');
        DueSettled(w, a, x.payload);
      }
    }
    if x.Dropping? && w'.ledger[x.job.payload].revives == 0 {
      FailedStays(w, a, x.job.payload);
    }
  }

  lemma InvGrounded(w: World)
    requires Inv(w)
    ensures Grounded(w)
  {
  }

  lemma ResolvedIfDelivered(w: World, id: nat)
    requires Inv(w) && id < |w.shared.states|
    ensures w.shared.states[id].delivered != [] ==> w.shared.states[id].futureResolved
  {
    assert CellInv(w, id);
  }

  /** A payload nothing was delivered to in this step. */
  lemma PayloadStays(w: World, a: Action, id: nat)
    requires Inv(w) && Enabled(w, a) && Inv(Step(w, a)) && id < |w.shared.states| == |w.ledger| && PayloadDue(w, id)
    requires id < |Step(w, a).shared.states| == |Step(w, a).ledger|
    requires Step(w, a).shared.states[id].delivered == w.shared.states[id].delivered
    requires Sum(Step(w, a).closers, Owes(id)) <= Sum(w.closers, Owes(id))
    ensures PayloadDue(Step(w, a), id)
  {
    var w' := Step(w, a);
    StepExtends(w, a);
    ResolvedIfDelivered(w, id);
    InvGrounded(w');
    hide Inv, Due, Enabled, Step, Sum;
    if w'.ledger[id].revives == 0 {
      if a.Revive? {
        ReviveLeavesDue(w, a.t, id);
      } else if w.shared.states[id].delivered != [] {
        DueSettled(w, a, id);
      }
      if Sum(w.closers, Owes(id)) > 0 {
        FailedStays(w, a, id);
      }
    }
  }

  lemma SubmitDue(w: World, prompt: int, scene: SceneId, id: nat)
    requires Inv(w) && Inv(Step(w, Submit(prompt, scene))) && Dues(w)
    requires id < |Step(w, Submit(prompt, scene)).shared.states| == |Step(w, Submit(prompt, scene)).ledger|
    ensures PayloadDue(Step(w, Submit(prompt, scene)), id)
  {
    var c, w' := w.shared, Step(w, Submit(prompt, scene));
    if id < |c.states| {
      SubmitSettled(w, prompt, scene, id);
      PayloadStays(w, Submit(prompt, scene), id);
    } else {
      PutFreshShape(c.(states := c.states + [Payload(prompt, c.maxRetries, [], false, false, [])],
                       active := c.active[prompt := |c.states|]), |c.states|, scene, c.target);
      AbsentFromClosers(w.closers, id);
    }
  }

  lemma ResolveDue(w: World, t: nat, id: nat)
    requires Inv(w) && Enabled(w, Resolve(t)) && Dues(w) && id < |w.shared.states| == |w.ledger|
    ensures id < |Step(w, Resolve(t)).shared.states| == |Step(w, Resolve(t)).ledger|
    ensures PayloadDue(Step(w, Resolve(t)), id)
  {
    hide Inv, Sum;
    InvGrounded(w);
    assert WorkerDue(w.workers[t], w) && PayloadDue(w, id);
  }

  lemma ShutdownDue(w: World, id: nat)
    requires Inv(w) && Dues(w) && id < |w.shared.states| == |w.ledger|
    ensures id < |Step(w, Shutdown).shared.states| == |Step(w, Shutdown).ledger|
    ensures PayloadDue(Step(w, Shutdown), id)
  {
    InvGrounded(w);
    ShutdownOwes(w, id);
    ResolvedIfDelivered(w, id);
    hide Inv, Sum, Unresolved;
    assert PayloadDue(w, id);
  }

  lemma CloseOwes(w: World, k: nat, id: nat)
    requires Grounded(w) && Enabled(w, Close(k)) && id < |w.shared.states|
    ensures Sum(StepClose(w, k).closers, Owes(id)) <= Sum(w.closers, Owes(id))
    ensures w.closers[k].Releasing? && w.closers[k].owed[0] == id ==> Sum(w.closers, Owes(id)) > 0
  {
    hide Head;
    SumUpdate(w.closers, k, StepClose(w, k).closers[k], Owes(id));
    SumAtLeast(w.closers, k, Owes(id));
  }

  lemma CloseDue(w: World, k: nat, id: nat)
    requires Inv(w) && Enabled(w, Close(k)) && Inv(Step(w, Close(k))) && Dues(w)
    requires id < |w.shared.states| == |w.ledger|
    ensures id < |Step(w, Close(k)).shared.states| == |Step(w, Close(k)).ledger|
    ensures PayloadDue(Step(w, Close(k)), id)
  {
    InvGrounded(w);
    InvGrounded(Step(w, Close(k)));
    CloseOwes(w, k, id);
    hide Inv, Sum, Head, Due;
    assert PayloadDue(w, id);
    if w.closers[k].Releasing? && w.closers[k].owed[0] == id {
    } else {
      PayloadStays(w, Close(k), id);
    }
  }

  lemma FailDelivers(w: World, t: nat, id: nat)
    requires Grounded(w) && Enabled(w, Fail(t)) && id < |w.shared.states|
    ensures id < |StepFail(w, t).shared.states| == |StepFail(w, t).ledger|
    ensures StepFail(w, t).shared.states[id].delivered == w.shared.states[id].delivered
    ensures StepFail(w, t).closers == w.closers
  {
  }

  lemma WorkerDelivers(w: World, a: Action, id: nat)
    requires Grounded(w) && Enabled(w, a) && id < |w.shared.states|
    requires !a.Submit? && !a.Shutdown? && !a.Close? && !a.Resolve?
    ensures id < |Step(w, a).shared.states| == |Step(w, a).ledger|
    ensures Step(w, a).shared.states[id].delivered == w.shared.states[id].delivered && Step(w, a).closers == w.closers
  {
    hide Head;
    match a {
      case Fail(t) => FailDelivers(w, t, id);
      case _ =>
    }
  }

  lemma StepPayloadDue(w: World, a: Action, id: nat)
    requires Inv(w) && Enabled(w, a) && Inv(Step(w, a)) && Dues(w)
    requires id < |Step(w, a).shared.states| == |Step(w, a).ledger|
    ensures PayloadDue(Step(w, a), id)
  {
    hide PayloadDue, Inv;
    InvGrounded(w);
    StepExtends(w, a);
    match a {
      case Submit(prompt, scene) => SubmitDue(w, prompt, scene, id);
      case Resolve(t) => ResolveDue(w, t, id);
      case Shutdown => ShutdownDue(w, id);
      case Close(k) => CloseDue(w, k, id);
      case _ =>
        WorkerKeepsStates(w, a);
        WorkerDelivers(w, a, id);
        PayloadStays(w, a, id);
    }
  }

  lemma WorkerKeepsStates(w: World, a: Action)
    requires Grounded(w) && Enabled(w, a) && !a.Submit? && !a.Shutdown? && !a.Close?
    ensures |Step(w, a).shared.states| == |w.shared.states| && |Step(w, a).workers| == |w.workers|
    ensures forall u :: 0 <= u < |w.workers| && u != a.t ==> Step(w, a).workers[u] == w.workers[u]
  {
    hide Head;
    match a {
      case Succeed(t) => SucceedKeepsStates(w, t);
      case Fail(t) => FailKeepsStates(w, t);
      case _ =>
    }
  }

  lemma SucceedKeepsStates(w: World, t: nat)
    requires Grounded(w) && Enabled(w, Succeed(t))
    ensures |StepSucceed(w, t).shared.states| == |w.shared.states|
    ensures StepSucceed(w, t).workers == w.workers[t := StepSucceed(w, t).workers[t]]
  {
  }

  lemma FailKeepsStates(w: World, t: nat)
    requires Grounded(w) && Enabled(w, Fail(t))
    ensures |StepFail(w, t).shared.states| == |w.shared.states|
    ensures StepFail(w, t).workers == w.workers[t := StepFail(w, t).workers[t]]
  {
  }

  /** The worker that moves. */
  lemma MoverDue(w: World, a: Action)
    requires Inv(w) && Enabled(w, a) && Inv(Step(w, a)) && Dues(w) && !a.Submit? && !a.Shutdown? && !a.Close?
    ensures WorkerDue(Step(w, a).workers[a.t], Step(w, a))
  {
    hide CountsOf, IndexInv, ActiveInv, ResultInv, GrantInv, Head;
    assert WorkerDue(w.workers[a.t], w);
    match a {
      case Succeed(t) =>
        assert CellInv(Step(w, a), w.workers[t].job.payload);
        CountsShape(Step(w, a), w.workers[t].job.payload);
      case Fail(t) => FailerDue(w, t);
      case Decide(t, pool) =>
        assert CellInv(w, w.workers[t].job.payload);
        DroppingResolved(w, t);
      case _ =>
    }
  }

  lemma FailerDue(w: World, t: nat)
    requires Grounded(w) && Enabled(w, Fail(t))
    ensures WorkerDue(StepFail(w, t).workers[t], StepFail(w, t))
  {
  }

  lemma StepDues(w: World, a: Action)
    requires Inv(w) && Enabled(w, a) && Dues(w)
    ensures Dues(Step(w, a))
  {
    hide PayloadDue, WorkerDue, Inv;
    InvGrounded(w);
    StepInv(w, a);
    StepExtends(w, a);
    var w' := Step(w, a);
    forall id | 0 <= id < |w'.shared.states|
      ensures PayloadDue(w', id)
    {
      StepPayloadDue(w, a, id);
    }
    forall u | 0 <= u < |w'.workers|
      ensures WorkerDue(w'.workers[u], w')
    {
      if a.Submit? || a.Shutdown? || a.Close? {
        OthersStay(w, a);
        WorkerStays(w, a, w.workers[u]);
      } else {
        WorkerKeepsStates(w, a);
        if u == a.t {
          MoverDue(w, a);
        } else {
          WorkerStays(w, a, w.workers[u]);
        }
      }
    }
  }

  lemma OthersStay(w: World, a: Action)
    requires Grounded(w) && Enabled(w, a) && (a.Submit? || a.Shutdown? || a.Close?)
    ensures Step(w, a).workers == w.workers
  {
    hide Head;
  }

  lemma {:induction false} RunDues(w: World, run: seq<Action>)
    requires Inv(w) && Possible(w, run) && Dues(w)
    ensures Dues(After(w, run))
    decreases |run|
  {
    hide Dues, Step, Enabled;
    if run != [] {
      StepInv(w, run[0]);
      StepDues(w, run[0]);
      RunDues(Step(w, run[0]), run[1..]);
    }
  }

  /** What the future of a payload that was never revived is given: nothing if it has failed for good, otherwise all
      episodes it has collected, which are as many as the target. */
  lemma UnrevivedDelivery(w: World, id: nat, i: nat)
    requires Reachable(w) && id < |w.shared.states| == |w.ledger| && w.ledger[id].revives == 0
    requires i < |w.shared.states[id].delivered|
    ensures (var s := w.shared.states[id];
             if s.permanentlyFailed then s.delivered[i] == []
             else s.delivered[i] == s.collected && |s.collected| == w.shared.target)
  {
    var workers: nat, run :| Possible(Start(w.shared.target, w.shared.maxRetries, workers), run) &&
                             w == After(Start(w.shared.target, w.shared.maxRetries, workers), run);
    StartInv(w.shared.target, w.shared.maxRetries, workers);
    RunDues(Start(w.shared.target, w.shared.maxRetries, workers), run);
    ReachableInv(w);
    ResolvedIfDelivered(w, id);
    assert CellInv(w, id) && PayloadDue(w, id);
  }
}
