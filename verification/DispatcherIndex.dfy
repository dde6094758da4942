/** How each step treats the index of live payloads, and the invariant of every reachable state. */
module DispatcherIndex {
  import opened Wrappers
  import opened Tally
  import opened DispatcherState
  import opened DispatcherProtocol
  import opened DispatcherInvariant
  import opened DispatcherSteps

  /** The state table only grows, and a payload once revived stays so. */
  predicate Extends(w: World, w': World) {
    && |w.ledger| == |w.shared.states| <= |w'.shared.states| == |w'.ledger|
    && w'.shared.target == w.shared.target && w'.shared.maxRetries == w.shared.maxRetries
    && (forall j :: 0 <= j < |w.shared.states| ==>
          w'.shared.states[j].prompt == w.shared.states[j].prompt && w'.ledger[j].revives >= w.ledger[j].revives)
  }

  lemma SubmitExtends(w: World, prompt: int, scene: SceneId)
    requires Grounded(w)
    ensures Extends(w, Step(w, Submit(prompt, scene)))
  {
    var c := w.shared;
    if !c.closed && prompt !in c.active {
      PutFreshShape(c.(states := c.states + [Payload(prompt, c.maxRetries, [], false, false, [])],
                       active := c.active[prompt := |c.states|]), |c.states|, scene, c.target);
    }
  }

  lemma FailExtends(w: World, t: nat)
    requires Grounded(w) && Enabled(w, Fail(t))
    ensures Extends(w, Step(w, Fail(t)))
  {
  }

  lemma WorkerExtends(w: World, a: Action)
    requires Grounded(w) && Enabled(w, a) && (a.Decide? || a.Revive? || a.Succeed?)
    ensures Extends(w, Step(w, a))
  {
  }

  lemma CloseExtends(w: World, k: nat)
    requires Grounded(w) && Enabled(w, Close(k))
    ensures Extends(w, Step(w, Close(k)))
  {
  }

  lemma StepExtends(w: World, a: Action)
    requires Grounded(w) && Enabled(w, a)
    ensures Extends(w, Step(w, a))
  {
    match a {
      case Submit(prompt, scene) => SubmitExtends(w, prompt, scene);
      case Fail(t) => FailExtends(w, t);
      case Close(k) => CloseExtends(w, k);
      case Decide(_, _) => WorkerExtends(w, a);
      case Revive(_) => WorkerExtends(w, a);
      case Succeed(_) => WorkerExtends(w, a);
      case _ =>
    }
  }

  lemma UntouchedBack(w: World, w': World, id: nat)
    requires Extends(w, w') && id < |w.shared.states| && Untouched(w', id)
    ensures Untouched(w, id)
  {
    forall j | 0 <= j < |w.shared.states| && w.shared.states[j].prompt == w.shared.states[id].prompt
      ensures w.ledger[j].revives == 0
    {
      assert w'.shared.states[j].prompt == w'.shared.states[id].prompt;
    }
  }

  predicate Listed(w: World, id: nat) {
    Grounded(w) && ActiveInv(w) && id < |w.shared.states| && IndexInv(w, id)
  }

  lemma SubmitIndex(w: World, prompt: int, scene: SceneId, id: nat)
    requires Grounded(w) && ActiveInv(w) && id < |Step(w, Submit(prompt, scene)).shared.states|
    requires id < |w.shared.states| ==> IndexInv(w, id)
    ensures Listed(Step(w, Submit(prompt, scene)), id)
  {
    var c, w' := w.shared, Step(w, Submit(prompt, scene));
    StepGrounded(w, Submit(prompt, scene));
    StepExtends(w, Submit(prompt, scene));
    if !c.closed && prompt !in c.active {
      PutFreshShape(c.(states := c.states + [Payload(prompt, c.maxRetries, [], false, false, [])],
                       active := c.active[prompt := |c.states|]), |c.states|, scene, c.target);
    }
    if id < |c.states| && Untouched(w', id) {
      UntouchedBack(w, w', id);
    }
  }

  /** Steps that leave the index, the state table's flags and the ledger's losses alone. */
  lemma PlainIndex(w: World, a: Action, id: nat)
    requires Listed(w, id) && Enabled(w, a) && (a.Fetch? || a.SimulateOk? || a.Resolve?)
    ensures Listed(Step(w, a), id)
  {
    StepGrounded(w, a);
    StepExtends(w, a);
    if Untouched(Step(w, a), id) {
      UntouchedBack(w, Step(w, a), id);
    }
  }

  lemma CheckIndex(w: World, t: nat, id: nat)
    requires Listed(w, id) && Enabled(w, Check(t)) && IndexInv(w, w.workers[t].job.payload)
    ensures Listed(Step(w, Check(t)), id)
  {
    StepGrounded(w, Check(t));
    StepExtends(w, Check(t));
    if Untouched(Step(w, Check(t)), id) {
      UntouchedBack(w, Step(w, Check(t)), id);
    }
  }

  lemma SucceedIndex(w: World, t: nat, id: nat)
    requires Listed(w, id) && Enabled(w, Succeed(t)) && IndexInv(w, w.workers[t].job.payload)
    ensures Listed(Step(w, Succeed(t)), id)
  {
    StepGrounded(w, Succeed(t));
    StepExtends(w, Succeed(t));
    if Untouched(Step(w, Succeed(t)), id) {
      UntouchedBack(w, Step(w, Succeed(t)), id);
    }
  }

  lemma FailIndex(w: World, t: nat, id: nat)
    requires Listed(w, id) && Enabled(w, Fail(t)) && IndexInv(w, w.workers[t].job.payload)
    ensures Listed(Step(w, Fail(t)), id)
  {
    hide GroundedEntry, GroundedCloser, CountsOf;
    StepGrounded(w, Fail(t));
    StepExtends(w, Fail(t));
    if Untouched(Step(w, Fail(t)), id) {
      UntouchedBack(w, Step(w, Fail(t)), id);
    }
  }

  /** A thread that drops a payload holds its right, so the payload is resolved. */
  lemma DroppingResolved(w: World, t: nat)
    requires Grounded(w) && Enabled(w, Decide(t, None)) && CellInv(w, w.workers[t].job.payload)
    ensures w.shared.states[w.workers[t].job.payload].futureResolved
  {
    SumAtLeast(w.workers, t, Holds(w.workers[t].job.payload));
  }

  lemma DecideIndex(w: World, t: nat, pool: Option<SceneId>, id: nat)
    requires Listed(w, id) && Enabled(w, Decide(t, pool)) && CellInv(w, w.workers[t].job.payload)
    ensures Listed(Step(w, Decide(t, pool)), id)
  {
    hide GroundedEntry, GroundedCloser, CountsOf;
    StepGrounded(w, Decide(t, pool));
    StepExtends(w, Decide(t, pool));
    DroppingResolved(w, t);
    if Untouched(Step(w, Decide(t, pool)), id) {
      UntouchedBack(w, Step(w, Decide(t, pool)), id);
    }
  }

  lemma RevivingTouched(w: World, t: nat)
    requires Grounded(w) && Enabled(w, Revive(t)) && CellInv(w, w.workers[t].job.payload)
    ensures w.ledger[w.workers[t].job.payload].revives > 0
    ensures w.workers[t].Unresolving? ==> w.shared.states[w.workers[t].job.payload].futureResolved
  {
    SumAtLeast(w.workers, t, Substitutes(w.workers[t].job.payload));
    SumAtLeast(w.workers, t, Holds(w.workers[t].job.payload));
  }

  lemma ReviveIndex(w: World, t: nat, id: nat)
    requires Listed(w, id) && Enabled(w, Revive(t)) && CellInv(w, w.workers[t].job.payload)
    ensures Listed(Step(w, Revive(t)), id)
  {
    hide GroundedEntry, GroundedCloser, CountsOf;
    StepGrounded(w, Revive(t));
    StepExtends(w, Revive(t));
    RevivingTouched(w, t);
    if Untouched(Step(w, Revive(t)), id) {
      UntouchedBack(w, Step(w, Revive(t)), id);
    }
  }

  lemma ShutdownIndex(w: World, id: nat)
    requires Listed(w, id)
    ensures Listed(Step(w, Shutdown), id)
  {
    StepGrounded(w, Shutdown);
    StepExtends(w, Shutdown);
    if Untouched(Step(w, Shutdown), id) {
      UntouchedBack(w, Step(w, Shutdown), id);
    }
  }

  lemma CloseIndex(w: World, k: nat, id: nat)
    requires Listed(w, id) && Enabled(w, Close(k))
    requires w.closers[k].Draining? && w.shared.queue != [] && Pop(w.shared).1.job.Some? ==>
               IndexInv(w, Pop(w.shared).1.job.value.payload)
    ensures Listed(Step(w, Close(k)), id)
  {
    StepGrounded(w, Close(k));
    StepExtends(w, Close(k));
    if Untouched(Step(w, Close(k)), id) {
      UntouchedBack(w, Step(w, Close(k)), id);
    }
  }

  lemma StepResult(w: World, a: Action)
    requires Grounded(w) && ResultInv(w) && Enabled(w, a)
    ensures ResultInv(Step(w, a))
  {
    match a {
      case Submit(prompt, scene) =>
        var c := w.shared;
        if !c.closed && prompt !in c.active {
          PutFreshShape(c.(states := c.states + [Payload(prompt, c.maxRetries, [], false, false, [])],
                           active := c.active[prompt := |c.states|]), |c.states|, scene, c.target);
        }
      case Resolve(t) => assert GoodWorker(w.workers[t], w.shared.target);
      case Succeed(t) => assert GoodPayload(w.shared.states[w.workers[t].job.payload], w.shared.target);
      case Fail(t) => FailResult(w, t);
      case Revive(t) => ReviveResult(w, t);
      case Close(k) => CloseResult(w, k);
      case _ =>
    }
  }

  lemma FailResult(w: World, t: nat)
    requires Grounded(w) && ResultInv(w) && Enabled(w, Fail(t))
    ensures ResultInv(Step(w, Fail(t)))
  {
    assert GoodPayload(w.shared.states[w.workers[t].job.payload], w.shared.target);
  }

  lemma ReviveResult(w: World, t: nat)
    requires Grounded(w) && ResultInv(w) && Enabled(w, Revive(t))
    ensures ResultInv(Step(w, Revive(t)))
  {
    assert GoodPayload(w.shared.states[w.workers[t].job.payload], w.shared.target);
  }

  lemma CloseResult(w: World, k: nat)
    requires Grounded(w) && ResultInv(w) && Enabled(w, Close(k))
    ensures ResultInv(Step(w, Close(k)))
  {
    if w.closers[k].Releasing? {
      assert GoodPayload(w.shared.states[w.closers[k].owed[0]], w.shared.target);
    }
  }

  lemma SubmitGrant(w: World, prompt: int, scene: SceneId)
    requires Grounded(w) && GrantInv(w)
    ensures GrantInv(Step(w, Submit(prompt, scene)))
  {
    var c := w.shared;
    if !c.closed && prompt !in c.active {
      PutFreshShape(c.(states := c.states + [Payload(prompt, c.maxRetries, [], false, false, [])],
                       active := c.active[prompt := |c.states|]), |c.states|, scene, c.target);
    }
  }

  lemma DecideGrant(w: World, t: nat, pool: Option<SceneId>)
    requires Grounded(w) && GrantInv(w) && Enabled(w, Decide(t, pool))
    ensures GrantInv(Step(w, Decide(t, pool)))
  {
    var l := w.ledger[w.workers[t].job.payload];
    assert w.shared.maxRetries * (1 + (l.revives + 1)) == w.shared.maxRetries * (1 + l.revives) + w.shared.maxRetries;
  }

  lemma FailGrant(w: World, t: nat)
    requires Grounded(w) && GrantInv(w) && Enabled(w, Fail(t))
    ensures GrantInv(Step(w, Fail(t)))
  {
  }

  lemma StepGrant(w: World, a: Action)
    requires Grounded(w) && GrantInv(w) && Enabled(w, a)
    ensures GrantInv(Step(w, a))
  {
    match a {
      case Submit(prompt, scene) => SubmitGrant(w, prompt, scene);
      case Fail(t) => FailGrant(w, t);
      case Decide(t, pool) => DecideGrant(w, t, pool);
      case Close(k) =>
      case _ =>
    }
  }

  lemma StepCell(w: World, a: Action, id: nat)
    requires Inv(w) && Enabled(w, a)
    requires Grounded(Step(w, a)) && id < |Step(w, a).shared.states|
    ensures CellInv(Step(w, a), id)
  {
    hide CountsOf, CountInv, IndexInv;
    if id >= |w.shared.states| {
      StepExtends(w, a);
      assert a.Submit?;
      SubmitKeepsNew(w, a.prompt, a.scene);
    } else {
      assert Local(w, id);
      match a {
        case Submit(prompt, scene) => SubmitKeepsOld(w, prompt, scene, id);
        case Fetch(t) => FetchKeeps(w, t, id);
        case Check(t) => CheckKeeps(w, t, id);
        case SimulateOk(t) => SimulateOkKeeps(w, t, id);
        case Succeed(t) => SucceedKeeps(w, t, id);
        case Fail(t) => FailKeeps(w, t, id);
        case Resolve(t) => ResolveKeeps(w, t, id);
        case Decide(t, pool) => DecideKeeps(w, t, pool, id);
        case Revive(t) => ReviveKeeps(w, t, id);
        case Shutdown => ShutdownKeeps(w, id);
        case Close(k) => CloseKeeps(w, k, id);
      }
    }
  }

  lemma StepIndex(w: World, a: Action, id: nat)
    requires Inv(w) && Enabled(w, a) && id < |Step(w, a).shared.states|
    ensures Listed(Step(w, a), id)
  {
    hide Indexed, ActiveInv, IndexInv, CellInv, Untouched;
    match a {
      case Submit(prompt, scene) => SubmitIndex(w, prompt, scene, id);
      case Fetch(t) => PlainIndex(w, a, id);
      case Check(t) => CheckIndex(w, t, id);
      case SimulateOk(t) => PlainIndex(w, a, id);
      case Succeed(t) => SucceedIndex(w, t, id);
      case Fail(t) => FailIndex(w, t, id);
      case Resolve(t) => PlainIndex(w, a, id);
      case Decide(t, pool) => DecideIndex(w, t, pool, id);
      case Revive(t) => ReviveIndex(w, t, id);
      case Shutdown => ShutdownIndex(w, id);
      case Close(k) =>
        if w.closers[k].Draining? && w.shared.queue != [] {
          assert GroundedEntry(w.shared.queue[Head(w.shared.queue)], |w.shared.states|);
        }
        CloseIndex(w, k, id);
    }
  }

  lemma EmptyActive(w: World, a: Action)
    requires Grounded(w) && ActiveInv(w) && Enabled(w, a) && |Step(w, a).shared.states| == 0
    ensures ActiveInv(Step(w, a))
  {
    StepExtends(w, a);
    assert w.shared.active == map[] by {
      assert forall p :: p !in w.shared.active;
    }
    match a {
      case Submit(prompt, scene) =>
        var c := w.shared;
        if !c.closed {
          PutFreshShape(c.(states := c.states + [Payload(prompt, c.maxRetries, [], false, false, [])],
                           active := c.active[prompt := |c.states|]), |c.states|, scene, c.target);
        }
      case _ =>
    }
  }

  lemma StepInv(w: World, a: Action)
    requires Inv(w) && Enabled(w, a)
    ensures Inv(Step(w, a))
  {
    var w' := Step(w, a);
    StepGrounded(w, a);
    StepExtends(w, a);
    StepResult(w, a);
    StepGrant(w, a);
    forall id | 0 <= id < |w'.shared.states| ensures CellInv(w', id) && IndexInv(w', id) {
      StepCell(w, a, id);
      StepIndex(w, a, id);
    }
    if |w'.shared.states| > 0 {
      StepIndex(w, a, 0);
    } else {
      EmptyActive(w, a);
    }
  }
}
