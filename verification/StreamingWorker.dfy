/** The streaming rollout worker as an object. Each method is one atomic section of the source, proved equal to the
    section's function on the shared memory; the interleavings of these sections are `DispatcherProtocol`'s. */
module StreamingWorker {
  import opened Wrappers
  import opened DispatcherState
  import opened DispatcherProtocol

  lemma {:induction false} ClosedUnresolved(c: Shared, bound: nat)
    requires bound <= |c.states|
    ensures Unresolved(c.(closed := true), bound) == Unresolved(c, bound)
  {
    if bound > 0 {
      ClosedUnresolved(c, bound - 1);
    }
  }

  class StreamingRolloutWorker {
    const rolloutsPerPayload: nat
    const maxSceneRetries: nat
    var payloadStates: seq<Payload>
    var activePayloadStates: map<int, nat>
    var rolloutJobQueue: seq<Entry>
    var rolloutJobSeq: nat
    var sessionSeq: nat
    var closed: bool
    var lastGoodSceneId: Option<SceneId>

    function Snapshot(): Shared
      reads this
    {
      Shared(rolloutsPerPayload, maxSceneRetries, payloadStates, activePayloadStates, rolloutJobQueue, rolloutJobSeq,
             sessionSeq, closed, lastGoodSceneId)
    }

    constructor (rolloutsPerPayload: nat, maxSceneRetries: nat)
      requires rolloutsPerPayload >= 1
      ensures Snapshot() == Fresh(rolloutsPerPayload, maxSceneRetries)
    {
      this.rolloutsPerPayload, this.maxSceneRetries := rolloutsPerPayload, maxSceneRetries;
      payloadStates, activePayloadStates, rolloutJobQueue := [], map[], [];
      rolloutJobSeq, sessionSeq, closed, lastGoodSceneId := 0, 0, false, None;
    }

    method PutRolloutJob(priority: nat, payload: nat, scene: SceneId, attempts: nat, isFallback: bool)
      modifies this
      ensures Snapshot() == PutJob(old(Snapshot()), priority, payload, scene, attempts, isFallback)
    {
      rolloutJobQueue := rolloutJobQueue + [Entry(priority, rolloutJobSeq,
                                                  Some(Job(payload, sessionSeq, scene, attempts, isFallback)))];
      rolloutJobSeq, sessionSeq := rolloutJobSeq + 1, sessionSeq + 1;
    }

    method SubmitPayload(promptIdx: int, scene: SceneId) returns (state: Result<nat>)
      modifies this
      ensures (Snapshot(), state) == DispatcherState.Submit(old(Snapshot()), promptIdx, scene)
    {
      if closed {
        return Err("StreamingRolloutWorker is shut down");
      }
      if promptIdx in activePayloadStates {
        return Ok(activePayloadStates[promptIdx]);
      }
      var id := |payloadStates|;
      payloadStates := payloadStates + [Payload(promptIdx, maxSceneRetries, [], false, false, [])];
      activePayloadStates := activePayloadStates[promptIdx := id];
      ghost var indexed := Snapshot();
      for i := 0 to rolloutsPerPayload
        invariant Snapshot() == PutFresh(indexed, id, scene, i)
      {
        PutRolloutJob(FRESH, id, scene, 0, false);
      }
      state := Ok(id);
    }

    method Get() returns (entry: Entry)
      requires rolloutJobQueue != []
      modifies this
      ensures (Snapshot(), entry) == Pop(old(Snapshot()))
    {
      var head := Head(rolloutJobQueue);
      entry := rolloutJobQueue[head];
      rolloutJobQueue := rolloutJobQueue[..head] + rolloutJobQueue[head + 1..];
    }

    method OnRolloutSucceeded(id: nat, episode: Episode) returns (owed: Option<seq<Episode>>)
      requires id < |payloadStates|
      modifies this
      ensures (Snapshot(), owed) == DispatcherState.Succeed(old(Snapshot()), id, episode)
    {
      owed := None;
      var state := payloadStates[id];
      if !state.permanentlyFailed {
        state := state.(collected := state.collected + [episode]);
        if |state.collected| >= rolloutsPerPayload && !state.futureResolved {
          state := state.(futureResolved := true);
          owed := Some(state.collected[..rolloutsPerPayload]);
          activePayloadStates := activePayloadStates - {state.prompt};
        }
        payloadStates := payloadStates[id := state];
      }
    }

    method OnRolloutFailed(job: Job) returns (verdict: Verdict)
      requires job.payload < |payloadStates|
      modifies this
      ensures (Snapshot(), verdict) == DispatcherState.Fail(old(Snapshot()), job)
    {
      var state := payloadStates[job.payload];
      if state.permanentlyFailed {
        return Ignored;
      }
      state := state.(retriesLeft := state.retriesLeft - 1);
      payloadStates := payloadStates[job.payload := state];
      if state.retriesLeft >= 0 {
        PutRolloutJob(RETRY, job.payload, job.scene, job.attempts + 1, false);
        return Retried;
      }
      var mustDrop := !state.futureResolved;
      payloadStates := payloadStates[job.payload := state.(permanentlyFailed := true, futureResolved := true)];
      assert payloadStates == old(payloadStates)[job.payload := payloadStates[job.payload]];
      if mustDrop {
        activePayloadStates := activePayloadStates - {state.prompt};
      }
      verdict := Exhausted(mustDrop);
    }

    /** The payloads `shutdown` finds indexed and unresolved. */
    method CollectUnresolved() returns (unresolved: seq<nat>)
      ensures unresolved == Unresolved(Snapshot(), |payloadStates|)
    {
      unresolved := [];
      for id := 0 to |payloadStates|
        invariant unresolved == Unresolved(Snapshot(), id)
      {
        if Indexed(Snapshot(), id) && !payloadStates[id].futureResolved {
          unresolved := unresolved + [id];
        }
      }
    }

    method MarkFailed(ids: seq<nat>)
      requires forall i :: 0 <= i < |ids| ==> ids[i] < |payloadStates|
      modifies this`payloadStates
      ensures |payloadStates| == |old(payloadStates)|
      ensures forall id: nat :: id < |payloadStates| ==>
        payloadStates[id] == if id in ids
                             then old(payloadStates)[id].(futureResolved := true, permanentlyFailed := true)
                             else old(payloadStates)[id]
    {
      for i := 0 to |ids|
        invariant |payloadStates| == |old(payloadStates)|
        invariant forall id: nat :: id < |payloadStates| ==>
          payloadStates[id] == if id in ids[..i]
                               then old(payloadStates)[id].(futureResolved := true, permanentlyFailed := true)
                               else old(payloadStates)[id]
      {
        assert ids[..i + 1] == ids[..i] + [ids[i]];
        var state := payloadStates[ids[i]];
        payloadStates := payloadStates[ids[i] := state.(futureResolved := true, permanentlyFailed := true)];
      }
      assert ids[..|ids|] == ids;
    }

    method Shutdown() returns (unresolved: seq<nat>)
      modifies this
      ensures (Snapshot(), unresolved) == DispatcherState.Close(old(Snapshot()))
    {
      closed := true;
      unresolved := CollectUnresolved();
      ClosedUnresolved(old(Snapshot()), |payloadStates|);
      UnresolvedIds(Snapshot(), |payloadStates|);
      MarkFailed(unresolved);
      activePayloadStates := map[];
      assert payloadStates == DispatcherState.Close(old(Snapshot())).0.states;
    }

    method SetFutureResult(id: nat, result: seq<Episode>)
      requires id < |payloadStates|
      modifies this
      ensures Snapshot() == SetResult(old(Snapshot()), id, result)
    {
      payloadStates := payloadStates[id := payloadStates[id].(delivered := payloadStates[id].delivered + [result])];
    }
  }
}
