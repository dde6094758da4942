/** Sessions: every episode is simulated under a session of its own, drawn for a job of its payload. */
module DispatcherSessions {
  import opened Wrappers
  import opened Tally
  import opened DispatcherState
  import opened DispatcherProtocol
  import opened DispatcherInvariant
  import opened DispatcherIndex
  import opened DispatcherRuns

  // ---------- one ticket a session ----------

  function QueuedAs(session: nat): Entry -> nat {
    (e: Entry) => if e.job.Some? && e.job.value.session == session then 1 else 0
  }

  /** A worker that may still turn the session into an episode, or has and not yet handed it over. */
  function CarriedAs(session: nat): Worker -> nat {
    (x: Worker) =>
      if x.Fetched? || x.Simulating? then (if x.job.session == session then 1 else 0)
      else if x.Landed? && x.episode.session == session then 1 else 0
  }

  function RecordedAs(session: nat): Episode -> nat {
    (e: Episode) => if e.session == session then 1 else 0
  }

  function KeptAs(session: nat): Payload -> nat {
    (s: Payload) => Sum(s.collected, RecordedAs(session))
  }

  /** Everywhere a session may be: queued, in a worker's hands, collected by some payload. */
  function Tickets(w: World, session: nat): nat {
    Sum(w.shared.queue, QueuedAs(session)) + Sum(w.workers, CarriedAs(session))
      + Sum(w.shared.states, KeptAs(session))
  }

  predicate Drawn(w: World, session: nat) {
    Tickets(w, session) <= if session < w.shared.nextSession then 1 else 0
  }

  lemma {:induction false} PutFreshTickets(c: Shared, payload: nat, scene: SceneId, count: nat, session: nat)
    ensures (var c' := PutFresh(c, payload, scene, count);
             && c'.nextSession == c.nextSession + count
             && Sum(c'.queue, QueuedAs(session)) == Sum(c.queue, QueuedAs(session))
                + if c.nextSession <= session < c.nextSession + count then 1 else 0)
  {
    if count > 0 {
      PutFreshTickets(c, payload, scene, count - 1, session);
      var before := PutFresh(c, payload, scene, count - 1);
      SumAppend(before.queue, Entry(FRESH, before.nextOrder, Some(Job(payload, before.nextSession, scene, 0, false))),
                QueuedAs(session));
    }
  }

  lemma SubmitDrawn(w: World, prompt: int, scene: SceneId, session: nat)
    requires Grounded(w) && Drawn(w, session)
    ensures Drawn(Step(w, Submit(prompt, scene)), session)
  {
    hide Sum;
    var c := w.shared;
    if !c.closed && prompt !in c.active {
      var entrant := Payload(prompt, c.maxRetries, [], false, false, []);
      var grown := c.(states := c.states + [entrant], active := c.active[prompt := |c.states|]);
      PutFreshShape(grown, |c.states|, scene, c.target);
      PutFreshTickets(grown, |c.states|, scene, c.target, session);
      SumAppend(c.states, entrant, KeptAs(session));
      SumZero([], RecordedAs(session));
    }
  }

  lemma FetchDrawn(w: World, t: nat, session: nat)
    requires Grounded(w) && Enabled(w, Fetch(t)) && Drawn(w, session)
    ensures Drawn(Step(w, Fetch(t)), session)
  {
    hide Sum, Head;
    SumRemove(w.shared.queue, Head(w.shared.queue), QueuedAs(session));
    SumUpdate(w.workers, t, Step(w, Fetch(t)).workers[t], CarriedAs(session));
  }

  /** Steps that leave the queue and what is collected alone, and put no session into a worker's hands. */
  lemma PlainDrawn(w: World, a: Action, session: nat)
    requires Grounded(w) && Enabled(w, a) && Drawn(w, session) && (a.Check? || a.SimulateOk? || a.Decide?)
    ensures Drawn(Step(w, a), session)
  {
    hide Sum;
    SumUpdate(w.workers, a.t, Step(w, a).workers[a.t], CarriedAs(session));
  }

  lemma SameCollected(w: World, w': World, id: nat, session: nat)
    requires id < |w.shared.states| == |w'.shared.states|
    requires w'.shared.states == w.shared.states[id := w'.shared.states[id]]
    requires w'.shared.states[id].collected == w.shared.states[id].collected
    ensures Sum(w'.shared.states, KeptAs(session)) == Sum(w.shared.states, KeptAs(session))
  {
    SumUpdate(w.shared.states, id, w'.shared.states[id], KeptAs(session));
  }

  lemma ResolveDrawn(w: World, t: nat, session: nat)
    requires Grounded(w) && Enabled(w, Resolve(t)) && Drawn(w, session)
    ensures Drawn(Step(w, Resolve(t)), session)
  {
    hide Sum;
    SumUpdate(w.workers, t, Step(w, Resolve(t)).workers[t], CarriedAs(session));
    SameCollected(w, Step(w, Resolve(t)), w.workers[t].payload, session);
  }

  lemma SucceedDrawn(w: World, t: nat, session: nat)
    requires Grounded(w) && Enabled(w, Succeed(t)) && Drawn(w, session)
    ensures Drawn(Step(w, Succeed(t)), session)
  {
    hide Sum;
    var w' := StepSucceed(w, t);
    var (id, episode) := (w.workers[t].job.payload, w.workers[t].episode);
    SumUpdate(w.workers, t, w'.workers[t], CarriedAs(session));
    if !w.shared.states[id].permanentlyFailed {
      SumUpdate(w.shared.states, id, w'.shared.states[id], KeptAs(session));
      SumAppend(w.shared.states[id].collected, episode, RecordedAs(session));
    }
  }

  lemma RetryDrawn(w: World, t: nat, session: nat)
    requires Grounded(w) && Enabled(w, Fail(t)) && Drawn(w, session)
    requires DispatcherState.Fail(w.shared, w.workers[t].job).1 == Retried
    ensures Drawn(Step(w, Fail(t)), session)
  {
    hide Sum;
    var w', c := StepFail(w, t), w.shared;
    SumUpdate(w.workers, t, w'.workers[t], CarriedAs(session));
    SumAppend(c.queue, w'.shared.queue[|c.queue|], QueuedAs(session));
    SameCollected(w, w', w.workers[t].job.payload, session);
  }

  lemma FailDrawn(w: World, t: nat, session: nat)
    requires Grounded(w) && Enabled(w, Fail(t)) && Drawn(w, session)
    requires DispatcherState.Fail(w.shared, w.workers[t].job).1 != Retried
    ensures Drawn(Step(w, Fail(t)), session)
  {
    hide Sum;
    var w' := StepFail(w, t);
    SumUpdate(w.workers, t, w'.workers[t], CarriedAs(session));
    SameCollected(w, w', w.workers[t].job.payload, session);
  }

  lemma RequeueDrawn(w: World, t: nat, session: nat)
    requires Grounded(w) && Enabled(w, Revive(t)) && Drawn(w, session) && w.workers[t].Requeueing?
    ensures Drawn(Step(w, Revive(t)), session)
  {
    hide Sum;
    var w', c := StepRevive(w, t), w.shared;
    SumUpdate(w.workers, t, w'.workers[t], CarriedAs(session));
    SumAppend(c.queue, w'.shared.queue[|c.queue|], QueuedAs(session));
  }

  lemma ReviveDrawn(w: World, t: nat, session: nat)
    requires Grounded(w) && Enabled(w, Revive(t)) && Drawn(w, session) && !w.workers[t].Requeueing?
    ensures Drawn(Step(w, Revive(t)), session)
  {
    hide Sum;
    var w' := StepRevive(w, t);
    SumUpdate(w.workers, t, w'.workers[t], CarriedAs(session));
    SameCollected(w, w', w.workers[t].job.payload, session);
  }

  lemma {:induction false} MarkedCollected(c: Shared, bound: nat, session: nat)
    requires bound <= |c.states|
    ensures Sum(DispatcherState.Close(c).0.states[..bound], KeptAs(session)) == Sum(c.states[..bound], KeptAs(session))
  {
    var marked := DispatcherState.Close(c).0.states;
    if bound > 0 {
      MarkedCollected(c, bound - 1, session);
      SumAppend(marked[..bound - 1], marked[bound - 1], KeptAs(session));
      SumAppend(c.states[..bound - 1], c.states[bound - 1], KeptAs(session));
      assert marked[..bound] == marked[..bound - 1] + [marked[bound - 1]];
      assert c.states[..bound] == c.states[..bound - 1] + [c.states[bound - 1]];
    }
  }

  lemma ShutdownDrawn(w: World, session: nat)
    requires Grounded(w) && Drawn(w, session)
    ensures Drawn(Step(w, Shutdown), session)
  {
    var c, marked := w.shared, Step(w, Shutdown).shared.states;
    MarkedCollected(c, |c.states|, session);
    assert marked[..|c.states|] == marked && c.states[..|c.states|] == c.states;
  }

  lemma CloseDrawn(w: World, k: nat, session: nat)
    requires Grounded(w) && Enabled(w, Close(k)) && Drawn(w, session)
    ensures Drawn(Step(w, Close(k)), session)
  {
    hide Sum, Head;
    var c := w.shared;
    match w.closers[k] {
      case Draining(_) =>
        if c.queue != [] {
          SumRemove(c.queue, Head(c.queue), QueuedAs(session));
        }
      case Posting(_, _) => SumAppend(c.queue, Entry(SENTINEL, c.nextOrder, None), QueuedAs(session));
      case Releasing(owed) => SameCollected(w, StepClose(w, k), owed[0], session);
    }
  }

  lemma StepDrawn(w: World, a: Action, session: nat)
    requires Grounded(w) && Enabled(w, a) && Drawn(w, session)
    ensures Drawn(Step(w, a), session)
  {
    hide Drawn;
    match a {
      case Submit(prompt, scene) => SubmitDrawn(w, prompt, scene, session);
      case Fetch(t) => FetchDrawn(w, t, session);
      case Check(_) => PlainDrawn(w, a, session);
      case SimulateOk(_) => PlainDrawn(w, a, session);
      case Succeed(t) => SucceedDrawn(w, t, session);
      case Fail(t) =>
        if DispatcherState.Fail(w.shared, w.workers[t].job).1 == Retried {
          RetryDrawn(w, t, session);
        } else {
          FailDrawn(w, t, session);
        }
      case Resolve(t) => ResolveDrawn(w, t, session);
      case Decide(_, _) => PlainDrawn(w, a, session);
      case Revive(t) =>
        if w.workers[t].Requeueing? { RequeueDrawn(w, t, session); } else { ReviveDrawn(w, t, session); }
      case Shutdown => ShutdownDrawn(w, session);
      case Close(k) => CloseDrawn(w, k, session);
    }
  }

  lemma {:induction false} RunDrawn(w: World, run: seq<Action>, session: nat)
    requires Grounded(w) && Possible(w, run) && Drawn(w, session)
    ensures Drawn(After(w, run), session)
    decreases |run|
  {
    hide Drawn, Step, Enabled;
    if run != [] {
      StepGrounded(w, run[0]);
      StepDrawn(w, run[0], session);
      RunDrawn(Step(w, run[0]), run[1..], session);
    }
  }

  lemma StartDrawn(target: nat, maxRetries: nat, workers: nat, session: nat)
    ensures Drawn(Start(target, maxRetries, workers), session)
  {
    var w := Start(target, maxRetries, workers);
    forall x | x in w.workers ensures CarriedAs(session)(x) == 0 {
    }
    SumZero(w.workers, CarriedAs(session));
  }

  lemma TwoCount<T>(s: seq<T>, i: nat, j: nat, weight: T -> nat)
    requires i < j < |s|
    ensures weight(s[i]) + weight(s[j]) <= Sum(s, weight)
  {
    SumSplit(s, j, weight);
    SumAtLeast(s[..j], i, weight);
  }

  lemma ReachableDrawn(w: World, session: nat)
    requires Reachable(w)
    ensures Tickets(w, session) <= 1
  {
    hide Tickets;
    var workers: nat, run :| Possible(Start(w.shared.target, w.shared.maxRetries, workers), run) &&
                             w == After(Start(w.shared.target, w.shared.maxRetries, workers), run);
    StartDrawn(w.shared.target, w.shared.maxRetries, workers, session);
    RunDrawn(Start(w.shared.target, w.shared.maxRetries, workers), run, session);
  }

  /** A session counts wherever it is found. */
  lemma KeptCounts(states: seq<Payload>, id: nat, i: nat, session: nat)
    requires id < |states| && i < |states[id].collected| && states[id].collected[i].session == session
    ensures KeptAs(session)(states[id]) >= 1
  {
    SumAtLeast(states[id].collected, i, RecordedAs(session));
  }

  lemma SamePlace(states: seq<Payload>, id: nat, i: nat, other: nat, j: nat, session: nat)
    requires id < |states| && i < |states[id].collected| && states[id].collected[i].session == session
    requires other < |states| && j < |states[other].collected| && states[other].collected[j].session == session
    requires Sum(states, KeptAs(session)) <= 1
    ensures id == other && i == j
  {
    KeptCounts(states, id, i, session);
    KeptCounts(states, other, j, session);
    SumAtLeast(states, id, KeptAs(session));
    hide Sum;
    if id < other {
      TwoCount(states, id, other, KeptAs(session));
    } else if other < id {
      TwoCount(states, other, id, KeptAs(session));
    } else if i < j {
      TwoCount(states[id].collected, i, j, RecordedAs(session));
    } else if j < i {
      TwoCount(states[id].collected, j, i, RecordedAs(session));
    }
  }

  /** No two collected episodes, of one payload or of two, share a session. */
  lemma SessionsDistinct(w: World, id: nat, i: nat, other: nat, j: nat)
    requires Reachable(w) && id < |w.shared.states| && other < |w.shared.states|
    requires i < |w.shared.states[id].collected| && j < |w.shared.states[other].collected|
    requires w.shared.states[id].collected[i].session == w.shared.states[other].collected[j].session
    ensures id == other && i == j
  {
    hide Reachable, Sum;
    var session := w.shared.states[id].collected[i].session;
    ReachableDrawn(w, session);
    SamePlace(w.shared.states, id, i, other, j, session);
  }

  // ---------- whose job a session was ----------

  /** What has been in the queue in the course of a run. */
  function Seen(w: World, run: seq<Action>): set<Entry>
    requires Grounded(w) && Possible(w, run)
    decreases |run|
  {
    (set e | e in w.shared.queue) +
    if run == [] then {} else (StepGrounded(w, run[0]); Seen(Step(w, run[0]), run[1..]))
  }

  ghost predicate JobSeen(job: Job, seen: set<Entry>) {
    exists e :: e in seen && e.job == Some(job)
  }

  /** The worker's job came from the queue, and its episode, if any, is that job's. */
  ghost predicate WorkerSeen(x: Worker, seen: set<Entry>) {
    && (x.Fetched? || x.Simulating? || x.Landed? ==> JobSeen(x.job, seen))
    && (x.Landed? ==> x.episode == Episode(x.job.scene, x.job.session))
  }

  /** The episode is that of a job queued for payload `id`. */
  ghost predicate EpisodeSeen(episode: Episode, id: nat, seen: set<Entry>) {
    exists e :: && e in seen && e.job.Some? && e.job.value.payload == id
                && e.job.value.session == episode.session && e.job.value.scene == episode.scene
  }

  ghost predicate PayloadSeen(s: Payload, id: nat, seen: set<Entry>) {
    forall i :: 0 <= i < |s.collected| ==> EpisodeSeen(s.collected[i], id, seen)
  }

  ghost predicate AllSeen(w: World, seen: set<Entry>) {
    && (forall e :: e in w.shared.queue ==> e in seen)
    && (forall t :: 0 <= t < |w.workers| ==> WorkerSeen(w.workers[t], seen))
    && (forall id: nat :: id < |w.shared.states| ==> PayloadSeen(w.shared.states[id], id, seen))
  }

  lemma MoreSeen(w: World, seen: set<Entry>, more: set<Entry>)
    requires AllSeen(w, seen) && seen <= more
    ensures AllSeen(w, more)
  {
    forall t | 0 <= t < |w.workers|
      ensures WorkerSeen(w.workers[t], more)
    {
      assert WorkerSeen(w.workers[t], seen);
    }
    forall id: nat | id < |w.shared.states|
      ensures PayloadSeen(w.shared.states[id], id, more)
    {
      assert PayloadSeen(w.shared.states[id], id, seen);
      forall i | 0 <= i < |w.shared.states[id].collected|
        ensures EpisodeSeen(w.shared.states[id].collected[i], id, more)
      {
        assert EpisodeSeen(w.shared.states[id].collected[i], id, seen);
      }
    }
  }

  /** A step whose worker's job and whose payloads' episodes are all accounted for. */
  lemma WorkerStepSeen(w: World, w': World, t: nat, seen: set<Entry>)
    requires AllSeen(w, seen) && t < |w.workers| == |w'.workers| && w'.workers == w.workers[t := w'.workers[t]]
    requires WorkerSeen(w'.workers[t], seen) && |w'.shared.states| == |w.shared.states|
    requires forall e :: e in w'.shared.queue ==> e in seen
    requires forall id: nat :: id < |w'.shared.states| ==> PayloadSeen(w'.shared.states[id], id, seen)
    ensures AllSeen(w', seen)
  {
  }

  lemma SubmitSeen(w: World, prompt: int, scene: SceneId, seen: set<Entry>)
    requires Grounded(w) && AllSeen(w, seen)
    requires forall e :: e in Step(w, Submit(prompt, scene)).shared.queue ==> e in seen
    ensures AllSeen(Step(w, Submit(prompt, scene)), seen)
  {
    hide WorkerSeen, EpisodeSeen;
    var c := w.shared;
    if !c.closed && prompt !in c.active {
      PutFreshShape(c.(states := c.states + [Payload(prompt, c.maxRetries, [], false, false, [])],
                       active := c.active[prompt := |c.states|]), |c.states|, scene, c.target);
    }
  }

  lemma FetchSeen(w: World, t: nat, seen: set<Entry>)
    requires Grounded(w) && Enabled(w, Fetch(t)) && AllSeen(w, seen)
    ensures AllSeen(Step(w, Fetch(t)), seen)
  {
    hide Head, EpisodeSeen;
    var i := Head(w.shared.queue);
    assert w.shared.queue[i] in w.shared.queue;
    assert WorkerSeen(Step(w, Fetch(t)).workers[t], seen);
    WorkerStepSeen(w, Step(w, Fetch(t)), t, seen);
  }

  lemma PlainSeen(w: World, a: Action, seen: set<Entry>)
    requires Grounded(w) && Enabled(w, a) && AllSeen(w, seen) && (a.Check? || a.SimulateOk? || a.Decide?)
    ensures AllSeen(Step(w, a), seen)
  {
    hide EpisodeSeen, JobSeen;
    assert WorkerSeen(w.workers[a.t], seen);
    WorkerStepSeen(w, Step(w, a), a.t, seen);
  }

  lemma SucceedSeen(w: World, t: nat, seen: set<Entry>)
    requires Grounded(w) && Enabled(w, Succeed(t)) && AllSeen(w, seen)
    ensures AllSeen(Step(w, Succeed(t)), seen)
  {
    var w', id := StepSucceed(w, t), w.workers[t].job.payload;
    assert WorkerSeen(w.workers[t], seen);
    assert EpisodeSeen(w.workers[t].episode, id, seen);
    hide EpisodeSeen, JobSeen;
    forall k: nat | k < |w'.shared.states|
      ensures PayloadSeen(w'.shared.states[k], k, seen)
    {
      assert PayloadSeen(w.shared.states[k], k, seen);
    }
    WorkerStepSeen(w, w', t, seen);
  }

  /** Steps about one payload that leave its episodes alone and queue at most what is listed. */
  lemma FlagSeen(w: World, w': World, t: nat, id: nat, seen: set<Entry>)
    requires AllSeen(w, seen) && t < |w.workers| == |w'.workers| && w'.workers == w.workers[t := w'.workers[t]]
    requires !w'.workers[t].Fetched? && !w'.workers[t].Simulating? && !w'.workers[t].Landed?
    requires id < |w.shared.states| == |w'.shared.states|
    requires w'.shared.states == w.shared.states[id := w'.shared.states[id]]
    requires w'.shared.states[id].collected == w.shared.states[id].collected
    requires forall e :: e in w'.shared.queue ==> e in seen
    ensures AllSeen(w', seen)
  {
    hide EpisodeSeen, JobSeen;
    assert PayloadSeen(w.shared.states[id], id, seen);
    WorkerStepSeen(w, w', t, seen);
  }

  lemma FailSeen(w: World, t: nat, seen: set<Entry>)
    requires Grounded(w) && Enabled(w, Fail(t)) && AllSeen(w, seen)
    requires forall e :: e in Step(w, Fail(t)).shared.queue ==> e in seen
    ensures AllSeen(Step(w, Fail(t)), seen)
  {
    hide AllSeen;
    FlagSeen(w, StepFail(w, t), t, w.workers[t].job.payload, seen);
  }

  lemma ReviveSeen(w: World, t: nat, seen: set<Entry>)
    requires Grounded(w) && Enabled(w, Revive(t)) && AllSeen(w, seen)
    requires forall e :: e in Step(w, Revive(t)).shared.queue ==> e in seen
    ensures AllSeen(Step(w, Revive(t)), seen)
  {
    hide AllSeen;
    FlagSeen(w, StepRevive(w, t), t, w.workers[t].job.payload, seen);
  }

  lemma ResolveSeen(w: World, t: nat, seen: set<Entry>)
    requires Grounded(w) && Enabled(w, Resolve(t)) && AllSeen(w, seen)
    ensures AllSeen(Step(w, Resolve(t)), seen)
  {
    hide EpisodeSeen, WorkerSeen;
    FlagSeen(w, Step(w, Resolve(t)), t, w.workers[t].payload, seen);
  }

  lemma CloseSeen(w: World, a: Action, seen: set<Entry>)
    requires Grounded(w) && Enabled(w, a) && AllSeen(w, seen) && (a.Shutdown? || a.Close?)
    requires forall e :: e in Step(w, a).shared.queue ==> e in seen
    ensures AllSeen(Step(w, a), seen)
  {
    hide EpisodeSeen, WorkerSeen, Head;
    var w' := Step(w, a);
    forall id: nat | id < |w'.shared.states|
      ensures PayloadSeen(w'.shared.states[id], id, seen)
    {
      assert PayloadSeen(w.shared.states[id], id, seen);
    }
  }

  lemma StepSeen(w: World, a: Action, seen: set<Entry>)
    requires Grounded(w) && Enabled(w, a) && AllSeen(w, seen)
    requires forall e :: e in Step(w, a).shared.queue ==> e in seen
    ensures AllSeen(Step(w, a), seen)
  {
    hide AllSeen;
    match a {
      case Submit(prompt, scene) => SubmitSeen(w, prompt, scene, seen);
      case Fetch(t) => FetchSeen(w, t, seen);
      case Succeed(t) => SucceedSeen(w, t, seen);
      case Fail(t) => FailSeen(w, t, seen);
      case Resolve(t) => ResolveSeen(w, t, seen);
      case Revive(t) => ReviveSeen(w, t, seen);
      case Shutdown => CloseSeen(w, a, seen);
      case Close(_) => CloseSeen(w, a, seen);
      case _ => PlainSeen(w, a, seen);
    }
  }

  lemma {:induction false} RunSeen(w: World, run: seq<Action>, seen: set<Entry>)
    requires Grounded(w) && Possible(w, run) && AllSeen(w, seen)
    ensures AllSeen(After(w, run), seen + Seen(w, run))
    decreases |run|
  {
    hide AllSeen, Step, Enabled;
    if run != [] {
      StepGrounded(w, run[0]);
      var w' := Step(w, run[0]);
      var more := seen + (set e | e in w'.shared.queue);
      MoreSeen(w, seen, more);
      StepSeen(w, run[0], more);
      RunSeen(w', run[1..], more);
      MoreSeen(After(w, run), more + Seen(w', run[1..]), seen + Seen(w, run));
    } else {
      MoreSeen(w, seen, seen + Seen(w, run));
    }
  }

  /** Every collected episode has the session and the scene of a job queued for its own payload. */
  lemma EpisodesAreOwn(target: nat, maxRetries: nat, workers: nat, run: seq<Action>, id: nat, i: nat)
    requires Possible(Start(target, maxRetries, workers), run)
    requires id < |After(Start(target, maxRetries, workers), run).shared.states|
    requires i < |After(Start(target, maxRetries, workers), run).shared.states[id].collected|
    ensures EpisodeSeen(After(Start(target, maxRetries, workers), run).shared.states[id].collected[i], id,
                        Seen(Start(target, maxRetries, workers), run))
  {
    var w := Start(target, maxRetries, workers);
    RunSeen(w, run, {});
    assert {} + Seen(w, run) == Seen(w, run);
    assert PayloadSeen(After(w, run).shared.states[id], id, Seen(w, run));
  }
}
