/** The memory the streaming rollout worker's threads share, and one function per atomic section that changes it.

    A reference to a `SharedPayloadState` is its index in `states`; ids are given in creation order. */
module DispatcherState {
  import opened Wrappers

  type SceneId = string

  datatype Episode = Episode(scene: SceneId, session: nat)

  datatype Job = Job(payload: nat, session: nat, scene: SceneId, attempts: nat, isFallback: bool)

  /** One priority-queue item; a sentinel carries no job. */
  datatype Entry = Entry(priority: nat, order: nat, job: Option<Job>)

  const RETRY := 0
  const FRESH := 1
  const SENTINEL := 2

  /** `delivered` lists every `set_result` call made on the payload's future. */
  datatype Payload = Payload(
    prompt: int,
    retriesLeft: int,
    collected: seq<Episode>,
    permanentlyFailed: bool,
    futureResolved: bool,
    delivered: seq<seq<Episode>>)

  datatype Shared = Shared(
    target: nat,
    maxRetries: nat,
    states: seq<Payload>,
    active: map<int, nat>,
    queue: seq<Entry>,
    nextOrder: nat,
    nextSession: nat,
    closed: bool,
    lastGood: Option<SceneId>)

  function Fresh(target: nat, maxRetries: nat): Shared {
    Shared(target, maxRetries, [], map[], [], 0, 0, false, None)
  }

  predicate Before(a: Entry, b: Entry) {
    a.priority < b.priority || (a.priority == b.priority && a.order < b.order)
  }

  /** The index `PriorityQueue.get` serves: the first entry no other entry precedes. */
  function Head(queue: seq<Entry>): (i: nat)
    requires queue != []
    ensures i < |queue|
    ensures forall j :: 0 <= j < |queue| ==> !Before(queue[j], queue[i])
  {
    if |queue| == 1 then 0
    else
      var rest := Head(queue[1..]) + 1;
      assert forall j :: 1 <= j < |queue| ==> queue[1..][j - 1] == queue[j];
      if Before(queue[rest], queue[0]) then rest else 0
  }

  function Pop(c: Shared): (r: (Shared, Entry))
    requires c.queue != []
  {
    var i := Head(c.queue);
    (c.(queue := c.queue[..i] + c.queue[i + 1..]), c.queue[i])
  }

  function Put(c: Shared, priority: nat, job: Option<Job>): Shared {
    c.(queue := c.queue + [Entry(priority, c.nextOrder, job)], nextOrder := c.nextOrder + 1)
  }

  /** Enqueue one job under a newly drawn session id. */
  function PutJob(c: Shared, priority: nat, payload: nat, scene: SceneId, attempts: nat, isFallback: bool): Shared {
    Put(c, priority, Some(Job(payload, c.nextSession, scene, attempts, isFallback)))
      .(nextSession := c.nextSession + 1)
  }

  function PutFresh(c: Shared, payload: nat, scene: SceneId, count: nat): Shared {
    if count == 0 then c else PutJob(PutFresh(c, payload, scene, count - 1), FRESH, payload, scene, 0, false)
  }

  /** `submit_payload`, all of it under the lock. */
  function Submit(c: Shared, prompt: int, scene: SceneId): (Shared, Result<nat>) {
    if c.closed then (c, Err("StreamingRolloutWorker is shut down"))
    else if prompt in c.active then (c, Ok(c.active[prompt]))
    else
      var id := |c.states|;
      var entrant := Payload(prompt, c.maxRetries, [], false, false, []);
      (PutFresh(c.(states := c.states + [entrant], active := c.active[prompt := id]), id, scene, c.target), Ok(id))
  }

  /** The locked section of `_on_rollout_succeeded`; `Some` is what the thread must then hand to the future. */
  function Succeed(c: Shared, id: nat, episode: Episode): (Shared, Option<seq<Episode>>)
    requires id < |c.states|
  {
    var s := c.states[id];
    if s.permanentlyFailed then (c, None)
    else
      var grown := s.(collected := s.collected + [episode]);
      if |grown.collected| >= c.target && !s.futureResolved then
        (c.(states := c.states[id := grown.(futureResolved := true)], active := c.active - {s.prompt}),
         Some(grown.collected[..c.target]))
      else
        (c.(states := c.states[id := grown]), None)
  }

  datatype Verdict = Ignored | Retried | Exhausted(mustDrop: bool)

  /** The locked section of `_on_rollout_failed`. */
  function Fail(c: Shared, job: Job): (Shared, Verdict)
    requires job.payload < |c.states|
  {
    var id := job.payload;
    var s := c.states[id];
    if s.permanentlyFailed then (c, Ignored)
    else
      var spent := s.(retriesLeft := s.retriesLeft - 1);
      if spent.retriesLeft >= 0 then
        (PutJob(c.(states := c.states[id := spent]), RETRY, id, job.scene, job.attempts + 1, false), Retried)
      else if s.futureResolved then
        (c.(states := c.states[id := spent.(permanentlyFailed := true)]), Exhausted(false))
      else
        (c.(states := c.states[id := spent.(permanentlyFailed := true, futureResolved := true)],
            active := c.active - {s.prompt}), Exhausted(true))
  }

  predicate Indexed(c: Shared, id: nat) {
    id < |c.states| && c.states[id].prompt in c.active && c.active[c.states[id].prompt] == id
  }

  /** Ids below `bound` that the index still maps to an unresolved state, oldest first. */
  function Unresolved(c: Shared, bound: nat): seq<nat>
    requires bound <= |c.states|
  {
    if bound == 0 then []
    else Unresolved(c, bound - 1) +
         (if Indexed(c, bound - 1) && !c.states[bound - 1].futureResolved then [bound - 1] else [])
  }

  /** The locked section of `shutdown`, with the states whose futures it must then resolve to `[]`. */
  function Close(c: Shared): (Shared, seq<nat>) {
    var marked := seq(|c.states|, id requires 0 <= id < |c.states| =>
      if Indexed(c, id) && !c.states[id].futureResolved
      then c.states[id].(futureResolved := true, permanentlyFailed := true)
      else c.states[id]);
    (c.(closed := true, states := marked, active := map[]), Unresolved(c, |c.states|))
  }

  /** `future.set_result(result)`, outside the lock. */
  function SetResult(c: Shared, id: nat, result: seq<Episode>): Shared
    requires id < |c.states|
  {
    c.(states := c.states[id := c.states[id].(delivered := c.states[id].delivered + [result])])
  }

  /** The healthy-scene note of `_on_rollout_succeeded`, written before the lock is taken. */
  function NoteHealthy(c: Shared, job: Job): Shared {
    if job.attempts == 0 && !job.isFallback then c.(lastGood := Some(job.scene)) else c
  }

  /** The substitute scene a dropping thread settles on: the last healthy one, else one seeded from the scene pool. */
  function ChooseFallback(c: Shared, pool: Option<SceneId>): (Shared, Option<SceneId>) {
    if c.lastGood.Some? then (c, c.lastGood)
    else if pool.Some? then (c.(lastGood := pool), pool)
    else (c, None)
  }
}
