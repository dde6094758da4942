/** What every reachable state of the dispatcher keeps, payload by payload, revive branch included. */
module DispatcherInvariant {
  import opened Wrappers
  import opened Tally
  import opened DispatcherState
  import opened DispatcherProtocol

  // ---------- counts ----------

  function Queued(id: nat): Entry -> nat {
    (e: Entry) => if e.job.Some? && e.job.value.payload == id then 1 else 0
  }

  /** A worker carrying a job of the payload, whatever it is doing with it. */
  function Carries(id: nat): Worker -> nat {
    (x: Worker) => if !x.Waiting? && !x.Stopped? && !x.Resolving? && x.job.payload == id then 1 else 0
  }

  /** A worker holding the right to resolve the payload's future. */
  function Holds(id: nat): Worker -> nat {
    (x: Worker) =>
      if x.Resolving? then (if x.payload == id then 1 else 0)
      else if x.Dropping? || x.Reviving? || x.Unresolving? then (if x.job.payload == id then 1 else 0)
      else 0
  }

  function Untaken(id: nat): Worker -> nat {
    (x: Worker) => if x.Fetched? && x.job.payload == id then 1 else 0
  }

  /** A worker in the revive branch, which still has a fallback job to enqueue. */
  function Substitutes(id: nat): Worker -> nat {
    (x: Worker) => if IsReviving(x) && x.job.payload == id then 1 else 0
  }

  /** The retry budget a reviving worker has yet to write back. */
  function Refills(id: nat, budget: nat): Worker -> nat {
    (x: Worker) => if IsReviving(x) && !x.Requeueing? && x.job.payload == id then budget else 0
  }

  function Is(id: nat): nat -> nat {
    (other: nat) => if other == id then 1 else 0
  }

  function Owes(id: nat): Closer -> nat {
    (x: Closer) => Sum(x.owed, Is(id))
  }

  /** Where one payload's jobs and the right to its future are. */
  datatype Counts =
    Counts(queued: int, carried: int, held: int, owed: int, untaken: int, substitutes: int, refills: int)

  function CountsOf(w: World, id: nat): Counts {
    Counts(Sum(w.shared.queue, Queued(id)), Sum(w.workers, Carries(id)), Sum(w.workers, Holds(id)),
           Sum(w.closers, Owes(id)), Sum(w.workers, Untaken(id)), Sum(w.workers, Substitutes(id)),
           Sum(w.workers, Refills(id, w.shared.maxRetries)))
  }

  // ---------- the invariant ----------

  /** An unresolved future has no claimant and no value; a resolved one has exactly one of the two. */
  predicate RightInv(k: Counts, s: Payload) {
    if s.futureResolved then k.held + k.owed + |s.delivered| == 1 else k.held + k.owed == 0 && s.delivered == []
  }

  /** No job vanishes uncounted, and an unresolved payload still wants episodes. */
  predicate BalanceInv(k: Counts, s: Payload, l: Ledger, target: nat) {
    && k.queued + k.carried + |s.collected| + l.lost == target
    && (!s.futureResolved ==> |s.collected| < target)
    && (l.revives == 0 && s.futureResolved && !s.permanentlyFailed ==> |s.collected| == target)
  }

  predicate BudgetInv(k: Counts, s: Payload, l: Ledger, target: nat) {
    && l.retries + (if s.retriesLeft > 0 then s.retriesLeft else 0) + k.refills <= l.granted
    && l.calls + k.queued + k.untaken + k.substitutes <= target + l.retries + l.revives
    && k.substitutes <= l.revives
  }

  predicate CountInv(k: Counts, s: Payload, l: Ledger, target: nat) {
    RightInv(k, s) && BalanceInv(k, s, l, target) && BudgetInv(k, s, l, target)
  }

  /** Neither this payload nor any other submitted under its prompt index has entered the revive branch. */
  predicate Untouched(w: World, id: nat)
    requires id < |w.shared.states| && |w.ledger| == |w.shared.states|
  {
    forall j :: 0 <= j < |w.shared.states| && w.shared.states[j].prompt == w.shared.states[id].prompt ==>
      w.ledger[j].revives == 0
  }

  predicate IndexInv(w: World, id: nat)
    requires id < |w.shared.states| && |w.ledger| == |w.shared.states|
  {
    Untouched(w, id) && !w.shared.states[id].futureResolved ==>
      Indexed(w.shared, id) && !w.shared.states[id].permanentlyFailed && w.ledger[id].lost == 0
  }

  predicate ResultSize(result: seq<Episode>, target: nat) {
    result == [] || |result| == target
  }

  predicate GoodWorker(x: Worker, target: nat) {
    x.Resolving? ==> ResultSize(x.result, target)
  }

  predicate GoodPayload(s: Payload, target: nat) {
    forall i :: 0 <= i < |s.delivered| ==> ResultSize(s.delivered[i], target)
  }

  /** Whatever is on its way to a future, or already there, is empty or complete. */
  predicate ResultInv(w: World) {
    && (forall t :: 0 <= t < |w.workers| ==> GoodWorker(w.workers[t], w.shared.target))
    && (forall id :: 0 <= id < |w.shared.states| ==> GoodPayload(w.shared.states[id], w.shared.target))
  }

  predicate ActiveInv(w: World) {
    && (forall p :: p in w.shared.active ==>
          w.shared.active[p] < |w.shared.states| && w.shared.states[w.shared.active[p]].prompt == p
          && !w.shared.states[w.shared.active[p]].futureResolved)
    && (w.shared.closed ==> w.shared.active == map[])
    && (w.closers != [] ==> w.shared.closed)
  }

  predicate CellInv(w: World, id: nat)
    requires id < |w.shared.states| && |w.ledger| == |w.shared.states|
  {
    CountInv(CountsOf(w, id), w.shared.states[id], w.ledger[id], w.shared.target)
  }

  /** Every entry into the revive branch grants one more full retry budget. */
  predicate GrantInv(w: World) {
    forall id :: 0 <= id < |w.ledger| ==> w.ledger[id].granted == w.shared.maxRetries * (1 + w.ledger[id].revives)
  }

  predicate Inv(w: World) {
    && Grounded(w) && w.shared.target > 0 && ResultInv(w) && ActiveInv(w) && GrantInv(w)
    && forall id :: 0 <= id < |w.shared.states| ==> CellInv(w, id) && IndexInv(w, id)
  }

  lemma StartInv(target: nat, maxRetries: nat, workers: nat)
    requires target > 0
    ensures Inv(Start(target, maxRetries, workers))
  {
  }

  // ---------- how counts move ----------

  /** What one worker contributes to the counts of a payload. */
  function Share(x: Worker, id: nat, budget: nat): Counts {
    Counts(0, Carries(id)(x), Holds(id)(x), 0, Untaken(id)(x), Substitutes(id)(x), Refills(id, budget)(x))
  }

  function Plus(a: Counts, b: Counts): Counts {
    Counts(a.queued + b.queued, a.carried + b.carried, a.held + b.held, a.owed + b.owed, a.untaken + b.untaken,
           a.substitutes + b.substitutes, a.refills + b.refills)
  }

  lemma Moved(w: World, c: Shared, t: nat, x: Worker, id: nat)
    requires t < |w.workers| && c.maxRetries == w.shared.maxRetries
    ensures Plus(CountsOf(Move(w, c, t, x), id), Share(w.workers[t], id, c.maxRetries))
            == Plus(CountsOf(w, id), Share(x, id, c.maxRetries)).(queued := Sum(c.queue, Queued(id)))
  {
    SumUpdate(w.workers, t, x, Carries(id));
    SumUpdate(w.workers, t, x, Holds(id));
    SumUpdate(w.workers, t, x, Untaken(id));
    SumUpdate(w.workers, t, x, Substitutes(id));
    SumUpdate(w.workers, t, x, Refills(id, c.maxRetries));
  }

  lemma CountsShape(w: World, id: nat)
    ensures (var k := CountsOf(w, id);
             && k.queued >= 0 && k.carried >= 0 && k.held >= 0 && k.owed >= 0
             && k.untaken >= 0 && k.substitutes >= 0 && k.refills >= 0)
  {
  }

  /** A worker's own share is part of the counts. */
  lemma Counted(w: World, t: nat, id: nat)
    requires t < |w.workers|
    ensures Carries(id)(w.workers[t]) <= CountsOf(w, id).carried && Holds(id)(w.workers[t]) <= CountsOf(w, id).held
    ensures Substitutes(id)(w.workers[t]) <= CountsOf(w, id).substitutes
  {
    SumAtLeast(w.workers, t, Carries(id));
    SumAtLeast(w.workers, t, Holds(id));
    SumAtLeast(w.workers, t, Substitutes(id));
  }

  lemma Popped(c: Shared, id: nat)
    requires c.queue != []
    ensures var (c', e) := Pop(c); Sum(c'.queue, Queued(id)) + Queued(id)(e) == Sum(c.queue, Queued(id))
  {
    SumRemove(c.queue, Head(c.queue), Queued(id));
  }

  lemma {:induction false} PutFreshCount(c: Shared, payload: nat, scene: SceneId, count: nat, id: nat)
    ensures Sum(PutFresh(c, payload, scene, count).queue, Queued(id))
            == Sum(c.queue, Queued(id)) + if id == payload then count else 0
  {
    if count > 0 {
      PutFreshCount(c, payload, scene, count - 1, id);
      var before := PutFresh(c, payload, scene, count - 1);
      SumAppend(before.queue, Entry(FRESH, before.nextOrder, Some(Job(payload, before.nextSession, scene, 0, false))),
                Queued(id));
    }
  }

  lemma {:induction false} AbsentFromQueue(queue: seq<Entry>, id: nat)
    requires forall i :: 0 <= i < |queue| ==> GroundedEntry(queue[i], id)
    ensures Sum(queue, Queued(id)) == 0
  {
    forall e | e in queue ensures Queued(id)(e) == 0 {
      var i :| 0 <= i < |queue| && queue[i] == e;
      assert GroundedEntry(queue[i], id);
    }
    SumZero(queue, Queued(id));
  }

  lemma AbsentFromWorkers(w: World, id: nat)
    requires forall t :: 0 <= t < |w.workers| ==> GroundedWorker(w.workers[t], id)
    ensures Sum(w.workers, Carries(id)) == 0 && Sum(w.workers, Holds(id)) == 0
    ensures Sum(w.workers, Untaken(id)) == 0 && Sum(w.workers, Substitutes(id)) == 0
    ensures Sum(w.workers, Refills(id, w.shared.maxRetries)) == 0
  {
    forall x | x in w.workers
      ensures Carries(id)(x) == 0 && Holds(id)(x) == 0 && Untaken(id)(x) == 0
      ensures Substitutes(id)(x) == 0 && Refills(id, w.shared.maxRetries)(x) == 0
    {
      var t :| 0 <= t < |w.workers| && w.workers[t] == x;
      assert GroundedWorker(w.workers[t], id);
    }
    SumZero(w.workers, Carries(id));
    SumZero(w.workers, Holds(id));
    SumZero(w.workers, Untaken(id));
    SumZero(w.workers, Substitutes(id));
    SumZero(w.workers, Refills(id, w.shared.maxRetries));
  }

  lemma AbsentFromClosers(closers: seq<Closer>, id: nat)
    requires forall k :: 0 <= k < |closers| ==> GroundedCloser(closers[k], id)
    ensures Sum(closers, Owes(id)) == 0
  {
    forall x | x in closers ensures Owes(id)(x) == 0 {
      var k :| 0 <= k < |closers| && closers[k] == x;
      assert GroundedCloser(closers[k], id);
      SumZero(x.owed, Is(id));
    }
    SumZero(closers, Owes(id));
  }

  lemma {:induction false} UnresolvedOnce(c: Shared, bound: nat, id: nat)
    requires bound <= |c.states|
    ensures Sum(Unresolved(c, bound), Is(id))
            == if id < bound && Indexed(c, id) && !c.states[id].futureResolved then 1 else 0
  {
    if bound > 0 {
      hide Sum;
      var last: nat, rest := bound - 1, Unresolved(c, bound - 1);
      UnresolvedOnce(c, last, id);
      if Indexed(c, last) && !c.states[last].futureResolved {
        assert Unresolved(c, bound) == rest + [last];
        SumAppend<nat>(rest, last, Is(id));
      } else {
        assert Unresolved(c, bound) == rest;
      }
    }
  }
}
