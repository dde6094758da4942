/** What the revive branch breaks, by concrete runs. */
module DispatcherRevive {
  import opened Wrappers
  import opened Tally
  import opened DispatcherState
  import opened DispatcherProtocol
  import opened DispatcherInvariant
  import opened DispatcherIndex
  import opened DispatcherRuns

  /** One worker, one episode per payload, no retries: the job fails and its payload is revived on scene "b". Then a
      shutdown drains the queue, or the prompt is submitted again. */
  const REVIVE_RUN: seq<Action> :=
    [Submit(7, "a"), Fetch(0), Check(0), Fail(0), Decide(0, Some("b")), Revive(0), Revive(0), Revive(0), Revive(0)]

  const FIRST_JOB := Job(0, 0, "a", 0, false)
  const FALLBACK_JOB := Job(0, 1, "b", 0, true)

  function Shell(s: Payload, queue: seq<Entry>, orders: nat, good: Option<SceneId>): Shared {
    Shared(1, 0, [s], map[], queue, orders, orders, false, good)
  }

  const LIVE := Payload(7, 0, [], false, false, [])
  const DROPPED := Payload(7, -1, [], true, true, [])
  const CALLED := Ledger(1, 0, 0, 0, 0)
  const TOUCHED := Ledger(1, 0, 0, 1, 0)

  /** The world after the first `i` actions of the run. */
  function Stage(i: nat): World
    requires i <= 9
  {
    match i
    case 0 => Start(1, 0, 1)
    case 1 => World(Shell(LIVE, [Entry(FRESH, 0, Some(FIRST_JOB))], 1, None).(active := map[7 := 0]), [Waiting], [],
                    [Ledger(0, 0, 0, 0, 0)])
    case 2 => World(Shell(LIVE, [], 1, None).(active := map[7 := 0]), [Fetched(FIRST_JOB)], [], [Ledger(0, 0, 0, 0, 0)])
    case 3 => World(Shell(LIVE, [], 1, None).(active := map[7 := 0]), [Simulating(FIRST_JOB)], [], [CALLED])
    case 4 => World(Shell(DROPPED, [], 1, None), [Dropping(FIRST_JOB)], [], [CALLED])
    case 5 => World(Shell(DROPPED, [], 1, Some("b")), [Reviving(FIRST_JOB, "b")], [], [TOUCHED])
    case 6 => World(Shell(DROPPED.(permanentlyFailed := false), [], 1, Some("b")), [Unresolving(FIRST_JOB, "b")], [],
                    [TOUCHED])
    case 7 => World(Shell(LIVE.(retriesLeft := -1), [], 1, Some("b")), [Rebudgeting(FIRST_JOB, "b")], [], [TOUCHED])
    case 8 => World(Shell(LIVE, [], 1, Some("b")), [Requeueing(FIRST_JOB, "b")], [], [TOUCHED])
    case _ => World(Shell(LIVE, [Entry(RETRY, 1, Some(FALLBACK_JOB))], 2, Some("b")), [Waiting], [], [TOUCHED])
  }

  lemma FirstStage()
    ensures Step(Stage(0), REVIVE_RUN[0]) == Stage(1)
  {
    var c := Stage(0).shared.(states := [LIVE], active := map[7 := 0]);
    assert Stage(0).shared.states + [LIVE] == c.states;
    assert PutFresh(c, 0, "a", 0) == c;
    assert PutFresh(c, 0, "a", 1) == Stage(1).shared;
  }

  lemma EarlyStages()
    ensures Enabled(Stage(1), Fetch(0)) && Step(Stage(1), Fetch(0)) == Stage(2)
    ensures Enabled(Stage(2), Check(0)) && Step(Stage(2), Check(0)) == Stage(3)
  {
  }

  lemma FailedStage()
    ensures Enabled(Stage(3), Fail(0)) && Step(Stage(3), Fail(0)) == Stage(4)
  {
    assert map[7 := 0] - {7} == map[];
  }

  lemma LateStages()
    ensures Enabled(Stage(4), Decide(0, Some("b"))) && Step(Stage(4), Decide(0, Some("b"))) == Stage(5)
  {
  }

  lemma ReviveStages()
    ensures Enabled(Stage(5), Revive(0)) && Step(Stage(5), Revive(0)) == Stage(6)
    ensures Enabled(Stage(6), Revive(0)) && Step(Stage(6), Revive(0)) == Stage(7)
  {
  }

  lemma LastStages()
    ensures Enabled(Stage(7), Revive(0)) && Step(Stage(7), Revive(0)) == Stage(8)
    ensures Enabled(Stage(8), Revive(0)) && Step(Stage(8), Revive(0)) == Stage(9)
  {
  }

  lemma StagesReachable()
    ensures Reachable(Stage(9)) && Grounded(Stage(9))
  {
    assert Possible(Stage(0), []) && After(Stage(0), []) == Stage(0);
    assert Reachable(Stage(0));
    FirstStage();
    ReachableStep(Stage(0), REVIVE_RUN[0]);
    EarlyStages();
    ReachableStep(Stage(1), Fetch(0));
    ReachableStep(Stage(2), Check(0));
    FailedStage();
    ReachableStep(Stage(3), Fail(0));
    LateStages();
    ReachableStep(Stage(4), Decide(0, Some("b")));
    ReviveStages();
    ReachableStep(Stage(5), Revive(0));
    ReachableStep(Stage(6), Revive(0));
    LastStages();
    ReachableStep(Stage(7), Revive(0));
    ReachableStep(Stage(8), Revive(0));
  }

  const CLOSED := Shell(LIVE, [], 2, Some("b")).(closed := true)
  const DRAINED := World(CLOSED, [Waiting], [Posting(1, [])], [TOUCHED.(lost := 1)])
  const POSTED := CLOSED.(queue := [Entry(SENTINEL, 2, None)], nextOrder := 3)
  const SHUT := World(POSTED, [Waiting], [Releasing([])], [TOUCHED.(lost := 1)])

  const SHUTTING := World(Stage(9).shared.(closed := true), [Waiting], [Draining([])], [TOUCHED])
  const EMPTIED := SHUTTING.(shared := CLOSED, ledger := DRAINED.ledger)

  lemma ShutdownStage()
    ensures Step(Stage(9), Shutdown) == SHUTTING && Grounded(SHUTTING)
  {
    var c := Stage(9).shared;
    assert Unresolved(c, 0) == [] && Unresolved(c, 1) == [];
    assert DispatcherState.Close(c).0.states == [LIVE];
  }

  lemma DrainStage()
    ensures Enabled(SHUTTING, Close(0)) && Step(SHUTTING, Close(0)) == EMPTIED
  {
    assert Head(SHUTTING.shared.queue) == 0;
  }

  lemma EmptiedGrounded()
    ensures Grounded(EMPTIED)
  {
  }

  lemma DrainedStage()
    requires Grounded(EMPTIED)
    ensures Enabled(EMPTIED, Close(0)) && Step(EMPTIED, Close(0)) == DRAINED && Grounded(DRAINED)
  {
  }

  lemma SentinelStages()
    requires Grounded(DRAINED)
    ensures var posted := DRAINED.(shared := POSTED, closers := [Posting(0, [])]);
      Step(DRAINED, Close(0)) == posted && Grounded(posted) && Step(posted, Close(0)) == SHUT
  {
  }

  lemma DrainedReachable()
    ensures Reachable(DRAINED) && Grounded(DRAINED)
  {
    StagesReachable();
    ShutdownStage();
    ReachableStep(Stage(9), Shutdown);
    DrainStage();
    ReachableStep(SHUTTING, Close(0));
    EmptiedGrounded();
    DrainedStage();
    ReachableStep(EMPTIED, Close(0));
  }

  lemma ShutReachable()
    ensures Reachable(SHUT)
  {
    DrainedReachable();
    SentinelStages();
    ReachableStep(DRAINED, Close(0));
    ReachableStep(Step(DRAINED, Close(0)), Close(0));
  }

  lemma ShutIdle()
    ensures Idle(SHUT, 0) && !Enabled(SHUT, Close(0))
  {
    assert SHUT.closers == [Releasing([])];
    assert Sum(SHUT.shared.queue, Queued(0)) == 0;
    assert Sum(SHUT.workers, Carries(0)) == 0 && Sum(SHUT.workers, Holds(0)) == 0;
    assert Owes(0)(Releasing([])) == 0;
    assert Sum(SHUT.closers, Owes(0)) == 0;
  }

  /** A revived payload is in no index, so a whole shutdown can pass without its future ever getting a value. */
  lemma ReviveEscapesShutdown()
    ensures Reachable(SHUT) && SHUT.shared.closed && !Enabled(SHUT, Close(0))
    ensures Idle(SHUT, 0) && !SHUT.shared.states[0].futureResolved && SHUT.shared.states[0].delivered == []
  {
    ShutReachable();
    ShutIdle();
  }

  /** The index has forgotten a revived payload, so submitting its prompt again dispatches it twice at once. */
  lemma ReviveDispatchesTwice()
    ensures exists w :: (
      Reachable(w) && |w.shared.states| == 2 && w.shared.states[0].prompt == w.shared.states[1].prompt &&
      !w.shared.states[0].futureResolved && !w.shared.states[1].futureResolved)
  {
    StagesReachable();
    var w := Stage(9);
    ReachableStep(w, Submit(7, "a"));
    PutFreshShape(w.shared.(states := w.shared.states + [LIVE], active := w.shared.active[7 := 1]), 1, "a", 1);
  }
}
