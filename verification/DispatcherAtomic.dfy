/** Conservation with revives: it holds before any shutdown once a drop and the revive it leads to are one step. */
module DispatcherAtomic {
  import opened Wrappers
  import opened Tally
  import opened DispatcherState
  import opened DispatcherProtocol
  import opened DispatcherInvariant
  import opened DispatcherSteps
  import opened DispatcherIndex

  /** A failure handled without letting go of the lock: drop, choose a scene and revive in one go. */
  datatype Move = Plain(a: Action) | FailAtOnce(t: nat, pool: Option<SceneId>)

  predicate Allowed(w: World, m: Move) {
    match m
    case Plain(a) => (a.Submit? || a.Fetch? || a.Check? || a.SimulateOk? || a.Succeed? || a.Resolve?) && Enabled(w, a)
    case FailAtOnce(t, _) => Enabled(w, Fail(t))
  }

  function ReviveFully(w: World, t: nat): World
    requires Grounded(w) && t < |w.workers| && w.workers[t].Reviving?
  {
    StepGrounded(w, Revive(t));
    var w1 := Step(w, Revive(t));
    StepGrounded(w1, Revive(t));
    var w2 := Step(w1, Revive(t));
    StepGrounded(w2, Revive(t));
    var w3 := Step(w2, Revive(t));
    Step(w3, Revive(t))
  }

  function Perform(w: World, m: Move): World
    requires Grounded(w) && Allowed(w, m)
  {
    match m
    case Plain(a) => Step(w, a)
    case FailAtOnce(t, pool) =>
      var w1 := Step(w, Fail(t));
      if w1.workers[t].Dropping? then
        StepGrounded(w, Fail(t));
        var w2 := Step(w1, Decide(t, pool));
        StepGrounded(w1, Decide(t, pool));
        if w2.workers[t].Reviving? then ReviveFully(w2, t) else w2
      else w1
  }

  predicate Settled(w: World) {
    && Inv(w) && !w.shared.closed
    && (forall t :: 0 <= t < |w.workers| ==> !w.workers[t].Dropping? && !IsReviving(w.workers[t]))
    && forall id :: 0 <= id < |w.shared.states| && !w.shared.states[id].futureResolved ==>
         !w.shared.states[id].permanentlyFailed && w.ledger[id].lost == 0
  }

  lemma PlainSettled(w: World, a: Action)
    requires Settled(w) && Allowed(w, Plain(a))
    ensures Settled(Step(w, a))
  {
    hide GrantInv, ResultInv, CountsOf;
    StepInv(w, a);
    var c := w.shared;
    if a.Submit? && a.prompt !in c.active {
      PutFreshShape(c.(states := c.states + [Payload(a.prompt, c.maxRetries, [], false, false, [])],
                       active := c.active[a.prompt := |c.states|]), |c.states|, a.scene, c.target);
    }
  }

  lemma RevivedWorld(w: World, t: nat)
    requires Grounded(w) && t < |w.workers| && w.workers[t].Reviving?
    ensures var w' := ReviveFully(w, t); var id := w.workers[t].job.payload;
      && w'.workers == w.workers[t := Waiting] && w'.ledger == w.ledger && !w.shared.closed == !w'.shared.closed
      && w'.shared.states == w.shared.states[id := w.shared.states[id].(
           permanentlyFailed := false, futureResolved := false, retriesLeft := w.shared.maxRetries)]
  {
  }

  lemma InvFully(w: World, t: nat)
    requires Inv(w) && t < |w.workers| && w.workers[t].Reviving?
    ensures Inv(ReviveFully(w, t))
  {
    StepInv(w, Revive(t));
    var w1 := Step(w, Revive(t));
    StepInv(w1, Revive(t));
    var w2 := Step(w1, Revive(t));
    StepInv(w2, Revive(t));
    StepInv(Step(w2, Revive(t)), Revive(t));
  }

  lemma RevivedSettled(w: World, t: nat, pool: Option<SceneId>)
    requires Settled(w) && Allowed(w, FailAtOnce(t, pool))
    requires Step(w, Fail(t)).workers[t].Dropping? && Grounded(Step(w, Fail(t)))
    requires Step(Step(w, Fail(t)), Decide(t, pool)).workers[t].Reviving?
    ensures Settled(Perform(w, FailAtOnce(t, pool)))
  {
    hide GrantInv, ResultInv, CountsOf;
    StepInv(w, Fail(t));
    var w1 := Step(w, Fail(t));
    StepInv(w1, Decide(t, pool));
    var w2 := Step(w1, Decide(t, pool));
    InvFully(w2, t);
    RevivedWorld(w2, t);
  }

  lemma FailSettled(w: World, t: nat, pool: Option<SceneId>)
    requires Settled(w) && Allowed(w, FailAtOnce(t, pool))
    ensures Settled(Perform(w, FailAtOnce(t, pool)))
  {
    hide GrantInv, ResultInv, CountsOf;
    StepInv(w, Fail(t));
    var w1 := Step(w, Fail(t));
    if w1.workers[t].Dropping? {
      StepInv(w1, Decide(t, pool));
      if Step(w1, Decide(t, pool)).workers[t].Reviving? {
        RevivedSettled(w, t, pool);
      }
    }
  }

  lemma PerformGrounded(w: World, m: Move)
    requires Grounded(w) && Allowed(w, m)
    ensures Grounded(Perform(w, m))
  {
    match m {
      case Plain(a) => StepGrounded(w, a);
      case FailAtOnce(t, pool) =>
        StepGrounded(w, Fail(t));
        var w1 := Step(w, Fail(t));
        if w1.workers[t].Dropping? {
          StepGrounded(w1, Decide(t, pool));
          var w2 := Step(w1, Decide(t, pool));
          if w2.workers[t].Reviving? {
            GroundedFully(w2, t);
          }
        }
    }
  }

  lemma GroundedFully(w: World, t: nat)
    requires Grounded(w) && t < |w.workers| && w.workers[t].Reviving?
    ensures Grounded(ReviveFully(w, t))
  {
    StepGrounded(w, Revive(t));
    var w1 := Step(w, Revive(t));
    StepGrounded(w1, Revive(t));
    var w2 := Step(w1, Revive(t));
    StepGrounded(w2, Revive(t));
    StepGrounded(Step(w2, Revive(t)), Revive(t));
  }

  predicate PossibleMoves(w: World, moves: seq<Move>)
    requires Grounded(w)
    decreases |moves|
  {
    moves == [] ||
    (Allowed(w, moves[0]) && (PerformGrounded(w, moves[0]); PossibleMoves(Perform(w, moves[0]), moves[1..])))
  }

  function AfterMoves(w: World, moves: seq<Move>): World
    requires Grounded(w) && PossibleMoves(w, moves)
    decreases |moves|
  {
    if moves == [] then w else (PerformGrounded(w, moves[0]); AfterMoves(Perform(w, moves[0]), moves[1..]))
  }

  lemma {:induction false} MovesSettled(w: World, moves: seq<Move>)
    requires Settled(w) && PossibleMoves(w, moves)
    ensures Settled(AfterMoves(w, moves))
    decreases |moves|
  {
    if moves != [] {
      match moves[0] {
        case Plain(a) => PlainSettled(w, a);
        case FailAtOnce(t, pool) => FailSettled(w, t, pool);
      }
      PerformGrounded(w, moves[0]);
      MovesSettled(Perform(w, moves[0]), moves[1..]);
    }
  }

  /** With revives performed at once, every unresolved payload still accounts for all its jobs in every run. */
  lemma AtomicRevivesConserve(target: nat, maxRetries: nat, workers: nat, moves: seq<Move>, id: nat)
    requires target > 0 && PossibleMoves(Start(target, maxRetries, workers), moves)
    requires id < |AfterMoves(Start(target, maxRetries, workers), moves).shared.states|
    ensures var w := AfterMoves(Start(target, maxRetries, workers), moves);
      !w.shared.states[id].futureResolved ==>
        CountsOf(w, id).queued + CountsOf(w, id).carried + |w.shared.states[id].collected| == w.shared.target
  {
    StartInv(target, maxRetries, workers);
    MovesSettled(Start(target, maxRetries, workers), moves);
    var w := AfterMoves(Start(target, maxRetries, workers), moves);
    assert CellInv(w, id);
  }
}
