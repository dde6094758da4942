/** What becomes, in training, of a step the expert drove: the driver invalidates its log-probability, and the packer
    treats every step without a finite one as padding. */
module ExpertTakeover {
  import opened DriverSession
  import opened ExpertProtocol
  import opened Wrappers
  import P = ReplayPacking

  const TOKENS := "expert_action_tokens"

  /** `build` passes the recorded log-probability on and puts the recorded expert tokens, as `encode` writes them,
      among the model inputs. */
  ghost predicate Exposes(build: Replay -> P.Step, encode: Option<seq<nat>> -> seq<real>) {
    && (forall tokens, others :: encode(tokens) == encode(others) ==> tokens == others)
    && forall replay: Replay ::
         && (replay.oldLogprob.Value? ==> build(replay).oldLogprob == P.Finite(replay.oldLogprob.x))
         && (replay.oldLogprob.NotANumber? ==> build(replay).oldLogprob == P.NonFinite)
         && TOKENS in build(replay).inputs && build(replay).inputs[TOKENS] == encode(replay.expertTokens)
  }

  function Replays(outputs: seq<PolicyOutput>): (r: seq<Option<Replay>>)
    ensures |r| == |outputs| && forall i :: 0 <= i < |r| ==> r[i] == outputs[i].replay
  {
    seq(|outputs|, i requires 0 <= i < |outputs| => outputs[i].replay)
  }

  /** The drive let the expert take over. */
  predicate TakesOver(config: Config, output: PolicyOutput, turn: ExpertTurn) {
    && config.expertEnabled && config.mixing && Queryable(output) && turn.asked.Some?
    && TokensOf(turn.answer).Some? && turn.built.Ok? && turn.expertDrives
  }

  /** The first step of the rollout with a finite log-probability, if any. */
  function FirstFinite(build: Replay -> P.Step, outputs: seq<PolicyOutput>): (k: Option<nat>)
    requires P.AllPresent(Replays(outputs))
    ensures k.Some? ==> k.value < |outputs| && outputs[k.value].replay.Some?
  {
    var k := P.FirstGood(P.StepsOf(build, Replays(outputs)));
    assert k.Some? ==> Replays(outputs)[k.value].Some?;
    k
  }

  /** What the imitation loss finds as the expert tokens of row `i`. */
  function TrainedTokens(build: Replay -> P.Step, outputs: seq<PolicyOutput>, expectedSteps: nat, rolloutId: string,
                         i: nat): Option<seq<real>>
    requires P.Accepted(build, Replays(outputs), expectedSteps, rolloutId) && i < expectedSteps
  {
    var inputs := P.Pack(build, Replays(outputs), expectedSteps, rolloutId)[i].inputs;
    if TOKENS in inputs then Some(inputs[TOKENS]) else None
  }

  /** A step the expert drove trains as padding, and keeps the expert's tokens for the imitation loss exactly when
      no step of the rollout is finite or the first finite one happens to carry the same tokens. */
  lemma TakenOverTokensKeptIff(build: Replay -> P.Step, encode: Option<seq<nat>> -> seq<real>, config: Config,
                               output: PolicyOutput, turn: ExpertTurn, outputs: seq<PolicyOutput>, expectedSteps: nat,
                               rolloutId: string, i: nat)
    requires Exposes(build, encode) && P.Accepted(build, Replays(outputs), expectedSteps, rolloutId)
    requires TakesOver(config, output, turn)
    requires i < |outputs| && outputs[i] == ExpertBlock(config, output, turn).0
    ensures P.Pack(build, Replays(outputs), expectedSteps, rolloutId)[i].isPadding
    ensures (var first := FirstFinite(build, outputs);
             TrainedTokens(build, outputs, expectedSteps, rolloutId, i) == Some(encode(TokensOf(turn.answer))) <==>
               first.None? || outputs[first.value].replay.value.expertTokens == TokensOf(turn.answer))
  {
    var replays := Replays(outputs);
    var steps := P.StepsOf(build, replays);
    assert replays[i] == outputs[i].replay && steps[i] == build(replays[i].value) && P.Bad(steps[i]);
    P.BadInputsKeptIff(build, replays, expectedSteps, rolloutId, i);
    var first := FirstFinite(build, outputs);
    if first.Some? {
      assert replays[first.value] == outputs[first.value].replay;
    }
  }

  // ---------- a rollout that forgets ----------

  function TokenInput(tokens: Option<seq<nat>>): seq<real> {
    if tokens.None? then []
    else [1.0] + seq(|tokens.value|, i requires 0 <= i < |tokens.value| => tokens.value[i] as real)
  }

  lemma TokenInputInjective(tokens: Option<seq<nat>>, others: Option<seq<nat>>)
    requires TokenInput(tokens) == TokenInput(others)
    ensures tokens == others
  {
    assert |TokenInput(tokens)| == |TokenInput(others)|;
    if tokens.Some? {
      forall i | 0 <= i < |tokens.value|
        ensures tokens.value[i] == others.value[i]
      {
        assert TokenInput(tokens)[i + 1] == tokens.value[i] as real;
        assert TokenInput(others)[i + 1] == others.value[i] as real;
      }
      assert tokens.value == others.value;
    }
  }

  function PlainBuild(replay: Replay): P.Step {
    P.Step(map[TOKENS := TokenInput(replay.expertTokens)],
           if replay.oldLogprob.Value? then P.Finite(replay.oldLogprob.x) else P.NonFinite)
  }

  lemma PlainBuildExposes()
    ensures Exposes(PlainBuild, TokenInput)
  {
    forall tokens, others | TokenInput(tokens) == TokenInput(others)
      ensures tokens == others
    {
      TokenInputInjective(tokens, others);
    }
  }

  const MIXING := Config(true, true)

  function Driven(payload: Payload): PolicyOutput {
    PolicyOutput(Chosen([], [], []), Some(Replay(Some(payload), [], Value(0.0), None)))
  }

  function Turn(tokens: seq<nat>, expertDrives: bool): ExpertTurn {
    ExpertTurn(Some(0), Some(Got(Response(Labels(tokens, [], [])))), expertDrives, Ok(Chosen([], [], [])))
  }

  /** The policy drives the first step, the expert the second, with other tokens. */
  function TwoSteps(payload: Payload): seq<PolicyOutput> {
    [ExpertBlock(MIXING, Driven(payload), Turn([1], false)).0, ExpertBlock(MIXING, Driven(payload), Turn([2], true)).0]
  }

  /** The imitation loss of the second step sees the tokens of the first, not the expert's. */
  lemma TakenOverStepIsForgotten(payload: Payload, rolloutId: string)
    ensures (var outputs := TwoSteps(payload);
             && Exposes(PlainBuild, TokenInput) && P.Accepted(PlainBuild, Replays(outputs), 2, rolloutId)
             && TakesOver(MIXING, Driven(payload), Turn([2], true))
             && outputs[1].replay.value.expertTokens == Some([2])
             && TrainedTokens(PlainBuild, outputs, 2, rolloutId, 1) == Some(TokenInput(Some([1])))
             && TokenInput(Some([1])) != TokenInput(Some([2])))
  {
    var outputs := TwoSteps(payload);
    PlainBuildExposes();
    var replays := Replays(outputs);
    assert replays == [outputs[0].replay, outputs[1].replay];
    var steps := P.StepsOf(PlainBuild, replays);
    assert steps == [PlainBuild(replays[0].value), PlainBuild(replays[1].value)];
    assert P.FirstGood(steps) == Some(0);
    assert P.SameKeys(P.StepRows(steps, rolloutId));
    assert TokenInput(Some([1]))[1] == 1.0 && TokenInput(Some([2]))[1] == 2.0;
    P.BadInputsKeptIff(PlainBuild, replays, 2, rolloutId, 1);
  }
}
