/** From a drive's query to the label on its recorded output: the collector that waits for a closed session's expert
    futures, and the proof that a label is always the expert's answer to the observation it is attached to. */
module ExpertLabels {
  import opened DriverSession
  import opened ExpertProtocol
  import opened Wrappers
  import D = DistanceToGt

  /** What waiting for each future gave: `None` is a timeout. */
  type Heard = seq<Option<Outcome>>

  function CollectedTokens(future: Option<nat>, read: Option<Outcome>): Option<seq<nat>> {
    if future.None? then None else TokensOf(read)
  }

  /** Output `i` once the collector is done. */
  function Collected(output: PolicyOutput, futures: seq<Option<nat>>, heard: Heard, i: nat): PolicyOutput
    requires |heard| == |futures|
  {
    if i < |futures| && output.replay.Some? && CollectedTokens(futures[i], heard[i]).Some?
    then Label(output, CollectedTokens(futures[i], heard[i]).value) else output
  }

  method CollectExpertFutures(futures: seq<Option<nat>>, heard: Heard, outputs: seq<PolicyOutput>)
    returns (labelled: seq<PolicyOutput>)
    requires |heard| == |futures|
    ensures |labelled| == |outputs|
    ensures forall i :: 0 <= i < |outputs| ==> labelled[i] == Collected(outputs[i], futures, heard, i)
  {
    var actionTokens: seq<Option<seq<nat>>> := [];
    for i := 0 to |futures|
      invariant |actionTokens| == i
      invariant forall j :: 0 <= j < i ==> actionTokens[j] == CollectedTokens(futures[j], heard[j])
    {
      if futures[i].None? {
        actionTokens := actionTokens + [None];
      } else {
        actionTokens := actionTokens + [TokensOf(heard[i])];
      }
    }
    labelled := outputs;
    var i := 0;
    while i < |outputs|
      invariant 0 <= i <= |outputs| == |labelled|
      invariant forall j :: 0 <= j < i ==> labelled[j] == Collected(outputs[j], futures, heard, j)
      invariant forall j :: i <= j < |outputs| ==> labelled[j] == outputs[j]
    {
      if i >= |actionTokens| {
        break;
      }
      if actionTokens[i].Some? && outputs[i].replay.Some? {
        labelled := labelled[i := Label(outputs[i], actionTokens[i].value)];
      }
      i := i + 1;
    }
  }

  // ---------- queries and outputs keep step ----------

  /** What the client guarantees of every query: future `k` was made for payload `payloads(k)`. */
  predicate QueryMatches(payloads: nat -> Payload, output: PolicyOutput, turn: ExpertTurn) {
    turn.asked.Some? && Queryable(output) ==> payloads(turn.asked.value) == output.replay.value.modelInput.value
  }

  predicate QueriesMatch(config: Config, payloads: nat -> Payload, events: seq<Event>) {
    events == [] ||
    (var before, last := Final(config, FRESH_SESSION, events[..|events| - 1]), events[|events| - 1];
     && QueriesMatch(config, payloads, events[..|events| - 1])
     && (last.Drive? && OutputOf(before, last).Ok? ==> QueryMatches(payloads, OutputOf(before, last).value, last.turn)))
  }

  /** Future `i`, if any, is the query for the observation of output `i`. */
  ghost predicate InStep(payloads: nat -> Payload, s: State) {
    && |s.expertFutures| <= |s.outputs|
    && forall i :: 0 <= i < |s.expertFutures| && s.expertFutures[i].Some? ==>
                     && Queryable(s.outputs[i])
                     && payloads(s.expertFutures[i].value) == s.outputs[i].replay.value.modelInput.value
  }

  lemma {:induction false} QueriesInStep(config: Config, payloads: nat -> Payload, events: seq<Event>)
    requires QueriesMatch(config, payloads, events)
    ensures InStep(payloads, Final(config, FRESH_SESSION, events))
  {
    hide SortByTime, Executed;
    if events != [] {
      QueriesInStep(config, payloads, events[..|events| - 1]);
      FuturesMatchOutputs(config, events[..|events| - 1]);
    }
  }

  /** What a collector can hear from a client's futures: the outcome at that moment, or nothing after a timeout. */
  predicate ReadFrom(client: Client, futures: seq<Option<nat>>, heard: Heard) {
    && |heard| == |futures|
    && forall i :: 0 <= i < |futures| && futures[i].Some? ==>
                     heard[i].None? || (futures[i].value < |client.futures|
                                        && heard[i] == client.futures[futures[i].value].outcome)
  }

  /** The label is missing or is the expert's answer to the output's own observation. */
  predicate OwnLabel(expert: Expert, output: PolicyOutput) {
    output.replay.Some? && output.replay.value.expertTokens.Some? ==>
      && output.replay.value.modelInput.Some?
      && expert(output.replay.value.modelInput.value).Labels?
      && output.replay.value.expertTokens.value == expert(output.replay.value.modelInput.value).actionIndices
  }

  lemma ReadIsOwn(expert: Expert, client: Client, f: Future, read: Option<Outcome>)
    requires f.outcome.Some? ==> f.outcome.value == OwnOutcome(expert, client, f)
    requires read.None? || read == f.outcome
    ensures TokensOf(read).Some? ==>
              expert(f.payload).Labels? && TokensOf(read).value == expert(f.payload).actionIndices
  {
  }

  // ---------- what a drive records ----------

  /** With mixing, the answer in hand is the one to this drive's own query. */
  predicate AnswerIsOwn(expert: Expert, output: PolicyOutput, turn: ExpertTurn) {
    Queryable(output) && TokensOf(turn.answer).Some? ==>
      && expert(output.replay.value.modelInput.value).Labels?
      && TokensOf(turn.answer).value == expert(output.replay.value.modelInput.value).actionIndices
  }

  /** A recorded output either is the policy's own action with its own log-probability, or the expert's trajectory
      with the expert's tokens and no usable log-probability; in both cases its label is its own. */
  lemma RecordedActionIsWhole(expert: Expert, config: Config, output: PolicyOutput, turn: ExpertTurn)
    requires OwnLabel(expert, output) && AnswerIsOwn(expert, output, turn)
    ensures (var recorded := ExpertBlock(config, output, turn).0;
             && OwnLabel(expert, recorded)
             && recorded.replay.Some? == output.replay.Some?
             && (recorded.replay.Some? ==>
                   || (&& recorded.chosen == output.chosen
                       && recorded.replay.value.actionTokens == output.replay.value.actionTokens
                       && recorded.replay.value.oldLogprob == output.replay.value.oldLogprob)
                   || (&& recorded.chosen == turn.built.value
                       && recorded.replay.value.expertTokens == Some(recorded.replay.value.actionTokens)
                       && recorded.replay.value.oldLogprob == NotANumber)))
  {
    var tokens := TokensOf(turn.answer);
    if Queryable(output) && tokens.Some? {
      assert OwnLabel(expert, Label(output, tokens.value));
    }
  }

  /** What waiting for future `k` of client `c` gave at some moment of the protocol's run: the outcome by then, or
      nothing after a timeout. */
  ghost predicate HeardDuring(expert: Expert, enabled: seq<bool>, steps: seq<Step>, c: nat, k: nat,
                              answer: Option<Outcome>)
  {
    answer.None? || exists n: nat :: n <= |steps| && HeardAfter(expert, enabled, steps[..n], c, k, answer)
  }

  predicate HeardAfter(expert: Expert, enabled: seq<bool>, steps: seq<Step>, c: nat, k: nat, answer: Option<Outcome>) {
    CanRun(expert, Start(enabled), steps) &&
    var w := After(expert, Start(enabled), steps);
    c < |w.clients| && k < |w.clients[c].futures| && answer == w.clients[c].futures[k].outcome
  }

  /** Policy outputs come unlabelled or with their own label, and with mixing each drive hears the future it asked
      for. */
  ghost predicate HearsProtocol(expert: Expert, enabled: seq<bool>, steps: seq<Step>, c: nat, config: Config,
                                events: seq<Event>)
  {
    events == [] ||
    (var before, last := Final(config, FRESH_SESSION, events[..|events| - 1]), events[|events| - 1];
     && HearsProtocol(expert, enabled, steps, c, config, events[..|events| - 1])
     && (last.Drive? && OutputOf(before, last).Ok? ==>
           && OwnLabel(expert, OutputOf(before, last).value)
           && (last.turn.asked.Some? ==>
                 HeardDuring(expert, enabled, steps, c, last.turn.asked.value, last.turn.answer))))
  }

  /** What the protocol run says each future was made for. */
  ghost predicate PayloadsOf(client: Client, payloads: nat -> Payload) {
    forall k: nat :: k < |client.futures| ==> payloads(k) == client.futures[k].payload
  }

  /** Whatever is heard of the future a drive asked for is the expert's answer to that drive's own observation. */
  lemma HeardIsOwn(expert: Expert, enabled: seq<bool>, steps: seq<Step>, c: nat, payloads: nat -> Payload,
                   output: PolicyOutput, turn: ExpertTurn)
    requires CanRun(expert, Start(enabled), steps) && c < |After(expert, Start(enabled), steps).clients|
    requires PayloadsOf(After(expert, Start(enabled), steps).clients[c], payloads)
    requires QueryMatches(payloads, output, turn) && turn.asked.Some?
    requires HeardDuring(expert, enabled, steps, c, turn.asked.value, turn.answer)
    ensures AnswerIsOwn(expert, output, turn)
  {
    hide After, CanRun, Start, OutcomeOf;
    if Queryable(output) && TokensOf(turn.answer).Some? {
      var n: nat :| n <= |steps| && HeardAfter(expert, enabled, steps[..n], c, turn.asked.value, turn.answer);
      var k := turn.asked.value;
      SplitRun(expert, Start(enabled), steps, n);
      RunKeepsFutures(expert, After(expert, Start(enabled), steps[..n]), steps[n..]);
      OwnAnswerAtMostOnce(expert, enabled, steps[..n], c, k);
      var client := After(expert, Start(enabled), steps[..n]).clients[c];
      assert KeepsClient(client, After(expert, Start(enabled), steps).clients[c]);
      ReadIsOwn(expert, client, client.futures[k], turn.answer);
    }
  }

  predicate AllOwn(expert: Expert, outputs: seq<PolicyOutput>) {
    forall i :: 0 <= i < |outputs| ==> OwnLabel(expert, outputs[i])
  }

  lemma NothingAsked(config: Config, output: PolicyOutput, turn: ExpertTurn)
    requires turn.asked.None?
    ensures ExpertBlock(config, output, turn).0 == output
  {
  }

  /** Until the collector runs, too, a recorded label is the expert's answer to the output's own observation. */
  lemma {:induction false} RecordedLabelsOwn(expert: Expert, enabled: seq<bool>, steps: seq<Step>, c: nat,
                                             payloads: nat -> Payload, config: Config, events: seq<Event>)
    requires CanRun(expert, Start(enabled), steps) && c < |After(expert, Start(enabled), steps).clients|
    requires PayloadsOf(After(expert, Start(enabled), steps).clients[c], payloads)
    requires QueriesMatch(config, payloads, events) && HearsProtocol(expert, enabled, steps, c, config, events)
    ensures AllOwn(expert, Final(config, FRESH_SESSION, events).outputs)
  {
    hide SortByTime, Executed, OwnLabel, AnswerIsOwn, ExpertBlock, After, CanRun, PayloadsOf, HeardDuring, QueryMatches;
    if events != [] {
      var before, last := Final(config, FRESH_SESSION, events[..|events| - 1]), events[|events| - 1];
      RecordedLabelsOwn(expert, enabled, steps, c, payloads, config, events[..|events| - 1]);
      if last.Drive? && OutputOf(before, last).Ok? {
        var output := OutputOf(before, last).value;
        if last.turn.asked.Some? {
          HeardIsOwn(expert, enabled, steps, c, payloads, output, last.turn);
          RecordedActionIsWhole(expert, config, output, last.turn);
        } else {
          NothingAsked(config, output, last.turn);
        }
      }
    }
  }

  /** Whatever the network, the other sessions and the timeouts do, with mixing or without: after the collector has run,
      each output of a session whose policy does not label is unlabelled or carries the expert's answer to its own
      observation. */
  lemma LabelsAreOwn(expert: Expert, enabled: seq<bool>, steps: seq<Step>, c: nat, payloads: nat -> Payload,
                     config: Config, events: seq<Event>, heard: Heard, i: nat)
    requires CanRun(expert, Start(enabled), steps) && c < |After(expert, Start(enabled), steps).clients|
    requires PayloadsOf(After(expert, Start(enabled), steps).clients[c], payloads)
    requires QueriesMatch(config, payloads, events) && HearsProtocol(expert, enabled, steps, c, config, events)
    requires ReadFrom(After(expert, Start(enabled), steps).clients[c],
                      Final(config, FRESH_SESSION, events).expertFutures, heard)
    requires i < |Final(config, FRESH_SESSION, events).outputs|
    ensures (var s := Final(config, FRESH_SESSION, events);
             OwnLabel(expert, Collected(s.outputs[i], s.expertFutures, heard, i)))
  {
    hide Final, After, Start, CanRun, OutcomeOf, HearsProtocol;
    var s, client := Final(config, FRESH_SESSION, events), After(expert, Start(enabled), steps).clients[c];
    QueriesInStep(config, payloads, events);
    RecordedLabelsOwn(expert, enabled, steps, c, payloads, config, events);
    if i < |s.expertFutures| && s.expertFutures[i].Some? && heard[i].Some? {
      var k := s.expertFutures[i].value;
      OwnAnswerAtMostOnce(expert, enabled, steps, c, k);
      ReadIsOwn(expert, client, client.futures[k], heard[i]);
    }
  }

  // ---------- which outputs are labelled ----------

  /** What the policy gave a recording drive, and what the drive met outside. */
  datatype Drove = Drove(output: PolicyOutput, turn: ExpertTurn)

  function Recordings(config: Config, events: seq<Event>): seq<Drove> {
    if events == [] then []
    else
      var (before, last) := (Final(config, FRESH_SESSION, events[..|events| - 1]), events[|events| - 1]);
      Recordings(config, events[..|events| - 1]) +
      if last.Drive? && OutputOf(before, last).Ok? then [Drove(OutputOf(before, last).value, last.turn)] else []
  }

  /** Output and future `i` come from the `i`-th recording drive. */
  predicate Records(config: Config, s: State, drives: seq<Drove>) {
    && |s.outputs| == |drives| && |s.expertFutures| == (if config.expertEnabled then |drives| else 0)
    && (forall i :: 0 <= i < |drives| ==>
          s.outputs[i] == ExpertBlock(config, drives[i].output, drives[i].turn).0)
    && (forall i :: 0 <= i < |s.expertFutures| ==>
          [s.expertFutures[i]] == ExpertBlock(config, drives[i].output, drives[i].turn).1)
  }

  lemma {:induction false} SessionRecords(config: Config, events: seq<Event>)
    ensures Records(config, Final(config, FRESH_SESSION, events), Recordings(config, events))
  {
    if events != [] {
      var front, last := events[..|events| - 1], events[|events| - 1];
      var s := Final(config, FRESH_SESSION, front);
      SessionRecords(config, front);
      hide ExpertBlock, SortByTime, Executed;
      if last.Drive? && OutputOf(s, last).Ok? {
        OneEntry(config, OutputOf(s, last).value, last.turn);
      }
    }
  }

  lemma OneEntry(config: Config, output: PolicyOutput, turn: ExpertTurn)
    ensures |ExpertBlock(config, output, turn).1| == if config.expertEnabled then 1 else 0
  {
  }

  /** The answer that decides over output `i`: with mixing the one its drive waited for, without the one the collector
      heard. */
  function Decisive(config: Config, drove: Drove, heard: Heard, i: nat): Option<Outcome> {
    if !config.expertEnabled || !Queryable(drove.output) || drove.turn.asked.None? then None
    else if config.mixing then drove.turn.answer
    else if i < |heard| then heard[i] else None
  }

  /** In every session output `i` ends up labelled with the tokens of its decisive answer, if that has any, and as the
      policy left it otherwise; and its action is the expert's exactly when it was mixed in, the coin said so and the
      trajectory could be built. */
  lemma LabelledExactly(config: Config, events: seq<Event>, heard: Heard, i: nat)
    requires |heard| == |Final(config, FRESH_SESSION, events).expertFutures|
    requires i < |Recordings(config, events)|
    ensures i < |Final(config, FRESH_SESSION, events).outputs|
    ensures (var (s, drove) := (Final(config, FRESH_SESSION, events), Recordings(config, events)[i]);
             var (own, ends) := (drove.output, Collected(s.outputs[i], s.expertFutures, heard, i));
             var tokens := TokensOf(Decisive(config, drove, heard, i));
             var takesOver := config.mixing && tokens.Some? && drove.turn.built.Ok? && drove.turn.expertDrives;
             && ends.replay.Some? == own.replay.Some?
             && ends.chosen == (if takesOver then drove.turn.built.value else own.chosen)
             && (own.replay.Some? ==>
                   && ends.replay.value.modelInput == own.replay.value.modelInput
                   && ends.replay.value.expertTokens == (if tokens.Some? then tokens else own.replay.value.expertTokens)
                   && ends.replay.value.actionTokens
                      == (if takesOver then tokens.value else own.replay.value.actionTokens)
                   && ends.replay.value.oldLogprob == (if takesOver then NotANumber else own.replay.value.oldLogprob)))
  {
    SessionRecords(config, events);
    hide Final, Recordings;
  }

  /** Every answer that arrives in time becomes a label: without mixing, once the client has resolved the future of an
      output's query and the collector has heard it, the output carries what the expert says to its observation. */
  lemma AnsweredMeansLabelled(expert: Expert, enabled: seq<bool>, steps: seq<Step>, c: nat, payloads: nat -> Payload,
                              config: Config, events: seq<Event>, heard: Heard, i: nat)
    requires CanRun(expert, Start(enabled), steps) && c < |After(expert, Start(enabled), steps).clients|
    requires After(expert, Start(enabled), steps).clients[c].enabled && config.expertEnabled && !config.mixing
    requires PayloadsOf(After(expert, Start(enabled), steps).clients[c], payloads)
    requires QueriesMatch(config, payloads, events)
    requires ReadFrom(After(expert, Start(enabled), steps).clients[c],
                      Final(config, FRESH_SESSION, events).expertFutures, heard)
    requires i < |Recordings(config, events)| && i < |Final(config, FRESH_SESSION, events).outputs|
    requires Queryable(Recordings(config, events)[i].output) && Recordings(config, events)[i].turn.asked.Some?
    requires i < |heard| ==> heard[i].Some?
    ensures (var (s, observation) := (Final(config, FRESH_SESSION, events),
                                      Recordings(config, events)[i].output.replay.value.modelInput.value);
             var ends := Collected(s.outputs[i], s.expertFutures, heard, i);
             && ends.replay.Some? && ends.replay.value.modelInput == Some(observation)
             && (expert(observation).Labels? ==>
                   ends.replay.value.expertTokens == Some(expert(observation).actionIndices)))
  {
    var s, client := Final(config, FRESH_SESSION, events), After(expert, Start(enabled), steps).clients[c];
    SessionRecords(config, events);
    QueriesInStep(config, payloads, events);
    LabelledExactly(config, events, heard, i);
    hide Final, After, Start, CanRun, Recordings, Collected;
    assert s.expertFutures[i] == Recordings(config, events)[i].turn.asked;
    var k := s.expertFutures[i].value;
    OwnAnswerAtMostOnce(expert, enabled, steps, c, k);
    AnswerHasTokens(expert, client, client.futures[k]);
  }

  lemma AnswerHasTokens(expert: Expert, client: Client, f: Future)
    requires client.enabled && f.outcome.Some? && f.outcome.value == OwnOutcome(expert, client, f)
    ensures TokensOf(f.outcome) == if expert(f.payload).Labels? then Some(expert(f.payload).actionIndices) else None
  {
  }

  function Steady(output: PolicyOutput): PolicyInput -> Result<PolicyOutput> {
    (input: PolicyInput) => Ok(output)
  }

  /** One tick with two poses of one time is enough to make the reward refuse the trajectory. */
  lemma SameTimeTwiceIsRefused(config: Config, pose: D.EgoPose, route: Route, output: PolicyOutput, turn: ExpertTurn)
    ensures (var events := [SubmitEgomotion([pose, pose]), SubmitRoute(route), Drive(Steady(output), turn)];
             !D.Increasing(D.PoseTimes(Final(config, FRESH_SESSION, events).executedPoses)))
  {
    hide ExpertBlock, SortByTime, DistinctTimes, Executed;
    var events := [SubmitEgomotion([pose, pose]), SubmitRoute(route), Drive(Steady(output), turn)];
    var s := Prepared(pose, route);
    PreparedRun(config, pose, route);
    assert events[..2] == [SubmitEgomotion([pose, pose]), SubmitRoute(route)];
    SortedTwice(pose);
    FreshOfAll([pose, pose]);
    assert OutputOf(s, events[2]) == Ok(output);
    assert !DistinctTimes([pose, pose]) by {
      NotDistinct(pose);
    }
    assert !DistinctTicks(config, events);
    RewardCheckFiresIff(config, events);
  }

  function Prepared(pose: D.EgoPose, route: Route): State {
    FRESH_SESSION.(tick := TickBuffer([], Some([pose, pose]), Some(route)))
  }

  lemma PreparedRun(config: Config, pose: D.EgoPose, route: Route)
    ensures Final(config, FRESH_SESSION, [SubmitEgomotion([pose, pose]), SubmitRoute(route)]) == Prepared(pose, route)
  {
    var first, second := SubmitEgomotion([pose, pose]), SubmitRoute(route);
    assert [first, second][..1] == [first] && [first][..0] == [];
    assert Final(config, FRESH_SESSION, []) == FRESH_SESSION;
    assert [] + [pose, pose] == [pose, pose];
    assert Final(config, FRESH_SESSION, [first]) == Apply(config, FRESH_SESSION, first);
  }

  lemma NotDistinct(pose: D.EgoPose)
    ensures !DistinctTimes([pose, pose])
  {
    assert [pose, pose][0].time == [pose, pose][1].time;
  }

  lemma {:induction false} FreshOfAll(poses: seq<D.EgoPose>)
    ensures Fresh([], poses) == poses
  {
    if poses != [] {
      FreshOfAll(poses[1..]);
    }
  }

  lemma SortedTwice(pose: D.EgoPose)
    ensures SortByTime([pose, pose]) == [pose, pose]
  {
    SortedElements([pose, pose]);
  }
}
