/** A driver session: observations collect in a tick buffer, each drive takes the buffer, runs the policy, asks the
    expert and records the output with the newly executed poses. */
module DriverSession {
  import opened ExpertProtocol
  import opened Sorting
  import opened Wrappers
  import D = DistanceToGt

  type EgoPose = D.EgoPose

  datatype Image = Image(logicalId: string, content: seq<nat>, frameEndUs: int)

  datatype Route = Route(waypoints: seq<(real, real, real)>, timestampUs: int)

  datatype TickBuffer = TickBuffer(cameraImages: seq<Image>, egoPoses: Option<seq<EgoPose>>, route: Option<Route>)

  datatype Chosen = Chosen(xyz: seq<seq<real>>, quat: seq<seq<real>>, dtUs: seq<int>)

  datatype Logprob = Value(x: real) | NotANumber | Unset

  datatype Replay = Replay(modelInput: Option<Payload>, actionTokens: seq<nat>, oldLogprob: Logprob,
                           expertTokens: Option<seq<nat>>)

  datatype PolicyOutput = PolicyOutput(chosen: Chosen, replay: Option<Replay>)

  datatype PolicyInput = PolicyInput(stepIndex: nat, cameraImages: seq<Image>, poses: seq<EgoPose>, route: Route)

  /** Whether experts are enabled and whether the mixing probability is positive. */
  datatype Config = Config(expertEnabled: bool, mixing: bool)

  /** What a drive meets outside: the future its query got, what waiting for it gives, whether the coin lets the expert
      drive, and the trajectory built from its answer. */
  datatype ExpertTurn =
    ExpertTurn(asked: Option<nat>, answer: Option<Outcome>, expertDrives: bool, built: Result<Chosen>)

  // ---------- poses ----------

  function SortByTime(poses: seq<EgoPose>): (r: seq<EgoPose>)
    ensures |r| == |poses|
    ensures forall i, j :: 0 <= i < j < |r| ==> r[i].time <= r[j].time
  {
    var order := StableArgsort(D.PoseTimes(poses));
    assert forall i, j :: 0 <= i < j < |order| ==> ByKey(D.PoseTimes(poses))(order[i], order[j]);
    seq(|poses|, i requires 0 <= i < |poses| => poses[order[i]])
  }

  /** The poses strictly newer than the last recorded one. */
  function Fresh(executed: seq<EgoPose>, poses: seq<EgoPose>): (r: seq<EgoPose>)
    ensures executed != [] ==> forall i :: 0 <= i < |r| ==> executed[|executed| - 1].time < r[i].time
  {
    if poses == [] then []
    else
      var rest := Fresh(executed, poses[1..]);
      if executed == [] || executed[|executed| - 1].time < poses[0].time then [poses[0]] + rest else rest
  }

  function Executed(executed: seq<EgoPose>, poses: seq<EgoPose>): seq<EgoPose> {
    executed + SortByTime(Fresh(executed, poses))
  }

  // ---------- the expert part of a drive ----------

  function TokensOf(answer: Option<Outcome>): Option<seq<nat>> {
    if answer.Some? && answer.value.Got? && answer.value.dict.Response? && answer.value.dict.reply.Labels?
    then Some(answer.value.dict.reply.actionIndices) else None
  }

  function Label(output: PolicyOutput, tokens: seq<nat>): PolicyOutput
    requires output.replay.Some?
  {
    output.(replay := Some(output.replay.value.(expertTokens := Some(tokens))))
  }

  /** The expert's trajectory, with its tokens and an invalid log-probability so that the step is not learnt from. */
  function TakeOver(output: PolicyOutput, chosen: Chosen, tokens: seq<nat>): PolicyOutput
    requires output.replay.Some?
  {
    PolicyOutput(chosen, Some(Label(output, tokens).replay.value.(actionTokens := tokens, oldLogprob := NotANumber)))
  }

  predicate Queryable(output: PolicyOutput) {
    output.replay.Some? && output.replay.value.modelInput.Some?
  }

  /** The output to record and the entry for the list of expert futures. */
  function ExpertBlock(config: Config, output: PolicyOutput, turn: ExpertTurn): (PolicyOutput, seq<Option<nat>>) {
    if !config.expertEnabled then (output, [])
    else if !Queryable(output) || turn.asked.None? then (output, [None])
    else if !config.mixing then (output, [turn.asked])
    else if TokensOf(turn.answer).None? then (output, [None])
    else
      var tokens := TokensOf(turn.answer).value;
      if turn.built.Ok? && turn.expertDrives then (TakeOver(output, turn.built.value, tokens), [None])
      else (Label(output, tokens), [None])
  }

  // ---------- sessions ----------

  datatype State = State(tick: TickBuffer, stepIndex: nat, outputs: seq<PolicyOutput>, executedPoses: seq<EgoPose>,
                         expertFutures: seq<Option<nat>>)

  const FRESH_SESSION := State(TickBuffer([], None, None), 0, [], [], [])

  datatype Event =
    | SubmitImage(image: Image)
    | SubmitEgomotion(poses: seq<EgoPose>)
    | SubmitRoute(route: Route)
    | Drive(policy: PolicyInput -> Result<PolicyOutput>, turn: ExpertTurn)

  function AddPoses(tick: TickBuffer, poses: seq<EgoPose>): TickBuffer {
    tick.(egoPoses := Some((if tick.egoPoses.None? then [] else tick.egoPoses.value) + poses))
  }

  /** The next buffer keeps nothing but the route. */
  function Consume(s: State): State {
    s.(stepIndex := s.stepIndex + 1, tick := TickBuffer([], None, s.tick.route))
  }

  function InputFor(stepIndex: nat, tick: TickBuffer): Result<PolicyInput> {
    if tick.egoPoses.None? then Err("no ego trajectory")
    else if tick.route.None? then Err("no route")
    else Ok(PolicyInput(stepIndex, tick.cameraImages, SortByTime(tick.egoPoses.value), tick.route.value))
  }

  function Record(s: State, input: PolicyInput, output: PolicyOutput): State {
    s.(outputs := s.outputs + [output], executedPoses := Executed(s.executedPoses, input.poses))
  }

  /** The policy's output for this drive, unless the tick is incomplete or the policy fails. */
  function OutputOf(s: State, drive: Event): Result<PolicyOutput>
    requires drive.Drive?
  {
    var input := InputFor(s.stepIndex, s.tick);
    if input.Err? then Err(input.message) else drive.policy(input.value)
  }

  function AfterDrive(config: Config, s: State, drive: Event): State
    requires drive.Drive?
  {
    if OutputOf(s, drive).Err? then Consume(s)
    else
      var (output, futures) := ExpertBlock(config, OutputOf(s, drive).value, drive.turn);
      Record(Consume(s), InputFor(s.stepIndex, s.tick).value, output).(expertFutures := s.expertFutures + futures)
  }

  function Apply(config: Config, s: State, e: Event): State {
    match e
    case SubmitImage(image) => s.(tick := s.tick.(cameraImages := s.tick.cameraImages + [image]))
    case SubmitEgomotion(poses) => s.(tick := AddPoses(s.tick, poses))
    case SubmitRoute(route) => s.(tick := s.tick.(route := Some(route)))
    case Drive(_, _) => AfterDrive(config, s, e)
  }

  function DriveResponse(chosen: Chosen): Result<Chosen> {
    if |chosen.quat| != |chosen.xyz| || |chosen.dtUs| != |chosen.xyz| then
      Err("Mismatched leading dims for chosen tensors")
    else Ok(chosen)
  }

  /** The last output recorded has as many orientations and times as positions. */
  predicate Congruent(outputs: seq<PolicyOutput>) {
    outputs != [] &&
    var chosen := outputs[|outputs| - 1].chosen;
    |chosen.quat| == |chosen.xyz| && |chosen.dtUs| == |chosen.xyz|
  }

  class Session {
    const config: Config
    var tickBuffer: TickBuffer
    var stepIndex: nat
    var outputs: seq<PolicyOutput>
    var executedPoses: seq<EgoPose>
    var expertFutures: seq<Option<nat>>

    ghost function Snapshot(): State
      reads this
    {
      State(tickBuffer, stepIndex, outputs, executedPoses, expertFutures)
    }

    constructor (config: Config)
      ensures this.config == config && Snapshot() == FRESH_SESSION
    {
      this.config, tickBuffer, stepIndex := config, TickBuffer([], None, None), 0;
      outputs, executedPoses, expertFutures := [], [], [];
    }

    method SubmitImageObservation(image: Image)
      modifies this
      ensures Snapshot() == Apply(config, old(Snapshot()), SubmitImage(image))
    {
      tickBuffer := tickBuffer.(cameraImages := tickBuffer.cameraImages + [image]);
    }

    method SubmitEgomotionObservation(poses: seq<EgoPose>)
      modifies this
      ensures Snapshot() == Apply(config, old(Snapshot()), SubmitEgomotion(poses))
    {
      if tickBuffer.egoPoses.None? {
        tickBuffer := tickBuffer.(egoPoses := Some([]));
      }
      tickBuffer := tickBuffer.(egoPoses := Some(tickBuffer.egoPoses.value + poses));
    }

    method SubmitRouteObservation(route: Route)
      modifies this
      ensures Snapshot() == Apply(config, old(Snapshot()), SubmitRoute(route))
    {
      tickBuffer := tickBuffer.(route := Some(route));
    }

    method ConsumeTick() returns (step: nat, snapshot: TickBuffer)
      modifies this
      ensures Snapshot() == Consume(old(Snapshot()))
      ensures step == old(stepIndex) && snapshot == old(tickBuffer)
    {
      snapshot, step := tickBuffer, stepIndex;
      stepIndex := stepIndex + 1;
      tickBuffer := TickBuffer([], None, snapshot.route);
    }

    method RecordStep(input: PolicyInput, output: PolicyOutput)
      modifies this
      ensures Snapshot() == Record(old(Snapshot()), input, output)
    {
      outputs := outputs + [output];
      executedPoses := executedPoses + SortByTime(Fresh(executedPoses, input.poses));
    }

    /** Exactly one entry joins the expert futures of a drive that records an output. */
    method DriveOnce(policy: PolicyInput -> Result<PolicyOutput>, turn: ExpertTurn) returns (response: Result<Chosen>)
      modifies this
      ensures Snapshot() == Apply(config, old(Snapshot()), Drive(policy, turn))
      ensures response.Ok? <==> && OutputOf(old(Snapshot()), Drive(policy, turn)).Ok?
                                && Congruent(Apply(config, old(Snapshot()), Drive(policy, turn)).outputs)
      ensures response.Ok? ==>
                |outputs| == |old(outputs)| + 1 && response.value == outputs[|outputs| - 1].chosen
    {
      var step, snapshot := ConsumeTick();
      var input := InputFor(step, snapshot);
      if input.Err? {
        return Err(input.message);
      }
      var stepped := policy(input.value);
      if stepped.Err? {
        return Err(stepped.message);
      }
      var output := stepped.value;
      if config.expertEnabled {
        if Queryable(output) && turn.asked.Some? {
          if config.mixing {
            var tokens := TokensOf(turn.answer);
            if tokens.Some? {
              output := Label(output, tokens.value);
              if turn.built.Ok? && turn.expertDrives {
                output := TakeOver(output, turn.built.value, tokens.value);
              }
            }
            expertFutures := expertFutures + [None];
          } else {
            expertFutures := expertFutures + [turn.asked];
          }
        } else {
          expertFutures := expertFutures + [None];
        }
      }
      RecordStep(input.value, output);
      response := DriveResponse(output.chosen);
    }
  }

  // ---------- runs ----------

  function Final(config: Config, s: State, events: seq<Event>): State {
    if events == [] then s
    else Apply(config, Final(config, s, events[..|events| - 1]), events[|events| - 1])
  }

  /** The buffers the drives of a run took. */
  function Ticks(config: Config, events: seq<Event>): seq<TickBuffer> {
    if events == [] then []
    else
      var before, last := events[..|events| - 1], events[|events| - 1];
      Ticks(config, before) + if last.Drive? then [Final(config, FRESH_SESSION, before).tick] else []
  }

  function AllImages(ticks: seq<TickBuffer>): seq<Image> {
    if ticks == [] then [] else AllImages(ticks[..|ticks| - 1]) + ticks[|ticks| - 1].cameraImages
  }

  function Submitted(events: seq<Event>): seq<Image> {
    if events == [] then []
    else
      Submitted(events[..|events| - 1]) + NewImages(events[|events| - 1])
  }

  function LatestRoute(events: seq<Event>): Option<Route> {
    if events == [] then None
    else
      var last := events[|events| - 1];
      if last.SubmitRoute? then Some(last.route) else LatestRoute(events[..|events| - 1])
  }

  function NewImages(e: Event): seq<Image> {
    if e.SubmitImage? then [e.image] else []
  }

  lemma LiveImages(config: Config, s: State, e: Event)
    ensures Apply(config, s, e).tick.cameraImages == if e.Drive? then [] else s.tick.cameraImages + NewImages(e)
  {
    hide ExpertBlock, SortByTime, Executed;
  }

  lemma TickImages(config: Config, events: seq<Event>)
    requires events != []
    ensures (var before, last := events[..|events| - 1], events[|events| - 1];
             AllImages(Ticks(config, events)) == AllImages(Ticks(config, before))
             + if last.Drive? then Final(config, FRESH_SESSION, before).tick.cameraImages else [])
  {
    hide Final;
    var before, ticks := events[..|events| - 1], Ticks(config, events);
    if events[|events| - 1].Drive? {
      assert ticks[..|ticks| - 1] == Ticks(config, before);
    } else {
      assert ticks == Ticks(config, before);
    }
  }

  /** Consumed buffers and the live one list every submitted image once and in order. */
  lemma {:induction false} ImagesOnceInOrder(config: Config, events: seq<Event>)
    ensures AllImages(Ticks(config, events)) + Final(config, FRESH_SESSION, events).tick.cameraImages
            == Submitted(events)
  {
    hide Apply, Ticks, AllImages;
    if events != [] {
      var before, last := events[..|events| - 1], events[|events| - 1];
      var taken, live := AllImages(Ticks(config, before)), Final(config, FRESH_SESSION, before).tick.cameraImages;
      ImagesOnceInOrder(config, before);
      LiveImages(config, Final(config, FRESH_SESSION, before), last);
      TickImages(config, events);
      assert taken + (live + NewImages(last)) == taken + live + NewImages(last);
    } else {
      NoTicks(config);
    }
  }

  lemma NoTicks(config: Config)
    ensures AllImages(Ticks(config, [])) == []
  {
  }

  /** The buffer a drive takes carries the latest route submitted before it. */
  lemma {:induction false} TickSeesLatestRoute(config: Config, events: seq<Event>)
    ensures Final(config, FRESH_SESSION, events).tick.route == LatestRoute(events)
  {
    hide ExpertBlock, SortByTime, Executed;
    if events != [] {
      TickSeesLatestRoute(config, events[..|events| - 1]);
    }
  }

  /** With experts enabled every recorded output has its entry among the futures; without, there are none. */
  lemma {:induction false} FuturesMatchOutputs(config: Config, events: seq<Event>)
    ensures (var s := Final(config, FRESH_SESSION, events);
             |s.expertFutures| == if config.expertEnabled then |s.outputs| else 0)
  {
    hide SortByTime, Executed;
    if events != [] {
      FuturesMatchOutputs(config, events[..|events| - 1]);
    }
  }

  // ---------- executed poses ----------

  predicate Ordered(poses: seq<EgoPose>) {
    forall i, j :: 0 <= i < j < |poses| ==> poses[i].time <= poses[j].time
  }

  predicate Strict(poses: seq<EgoPose>) {
    forall i, j :: 0 <= i < j < |poses| ==> poses[i].time < poses[j].time
  }

  predicate DistinctTimes(poses: seq<EgoPose>) {
    forall i, j :: 0 <= i < j < |poses| ==> poses[i].time != poses[j].time
  }

  lemma SortKeepsDistinct(poses: seq<EgoPose>)
    ensures Strict(SortByTime(poses)) <==> DistinctTimes(poses)
  {
    var sorted := SortByTime(poses);
    var order := StableArgsort(D.PoseTimes(poses));
    if Strict(sorted) {
      forall a: nat, b: nat | a < b < |poses|
        ensures poses[a].time != poses[b].time
      {
        var i := PermutationIsOnto(order, a);
        var j := PermutationIsOnto(order, b);
        assert sorted[i] == poses[a] && sorted[j] == poses[b];
      }
    }
  }

  lemma ExecutedStrictIff(executed: seq<EgoPose>, poses: seq<EgoPose>)
    requires Ordered(executed)
    ensures Ordered(Executed(executed, poses))
    ensures Strict(Executed(executed, poses)) <==> Strict(executed) && DistinctTimes(Fresh(executed, poses))
  {
    var newer := Fresh(executed, poses);
    var sorted := SortByTime(newer);
    var all := Executed(executed, poses);
    SortKeepsDistinct(newer);
    SortedElements(newer);
    hide SortByTime, Fresh;
    assert forall i :: 0 <= i < |sorted| ==> all[|executed| + i] == sorted[i];
    assert forall i :: 0 <= i < |executed| ==> all[i] == executed[i];
    if Strict(all) {
      forall i, j | 0 <= i < j < |sorted|
        ensures sorted[i].time < sorted[j].time
      {
        assert all[|executed| + i].time < all[|executed| + j].time;
      }
    }
  }

  lemma SortedElements(poses: seq<EgoPose>)
    ensures forall i :: 0 <= i < |poses| ==> SortByTime(poses)[i] in poses
  {
  }

  /** Every drive of the run that recorded an output found poses of distinct times among its fresh ones. */
  predicate DistinctTicks(config: Config, events: seq<Event>) {
    events == [] ||
    (var before, last := Final(config, FRESH_SESSION, events[..|events| - 1]), events[|events| - 1];
     && DistinctTicks(config, events[..|events| - 1])
     && (last.Drive? && OutputOf(before, last).Ok? ==>
           DistinctTimes(Fresh(before.executedPoses, InputFor(before.stepIndex, before.tick).value.poses))))
  }

  /** Executed poses are always in time order, and strictly so exactly when each tick's own fresh times are distinct. */
  lemma {:induction false} ExecutedInOrder(config: Config, events: seq<Event>)
    ensures Ordered(Final(config, FRESH_SESSION, events).executedPoses)
    ensures Strict(Final(config, FRESH_SESSION, events).executedPoses) <==> DistinctTicks(config, events)
  {
    hide ExpertBlock, Executed, Ordered, Strict, DistinctTimes;
    if events != [] {
      var before, last := Final(config, FRESH_SESSION, events[..|events| - 1]), events[|events| - 1];
      ExecutedInOrder(config, events[..|events| - 1]);
      if last.Drive? && OutputOf(before, last).Ok? {
        ExecutedStrictIff(before.executedPoses, InputFor(before.stepIndex, before.tick).value.poses);
      }
    } else {
      assert Ordered([]) && Strict([]) by {
        NoPoses();
      }
    }
  }

  lemma NoPoses()
    ensures Ordered([]) && Strict([])
  {
  }

  lemma {:induction false} StrictIsIncreasing(poses: seq<EgoPose>)
    ensures D.Increasing(D.PoseTimes(poses)) <==> Strict(poses)
  {
    if D.Increasing(D.PoseTimes(poses)) {
      forall i, j | 0 <= i < j < |poses|
        ensures poses[i].time < poses[j].time
      {
        IncreasingBetween(D.PoseTimes(poses), i, j);
      }
    } else {
      var i :| 0 <= i < |poses| - 1 && !(D.PoseTimes(poses)[i] < D.PoseTimes(poses)[i + 1]);
      assert !(poses[i].time < poses[i + 1].time);
    }
  }

  lemma {:induction false} IncreasingBetween(ts: seq<int>, i: nat, j: nat)
    requires D.Increasing(ts) && i < j < |ts|
    ensures ts[i] < ts[j]
    decreases j
  {
    if i < j - 1 {
      IncreasingBetween(ts, i, j - 1);
    }
  }

  /** So the reward's check on executed timestamps fires exactly when some tick brought the same fresh time twice. */
  lemma RewardCheckFiresIff(config: Config, events: seq<Event>)
    ensures D.Increasing(D.PoseTimes(Final(config, FRESH_SESSION, events).executedPoses))
            <==> DistinctTicks(config, events)
  {
    ExecutedInOrder(config, events);
    StrictIsIncreasing(Final(config, FRESH_SESSION, events).executedPoses);
  }

  // ---------- what a drive shows the policy ----------

  function DrivesIn(events: seq<Event>): nat {
    if events == [] then 0
    else DrivesIn(events[..|events| - 1]) + if events[|events| - 1].Drive? then 1 else 0
  }

  /** The images submitted since the last drive. */
  function ImagesSince(events: seq<Event>): seq<Image> {
    if events == [] || events[|events| - 1].Drive? then []
    else ImagesSince(events[..|events| - 1]) + NewImages(events[|events| - 1])
  }

  /** The poses submitted since the last drive, if any submission came. */
  function PosesSince(events: seq<Event>): Option<seq<EgoPose>> {
    if events == [] || events[|events| - 1].Drive? then None
    else
      var (before, last) := (PosesSince(events[..|events| - 1]), events[|events| - 1]);
      if !last.SubmitEgomotion? then before
      else Some((if before.Some? then before.value else []) + last.poses)
  }

  lemma SortKeepsPoses(poses: seq<EgoPose>)
    ensures multiset(SortByTime(poses)) == multiset(poses) && Ordered(SortByTime(poses))
  {
    var order := StableArgsort(D.PoseTimes(poses));
    PermutedElements(poses, order);
    assert SortByTime(poses) == Gather(poses, order);
  }

  lemma {:induction false} LiveTick(config: Config, events: seq<Event>)
    ensures (var s := Final(config, FRESH_SESSION, events);
             && s.stepIndex == DrivesIn(events) && s.tick.cameraImages == ImagesSince(events)
             && s.tick.egoPoses == PosesSince(events))
  {
    hide ExpertBlock, SortByTime, Executed;
    if events != [] {
      LiveTick(config, events[..|events| - 1]);
    }
  }

  /** After any events a drive can be run exactly when poses have come since the last one and a route ever; the policy
      then sees the number of drives before, every image and every pose submitted since the last drive, the poses in
      time order, and the latest route. */
  lemma DriveSeesTick(config: Config, events: seq<Event>)
    ensures (var s := Final(config, FRESH_SESSION, events);
             var input := InputFor(s.stepIndex, s.tick);
             && (input.Ok? <==> PosesSince(events).Some? && LatestRoute(events).Some?)
             && (input.Ok? ==>
                   && input.value.stepIndex == DrivesIn(events) && input.value.cameraImages == ImagesSince(events)
                   && multiset(input.value.poses) == multiset(PosesSince(events).value) && Ordered(input.value.poses)
                   && input.value.route == LatestRoute(events).value))
  {
    LiveTick(config, events);
    TickSeesLatestRoute(config, events);
    hide Final, SortByTime;
    if PosesSince(events).Some? {
      SortKeepsPoses(PosesSince(events).value);
    }
  }

  // ---------- no executed pose is lost ----------

  predicate NewerThanAll(executed: seq<EgoPose>, pose: EgoPose) {
    forall i :: 0 <= i < |executed| ==> executed[i].time < pose.time
  }

  /** What is kept of the offered poses is each one newer than all recorded before, as often as it was offered. */
  lemma {:induction false} FreshKeepsNewer(executed: seq<EgoPose>, poses: seq<EgoPose>, pose: EgoPose)
    requires Ordered(executed)
    ensures multiset(Fresh(executed, poses))[pose] == if NewerThanAll(executed, pose) then multiset(poses)[pose] else 0
  {
    LastIsLatest(executed, pose);
    hide NewerThanAll, Ordered;
    if poses != [] {
      FreshKeepsNewer(executed, poses[1..], pose);
      assert poses == [poses[0]] + poses[1..];
    }
  }

  lemma LastIsLatest(executed: seq<EgoPose>, pose: EgoPose)
    requires Ordered(executed)
    ensures NewerThanAll(executed, pose) <==> executed == [] || executed[|executed| - 1].time < pose.time
  {
  }

  lemma ExecutedGains(executed: seq<EgoPose>, poses: seq<EgoPose>, pose: EgoPose)
    requires Ordered(executed)
    ensures multiset(Executed(executed, poses))[pose]
            == multiset(executed)[pose] + if NewerThanAll(executed, pose) then multiset(poses)[pose] else 0
  {
    FreshKeepsNewer(executed, poses, pose);
    SortKeepsPoses(Fresh(executed, poses));
    hide SortByTime, NewerThanAll, Fresh;
  }

  /** How often a recording drive brought a pose newer than all that had been recorded. */
  function TimesNew(config: Config, events: seq<Event>, pose: EgoPose): nat {
    if events == [] then 0
    else
      var (front, last) := (events[..|events| - 1], events[|events| - 1]);
      var before := Final(config, FRESH_SESSION, front);
      TimesNew(config, front, pose) +
      if last.Drive? && OutputOf(before, last).Ok? && NewerThanAll(before.executedPoses, pose)
      then multiset(Offered(front))[pose] else 0
  }

  function Offered(events: seq<Event>): seq<EgoPose> {
    if PosesSince(events).Some? then PosesSince(events).value else []
  }

  /** In every run the executed poses are exactly those that a recording drive brought newer than all recorded before
      it, each as often as that drive was sent it. */
  lemma {:induction false} ExecutedPosesAreNew(config: Config, events: seq<Event>, pose: EgoPose)
    ensures multiset(Final(config, FRESH_SESSION, events).executedPoses)[pose] == TimesNew(config, events, pose)
  {
    hide ExpertBlock, SortByTime, Executed, NewerThanAll, Final;
    if events != [] {
      var front, last := events[..|events| - 1], events[|events| - 1];
      ExecutedPosesAreNew(config, front, pose);
      ExecutedInOrder(config, front);
      ExecutedAfter(config, front, last, pose);
      assert events == front + [last];
    } else {
      NothingExecuted(config);
    }
  }

  lemma NothingExecuted(config: Config)
    ensures Final(config, FRESH_SESSION, []).executedPoses == []
  {
  }

  lemma ExecutedAfter(config: Config, front: seq<Event>, last: Event, pose: EgoPose)
    requires Ordered(Final(config, FRESH_SESSION, front).executedPoses)
    ensures (var before := Final(config, FRESH_SESSION, front);
             multiset(Final(config, FRESH_SESSION, front + [last]).executedPoses)[pose]
             == multiset(before.executedPoses)[pose] +
                if last.Drive? && OutputOf(before, last).Ok? && NewerThanAll(before.executedPoses, pose)
                then multiset(Offered(front))[pose] else 0)
  {
    hide ExpertBlock, SortByTime, Executed, NewerThanAll, Ordered;
    var before := Final(config, FRESH_SESSION, front);
    assert (front + [last])[..|front|] == front;
    assert Final(config, FRESH_SESSION, front + [last]) == Apply(config, before, last);
    if last.Drive? && OutputOf(before, last).Ok? {
      DriveSeesTick(config, front);
      ExecutedGains(before.executedPoses, InputFor(before.stepIndex, before.tick).value.poses, pose);
    }
  }

  /** So a pose newer than everything recorded is there from the drive on that records it. */
  lemma NewPoseIsExecuted(config: Config, events: seq<Event>, n: nat, pose: EgoPose)
    requires n < |events| && events[n].Drive?
    requires OutputOf(Final(config, FRESH_SESSION, events[..n]), events[n]).Ok? && pose in Offered(events[..n])
    requires NewerThanAll(Final(config, FRESH_SESSION, events[..n]).executedPoses, pose)
    ensures pose in Final(config, FRESH_SESSION, events).executedPoses
  {
    hide Final;
    ExecutedPosesAreNew(config, events, pose);
    TimesNewGrows(config, events, n + 1, pose);
    assert events[..n + 1][..n] == events[..n];
    assert TimesNew(config, events[..n + 1], pose) > 0;
    assert multiset(Final(config, FRESH_SESSION, events).executedPoses)[pose] > 0;
  }

  lemma {:induction false} TimesNewGrows(config: Config, events: seq<Event>, n: nat, pose: EgoPose)
    requires n <= |events|
    ensures TimesNew(config, events[..n], pose) <= TimesNew(config, events, pose)
  {
    hide Final;
    if n < |events| {
      TimesNewGrows(config, events[..|events| - 1], n, pose);
      assert events[..|events| - 1][..n] == events[..n];
    } else {
      assert events[..n] == events;
    }
  }
}
