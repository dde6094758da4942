# AlpaGym: a verified model of its core

AlpaGym trains driving policies by reinforcement learning against a simulator. This project models, in Dafny, the parts
of it whose correctness depends on more than one function body, and proves what they promise:

- **Dispatcher** (`Dispatcher*.dfy`, `StreamingWorker.dfy`). Worker threads, submitters and `shutdown` callers interleave
  at every point where the streaming rollout worker holds no lock. `DispatcherState` has one function per locked section,
  `DispatcherProtocol` the transition system, `DispatcherInvariant`, `DispatcherSteps` and `DispatcherIndex` the invariant
  and its preservation, `DispatcherRuns` the theorems over runs, `DispatcherEpisodes` which episodes are collected and
  delivered, `DispatcherSessions` and `DispatcherScenes` under which session and on which scene they were simulated,
  `DispatcherServing` in which order jobs are served and what is due to whom, `DispatcherProgress` the termination
  measure, `DispatcherQuiescence` what holds when all threads rest, `DispatcherAtomic` and `DispatcherRevive` what the
  revive branch keeps and breaks, `DispatcherBudget` and `DispatcherFallback` how many calls it can cause.
  `StreamingWorker` is the object itself, each method proved equal to its locked section.
- **Stochastic sampler** (`StochasticSampler.dfy`, `RealSums.dfy`). The sampling loop and the loop that scores its recorded
  states, for an arbitrary expert network and any basis with orthonormal columns: where a step moves a state, and which
  densities the two scores add up.
- **Trajectory tokens** (`TrajectoryEncoder.dfy`, `Plane.dfy`). Decoding tokens to poses and the greedy encoder.
- **Distance to ground truth** (`DistanceToGt.dfy`, `DistancePoses.dfy`). Interpolation, placement of the ground truth and
  the squared error, and what turning and shifting the executed poses does to them.
- **Image order** (`DataUtils.dfy`, `Sorting.dfy`). Camera-major and tick-major sorting of per-image tensors.
- **Inference** (`InferenceTypes.dfy`, `InferenceEngine.dfy`). The batching loop and its collation of inputs and outputs.
- **Driver and expert** (`ExpertProtocol.dfy`, `DriverSession.dfy`, `ExpertLabels.dfy`, `ExpertTakeover.dfy`). Sessions, the
  request and response protocol with the expert service, the labels it produces and what training makes of them.
- **Runtime registry** (`EndpointRegistry.dfy`). Least-loaded assignment and the capacity derived from it.
- **Training rows** (`ReplayPacking.dfy`, `Trainer.dfy`, `ReplayObjective.dfy`). Packing, alignment, minibatches, losses.
- **Log follower** (`LogFollower.dfy`). Printing the complete lines of growing files.

`Wrappers.dfy`, `Tally.dfy` and `Quotients.dfy` are shared helpers. `dafny verify dfyconfig.toml` invokes the
verifier on all files.

## Conventions

Numbers are exact reals and integers. An angle is its unit vector: a parameter `dir` with `Directs(dir)` stands for
`arctan2` followed by cosine and sine, and gives a zero vector the angle zero. Other parameters stand for what is computed
elsewhere: `expert` for a network, `root` for the square root, `half` for halving an angle, `exp` for the exponential,
`build` for a policy's model-input builder, `decode` for UTF-8 decoding, `payloads` for the payload a client made each
future for. What other threads do between two steps is a schedule: a sequence of actions, events, arrivals or readings,
over all of which the theorems quantify.

## Where code and documentation differ

The model follows the code.

- The revive branch of `_on_rollout_failed` (`streaming_worker.py:390-442`) clears flags outside the lock on a payload that
  is no longer in the index. Three promises fail there. `shutdown` resolving every unresolved future: a run leaves one for
  ever (`ReviveEscapesShutdown`), and a shutdown reaches exactly the indexed ones (`ShutdownReachesIffIndexed`).
  Dispatching at most once per prompt index: a run dispatches twice (`ReviveDispatchesTwice`), and a submit does so exactly
  when the index has lost an unresolved payload (`SubmitDoublesIff`). The retry budget: one revive exceeds it in every
  configuration (`ReviveOverspends`), and because a retry of the fallback job is no fallback any more
  (`streaming_worker.py:362-367`), calls are bounded exactly when there are no retries (`CallsBoundedIff`). All three hold
  for payloads and prompt indices no revive has touched.
- `stochastic_logprob` promises `r_k == z_k` at rollout parameters (`stochastic_sampler.py:259-260`). This holds exactly
  when clipping the recorded state is invisible to the cosine modes (`ResidualExactWhenUnclipped`,
  `ClippedStateDisagrees`).
- `_precompute_token_effects` describes the decoder's heading update as adding the token's own heading
  (`trajectory_encoder.py:86-87`). For a token whose first and last sub-waypoint coincide the decoder resets the heading to
  zero instead (`StepsAgree`, `HeadinglessTokenMisleads`).
- The reward requires strictly increasing executed timestamps (`distance_to_gt.py:86-90`). `record_step` guarantees
  increasing ones only; they are strict exactly when no tick brings one fresh timestamp twice (`RewardCheckFiresIff`).
- An expert takeover keeps the expert's tokens for the imitation loss and invalidates only the log-probability
  (`driver_server.py:331-336`). The packer replaces the inputs of such a step by those of the first finite step
  (`packer.py:230-242`), so the tokens survive exactly when there is none or it carries the same tokens
  (`TakenOverTokensKeptIff`, `TakenOverStepIsForgotten`).
- `_tee_loop` promises one more pass after the stop so that lines written just before it are not lost
  (`log_organizer.py:120-121`). A stop set during a pass ends the loop without another look at files already visited: a
  file's lines are all printed exactly when no newline came between its last visit and the stop (`StopHonouredIff`,
  `LineBeforeStopIsLost`). A stop set between two passes always keeps the promise (`WaitingStopHonoured`).

## Model

| member | source | states |
|---|---|---|
| DispatcherRuns.ResolvedAtMostOnce | packages/runtime/src/alpagym_runtime/episode_runner/streaming_worker.py:335-444 | in every interleaving, revives included, at most one `set_result` reaches a future; while a thread still holds the right to it there has been none; a delivered value is empty or holds exactly the target number of episodes |
| DispatcherRuns.JobsConserved | packages/runtime/src/alpagym_runtime/episode_runner/streaming_worker.py:152-173 | queued, carried, collected and lost jobs always account for the target, and a payload no revive has touched has lost none while unresolved |
| DispatcherRuns.CallsWithinBudget | packages/runtime/src/alpagym_runtime/episode_runner/streaming_worker.py:356-367 | simulate calls never exceed target plus retry budget plus one further grant per entry into the revive branch |
| DispatcherRuns.UnrevivedCalls | packages/runtime/src/alpagym_runtime/episode_runner/streaming_worker.py:356-367 | without a revive a payload causes at most `n_target + max_scene_retries` simulate calls |
| DispatcherRuns.IdleMeansResolved | packages/runtime/src/alpagym_runtime/episode_runner/streaming_worker.py:205-218 | when no job of a payload is queued or running and nobody owes its future a value, the future has its value exactly when the payload is flagged resolved, which a payload no revive touched always is |
| DispatcherRuns.OneLivePayloadPerPrompt | packages/runtime/src/alpagym_runtime/episode_runner/streaming_worker.py:133-150 | at most one unresolved payload per prompt index, as long as no revive has touched that index |
| DispatcherRuns.SubmitDoublesIff | packages/runtime/src/alpagym_runtime/episode_runner/streaming_worker.py:133-150 | in every reachable world, submitting a prompt index puts a second unresolved payload beside one of that index if and only if the worker is open, the index does not have the prompt, and a payload of it is unresolved |
| DispatcherRuns.ClosedPayload | packages/runtime/src/alpagym_runtime/episode_runner/streaming_worker.py:181-191 | after the locked section of `shutdown` every payload no revive has touched is resolved and has no job left that could be queued again |
| DispatcherRuns.NoJobQueuedAfterClose | packages/runtime/src/alpagym_runtime/episode_runner/streaming_worker.py:144-146 | once closed, no step queues a job unless its prompt index saw a revive |
| DispatcherRuns.ShutdownResolvesEmpty | packages/runtime/src/alpagym_runtime/episode_runner/streaming_worker.py:181-201 | every payload indexed and unresolved when `shutdown` takes the lock ends with `[]` and with nothing else, in every continuation of the run |
| DispatcherRuns.ShutdownReachesIffIndexed | packages/runtime/src/alpagym_runtime/episode_runner/streaming_worker.py:181-201 | in every reachable world, a shutdown takes an unresolved payload into its care if and only if the index still maps its prompt to it |
| DispatcherRuns.ServingOrder | packages/runtime/src/alpagym_runtime/episode_runner/streaming_worker.py:109-117 | retries are served before fresh jobs, a worker stops on a sentinel only when no job is queued, and a stopped worker never acts again |
| DispatcherAtomic.AtomicRevivesConserve | packages/runtime/src/alpagym_runtime/episode_runner/streaming_worker.py:390-444 | job conservation with revives performed in one step with the drop, for every run before shutdown |
| DispatcherProgress.StepPays | packages/runtime/src/alpagym_runtime/episode_runner/streaming_worker.py:205-218 | every step except submit, shutdown and the entry into the revive branch strictly decreases a measure of remaining work |
| DispatcherProgress.RunsAreBounded | packages/runtime/src/alpagym_runtime/episode_runner/streaming_worker.py:205-218 | the length of any run is bounded by its submits, its shutdowns and the revives it entered |
| DispatcherQuiescence.RestMeansDelivered | packages/runtime/src/alpagym_runtime/episode_runner/streaming_worker.py:205-218 | in every reachable world where only submits and shutdowns can happen, every payload no revive has touched has had its future resolved exactly once |
| DispatcherRevive.ReviveEscapesShutdown | packages/runtime/src/alpagym_runtime/episode_runner/streaming_worker.py:390-442 | a concrete run in which a revived payload is in no index, a whole shutdown passes, and its future never gets a value |
| DispatcherBudget.ReviveOverspends | packages/runtime/src/alpagym_runtime/episode_runner/streaming_worker.py:356-442 | for every target, retry budget and number of workers there is a run of one submit and one revive with target plus retries plus one simulate calls |
| DispatcherBudget.RevivesAreUnbounded | packages/runtime/src/alpagym_runtime/episode_runner/streaming_worker.py:362-442 | with at least one retry, a single submit can cause more calls than any given number: the retried fallback job is revived again |
| DispatcherFallback.RevivesWithinJobs | packages/runtime/src/alpagym_runtime/episode_runner/streaming_worker.py:390-442 | in every run a payload is revived at most once for each of its jobs and retries |
| DispatcherFallback.CallsBoundedIff | packages/runtime/src/alpagym_runtime/episode_runner/streaming_worker.py:356-442 | the calls a single submit can cause have a bound if and only if the configuration allows no retries |
| DispatcherRevive.ReviveDispatchesTwice | packages/runtime/src/alpagym_runtime/episode_runner/streaming_worker.py:134-150 | a concrete run in which one prompt index has two unresolved payloads, against the promise of dispatching at most once |
| DispatcherIndex.StepInv | packages/runtime/src/alpagym_runtime/episode_runner/streaming_worker.py:133-444 | each step of a worker, submitter or shutting thread keeps the whole invariant |
| DispatcherEpisodes.CollectedIsArrived | packages/runtime/src/alpagym_runtime/episode_runner/streaming_worker.py:335-347 | in every run a payload holds exactly the episodes whose success took the lock while the payload was not permanently failed, in that order |
| DispatcherEpisodes.DeliveredIsFirstArrived | packages/runtime/src/alpagym_runtime/episode_runner/streaming_worker.py:338-347 | a value given to a future is empty or the first target episodes that arrived for its payload, in order of arrival |
| DispatcherSessions.SessionsDistinct | packages/runtime/src/alpagym_runtime/episode_runner/streaming_worker.py:152-173 | in every reachable world no two collected episodes, of one payload or of two, share a session |
| DispatcherSessions.EpisodesAreOwn | packages/runtime/src/alpagym_runtime/episode_runner/streaming_worker.py:225-271 | every collected episode has the session and the scene of a job that some step of the run queued for that very payload |
| DispatcherScenes.EpisodesShowSubmitted | packages/runtime/src/alpagym_runtime/episode_runner/streaming_worker.py:152-173 | every episode of a payload no revive has touched shows the scene of the submit that created the payload |
| DispatcherScenes.LastGoodIsNoted | packages/runtime/src/alpagym_runtime/episode_runner/streaming_worker.py:326-410 | the last good scene is the one noted by the last first-attempt, non-fallback success, or seeded from the pool by a drop while none was known |
| DispatcherScenes.FallbacksAreGood | packages/runtime/src/alpagym_runtime/episode_runner/streaming_worker.py:396-441 | every fallback job is for a scene that was the last good one at some time of the run |
| DispatcherServing.FirstPutFirstServed | packages/runtime/src/alpagym_runtime/episode_runner/streaming_worker.py:111-117 | the entry a worker is served was put before every other entry of its priority, and none is more urgent |
| DispatcherServing.SubmitHandsOut | packages/runtime/src/alpagym_runtime/episode_runner/streaming_worker.py:133-173 | submitting fails exactly when closed; otherwise it hands out an unresolved payload of that prompt index, and if it is new it has the full retry budget and one queued job per target episode |
| DispatcherServing.NoCallsOnceFailed | packages/runtime/src/alpagym_runtime/episode_runner/streaming_worker.py:211-212 | once a payload no revive has touched has permanently failed, no simulate call starts for it in any continuation of the run |
| DispatcherServing.UnrevivedDelivery | packages/runtime/src/alpagym_runtime/episode_runner/streaming_worker.py:335-389 | without a revive the delivered value is empty when the payload failed, and otherwise all its collected episodes, of which there are exactly the target |
| DispatcherQuiescence.RestMeansDismissed | packages/runtime/src/alpagym_runtime/episode_runner/streaming_worker.py:192-210 | after a shutdown threads come to rest only with every worker dismissed by a sentinel of its own, however many shutdowns overlap |
| StreamingWorker.StreamingRolloutWorker.constructor | packages/runtime/src/alpagym_runtime/episode_runner/streaming_worker.py:89-119 | an open worker with nothing queued, indexed or submitted |
| StreamingWorker.StreamingRolloutWorker.SubmitPayload | packages/runtime/src/alpagym_runtime/episode_runner/streaming_worker.py:144-173 | refuses when closed, returns the live payload of the prompt index, or creates one with its sibling jobs; the whole new state equals the submit section of the transition system |
| StreamingWorker.StreamingRolloutWorker.Get | packages/runtime/src/alpagym_runtime/episode_runner/streaming_worker.py:208 | takes the least entry by priority and then age |
| StreamingWorker.StreamingRolloutWorker.OnRolloutSucceeded | packages/runtime/src/alpagym_runtime/episode_runner/streaming_worker.py:335-347 | the locked section after a success; the caller owes the future the first target episodes exactly when this call flipped the flag |
| StreamingWorker.StreamingRolloutWorker.OnRolloutFailed | packages/runtime/src/alpagym_runtime/episode_runner/streaming_worker.py:353-389 | the locked section after a failure: ignored, retried with a fresh session, or dropped |
| StreamingWorker.StreamingRolloutWorker.CollectUnresolved | packages/runtime/src/alpagym_runtime/episode_runner/streaming_worker.py:183-187 | the indexed payloads whose future is not resolved, in creation order |
| StreamingWorker.StreamingRolloutWorker.Shutdown | packages/runtime/src/alpagym_runtime/episode_runner/streaming_worker.py:181-191 | the locked section of shutdown and the list of futures it must then resolve |
| StreamingWorker.StreamingRolloutWorker.SetFutureResult | packages/runtime/src/alpagym_runtime/episode_runner/streaming_worker.py:200-201 | one delivery is added to the payload and nothing else changes |
| StochasticSampler.StochasticSample | packages/policies/qwen_drive/src/alpagym_qwen_drive/stochastic_sampler.py:175-234 | states, injected coefficients and the log-density of the sampling loop, and its failure when no step is stochastic |
| StochasticSampler.StochasticLogprob | packages/policies/qwen_drive/src/alpagym_qwen_drive/stochastic_sampler.py:265-314 | the log-density of the scoring loop, and the step-count error exactly when the recorded coefficients and the stochastic steps differ in number |
| StochasticSampler.DriftOnLine | packages/policies/qwen_drive/src/alpagym_qwen_drive/stochastic_sampler.py:116-134 | on the line x = (1 - t) n + t e from noise n to the predicted endpoint e, the drift per unit of flow time is e - n plus the score's pull sigma^2 n / (1 - t), with both floors on 1 - t where they bind |
| StochasticSampler.StepOnLine | packages/policies/qwen_drive/src/alpagym_qwen_drive/stochastic_sampler.py:193-223 | a step of the sampling loop moves a state on that line to the next point of the line, plus the score's pull and, at stochastic steps, the perturbation |
| StochasticSampler.VarianceIsDiffusion | packages/policies/qwen_drive/src/alpagym_qwen_drive/stochastic_sampler.py:92-97 | above its floor one step's variance is epsilon^2 over the number of steps |
| StochasticSampler.ClampIsNearest | packages/policies/qwen_drive/src/alpagym_qwen_drive/stochastic_sampler.py:195 | clipping moves a value to the one nearest to it within the bound |
| StochasticSampler.OldLogprobIsDensity | packages/policies/qwen_drive/src/alpagym_qwen_drive/stochastic_sampler.py:225-230 | the rollout score is the sum over its stochastic steps of the mode-averaged Gaussian log-density of sigma z |
| StochasticSampler.ReplayLogprobIsDensity | packages/policies/qwen_drive/src/alpagym_qwen_drive/stochastic_sampler.py:279-307 | the scorer adds up the same densities of its residuals over exactly the stochastic steps |
| StochasticSampler.ResidualUnderOtherExpert | packages/policies/qwen_drive/src/alpagym_qwen_drive/stochastic_sampler.py:256-261 | under other parameters the residual is the coefficient, plus the clipping overflow, plus the projected difference of the two drifts, which is what carries the gradient |
| StochasticSampler.ProjectModes | packages/policies/qwen_drive/src/alpagym_qwen_drive/stochastic_sampler.py:302-305 | projecting a combination of orthonormal modes onto a mode returns its coefficient |
| StochasticSampler.ResidualIsCoefficientPlusOverflow | packages/policies/qwen_drive/src/alpagym_qwen_drive/stochastic_sampler.py:284-305 | at every stochastic step the replayed residual is the injected coefficient plus what clipping cut off the state, seen by the mode |
| StochasticSampler.ResidualExactWhenUnclipped | packages/policies/qwen_drive/src/alpagym_qwen_drive/stochastic_sampler.py:257-261 | the residuals of a step equal the injected coefficients if and only if clipping is invisible to the modes |
| StochasticSampler.WithinBoundUnclipped | packages/policies/qwen_drive/src/alpagym_qwen_drive/stochastic_sampler.py:284-286 | a state within the clip bound is unclipped |
| StochasticSampler.ReplayMatchesRollout | packages/policies/qwen_drive/src/alpagym_qwen_drive/stochastic_sampler.py:237-314 | for every expert, orthonormal basis, step count and set of stochastic steps, scoring the recorded states gives the rollout log-density when those states are unclipped, and the step-count error never fires |
| StochasticSampler.ClippedStateDisagrees | packages/policies/qwen_drive/src/alpagym_qwen_drive/stochastic_sampler.py:284-286 | a concrete clipped state for which the two log-densities differ at the same parameters |
| TrajectoryEncoder.Decode | scripts/dagger/trajectory_encoder.py:35-77 | every decoded pose is the pose the token prefix leads to |
| TrajectoryEncoder.Encode | scripts/dagger/trajectory_encoder.py:107-150 | each token is the first nearest one from the running pose; fails exactly when the target is too short or the codebook empty |
| TrajectoryEncoder.DecodedPose | scripts/dagger/trajectory_encoder.py:54-71 | the four placed sub-waypoints of the last row deviate from the decoded position by vectors that sum to zero, and the decoded heading points from the last of them to the first, or east when they coincide |
| TrajectoryEncoder.PlacedRigidly | scripts/dagger/trajectory_encoder.py:54-67 | placing a token keeps all distances between its sub-waypoints and to its origin, and from the origin pose keeps the sub-waypoints |
| TrajectoryEncoder.PositionsAgree | scripts/dagger/trajectory_encoder.py:54-69 | averaging the placed sub-waypoints is placing their average, so decoder and encoder positions agree for every token |
| TrajectoryEncoder.StepsAgree | scripts/dagger/trajectory_encoder.py:66-71 | one decoder step and one encoder step agree on the heading if and only if the token has a heading of its own or the current heading is zero |
| TrajectoryEncoder.RolloutsAgreeIffSteady | scripts/dagger/trajectory_encoder.py:83-104 | the encoder's running pose is the decoder's pose for all token sequences if and only if all tokens have a heading or none turns |
| TrajectoryEncoder.RunningIsFinal | scripts/dagger/trajectory_encoder.py:130-148 | the encoder's running position and heading equal the decoder's pose for the tokens chosen so far |
| TrajectoryEncoder.GreedyIsNearest | scripts/dagger/trajectory_encoder.py:141-144 | each chosen token minimises the distance of the decoder's next position to the target over the whole codebook, strictly against earlier tokens |
| TrajectoryEncoder.EncodingUndoesDecoding | scripts/dagger/trajectory_encoder.py:107-150 | encoding the decoded positions of any token sequence gives that sequence |
| TrajectoryEncoder.RoundTripsIffDistinct | scripts/dagger/trajectory_encoder.py:97-104 | encoding undoes decoding for all token sequences if and only if the mean last-row offsets are pairwise distinct |
| TrajectoryEncoder.HeadinglessTokenParts | scripts/dagger/trajectory_encoder.py:101-102 | a turning token followed by one without a heading parts the two rollouts |
| TrajectoryEncoder.HeadinglessTokenMisleads | scripts/dagger/trajectory_encoder.py:86-87 | a concrete codebook with distinct offsets and a sequence that does not survive the round trip |
| DistanceToGt.InterpMoves | packages/runtime/src/alpagym_runtime/rewards/distance_to_gt.py:118-119 | interpolating rigidly moved points is moving the interpolated point |
| DistanceToGt.InterpAtSample | packages/runtime/src/alpagym_runtime/rewards/distance_to_gt.py:118-121 | interpolation returns every sample at its own time |
| DistanceToGt.InterpIsPiecewise | packages/runtime/src/alpagym_runtime/rewards/distance_to_gt.py:118-121 | constant outside the samples, and between neighbouring samples on the straight line through them |
| DistanceToGt.GtTrackIsSorted | packages/runtime/src/alpagym_runtime/rewards/distance_to_gt.py:94-102 | the ground-truth track is the listed poses' times and positions, each once, in time order |
| DistanceToGt.FitMoves | packages/runtime/src/alpagym_runtime/rewards/distance_to_gt.py:35-64 | mean squared error and number of pairs do not change under one turn and shift of all executed positions and yaws, if the anchor yaw has a direction |
| DistanceToGt.InvariantIff | packages/runtime/src/alpagym_runtime/rewards/distance_to_gt.py:35-64 | the fit is unchanged by all rigid motions if and only if it fails anyway, or the interpolated anchor yaw is not zero, or the executed offsets and the ground truth do not correlate |
| DistancePoses.ForwardTurns | packages/runtime/src/alpagym_runtime/rewards/distance_to_gt.py:126-133 | turning a unit quaternion about the vertical turns the vector its yaw is read from |
| DistancePoses.ForwardIsAhead | packages/runtime/src/alpagym_runtime/rewards/distance_to_gt.py:126-133 | the vector the yaw is read from is the level part of where the quaternion rotates the forward axis |
| DistancePoses.SamplesTurn | packages/runtime/src/alpagym_runtime/rewards/distance_to_gt.py:105-123 | turning and shifting poses, quaternions included, moves the sampled positions and turns exactly the yaws that are defined |
| DistancePoses.TurnInvariantIff | packages/runtime/src/alpagym_runtime/rewards/distance_to_gt.py:35-64 | with poses that may point straight up or down, the fit is unchanged by all turns and shifts if and only if it fails anyway, or the anchor yaw is nonzero and made of defined yaws, or the executed offsets and the ground truth do not correlate |
| DistancePoses.RewardMoves | packages/runtime/src/alpagym_runtime/rewards/distance_to_gt.py:12-72 | where that condition holds or the reward is an error, turning and shifting all executed poses, quaternions included, leaves the whole result unchanged |
| DistancePoses.RewardInvariantIff | packages/runtime/src/alpagym_runtime/rewards/distance_to_gt.py:12-72 | no turn and shift of unit-quaternion poses changes the reward if and only if it is an error, or the anchor yaw is nonzero and made of defined yaws, or the executed offsets and the ground truth do not correlate |
| DistanceToGt.ZeroIffOnTruth | packages/runtime/src/alpagym_runtime/rewards/distance_to_gt.py:59-64 | the error is never negative, and zero if and only if every paired point lies on the placed ground truth at its own time |
| DistanceToGt.GtOrderIrrelevant | packages/runtime/src/alpagym_runtime/rewards/distance_to_gt.py:94-102 | the order in which ground-truth poses are listed does not matter when their times differ |
| DistanceToGt.InterpStraight | packages/runtime/src/alpagym_runtime/rewards/distance_to_gt.py:118-119 | interpolation reproduces straight lines between the first and the last sample |
| DistanceToGt.PairedInSpan | packages/runtime/src/alpagym_runtime/rewards/distance_to_gt.py:52-58 | exactly the executed samples of the closed ground-truth span are paired |
| DistanceToGt.PairedExactly | packages/runtime/src/alpagym_runtime/rewards/distance_to_gt.py:52-58 | a sample of the span is paired as often as it was executed, any other never |
| DistanceToGt.PerfectDriveIff | packages/runtime/src/alpagym_runtime/rewards/distance_to_gt.py:35-64 | when the anchor time is an executed sample, the error is zero if and only if every paired sample is the interpolated truth carried along by that sample's pose |
| DistanceToGt.RewardIsScaledRoot | packages/runtime/src/alpagym_runtime/rewards/distance_to_gt.py:59-72 | the squared rmse times the number of pairs is the total squared error, and the reward is the rmse scaled by the distance scale, with its sign |
| DistanceToGt.RewardFailsIff | packages/runtime/src/alpagym_runtime/rewards/distance_to_gt.py:12-90 | fails exactly when the ground truth is missing, either trajectory has fewer than two poses, executed times do not increase strictly, the anchor time is outside them, or no executed time is in the ground truth's span |
| DistanceToGt.MeanBetweenBounds | packages/runtime/src/alpagym_runtime/rewards/distance_to_gt.py:63-64 | the error is an average of the paired squared errors: it lies between any bounds they obey |
| DataUtils.ReorderImageData | packages/policies/alpamayo_r1/src/alpagym_alpamayo_r1/data/data_utils.py:8-23 | every per-image tensor is permuted, every other entry and the key set stay |
| DataUtils.SortImagesByCameraIds | packages/policies/alpamayo_r1/src/alpagym_alpamayo_r1/data/data_utils.py:26-42 | reorders by the stable argsort of the camera ids |
| DataUtils.CameraMajorColumns | packages/policies/alpamayo_r1/src/alpagym_alpamayo_r1/data/data_utils.py:26-42 | every column is gathered by one permutation, under which cameras ascend and images of one camera keep their order |
| Sorting.StableArgsort | packages/policies/alpamayo_r1/src/alpagym_alpamayo_r1/data/data_utils.py:41 | the permutation listing indices by key, and by index among equal keys |
| Sorting.SortedPermutationUnique | packages/policies/alpamayo_r1/src/alpagym_alpamayo_r1/data/data_utils.py:106-113 | only one permutation is sorted by a given strict order |
| DataUtils.ScatterTicks | packages/policies/alpamayo_r1/src/alpagym_alpamayo_r1/data/data_utils.py:106-108 | the scatter gives the j-th image in time order tick j div the camera count |
| DataUtils.SortImagesByTimetickCamera | packages/policies/alpamayo_r1/src/alpagym_alpamayo_r1/data/data_utils.py:89-114 | fails exactly on missing columns, unequal lengths, no images or an indivisible count, and otherwise reorders by the tick-major permutation |
| DataUtils.TickMajorIsLexicographic | packages/policies/alpamayo_r1/src/alpagym_alpamayo_r1/data/data_utils.py:110-113 | the two composed stable sorts give the one permutation ordered by tick, camera and input position |
| DataUtils.TickMajorColumns | packages/policies/alpamayo_r1/src/alpagym_alpamayo_r1/data/data_utils.py:110-114 | every column is gathered by one permutation, under which ticks ascend and cameras ascend within a tick |
| DataUtils.BlocksAreTicks | packages/policies/alpamayo_r1/src/alpagym_alpamayo_r1/data/data_utils.py:64-70 | the j-th block of the tick-major order is exactly tick j |
| DataUtils.TicksRecoveredIff | packages/policies/alpamayo_r1/src/alpagym_alpamayo_r1/data/data_utils.py:75-81 | true ticks are recovered from jittered times if and only if earlier ticks stay ahead of later ones in stable time order |
| DataUtils.JitterInvariant | packages/policies/alpamayo_r1/src/alpagym_alpamayo_r1/data/data_utils.py:71-73 | two sets of times with the same ticks give the same permutation, whatever their jitter |
| DataUtils.TicksShowSameCameras | packages/policies/alpamayo_r1/src/alpagym_alpamayo_r1/data/data_utils.py:72-73 | when no tick shows a camera twice, every tick exposes the cameras in the same order |
| InferenceTypes.StackRoundTrip | packages/runtime/src/alpagym_runtime/inference/types.py:63-86 | stacking works exactly on nonempty lists of inputs of one shape, and row i of the stack is input i |
| InferenceTypes.SplitExtraPerModelOutput | packages/runtime/src/alpagym_runtime/inference/types.py:204-228 | succeeds exactly when every leaf splits into the batch, and then slices each leaf at the index |
| InferenceTypes.Unbind | packages/runtime/src/alpagym_runtime/inference/types.py:112-139 | succeeds exactly when all leading dimensions fit, with one output per row |
| InferenceTypes.UnbindUndoesBind | packages/runtime/src/alpagym_runtime/inference/types.py:112-139 | unbinding a batch made of outputs gives these outputs back, whichever of their extra entries are arrays and whichever lists |
| InferenceTypes.BindUndoesUnbind | packages/runtime/src/alpagym_runtime/inference/types.py:112-139 | every batch that can be unbound and has rows is its rows bound again |
| InferenceEngine.InferenceEngine.Infer | packages/runtime/src/alpagym_runtime/inference/inference_engine.py:72-76 | one request under a fresh future joins the end of the queue |
| InferenceEngine.InferenceEngine.CollectBatch | packages/runtime/src/alpagym_runtime/inference/inference_engine.py:107-117 | a batch is the next stretch of the stream, within the size limits, and stops short only at the sentinel or an empty queue |
| InferenceEngine.InferenceEngine.Dispatch | packages/runtime/src/alpagym_runtime/inference/inference_engine.py:121-139 | one batched forward pass, or the failure that kills the process |
| InferenceEngine.InferenceEngine.RunLoop | packages/runtime/src/alpagym_runtime/inference/inference_engine.py:99-157 | for every arrival schedule the batches, one after the other, are exactly the requests ahead of the sentinel in arrival order, each within the size limits, and exactly their futures are resolved, in order |
| InferenceEngine.ForwardIsRows | packages/runtime/src/alpagym_runtime/inference/inference_engine.py:121-139 | a batch is served exactly when its inputs stack, the model runs on them and its output fits, and output i is row i of what the model returned |
| InferenceEngine.BatchingIsOneByOne | packages/runtime/src/alpagym_runtime/inference/inference_engine.py:121-155 | with a row-wise model and inputs of one shape, every future is resolved once with what the model gives for its own input alone, and no batch kills the process |
| InferenceEngine.AnswersInOrder | packages/runtime/src/alpagym_runtime/inference/inference_engine.py:154-155 | whatever the model does, the futures resolved are those of the requests, once and in order |
| InferenceEngine.BatchingIrrelevant | packages/runtime/src/alpagym_runtime/inference/inference_engine.py:107-117 | two ways of cutting the same requests into batches resolve the same futures with the same outputs |
| ExpertProtocol.ExpertClient.AsyncQuery | scripts/dagger/expert_client.py:100-129 | a new future is filed under the request id, or resolved to nothing at once when labelling is off |
| ExpertProtocol.ExpertClient.ReceiveOne | scripts/dagger/expert_client.py:139-152 | short or undecodable messages and unknown ids change nothing; otherwise the future filed under the id is taken out and resolved |
| ExpertProtocol.StepInv | scripts/dagger/expert_client.py:113-152 | queries, answers, deliveries in any order and number, losses and foreign messages keep the protocol invariant |
| ExpertProtocol.OwnAnswerAtMostOnce | scripts/dagger/expert_client.py:139-152 | in every run each future is resolved at most once, and only with the expert's answer or error for its own payload, or with nothing where labelling is off |
| ExpertProtocol.MalformedIsRefused | scripts/dagger/expert_service.py:145-199 | a request that does not unpickle to an observation is answered, under the same envelope, by a failure the client raises |
| ExpertProtocol.AlwaysAnswerable | scripts/dagger/expert_client.py:114-128 | in every run each unresolved future can still be resolved by one answer and one delivery |
| DriverSession.Session.constructor | packages/runtime/src/alpagym_runtime/alpasim/driver_server.py:78-94 | an empty session |
| DriverSession.Session.SubmitImageObservation | packages/runtime/src/alpagym_runtime/alpasim/driver_server.py:172-173 | the image joins the end of the live buffer |
| DriverSession.Session.SubmitEgomotionObservation | packages/runtime/src/alpagym_runtime/alpasim/driver_server.py:184-185 | the poses join the live buffer |
| DriverSession.Session.SubmitRouteObservation | packages/runtime/src/alpagym_runtime/alpasim/driver_server.py:196-197 | the live buffer has the new route |
| DriverSession.Session.ConsumeTick | packages/runtime/src/alpagym_runtime/alpasim/driver_server.py:96-103 | hands out the live buffer and step number and leaves an empty buffer with the same route |
| DriverSession.Session.RecordStep | packages/runtime/src/alpagym_runtime/alpasim/driver_server.py:105-119 | appends the output and the strictly newer poses in time order, each as often as it was sent |
| DriverSession.Session.DriveOnce | packages/runtime/src/alpagym_runtime/alpasim/driver_server.py:216-398 | the new session state of a drive in every branch, errors included, and the response is the trajectory of the output recorded |
| DriverSession.ImagesOnceInOrder | packages/runtime/src/alpagym_runtime/alpasim/driver_server.py:96-103 | in every run the consumed buffers followed by the live one list every submitted image once and in order |
| DriverSession.TickSeesLatestRoute | packages/runtime/src/alpagym_runtime/alpasim/driver_server.py:196-197 | the buffer a drive takes carries the latest route submitted before |
| DriverSession.DriveSeesTick | packages/runtime/src/alpagym_runtime/alpasim/proto_conversion.py:73-100 | a drive builds its input exactly when poses have come since the last drive and a route ever, and then from exactly the images and poses since the last drive, in their orders, the latest route and the number of drives so far |
| DriverSession.FuturesMatchOutputs | packages/runtime/src/alpagym_runtime/alpasim/driver_server.py:258-396 | with experts enabled the expert futures and the outputs have equal length after every event, without experts there are no futures |
| DriverSession.ExecutedStrictIff | packages/runtime/src/alpagym_runtime/alpasim/driver_server.py:112-119 | recording keeps executed poses in time order, and strictly so if and only if the newly added times are distinct |
| DriverSession.ExecutedInOrder | packages/runtime/src/alpagym_runtime/alpasim/driver_server.py:105-119 | in every run executed poses are in time order, and strictly so if and only if each recorded tick had distinct fresh times |
| DriverSession.ExecutedPosesAreNew | packages/runtime/src/alpagym_runtime/alpasim/driver_server.py:105-119 | in every run a pose is among the executed ones exactly as often as a recording drive brought it when it was newer than all recorded before |
| DriverSession.NewPoseIsExecuted | packages/runtime/src/alpagym_runtime/alpasim/driver_server.py:105-119 | a pose newer than all recorded that a recording drive takes is executed from then on |
| DriverSession.RewardCheckFiresIff | packages/runtime/src/alpagym_runtime/rewards/distance_to_gt.py:86-90 | the reward accepts the executed timestamps of a session if and only if each recorded tick had distinct fresh times |
| ExpertLabels.SameTimeTwiceIsRefused | packages/runtime/src/alpagym_runtime/alpasim/driver_server.py:114-119 | a concrete session of one tick whose executed timestamps the reward refuses |
| ExpertLabels.CollectExpertFutures | packages/runtime/src/alpagym_runtime/alpasim/driver_server.py:445-479 | output i gets the tokens of future i exactly when there is one, it gave tokens and the output has replay data |
| ExpertLabels.QueriesInStep | packages/runtime/src/alpagym_runtime/alpasim/driver_server.py:258-389 | in every asynchronous or mixed run future i, if any, is the query for the observation of output i |
| ExpertLabels.LabelsAreOwn | packages/runtime/src/alpagym_runtime/alpasim/driver_server.py:445-479 | after collection every output, with mixing or without, is unlabelled or carries the expert's answer to its own observation, under any reordering, loss and timeouts |
| ExpertLabels.LabelledExactly | packages/runtime/src/alpagym_runtime/alpasim/driver_server.py:258-479 | what each output holds after collection, field by field, from what was heard: the label, whether the expert took the step over, the actions, and the log-probability then dropped |
| ExpertLabels.AnsweredMeansLabelled | packages/runtime/src/alpagym_runtime/alpasim/driver_server.py:445-479 | an output whose query was answered with labels carries the expert's action indices for its own observation |
| ExpertLabels.RecordedLabelsOwn | packages/runtime/src/alpagym_runtime/alpasim/driver_server.py:274-280 | before collection, too, a label recorded under mixing is the expert's answer to the output's own observation, derived from what each wait can have read in the protocol's run |
| ExpertLabels.HeardIsOwn | packages/runtime/src/alpagym_runtime/alpasim/driver_server.py:274-280 | whatever a drive reads, at any moment of the protocol's run, from the future it asked for is the expert's answer to its own observation |
| ExpertTakeover.TakenOverTokensKeptIff | packages/runtime/src/alpagym_runtime/cosmos/packer.py:230-242 | a step the expert drove trains as padding, and the imitation loss sees its recorded expert tokens if and only if no step of the rollout is finite or the first finite one carries the same tokens |
| ExpertTakeover.TakenOverStepIsForgotten | packages/runtime/src/alpagym_runtime/alpasim/driver_server.py:331-336 | a concrete rollout of two steps in which the imitation loss sees the tokens of the first in place of the expert's |
| EndpointRegistry.FileTopologyRegistry.constructor | packages/host/src/alpagym_host/endpoint_registry.py:58-60 | no runtimes and no assignments |
| EndpointRegistry.FileTopologyRegistry.PublishAlpasimRuntime | packages/host/src/alpagym_host/endpoint_registry.py:62-67 | fails exactly when the name is taken and otherwise adds one runtime to the sorted listing |
| EndpointRegistry.FileTopologyRegistry.ResetAlpasimTopology | packages/host/src/alpagym_host/endpoint_registry.py:133-145 | drops runtimes and assignments together |
| EndpointRegistry.FileTopologyRegistry.CountAssignments | packages/host/src/alpagym_host/endpoint_registry.py:191-196 | the number of drivers assigned to each published runtime |
| EndpointRegistry.FileTopologyRegistry.AcquireAlpasimRuntime | packages/host/src/alpagym_host/endpoint_registry.py:171-209 | the runtime on file, or the least loaded by count and name, with both errors, and the new assignments |
| EndpointRegistry.LeastLoaded | packages/host/src/alpagym_host/endpoint_registry.py:198-201 | no runtime comes before the chosen one by load and name |
| EndpointRegistry.RunsStayBalanced | packages/host/src/alpagym_host/endpoint_registry.py:182-209 | in any run of acquires from a reset registry the driver counts stay within one of each other, every assigned runtime is known, and the counts add up to the number of drivers |
| EndpointRegistry.RoundRobin | packages/host/src/alpagym_host/endpoint_registry.py:191-209 | distinct drivers go round the runtimes in the order of their names |
| EndpointRegistry.RepeatsAgree | packages/host/src/alpagym_host/endpoint_registry.py:182-189 | a driver that asks again, whenever that is, gets the runtime it was given first |
| EndpointRegistry.DriversAreAssigned | packages/host/src/alpagym_host/endpoint_registry.py:202-208 | after a run exactly its drivers are assigned |
| EndpointRegistry.CapacityCovered | packages/host/src/alpagym_host/endpoint_registry.py:31-47 | with N drivers on R runtimes, the workers' capacities on a runtime of capacity C sum to at least C when N >= R, never exceed ceil(N/R) times ceil(C/q), exceed C by at most q - 1 when R divides N, and stay within C when N < R |
| EndpointRegistry.NeverUnknown | packages/host/src/alpagym_host/endpoint_registry.py:133-188 | in any history of publishing, acquiring and resetting no driver is on an unknown runtime, so acquiring fails exactly while nothing is published |
| ReplayPacking.GetPolicyInput | packages/runtime/src/alpagym_runtime/cosmos/packer.py:184-278 | accepts exactly the rollouts with replay data in every output, at least one and at most T rows, and one key set; the rows are those of the packing function |
| ReplayPacking.PackKeepsValidSteps | packages/runtime/src/alpagym_runtime/cosmos/packer.py:202-278 | an accepted rollout packs to exactly T rows with finite log-probabilities, and its valid rows are its finite steps with order and values kept |
| ReplayPacking.AcceptedIff | packages/runtime/src/alpagym_runtime/cosmos/packer.py:184-246 | accepted exactly when every output has replay data, there is at least one and at most the expected number, and all, or with a finite step those that are finite, have one key set |
| ReplayPacking.PaddingCarriesFirstFinite | packages/runtime/src/alpagym_runtime/cosmos/packer.py:248-266 | a row is padding exactly beyond the outputs and on steps that are not finite, and rows beyond them carry log-probability zero and the inputs of the first finite step, or of the first |
| ReplayPacking.InputsComeFromFiniteSteps | packages/runtime/src/alpagym_runtime/cosmos/packer.py:230-266 | if any step is finite every row's inputs come from a finite step, and all rows have the same keys |
| Trainer.FilterRows | packages/runtime/src/alpagym_runtime/cosmos/trainer.py:321-333 | a row that is not padding but not finite becomes padding, and padding gets advantage zero |
| Trainer.FilteredRowsTrain | packages/runtime/src/alpagym_runtime/cosmos/trainer.py:321-333 | after the filter a row is padding or finite, rows already so are untouched, filtering again changes nothing, and exactly padding has its advantage zeroed |
| Trainer.PrepareTrainingData | packages/runtime/src/alpagym_runtime/cosmos/trainer.py:293-335 | fails exactly when a rollout is not accepted; otherwise each rollout fills its own stretch of the pool with its packed rows unchanged by the second filter, aligned with its advantage, or zero on padding |
| Trainer.RunIteration | packages/runtime/src/alpagym_runtime/cosmos/trainer.py:370-376 | one iteration cuts a permutation into nonempty minibatches of at most the configured size that together are the permutation |
| Trainer.RunTrainingLoop | packages/runtime/src/alpagym_runtime/cosmos/trainer.py:355-396 | fails exactly on an empty pool or a zero minibatch size; otherwise every iteration is such a cut of its permutation |
| Trainer.EveryRowOnce | packages/runtime/src/alpagym_runtime/cosmos/trainer.py:369-376 | each optimisation iteration trains every row of the pool exactly once |
| ReplayObjective.PaddingIsNeutral | packages/runtime/src/alpagym_runtime/cosmos/replay_objective.py:72-100 | surrogate and KL penalty of a padded minibatch are those of its valid rows alone |
| ReplayObjective.OrderIsNeutral | packages/runtime/src/alpagym_runtime/cosmos/replay_objective.py:78-100 | permuting the rows of a minibatch changes neither |
| ReplayObjective.AllPaddingIsFree | packages/runtime/src/alpagym_runtime/cosmos/replay_objective.py:75-76 | a minibatch of nothing but padding costs nothing |
| ReplayObjective.AverageOfEqual | packages/runtime/src/alpagym_runtime/cosmos/replay_objective.py:72-76 | both terms are averages over the valid rows: rows that agree give their common value, however much padding there is |
| ReplayObjective.SurrogateIsAverage | packages/runtime/src/alpagym_runtime/cosmos/replay_objective.py:72-100 | each term times the number of valid rows is the total of its row losses over them, and the KL penalty is zero when disabled or weighted zero |
| ReplayObjective.RatioCorrects | packages/runtime/src/alpagym_runtime/cosmos/replay_objective.py:77-79 | the ratio times the old likelihood is the new likelihood when the log-probabilities are at most five apart, and the ratio is held at e^5 or e^-5 beyond |
| ReplayObjective.LossFollowsAdvantage | packages/runtime/src/alpagym_runtime/cosmos/replay_objective.py:77-84 | making an action likelier never raises the loss under a nonnegative advantage and never lowers it under a negative one |
| ReplayObjective.SanitisedIsNeutral | packages/runtime/src/alpagym_runtime/cosmos/replay_objective.py:41-59 | sanitising keeps finite log-probabilities, and a row whose two were both non-finite has ratio one |
| ReplayObjective.RowLossFormula | packages/runtime/src/alpagym_runtime/cosmos/replay_objective.py:79-83 | a row's loss is -A min(r, 1 + high) for A >= 0, and -A max(r, 1 - low) for A < 0 when the clip bounds do not cross |
| ReplayObjective.ClippedRowsAreFlat | packages/runtime/src/alpagym_runtime/cosmos/replay_objective.py:81-83 | beyond the clip that binds its advantage a row's loss does not depend on the ratio |
| ReplayObjective.AssertReplayShapes | packages/runtime/src/alpagym_runtime/cosmos/replay_objective.py:14-59 | differing shapes are refused before anything is overwritten; otherwise every non-finite entry becomes zero in place |
| LogFollower.TeeLoop.VisitFile | packages/host/src/alpagym_host/log_organizer.py:129-145 | one visit of a file: the offset moves past the complete lines read and exactly these are printed |
| LogFollower.TeeLoop.Pass | packages/host/src/alpagym_host/log_organizer.py:125-145 | a pass is its visits, one after the other |
| LogFollower.LinesConcat | packages/host/src/alpagym_host/log_organizer.py:143-145 | complete lines and what follows them split independently |
| LogFollower.SplitLinesConcat | packages/host/src/alpagym_host/log_organizer.py:144 | splitting text into lines at all the separators of `splitlines` distributes over text that ends a line |
| LogFollower.SplitLinesLosesNothing | packages/host/src/alpagym_host/log_organizer.py:143-144 | the lines joined with the separators between them, a carriage return and line feed being one, are the text |
| LogFollower.LinesHaveNoBreaks | packages/host/src/alpagym_host/log_organizer.py:144 | no line has a separator in it |
| LogFollower.PrintedIsPrefix | packages/host/src/alpagym_host/log_organizer.py:123-145 | under any interleaving of appends and visits, what was printed for a file is exactly the lines of its prefix up to the stored offset, and the offset is zero or just after a newline |
| LogFollower.StopHonouredIff | packages/host/src/alpagym_host/log_organizer.py:115-148 | once the loop has exited, every line of a file complete when the stop was set has been printed if and only if no newline was appended to it between its last visit and the stop |
| LogFollower.LineBeforeStopIsLost | packages/host/src/alpagym_host/log_organizer.py:118-122 | for every file and line: visited, then the line appended, then the stop set, the loop exits without printing the line |
| LogFollower.WaitingStopHonoured | packages/host/src/alpagym_host/log_organizer.py:115-148 | a stop set between two passes is honoured for every file |
| LogFollower.VisitPrintsAllComplete | packages/host/src/alpagym_host/log_organizer.py:136-145 | each visit prints every line complete at the time of its read and nothing of the partial line after them |

## Left out

- Rounding, overflow and NaN propagation in floating-point tensors; the packer and the sanitiser keep a finite or
  non-finite tag.
- The values of `exp`, `log`, the trigonometric functions and the square root, and the orthonormality of the cosine basis,
  which is a hypothesis; the expert network's endpoint and its conditioning are one function of state and flow time.
- Dispatcher: drawing a sequence number and putting the item are one step, and so are reading and seeding the fallback
  scene; session ids are counters; a `simulate` call ends by succeeding or failing at an arbitrary time; the simulator
  request, reward computation and metrics inside `_run_rollout`; cancelling a future.
- DispatcherRuns.JobsConserved: conservation at full strength is stated for payloads no revive has touched, and for atomic
  revives in `AtomicRevivesConserve`, because the revive branch discards jobs.
- Sampler: batch tiling of the conditioning tensors, gradients, and random number generation, which is the parameter `draw`.
- Encoder: distances are compared by their squares; `expert_traj_to_autovla_format` and the shift between codebook indices
  and token ids; negative token indices.
- DistancePoses.RewardInvariantIff: assumes unit quaternions, halved angles as the parameter `half`, and a square root
  that tells nonnegative errors apart; turns are about the vertical only.
- Inference: exceptions of the model are its error result, and killing the process is an outcome; futures are numbers;
  `drop_single_batch_axis`, `from_payload` and weight replacement.
- Driver: the maps from session ids to sessions and records, locks, calibration, ground truth submission, the ADE and FDE
  statistics and the conversion of the expert's trajectory; the choice between policy and expert is the drive's parameter.
  Replay payloads are values, so two outputs never share one.
- Driver: a record is read after its collector has finished; the 700-second limit on waiting for it is not modelled.
- Expert protocol: request ids are fresh numbers in place of 16 random bytes; timeouts are missing answers; a router never
  forges a sender.
- Registry: files and directories are a sorted list and a map under one lock, endpoint names their rank; driver endpoints
  and the NCCL master file.
- Trainer: the forward pass, gradients, schedulers, metrics, data-parallel reductions and the imitation loss; the shuffles
  are parameters.
- Log follower: terminal colours and prefixes; `decode` is any function that keeps concatenation at newlines, nonempty
  bytes and newlines, of which UTF-8 decoding with replacement is one; a file is never truncated; the order of a pass's
  visits is arbitrary, the one-second wait has no duration, and the ten-second limit on joining the thread is not modelled.
- Configuration, model loading, tokenizers, container and cluster management, and the NCCL transport.
