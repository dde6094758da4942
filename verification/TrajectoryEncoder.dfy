/** Decoding action tokens by a sequential rollout of all their sub-waypoints, and the greedy encoder that works from
    one precomputed offset and turn per token. Headings are unit vectors. */
module TrajectoryEncoder {
  import opened Wrappers
  import opened Plane

  /** Six rows of four sub-waypoints. */
  type Token = seq<seq<Vec>>

  const ROWS := 6
  const COLS := 4

  predicate WellShaped(token: Token) {
    |token| == ROWS && forall r :: 0 <= r < ROWS ==> |token[r]| == COLS
  }

  predicate IsCodebook(codebook: seq<Token>) {
    forall k :: 0 <= k < |codebook| ==> WellShaped(codebook[k])
  }

  datatype Pose = Pose(pos: Vec, head: Vec)

  const ORIGIN := Pose(ZERO, EAST)

  function Mean(row: seq<Vec>): Vec
    requires |row| == COLS
  {
    Scale(0.25, Add(Add(row[0], row[1]), Add(row[2], row[3])))
  }

  function Spread(row: seq<Vec>): Vec
    requires |row| == COLS
  {
    Sub(row[0], row[3])
  }

  // ---------- decoding ----------

  function PlaceRow(pose: Pose, row: seq<Vec>): seq<Vec> {
    seq(|row|, i requires 0 <= i < |row| => Add(Rot(pose.head, row[i]), pose.pos))
  }

  /** All sub-waypoints of a token, turned to the current heading and moved to the current position. */
  function Place(pose: Pose, token: Token): Token {
    seq(|token|, r requires 0 <= r < |token| => PlaceRow(pose, token[r]))
  }

  function DecodeStep(dir: Vec -> Vec, pose: Pose, token: Token): Pose
    requires WellShaped(token)
  {
    var last := Place(pose, token)[ROWS - 1];
    Pose(Mean(last), dir(Spread(last)))
  }

  predicate InRange(codebook: seq<Token>, tokens: seq<nat>) {
    forall t :: 0 <= t < |tokens| ==> tokens[t] < |codebook|
  }

  function Final(dir: Vec -> Vec, codebook: seq<Token>, tokens: seq<nat>): Pose
    requires IsCodebook(codebook) && InRange(codebook, tokens)
  {
    if tokens == [] then ORIGIN
    else DecodeStep(dir, Final(dir, codebook, tokens[..|tokens| - 1]), codebook[tokens[|tokens| - 1]])
  }

  method Decode(dir: Vec -> Vec, codebook: seq<Token>, tokens: seq<nat>) returns (trajectory: seq<Pose>)
    requires IsCodebook(codebook) && InRange(codebook, tokens)
    ensures |trajectory| == |tokens| + 1
    ensures forall t :: 0 <= t <= |tokens| ==> trajectory[t] == Final(dir, codebook, tokens[..t])
  {
    trajectory := [ORIGIN];
    for t := 0 to |tokens|
      invariant |trajectory| == t + 1
      invariant forall i :: 0 <= i <= t ==> trajectory[i] == Final(dir, codebook, tokens[..i])
    {
      assert tokens[..t + 1][..t] == tokens[..t];
      trajectory := trajectory + [DecodeStep(dir, trajectory[t], codebook[tokens[t]])];
    }
  }

  // ---------- encoding ----------

  function DeltaPos(token: Token): Vec
    requires WellShaped(token)
  {
    Mean(token[ROWS - 1])
  }

  function DeltaHeading(dir: Vec -> Vec, token: Token): Vec
    requires WellShaped(token)
  {
    dir(Spread(token[ROWS - 1]))
  }

  function Candidate(pose: Pose, token: Token): Vec
    requires WellShaped(token)
  {
    Add(pose.pos, Rot(pose.head, DeltaPos(token)))
  }

  /** Comparing squared distances orders candidates as comparing distances does. */
  function Distances(codebook: seq<Token>, pose: Pose, target: Vec): (d: seq<real>)
    requires IsCodebook(codebook)
    ensures |d| == |codebook|
  {
    seq(|codebook|, k requires 0 <= k < |codebook| => NormSq(Sub(Candidate(pose, codebook[k]), target)))
  }

  /** The first index of a least element. */
  function ArgMin(d: seq<real>): (k: nat)
    requires d != []
    ensures k < |d|
    ensures forall i :: 0 <= i < |d| ==> d[k] <= d[i] && (i < k ==> d[k] < d[i])
  {
    if |d| == 1 then 0
    else
      var k := ArgMin(d[..|d| - 1]);
      assert forall i :: 0 <= i < |d| - 1 ==> d[..|d| - 1][i] == d[i];
      if d[|d| - 1] < d[k] then |d| - 1 else k
  }

  function Advance(dir: Vec -> Vec, pose: Pose, token: Token): Pose
    requires WellShaped(token)
  {
    Pose(Candidate(pose, token), Rot(pose.head, DeltaHeading(dir, token)))
  }

  function Choice(codebook: seq<Token>, pose: Pose, target: Vec): (k: nat)
    requires IsCodebook(codebook) && codebook != []
    ensures k < |codebook|
  {
    ArgMin(Distances(codebook, pose, target))
  }

  /** The encoder's running pose once `tokens` have been chosen. */
  function Running(dir: Vec -> Vec, codebook: seq<Token>, tokens: seq<nat>): Pose
    requires IsCodebook(codebook) && InRange(codebook, tokens)
  {
    if tokens == [] then ORIGIN
    else Advance(dir, Running(dir, codebook, tokens[..|tokens| - 1]), codebook[tokens[|tokens| - 1]])
  }

  /** Every token is the greedy choice from the pose its predecessors lead to. */
  predicate Greedy(dir: Vec -> Vec, codebook: seq<Token>, target: seq<Vec>, tokens: seq<nat>)
    requires IsCodebook(codebook) && codebook != []
  {
    && InRange(codebook, tokens) && |tokens| <= |target|
    && forall t :: 0 <= t < |tokens| ==> tokens[t] == Choice(codebook, Running(dir, codebook, tokens[..t]), target[t])
  }

  method Encode(dir: Vec -> Vec, codebook: seq<Token>, target: seq<Vec>, numPoses: nat) returns (r: Result<seq<nat>>)
    requires IsCodebook(codebook)
    ensures r.Ok? <==> numPoses <= |target| && (codebook != [] || numPoses == 0)
    ensures r.Ok? ==> |r.value| == numPoses && InRange(codebook, r.value)
    ensures r.Ok? && codebook != [] ==> Greedy(dir, codebook, target, r.value)
  {
    var pose := ORIGIN;
    var tokens: seq<nat> := [];
    for t := 0 to numPoses
      invariant t <= |target| && (codebook != [] || t == 0)
      invariant |tokens| == t && InRange(codebook, tokens)
      invariant codebook != [] ==> Greedy(dir, codebook, target, tokens)
      invariant pose == Running(dir, codebook, tokens)
    {
      if t == |target| {
        return Err("index out of range");
      }
      if codebook == [] {
        return Err("argmin of an empty tensor");
      }
      var best := ArgMin(Distances(codebook, pose, target[t]));
      ghost var before := tokens;
      tokens := tokens + [best];
      pose := Advance(dir, pose, codebook[best]);
      assert tokens[..t] == before;
      assert forall i :: 0 <= i < t ==> tokens[..i] == before[..i];
    }
    r := Ok(tokens);
  }

  // ---------- encoder and decoder agree ----------

  lemma MeanPlaced(pose: Pose, row: seq<Vec>)
    requires |row| == COLS
    ensures Mean(PlaceRow(pose, row)) == Add(pose.pos, Rot(pose.head, Mean(row)))
    ensures Spread(PlaceRow(pose, row)) == Rot(pose.head, Spread(row))
  {
    var h := pose.head;
    RotAdd(h, row[0], row[1]);
    RotAdd(h, row[2], row[3]);
    RotAdd(h, Add(row[0], row[1]), Add(row[2], row[3]));
    RotScale(h, 0.25, Add(Add(row[0], row[1]), Add(row[2], row[3])));
    RotAdd(h, row[0], row[3]);
  }

  /** Averaging the placed sub-waypoints is placing their average. */
  lemma PositionsAgree(dir: Vec -> Vec, pose: Pose, token: Token)
    requires WellShaped(token)
    ensures DecodeStep(dir, pose, token).pos == Advance(dir, pose, token).pos
    ensures DecodeStep(dir, pose, token).head == dir(Rot(pose.head, Spread(token[ROWS - 1])))
  {
    hide Rot, Mean, Spread, Scale, Add, Sub;
    MeanPlaced(pose, token[ROWS - 1]);
    assert Place(pose, token)[ROWS - 1] == PlaceRow(pose, token[ROWS - 1]);
    AddCommutes(pose.pos, Rot(pose.head, Mean(token[ROWS - 1])));
  }

  // ---------- what a decoder step means ----------

  /** The four sub-waypoints of a row balance around the point. */
  predicate IsCentroid(row: seq<Vec>, p: Vec)
    requires |row| == COLS
  {
    Add(Add(Sub(row[0], p), Sub(row[1], p)), Add(Sub(row[2], p), Sub(row[3], p))) == ZERO
  }

  lemma MeanIsCentroid(row: seq<Vec>, p: Vec)
    requires |row| == COLS
    ensures IsCentroid(row, p) <==> p == Mean(row)
  {
  }

  /** A decoder step goes to the centroid of the placed last row, and faces along that row's edge from its last
      sub-waypoint to its first, or east when the two coincide. */
  lemma DecodedPose(dir: Vec -> Vec, pose: Pose, token: Token)
    requires Directs(dir) && WellShaped(token)
    ensures (var (row, next) := (Place(pose, token)[ROWS - 1], DecodeStep(dir, pose, token));
             && IsCentroid(row, next.pos) && Unit(next.head)
             && (row[0] == row[3] ==> next.head == EAST)
             && (row[0] != row[3] ==> exists n: real :: n > 0.0 && row[0] == Add(row[3], Scale(n, next.head))))
  {
    var row, next := Place(pose, token)[ROWS - 1], DecodeStep(dir, pose, token);
    MeanIsCentroid(row, next.pos);
    assert IsDirection(Sub(row[0], row[3]), next.head);
    hide Place, Unit, IsCentroid;
    if row[0] != row[3] {
      DifferenceIsZero(row[0], row[3]);
      var n: real :| n > 0.0 && Sub(row[0], row[3]) == Scale(n, next.head);
      assert row[0] == Add(row[3], Scale(n, next.head));
    }
  }

  lemma DifferenceIsZero(u: Vec, v: Vec)
    ensures Sub(u, v) == ZERO <==> u == v
  {
  }

  /** Placing a token turns and moves it as a whole: from the origin it stays, and all distances do. */
  lemma PlacedRigidly(pose: Pose, token: Token, r: nat, i: nat, q: nat, k: nat)
    requires WellShaped(token) && Unit(pose.head) && r < ROWS && q < ROWS && i < COLS && k < COLS
    ensures Place(ORIGIN, token)[r][i] == token[r][i]
    ensures NormSq(Sub(Place(pose, token)[r][i], Place(pose, token)[q][k])) == NormSq(Sub(token[r][i], token[q][k]))
    ensures NormSq(Sub(Place(pose, token)[r][i], pose.pos)) == NormSq(token[r][i])
  {
    hide Rot, NormSq;
    TurnFromEast(token[r][i]);
    RotAdd(pose.head, token[r][i], token[q][k]);
    NormSqTurned(pose.head, Sub(token[r][i], token[q][k]));
    NormSqTurned(pose.head, token[r][i]);
    assert Sub(Place(pose, token)[r][i], Place(pose, token)[q][k])
        == Sub(Rot(pose.head, token[r][i]), Rot(pose.head, token[q][k]));
    assert Sub(Place(pose, token)[r][i], pose.pos) == Rot(pose.head, token[r][i]);
  }

  lemma AddCommutes(u: Vec, v: Vec)
    ensures Add(u, v) == Add(v, u)
  {
  }

  /** The headings agree exactly unless the token has no heading of its own and the current one is not zero. */
  lemma HeadingsAgree(dir: Vec -> Vec, h: Vec, spread: Vec)
    requires Directs(dir) && Unit(h)
    ensures dir(Rot(h, spread)) == Rot(h, dir(spread)) <==> spread != ZERO || h == EAST
    ensures Unit(Rot(h, dir(spread)))
  {
    hide Rot, NormSq, Scale;
    assert IsDirection(spread, dir(spread));
    UnitRot(h, dir(spread));
    if spread != ZERO {
      DirectionTurns(dir, h, spread);
    } else {
      RotEast(h);
      assert IsDirection(ZERO, dir(ZERO));
    }
  }

  /** A decoder step and an encoder step from the same pose end in the same position always, and with the same
      heading exactly unless the token has none of its own and the current heading is not zero. */
  lemma StepsAgree(dir: Vec -> Vec, pose: Pose, token: Token)
    requires Directs(dir) && Unit(pose.head) && WellShaped(token)
    ensures DecodeStep(dir, pose, token).pos == Advance(dir, pose, token).pos
    ensures DecodeStep(dir, pose, token).head == Advance(dir, pose, token).head <==>
              Spread(token[ROWS - 1]) != ZERO || pose.head == EAST
    ensures Unit(Advance(dir, pose, token).head)
  {
    hide Rot, NormSq, Mean, Spread, Scale, Add, Sub, DecodeStep, Candidate, Directs, Unit;
    PositionsAgree(dir, pose, token);
    HeadingsAgree(dir, pose.head, Spread(token[ROWS - 1]));
  }

  /** Every token of the codebook turns to a definite heading. */
  predicate Headed(codebook: seq<Token>)
    requires IsCodebook(codebook)
  {
    forall k :: 0 <= k < |codebook| ==> Spread(codebook[k][ROWS - 1]) != ZERO
  }

  /** No token of the codebook turns. */
  predicate Straight(dir: Vec -> Vec, codebook: seq<Token>)
    requires IsCodebook(codebook)
  {
    forall k :: 0 <= k < |codebook| ==> DeltaHeading(dir, codebook[k]) == EAST
  }

  /** What makes the two rollouts agree: all tokens have a heading of their own, or none turns. */
  predicate Steady(dir: Vec -> Vec, codebook: seq<Token>)
    requires IsCodebook(codebook)
  {
    Headed(codebook) || Straight(dir, codebook)
  }

  lemma {:induction false} StraightStaysEast(dir: Vec -> Vec, codebook: seq<Token>, tokens: seq<nat>)
    requires IsCodebook(codebook) && InRange(codebook, tokens) && Straight(dir, codebook)
    ensures Running(dir, codebook, tokens).head == EAST
  {
    hide Rot, DeltaHeading, Candidate;
    if tokens != [] {
      StraightStaysEast(dir, codebook, tokens[..|tokens| - 1]);
      RotEast(EAST);
    }
  }

  /** The encoder's running pose is the decoder's pose for the tokens chosen so far. */
  lemma {:induction false} RunningIsFinal(dir: Vec -> Vec, codebook: seq<Token>, tokens: seq<nat>)
    requires Directs(dir) && IsCodebook(codebook) && InRange(codebook, tokens) && Steady(dir, codebook)
    ensures Running(dir, codebook, tokens) == Final(dir, codebook, tokens)
    ensures Unit(Running(dir, codebook, tokens).head)
  {
    hide Rot, NormSq, DecodeStep, Advance, Spread, DeltaHeading;
    RotEast(EAST);
    if tokens != [] {
      var before := tokens[..|tokens| - 1];
      RunningIsFinal(dir, codebook, before);
      StepsAgree(dir, Running(dir, codebook, before), codebook[tokens[|tokens| - 1]]);
      if Straight(dir, codebook) {
        StraightStaysEast(dir, codebook, before);
      }
    }
  }

  /** If some token has no heading and another turns, the one after the other parts the two rollouts. */
  lemma HeadinglessTokenParts(dir: Vec -> Vec, codebook: seq<Token>, turn: nat, still: nat)
    requires Directs(dir) && IsCodebook(codebook) && turn < |codebook| && still < |codebook|
    requires DeltaHeading(dir, codebook[turn]) != EAST && Spread(codebook[still][ROWS - 1]) == ZERO
    ensures Running(dir, codebook, [turn, still]) != Final(dir, codebook, [turn, still])
  {
    hide Rot, NormSq, DecodeStep, Candidate, DeltaHeading, Spread;
    var first, second := codebook[turn], codebook[still];
    assert [turn][..0] == [] && [turn, still][..1] == [turn];
    RotEast(EAST);
    RotEast(DeltaHeading(dir, first));
    RotEast(Spread(first[ROWS - 1]));
    TurnFromEast(DeltaHeading(dir, first));
    StepsAgree(dir, ORIGIN, first);
    assert Running(dir, codebook, []) == ORIGIN == Final(dir, codebook, []);
    var pose := Advance(dir, ORIGIN, first);
    assert Running(dir, codebook, [turn]) == pose == Final(dir, codebook, [turn]);
    StepsAgree(dir, pose, second);
  }

  /** The two rollouts agree on every token sequence exactly when all tokens are headed or none turns. */
  lemma RolloutsAgreeIffSteady(dir: Vec -> Vec, codebook: seq<Token>)
    requires Directs(dir) && IsCodebook(codebook)
    ensures (forall tokens: seq<nat> :: InRange(codebook, tokens)
               ==> Running(dir, codebook, tokens) == Final(dir, codebook, tokens)) <==> Steady(dir, codebook)
  {
    hide Running, Final, Spread, DeltaHeading;
    if Steady(dir, codebook) {
      forall tokens: seq<nat> | InRange(codebook, tokens)
        ensures Running(dir, codebook, tokens) == Final(dir, codebook, tokens)
      {
        RunningIsFinal(dir, codebook, tokens);
      }
    } else {
      var turn: nat :| turn < |codebook| && DeltaHeading(dir, codebook[turn]) != EAST;
      var still: nat :| still < |codebook| && Spread(codebook[still][ROWS - 1]) == ZERO;
      HeadinglessTokenParts(dir, codebook, turn, still);
      assert InRange(codebook, [turn, still]);
    }
  }

  /** Squared distance from the target of the position the decoder reaches with one more token. */
  function Reach(dir: Vec -> Vec, codebook: seq<Token>, tokens: seq<nat>, k: nat, target: Vec): real
    requires IsCodebook(codebook) && InRange(codebook, tokens) && k < |codebook|
  {
    NormSq(Sub(Final(dir, codebook, tokens + [k]).pos, target))
  }

  /** Each greedy token brings the decoder's next position at least as near the target as any other token would. */
  lemma GreedyIsNearest(dir: Vec -> Vec, codebook: seq<Token>, target: seq<Vec>, tokens: seq<nat>, t: nat, k: nat)
    requires Directs(dir) && IsCodebook(codebook) && codebook != [] && Steady(dir, codebook)
    requires Greedy(dir, codebook, target, tokens) && t < |tokens| && k < |codebook|
    ensures Reach(dir, codebook, tokens[..t], tokens[t], target[t]) <= Reach(dir, codebook, tokens[..t], k, target[t])
    ensures k < tokens[t] ==>
              Reach(dir, codebook, tokens[..t], tokens[t], target[t]) < Reach(dir, codebook, tokens[..t], k, target[t])
  {
    hide Rot, NormSq, DecodeStep, Candidate;
    ReachIsDistance(dir, codebook, tokens[..t], tokens[t], target[t]);
    ReachIsDistance(dir, codebook, tokens[..t], k, target[t]);
  }

  lemma ReachIsDistance(dir: Vec -> Vec, codebook: seq<Token>, tokens: seq<nat>, k: nat, target: Vec)
    requires Directs(dir) && IsCodebook(codebook) && Steady(dir, codebook)
    requires InRange(codebook, tokens) && k < |codebook|
    ensures Reach(dir, codebook, tokens, k, target)
            == Distances(codebook, Running(dir, codebook, tokens), target)[k]
  {
    RunningIsFinal(dir, codebook, tokens);
    assert (tokens + [k])[..|tokens|] == tokens;
    StepsAgree(dir, Running(dir, codebook, tokens), codebook[k]);
  }

  predicate OffsetsDistinct(codebook: seq<Token>)
    requires IsCodebook(codebook)
  {
    forall j, k :: 0 <= j < k < |codebook| ==> DeltaPos(codebook[j]) != DeltaPos(codebook[k])
  }

  /** The positions the decoder reaches, origin left out. */
  ghost predicate Decoded(dir: Vec -> Vec, codebook: seq<Token>, tokens: seq<nat>, target: seq<Vec>)
    requires IsCodebook(codebook) && InRange(codebook, tokens)
  {
    |target| == |tokens| &&
    forall t :: 0 <= t < |tokens| ==> target[t] == Final(dir, codebook, tokens[..t + 1]).pos
  }

  /** The only token that hits the target is the greedy choice. */
  lemma Nearest(codebook: seq<Token>, pose: Pose, target: Vec, k: nat)
    requires IsCodebook(codebook) && k < |codebook| && Candidate(pose, codebook[k]) == target
    requires forall i :: 0 <= i < |codebook| && i != k ==> Candidate(pose, codebook[i]) != target
    ensures Choice(codebook, pose, target) == k
  {
    hide NormSq, Candidate;
    var best := Choice(codebook, pose, target);
    assert Sub(target, target) == ZERO;
    NormSqPositive(ZERO);
    NormSqPositive(Sub(Candidate(pose, codebook[best]), target));
    assert Distances(codebook, pose, target)[best] <= Distances(codebook, pose, target)[k] == 0.0;
  }

  lemma OffsetsTellApart(codebook: seq<Token>, pose: Pose, j: nat, k: nat)
    requires IsCodebook(codebook) && OffsetsDistinct(codebook) && Unit(pose.head)
    requires j < |codebook| && k < |codebook| && j != k
    ensures Candidate(pose, codebook[j]) != Candidate(pose, codebook[k])
  {
    hide Rot, NormSq, DeltaPos;
    if Candidate(pose, codebook[j]) == Candidate(pose, codebook[k]) {
      RotInjective(pose.head, DeltaPos(codebook[j]), DeltaPos(codebook[k]));
    }
  }

  lemma ChoiceOfReached(dir: Vec -> Vec, codebook: seq<Token>, tokens: seq<nat>, k: nat)
    requires Directs(dir) && IsCodebook(codebook) && Steady(dir, codebook) && OffsetsDistinct(codebook)
    requires InRange(codebook, tokens) && k < |codebook|
    ensures Choice(codebook, Running(dir, codebook, tokens), Final(dir, codebook, tokens + [k]).pos) == k
  {
    hide NormSq, DecodeStep, Candidate, OffsetsDistinct, DeltaHeading, Spread, Rot;
    var pose, target := Running(dir, codebook, tokens), Final(dir, codebook, tokens + [k]).pos;
    RunningIsFinal(dir, codebook, tokens);
    assert (tokens + [k])[..|tokens|] == tokens;
    PositionsAgree(dir, pose, codebook[k]);
    forall j: nat | j < |codebook| && j != k
      ensures Candidate(pose, codebook[j]) != target
    {
      OffsetsTellApart(codebook, pose, j, k);
    }
    Nearest(codebook, pose, target, k);
  }

  /** Encoding the decoded positions of any token sequence gives that sequence back. */
  lemma {:induction false} EncodingUndoesDecoding(dir: Vec -> Vec, codebook: seq<Token>, tokens: seq<nat>,
                                                  target: seq<Vec>, encoded: seq<nat>)
    requires Directs(dir) && IsCodebook(codebook) && codebook != []
    requires Steady(dir, codebook) && OffsetsDistinct(codebook)
    requires InRange(codebook, tokens) && Decoded(dir, codebook, tokens, target)
    requires Greedy(dir, codebook, target, encoded) && |encoded| <= |tokens|
    ensures encoded == tokens[..|encoded|]
  {
    hide Final, Running, Choice;
    if encoded != [] {
      var t := |encoded| - 1;
      GreedyPrefix(dir, codebook, target, encoded, t);
      EncodingUndoesDecoding(dir, codebook, tokens, target, encoded[..t]);
      assert encoded[t] == Choice(codebook, Running(dir, codebook, encoded[..t]), target[t]);
      assert target[t] == Final(dir, codebook, tokens[..t + 1]).pos;
      assert tokens[..t] + [tokens[t]] == tokens[..t + 1];
      ChoiceOfReached(dir, codebook, tokens[..t], tokens[t]);
      assert encoded == encoded[..t] + [encoded[t]];
    }
  }

  lemma GreedyPrefix(dir: Vec -> Vec, codebook: seq<Token>, target: seq<Vec>, tokens: seq<nat>, n: nat)
    requires IsCodebook(codebook) && codebook != [] && Greedy(dir, codebook, target, tokens) && n <= |tokens|
    ensures Greedy(dir, codebook, target, tokens[..n])
  {
    hide Running, Choice;
    assert forall i :: 0 <= i < n ==> tokens[..n][..i] == tokens[..i];
  }

  /** Every encoding of the decoded positions of every token sequence is that sequence. */
  ghost predicate RoundTrips(dir: Vec -> Vec, codebook: seq<Token>)
    requires IsCodebook(codebook) && codebook != []
  {
    forall tokens: seq<nat>, target: seq<Vec>, encoded: seq<nat> ::
      (&& InRange(codebook, tokens) && Decoded(dir, codebook, tokens, target)
       && |encoded| == |tokens| && Greedy(dir, codebook, target, encoded))
      ==> encoded == tokens
  }

  /** Of two tokens with one mean offset the encoder never finds the later one. */
  lemma SharedOffsetIsLost(dir: Vec -> Vec, codebook: seq<Token>, j: nat, k: nat)
    requires IsCodebook(codebook) && j < k < |codebook| && DeltaPos(codebook[j]) == DeltaPos(codebook[k])
    ensures !RoundTrips(dir, codebook)
  {
    hide Rot, NormSq, DecodeStep, DeltaPos;
    var tokens: seq<nat>, target := [k], [Final(dir, codebook, [k]).pos];
    var best := Choice(codebook, ORIGIN, target[0]);
    var encoded: seq<nat> := [best];
    assert encoded[..0] == [] && tokens[..1] == tokens;
    assert Decoded(dir, codebook, tokens, target) && Greedy(dir, codebook, target, encoded);
    var d := Distances(codebook, ORIGIN, target[0]);
    assert d[j] == d[k];
    assert best != k;
    assert encoded[0] != tokens[0];
  }

  /** Encoding undoes decoding exactly when the mean last-row offsets are pairwise distinct. */
  lemma RoundTripsIffDistinct(dir: Vec -> Vec, codebook: seq<Token>)
    requires Directs(dir) && IsCodebook(codebook) && codebook != [] && Steady(dir, codebook)
    ensures RoundTrips(dir, codebook) <==> OffsetsDistinct(codebook)
  {
    hide Greedy, Decoded, DeltaPos, Steady, Directs;
    if OffsetsDistinct(codebook) {
      forall tokens: seq<nat>, target: seq<Vec>, encoded: seq<nat> |
        InRange(codebook, tokens) && Decoded(dir, codebook, tokens, target) && |encoded| == |tokens|
        && Greedy(dir, codebook, target, encoded)
        ensures encoded == tokens
      {
        EncodingUndoesDecoding(dir, codebook, tokens, target, encoded);
        assert tokens[..|tokens|] == tokens;
      }
    } else {
      var j, k :| 0 <= j < k < |codebook| && DeltaPos(codebook[j]) == DeltaPos(codebook[k]);
      SharedOffsetIsLost(dir, codebook, j, k);
    }
  }

  const NORTH := Vec(0.0, 1.0)
  const LEFT_ROW := [Vec(0.0, 1.5), NORTH, NORTH, Vec(0.0, 0.5)]
  const AHEAD_ROW := [EAST, EAST, EAST, EAST]

  function Block(row: seq<Vec>): (t: Token)
    requires |row| == COLS
    ensures WellShaped(t) && t[ROWS - 1] == row
  {
    seq(ROWS, r requires 0 <= r < ROWS => row)
  }

  /** Token 0 moves one unit and turns north; token 1 moves one unit ahead and has no heading. */
  function LeftAndAhead(): (codebook: seq<Token>)
    ensures IsCodebook(codebook) && |codebook| == 2
    ensures codebook[0][ROWS - 1] == LEFT_ROW && codebook[1][ROWS - 1] == AHEAD_ROW
  {
    [Block(LEFT_ROW), Block(AHEAD_ROW)]
  }

  lemma LeftMean()
    ensures Mean(LEFT_ROW) == NORTH
  {
  }

  lemma LeftSpread()
    ensures Spread(LEFT_ROW) == NORTH
  {
  }

  lemma AheadMean()
    ensures Mean(AHEAD_ROW) == EAST
  {
  }

  lemma AheadSpread()
    ensures Spread(AHEAD_ROW) == ZERO
  {
  }

  lemma RowFacts()
    ensures Mean(LEFT_ROW) == NORTH && Spread(LEFT_ROW) == NORTH
    ensures Mean(AHEAD_ROW) == EAST && Spread(AHEAD_ROW) == ZERO
  {
    hide Mean, Spread;
    LeftMean();
    LeftSpread();
    AheadMean();
    AheadSpread();
  }

  lemma CardinalsAreUnit()
    ensures Unit(EAST) && Unit(NORTH) && NORTH == Scale(1.0, NORTH)
  {
    assert Times(1.0, 1.0) == 1.0 && Times(0.0, 0.0) == 0.0;
  }

  lemma NorthIsNorth()
    ensures IsDirection(NORTH, NORTH) && IsDirection(ZERO, EAST)
  {
    hide NormSq, Scale;
    CardinalsAreUnit();
  }

  lemma NorthPointsNorth(dir: Vec -> Vec)
    requires Directs(dir)
    ensures dir(NORTH) == NORTH && dir(ZERO) == EAST
  {
    hide IsDirection;
    NorthIsNorth();
    assert IsDirection(NORTH, dir(NORTH)) && IsDirection(ZERO, dir(ZERO));
    DirectionUnique(NORTH, NORTH, dir(NORTH));
    DirectionUnique(ZERO, EAST, dir(ZERO));
  }

  lemma DecodeStepIs(dir: Vec -> Vec, pose: Pose, token: Token)
    requires WellShaped(token)
    ensures DecodeStep(dir, pose, token)
            == Pose(Add(pose.pos, Rot(pose.head, Mean(token[ROWS - 1]))), dir(Rot(pose.head, Spread(token[ROWS - 1]))))
  {
    hide Rot, Mean, Spread, Scale, Add, Sub;
    PositionsAgree(dir, pose, token);
  }

  lemma LeftDecoded(dir: Vec -> Vec)
    requires Directs(dir)
    ensures Final(dir, LeftAndAhead(), [0]) == Pose(NORTH, NORTH)
  {
    hide Directs, LeftAndAhead, DecodeStep, Mean, Spread, WellShaped;
    RowFacts();
    NorthPointsNorth(dir);
    assert [0][..0] == [];
    DecodeStepIs(dir, ORIGIN, LeftAndAhead()[0]);
  }

  lemma LeftAheadDecoded(dir: Vec -> Vec)
    requires Directs(dir)
    ensures Final(dir, LeftAndAhead(), [0, 1]) == Pose(Vec(0.0, 2.0), EAST)
  {
    hide Directs, LeftAndAhead, DecodeStep, Mean, Spread, WellShaped;
    RowFacts();
    NorthPointsNorth(dir);
    LeftDecoded(dir);
    assert [0, 1][..1] == [0];
    assert Add(NORTH, Rot(NORTH, EAST)) == Vec(0.0, 2.0) && Rot(NORTH, ZERO) == ZERO;
    hide Rot, Add;
    DecodeStepIs(dir, Pose(NORTH, NORTH), LeftAndAhead()[1]);
  }

  lemma LeftAheadLeftDecoded(dir: Vec -> Vec)
    requires Directs(dir)
    ensures Final(dir, LeftAndAhead(), [0, 1, 0]).pos == Vec(0.0, 3.0)
  {
    hide Directs, LeftAndAhead, DecodeStep, Mean, Spread, WellShaped;
    RowFacts();
    LeftAheadDecoded(dir);
    assert [0, 1, 0][..2] == [0, 1];
    assert Add(Vec(0.0, 2.0), Rot(EAST, NORTH)) == Vec(0.0, 3.0);
    hide Rot, Add;
    DecodeStepIs(dir, Pose(Vec(0.0, 2.0), EAST), LeftAndAhead()[0]);
  }

  lemma LeftRunning(dir: Vec -> Vec)
    requires Directs(dir)
    ensures Running(dir, LeftAndAhead(), [0]) == Pose(NORTH, NORTH)
  {
    hide Directs, LeftAndAhead, Mean, Spread, WellShaped;
    RowFacts();
    NorthPointsNorth(dir);
    assert [0][..0] == [];
  }

  lemma LeftAheadRunning(dir: Vec -> Vec)
    requires Directs(dir)
    ensures Running(dir, LeftAndAhead(), [0, 1]) == Pose(Vec(0.0, 2.0), NORTH)
  {
    hide Directs, LeftAndAhead, Mean, Spread, WellShaped;
    RowFacts();
    NorthPointsNorth(dir);
    LeftRunning(dir);
    assert [0, 1][..1] == [0];
    assert Add(NORTH, Rot(NORTH, EAST)) == Vec(0.0, 2.0) && Rot(NORTH, EAST) == NORTH;
    hide Rot, Add;
  }

  lemma LeftAheadChoices()
    ensures Choice(LeftAndAhead(), ORIGIN, NORTH) == 0
    ensures Choice(LeftAndAhead(), Pose(NORTH, NORTH), Vec(0.0, 2.0)) == 1
    ensures Choice(LeftAndAhead(), Pose(Vec(0.0, 2.0), NORTH), Vec(0.0, 3.0)) == 1
  {
    hide LeftAndAhead, Mean, Spread, WellShaped, Choice;
    RowFacts();
    Nearest(LeftAndAhead(), ORIGIN, NORTH, 0);
    Nearest(LeftAndAhead(), Pose(NORTH, NORTH), Vec(0.0, 2.0), 1);
    Nearest(LeftAndAhead(), Pose(Vec(0.0, 2.0), NORTH), Vec(0.0, 3.0), 1);
  }

  /** Distinct offsets alone are not enough: left, ahead, left decodes to a path that encodes as left, ahead, ahead. */
  lemma HeadinglessTokenMisleads(dir: Vec -> Vec)
    requires Directs(dir)
    ensures OffsetsDistinct(LeftAndAhead()) && !RoundTrips(dir, LeftAndAhead())
  {
    hide Directs, LeftAndAhead, Final, Choice, Mean, WellShaped;
    var codebook := LeftAndAhead();
    RowFacts();
    var tokens: seq<nat>, encoded: seq<nat> := [0, 1, 0], [0, 1, 1];
    var target := [NORTH, Vec(0.0, 2.0), Vec(0.0, 3.0)];
    assert Running(dir, codebook, []) == ORIGIN;
    hide Running;
    LeftDecoded(dir);
    LeftAheadDecoded(dir);
    LeftAheadLeftDecoded(dir);
    LeftRunning(dir);
    LeftAheadRunning(dir);
    LeftAheadChoices();
    assert tokens[..1] == encoded[..1] == [0] && tokens[..2] == encoded[..2] == [0, 1] && tokens[..3] == tokens;
    assert encoded[..0] == [];
    assert Decoded(dir, codebook, tokens, target);
    assert Greedy(dir, codebook, target, encoded);
    assert encoded[2] != tokens[2];
  }
}
