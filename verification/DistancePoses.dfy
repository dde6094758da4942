/** The distance-to-ground-truth reward under rigid motions of the executed poses themselves, quaternions included. */
module DistancePoses {
  import opened DistanceToGt
  import opened Plane
  import opened RealSums
  import opened Wrappers

  // ---------- turning the poses themselves ----------

  predicate UnitQuat(q: Quaternion) {
    q.w * q.w + q.x * q.x + q.y * q.y + q.z * q.z == 1.0
  }

  /** `q` after a further turn about the vertical axis whose half angle has cosine `c` and sine `s`. */
  function TurnQuat(c: real, s: real, q: Quaternion): Quaternion {
    Quaternion(c * q.w - s * q.z, c * q.x - s * q.y, c * q.y + s * q.x, c * q.z + s * q.w)
  }

  /** The unit vector of the full angle. */
  function FullTurn(c: real, s: real): Vec {
    Vec(c * c - s * s, 2.0 * (c * s))
  }

  function Tilt(q: Quaternion): real {
    q.w * q.w + q.x * q.x - q.y * q.y - q.z * q.z
  }

  lemma SquareSum(a: real, b: real, c: real, s: real)
    ensures (c * a - s * b) * (c * a - s * b) == c * c * (a * a) - 2.0 * (c * s) * (a * b) + s * s * (b * b)
    ensures (c * a + s * b) * (c * a + s * b) == c * c * (a * a) + 2.0 * (c * s) * (a * b) + s * s * (b * b)
  {
    assert (c * a) * (c * a) == c * c * (a * a) && (s * b) * (s * b) == s * s * (b * b);
    assert (c * a) * (s * b) == (c * s) * (a * b);
  }

  lemma TurnedSquares(c: real, s: real, q: Quaternion)
    ensures (var r := TurnQuat(c, s, q); var cc, ss := c * c, s * s;
             && r.w * r.w == cc * (q.w * q.w) - 2.0 * (c * s) * (q.w * q.z) + ss * (q.z * q.z)
             && r.x * r.x == cc * (q.x * q.x) - 2.0 * (c * s) * (q.x * q.y) + ss * (q.y * q.y)
             && r.y * r.y == cc * (q.y * q.y) + 2.0 * (c * s) * (q.y * q.x) + ss * (q.x * q.x)
             && r.z * r.z == cc * (q.z * q.z) + 2.0 * (c * s) * (q.z * q.w) + ss * (q.w * q.w))
  {
    SquareSum(q.w, q.z, c, s);
    SquareSum(q.x, q.y, c, s);
    SquareSum(q.y, q.x, c, s);
    SquareSum(q.z, q.w, c, s);
  }

  lemma SquaresCombine(cc: real, ss: real, k: real, w: real, x: real, y: real, z: real, p: real, q: real)
    ensures (var (w2, x2) := (cc * w - 2.0 * k * p + ss * z, cc * x - 2.0 * k * q + ss * y);
             var (y2, z2) := (cc * y + 2.0 * k * q + ss * x, cc * z + 2.0 * k * p + ss * w);
             && w2 + x2 + y2 + z2 == (cc + ss) * (w + x + y + z)
             && w2 + x2 - y2 - z2 == (cc - ss) * (w + x - y - z) - 2.0 * k * (2.0 * (p + q)))
  {
  }

  lemma ProductOfTurned(c: real, s: real, a: real, b: real)
    ensures (c * a - s * b) * (c * b + s * a) == (c * c - s * s) * (a * b) + (c * s) * (a * a - b * b)
  {
    assert (c * a) * (c * b) == c * c * (a * b) && (s * b) * (s * a) == s * s * (a * b);
    assert (c * a) * (s * a) == (c * s) * (a * a) && (s * b) * (c * b) == (c * s) * (b * b);
  }

  lemma TurnedProducts(c: real, s: real, q: Quaternion)
    ensures (var r := TurnQuat(c, s, q);
             && r.w * r.z == (c * c - s * s) * (q.w * q.z) + (c * s) * (q.w * q.w - q.z * q.z)
             && r.x * r.y == (c * c - s * s) * (q.x * q.y) + (c * s) * (q.x * q.x - q.y * q.y))
  {
    ProductOfTurned(c, s, q.w, q.z);
    ProductOfTurned(c, s, q.x, q.y);
  }

  lemma TurnedCross(c: real, s: real, q: Quaternion)
    ensures (var r := TurnQuat(c, s, q);
             r.w * r.z + r.x * r.y == (c * c - s * s) * (q.w * q.z + q.x * q.y) + (c * s) * Tilt(q))
  {
    TurnedProducts(c, s, q);
    hide TurnQuat;
    var a, b := q.w * q.w - q.z * q.z, q.x * q.x - q.y * q.y;
    CrossCombines(c * c - s * s, c * s, q.w * q.z, q.x * q.y, a, b);
    assert a + b == Tilt(q);
  }

  lemma CrossCombines(d: real, k: real, p: real, q: real, a: real, b: real)
    ensures (d * p + k * a) + (d * q + k * b) == d * (p + q) + k * (a + b)
  {
  }

  lemma TurnedTilt(c: real, s: real, q: Quaternion)
    requires UnitQuat(q) && c * c + s * s == 1.0
    ensures UnitQuat(TurnQuat(c, s, q))
    ensures Tilt(TurnQuat(c, s, q)) == (c * c - s * s) * Tilt(q) - 2.0 * (c * s) * (2.0 * (q.w * q.z + q.x * q.y))
  {
    TurnedSquares(c, s, q);
    SquaresCombine(c * c, s * s, c * s, q.w * q.w, q.x * q.x, q.y * q.y, q.z * q.z, q.w * q.z, q.x * q.y);
    hide TurnQuat;
  }

  lemma ForwardIsTilt(q: Quaternion)
    requires UnitQuat(q)
    ensures Forward(q) == Vec(Tilt(q), 2.0 * (q.w * q.z + q.x * q.y))
  {
  }

  lemma TurnCombines(d: real, k: real, a: real, b: real)
    ensures Rot(Vec(d, 2.0 * k), Vec(a, 2.0 * b)) == Vec(d * a - 2.0 * k * (2.0 * b), 2.0 * (d * b + k * a))
  {
  }

  /** Turning a unit quaternion about the vertical turns what its yaw is read from. */
  lemma ForwardTurns(c: real, s: real, q: Quaternion)
    requires UnitQuat(q) && c * c + s * s == 1.0
    ensures Forward(TurnQuat(c, s, q)) == Rot(FullTurn(c, s), Forward(q)) && UnitQuat(TurnQuat(c, s, q))
  {
    TurnedTilt(c, s, q);
    TurnedCross(c, s, q);
    ForwardIsTilt(q);
    ForwardIsTilt(TurnQuat(c, s, q));
    TurnCombines(c * c - s * s, c * s, Tilt(q), q.w * q.z + q.x * q.y);
    hide TurnQuat, Tilt, Rot, Forward;
  }

  lemma FullTurnUnit(c: real, s: real)
    requires c * c + s * s == 1.0
    ensures Unit(FullTurn(c, s))
  {
    SumOfSquares(c * c, s * s, c * s);
    assert (c * s) * (c * s) == (c * c) * (s * s);
  }

  lemma SumOfSquares(a: real, b: real, k: real)
    requires a + b == 1.0 && k * k == a * b
    ensures (a - b) * (a - b) + (2.0 * k) * (2.0 * k) == 1.0
  {
    assert (a + b) * (a + b) == a * a + 2.0 * (a * b) + b * b;
    assert (a - b) * (a - b) == a * a - 2.0 * (a * b) + b * b;
    assert (2.0 * k) * (2.0 * k) == 4.0 * (k * k);
  }

  /** The product of two quaternions. */
  function Hamilton(p: Quaternion, q: Quaternion): Quaternion {
    Quaternion(p.w * q.w - p.x * q.x - p.y * q.y - p.z * q.z,
               p.w * q.x + p.x * q.w + p.y * q.z - p.z * q.y,
               p.w * q.y - p.x * q.z + p.y * q.w + p.z * q.x,
               p.w * q.z + p.x * q.y - p.y * q.x + p.z * q.w)
  }

  function Inverse(q: Quaternion): Quaternion {
    Quaternion(q.w, -q.x, -q.y, -q.z)
  }

  const AHEAD := Quaternion(0.0, 1.0, 0.0, 0.0)

  lemma TimesAhead(q: Quaternion)
    ensures Hamilton(q, AHEAD) == Quaternion(-q.x, q.w, q.z, -q.y)
  {
  }

  lemma AheadTurned(q: Quaternion)
    ensures (var r := Hamilton(Hamilton(q, AHEAD), Inverse(q));
             r.x == Tilt(q) && r.y == 2.0 * (q.w * q.z + q.x * q.y))
  {
    TimesAhead(q);
    hide AHEAD;
  }

  /** The vector a yaw is read from is the level part of where a unit quaternion takes the axis ahead. */
  lemma ForwardIsAhead(q: Quaternion)
    requires UnitQuat(q)
    ensures (var r := Hamilton(Hamilton(q, AHEAD), Inverse(q)); Forward(q) == Vec(r.x, r.y))
  {
    AheadTurned(q);
    ForwardIsTilt(q);
    hide Hamilton, Forward, Tilt;
  }

  function TurnPose(c: real, s: real, shift: Vec, pose: EgoPose): EgoPose {
    EgoPose(pose.time, Move(Motion(FullTurn(c, s), shift), pose.pos), TurnQuat(c, s, pose.quat))
  }

  function TurnPoses(c: real, s: real, shift: Vec, poses: seq<EgoPose>): (r: seq<EgoPose>)
    ensures |r| == |poses| && forall i :: 0 <= i < |r| ==> r[i] == TurnPose(c, s, shift, poses[i])
  {
    seq(|poses|, i requires 0 <= i < |poses| => TurnPose(c, s, shift, poses[i]))
  }

  // ---------- turning samples ----------

  /** Whether the yaw of a pose is defined: one that points straight up or down has the yaw `arctan2` gives the zero
      vector. */
  predicate HasYaw(pose: EgoPose) {
    Forward(pose.quat) != ZERO
  }

  function HaveYaw(poses: seq<EgoPose>): (r: seq<bool>)
    ensures |r| == |poses| && forall i :: 0 <= i < |r| ==> r[i] == HasYaw(poses[i])
  {
    seq(|poses|, i requires 0 <= i < |poses| => HasYaw(poses[i]))
  }

  predicate AllUnit(poses: seq<EgoPose>) {
    forall i :: 0 <= i < |poses| ==> UnitQuat(poses[i].quat)
  }

  /** A motion turns the yaws there are. */
  function TurnSample(m: Motion, hasYaw: bool, s: Sample): Sample {
    Sample(s.time, Move(m, s.pos), if hasYaw then Rot(m.turn, s.yaw) else s.yaw)
  }

  function TurnSamples(m: Motion, haveYaw: seq<bool>, samples: seq<Sample>): (r: seq<Sample>)
    requires |haveYaw| == |samples|
    ensures |r| == |samples| && forall i :: 0 <= i < |r| ==> r[i] == TurnSample(m, haveYaw[i], samples[i])
  {
    seq(|samples|, i requires 0 <= i < |samples| => TurnSample(m, haveYaw[i], samples[i]))
  }

  lemma ZeroPointsEast(dir: Vec -> Vec)
    requires Directs(dir)
    ensures dir(ZERO) == EAST
  {
    assert IsDirection(ZERO, dir(ZERO));
  }

  lemma SampleTurns(dir: Vec -> Vec, c: real, s: real, shift: Vec, pose: EgoPose)
    requires Directs(dir) && c * c + s * s == 1.0 && UnitQuat(pose.quat)
    ensures SampleOf(dir, TurnPose(c, s, shift, pose))
            == TurnSample(Motion(FullTurn(c, s), shift), HasYaw(pose), SampleOf(dir, pose))
  {
    ForwardTurns(c, s, pose.quat);
    FullTurnUnit(c, s);
    hide FullTurn, Forward, Rot, Move, TurnQuat, Directs;
    if HasYaw(pose) {
      DirectionTurns(dir, FullTurn(c, s), Forward(pose.quat));
    } else {
      RotEast(FullTurn(c, s));
      ZeroPointsEast(dir);
    }
  }

  /** Turning poses about the vertical and shifting them moves positions and turns the yaws there are. */
  lemma SamplesTurn(dir: Vec -> Vec, c: real, s: real, shift: Vec, poses: seq<EgoPose>)
    requires Directs(dir) && c * c + s * s == 1.0 && AllUnit(poses)
    ensures Samples(dir, TurnPoses(c, s, shift, poses))
            == TurnSamples(Motion(FullTurn(c, s), shift), HaveYaw(poses), Samples(dir, poses))
  {
    hide SampleOf, TurnSample, TurnPose, FullTurn, HasYaw, Directs, UnitQuat;
    forall i | 0 <= i < |poses|
      ensures SampleOf(dir, TurnPose(c, s, shift, poses[i]))
              == TurnSample(Motion(FullTurn(c, s), shift), HasYaw(poses[i]), SampleOf(dir, poses[i]))
    {
      SampleTurns(dir, c, s, shift, poses[i]);
    }
  }

  // ---------- the total error under any placement ----------

  predicate SamePlaces(a: seq<Sample>, b: seq<Sample>) {
    |a| == |b| && forall i :: 0 <= i < |a| ==> a[i].time == b[i].time && a[i].pos == b[i].pos
  }

  lemma {:induction false} InSpanSamePlaces(a: seq<Sample>, b: seq<Sample>, low: int, high: int)
    requires SamePlaces(a, b)
    ensures SamePlaces(InSpan(a, low, high), InSpan(b, low, high))
  {
    if a != [] {
      InSpanSamePlaces(a[1..], b[1..], low, high);
    }
  }

  function TotalAt(placement: Motion, paired: seq<Sample>, gt: Track): real
    requires IsTrack(gt)
  {
    Sum(|paired|, SquaredErrors(paired, gt.ts, MoveAll(placement, gt.xy)))
  }

  lemma TotalSamePlaces(placement: Motion, a: seq<Sample>, b: seq<Sample>, gt: Track)
    requires IsTrack(gt) && SamePlaces(a, b)
    ensures TotalAt(placement, a, gt) == TotalAt(placement, b, gt)
  {
    hide NormSq, InterpVec, Move;
    SumEq(|a|, SquaredErrors(a, gt.ts, MoveAll(placement, gt.xy)), SquaredErrors(b, gt.ts, MoveAll(placement, gt.xy)));
  }

  function Conj(h: Vec): Vec {
    Vec(h.x, -h.y)
  }

  lemma ConjUnturns(d: Vec, v: Vec)
    requires Unit(d)
    ensures Rot(d, Rot(Conj(d), v)) == v && Unit(Conj(d))
  {
    assert d.x * d.x + d.y * d.y == 1.0;
    assert Rot(d, Conj(d)) == EAST;
    RotRot(d, Conj(d), v);
    TurnFromEast(v);
    assert Plane.Times(-d.y, -d.y) == Plane.Times(d.y, d.y);
  }

  /** How far the placed ground truth is turned against the executed trajectory. */
  function Relative(d: Vec, h: Vec): Vec {
    Rot(Conj(d), h)
  }

  lemma RelativeUnit(d: Vec, h: Vec)
    requires Unit(d) && Unit(h)
    ensures Unit(Relative(d, h))
  {
    hide Rot, Conj;
    ConjUnturns(d, h);
    UnitRot(Conj(d), h);
  }

  lemma RelativeError(d: Vec, h: Vec, u: Vec, g: Vec)
    requires Unit(d) && Unit(h)
    ensures NormSq(Sub(Rot(h, u), Rot(d, g))) == NormSq(u) + NormSq(g) - 2.0 * Dot(Relative(d, h), Cross(u, g))
  {
    hide Rot, NormSq, Dot, Cross, Conj;
    var r := Relative(d, h);
    RelativeUnit(d, h);
    ConjUnturns(d, h);
    RotRot(d, r, u);
    RotAdd(d, Rot(r, u), g);
    NormSqTurned(d, Sub(Rot(r, u), g));
    ErrorOfTurned(r, u, g);
  }

  lemma PlacedError(m: Motion, d: Vec, sample: Sample, gt: Track, a: Vec)
    requires IsTrack(gt) && Unit(m.turn) && Unit(d)
    ensures SquaredError(MoveSample(m, sample), gt.ts, MoveAll(Motion(d, Move(m, a)), gt.xy))
            == NormSq(Sub(sample.pos, a)) + NormSq(InterpVec(sample.time, gt.ts, gt.xy))
               - 2.0 * Dot(Relative(d, m.turn), Against(sample, gt, a))
  {
    hide Rot, NormSq, InterpVec, SquaredError, Dot, Cross, Relative;
    var g := InterpVec(sample.time, gt.ts, gt.xy);
    ErrorOfPlaced(MoveSample(m, sample), gt, Motion(d, Move(m, a)));
    RotAdd(m.turn, sample.pos, a);
    assert Sub(Move(m, sample.pos), Add(Rot(d, g), Move(m, a))) == Sub(Rot(m.turn, Sub(sample.pos, a)), Rot(d, g));
    RelativeError(d, m.turn, Sub(sample.pos, a), g);
  }

  lemma PlacedTotal(m: Motion, d: Vec, paired: seq<Sample>, gt: Track, a: Vec)
    requires IsTrack(gt) && Unit(m.turn) && Unit(d)
    ensures TotalAt(Motion(d, Move(m, a)), MoveSamples(m, paired), gt)
            == Sum(|paired|, Spans(paired, gt, a)) - 2.0 * Dot(Relative(d, m.turn), Correlation(paired, gt, a))
  {
    hide Move, Rot, NormSq, InterpVec, SquaredError, Dot, Against, Unit, Relative;
    var r := Relative(d, m.turn);
    var f := SquaredErrors(MoveSamples(m, paired), gt.ts, MoveAll(Motion(d, Move(m, a)), gt.xy));
    var x, y := AgainstX(paired, gt, a), AgainstY(paired, gt, a);
    forall i | 0 <= i < |paired|
      ensures f(i) == Spans(paired, gt, a)(i) - 2.0 * Dot(r, Vec(x(i), y(i)))
    {
      PlacedError(m, d, paired[i], gt, a);
    }
    SumsCombine(|paired|, r, f, Spans(paired, gt, a), x, y);
  }

  // ---------- the anchor ----------

  /** The sample at or before the anchor. */
  function UsedAt(ts: seq<int>, q: int): (j: nat)
    requires ts != []
    ensures j < |ts|
  {
    if q < ts[0] then 0 else Segment(ts, q)
  }

  /** The anchor lies strictly between two samples. */
  predicate UsesNext(ts: seq<int>, q: int)
    requires ts != []
  {
    ts[0] <= q && UsedAt(ts, q) + 1 < |ts| && ts[UsedAt(ts, q)] != q
  }

  lemma InterpOne(q: int, ts: seq<int>, vs: seq<Vec>)
    requires |ts| == |vs| > 0 && !UsesNext(ts, q)
    ensures InterpVec(q, ts, vs) == vs[UsedAt(ts, q)]
  {
    hide InterpVec;
    var j := UsedAt(ts, q);
    if q < ts[0] || Segment(ts, q) + 1 == |ts| {
      InterpOutside(q, ts, vs);
    } else {
      InterpInside(q, ts, vs);
      assert Fraction(q, ts, j) == 0.0;
      assert Add(vs[j], Scale(0.0, Sub(vs[j + 1], vs[j]))) == vs[j];
    }
  }

  lemma ProperFraction(a: int, b: int)
    requires 0 < a < b
    ensures 0.0 < a as real / b as real < 1.0
  {
    var f := a as real / b as real;
    assert f * b as real == a as real;
  }

  lemma InterpTwo(q: int, ts: seq<int>, vs: seq<Vec>) returns (f: real)
    requires |ts| == |vs| > 0 && UsesNext(ts, q)
    ensures 0.0 < f < 1.0
    ensures (var j := UsedAt(ts, q); InterpVec(q, ts, vs) == Add(vs[j], Scale(f, Sub(vs[j + 1], vs[j]))))
    ensures f == Fraction(q, ts, UsedAt(ts, q))
  {
    hide InterpVec;
    var j := UsedAt(ts, q);
    InterpInside(q, ts, vs);
    ProperFraction(q - ts[j], ts[j + 1] - ts[j]);
    f := Fraction(q, ts, j);
  }

  /** Unit yaws, and the one of the zero vector where there is none. */
  predicate YawsOk(haveYaw: seq<bool>, samples: seq<Sample>) {
    |haveYaw| == |samples| &&
    forall i :: 0 <= i < |samples| ==> Unit(samples[i].yaw) && (!haveYaw[i] ==> samples[i].yaw == EAST)
  }

  /** All samples the anchor is interpolated from have a yaw. */
  predicate AnchorHasYaw(haveYaw: seq<bool>, samples: seq<Sample>, anchor: int)
    requires |haveYaw| == |samples| > 0
  {
    var ts := TimesOf(samples);
    haveYaw[UsedAt(ts, anchor)] && (UsesNext(ts, anchor) ==> haveYaw[UsedAt(ts, anchor) + 1])
  }

  lemma TurnedTimes(m: Motion, haveYaw: seq<bool>, samples: seq<Sample>)
    requires |haveYaw| == |samples|
    ensures TimesOf(TurnSamples(m, haveYaw, samples)) == TimesOf(samples)
    ensures SamePlaces(TurnSamples(m, haveYaw, samples), MoveSamples(m, samples))
  {
    hide Move, Rot;
  }

  lemma TurnedAnchorPos(m: Motion, haveYaw: seq<bool>, samples: seq<Sample>, anchor: int)
    requires |haveYaw| == |samples| > 0
    ensures AnchorPos(TurnSamples(m, haveYaw, samples), anchor) == Move(m, AnchorPos(samples, anchor))
  {
    hide Move, Rot, InterpVec;
    TurnedTimes(m, haveYaw, samples);
    AnchorMoves(m, samples, anchor);
    assert TimesOf(MoveSamples(m, samples)) == TimesOf(samples);
    assert Positions(TurnSamples(m, haveYaw, samples)) == Positions(MoveSamples(m, samples));
  }

  lemma RotBlend(h: Vec, f: real, u: Vec, v: Vec)
    ensures Rot(h, Add(u, Scale(f, Sub(v, u)))) == Add(Rot(h, u), Scale(f, Sub(Rot(h, v), Rot(h, u))))
  {
    RotAdd(h, u, Scale(f, Sub(v, u)));
    RotScale(h, f, Sub(v, u));
    RotAdd(h, v, u);
    hide Rot, Scale;
  }

  lemma TurnedYawAt(m: Motion, haveYaw: seq<bool>, samples: seq<Sample>, i: nat)
    requires |haveYaw| == |samples| && i < |samples|
    ensures Yaws(TurnSamples(m, haveYaw, samples))[i]
            == if haveYaw[i] then Rot(m.turn, samples[i].yaw) else samples[i].yaw
  {
    hide Rot, Move;
  }

  lemma NextInRange(ts: seq<int>, q: int)
    requires ts != [] && UsesNext(ts, q)
    ensures UsedAt(ts, q) + 1 < |ts|
  {
  }

  /** Where all yaws at the anchor are defined, the anchor yaw turns. */
  lemma TurnedAnchorYaw(m: Motion, haveYaw: seq<bool>, samples: seq<Sample>, anchor: int)
    requires YawsOk(haveYaw, samples) && samples != [] && AnchorHasYaw(haveYaw, samples, anchor)
    ensures AnchorYaw(TurnSamples(m, haveYaw, samples), anchor) == Rot(m.turn, AnchorYaw(samples, anchor))
  {
    hide Move, Rot, InterpVec, Scale, Add, Sub, Unit, TurnSample, Fraction, UsesNext, UsedAt, MoveSample;
    var turned, ts := TurnSamples(m, haveYaw, samples), TimesOf(samples);
    var j := UsedAt(ts, anchor);
    TurnedTimes(m, haveYaw, samples);
    TurnedYawAt(m, haveYaw, samples, j);
    if UsesNext(ts, anchor) {
      NextInRange(ts, anchor);
      TurnedYawAt(m, haveYaw, samples, j + 1);
      var f := InterpTwo(anchor, ts, Yaws(samples));
      var g := InterpTwo(anchor, ts, Yaws(turned));
      RotBlend(m.turn, f, samples[j].yaw, samples[j + 1].yaw);
    } else {
      InterpOne(anchor, ts, Yaws(samples));
      InterpOne(anchor, ts, Yaws(turned));
    }
  }

  /** How a turned anchor yaw comes about where a yaw is missing: from a fixed part, and a turned one that may
      vanish. */
  predicate Stuck(h: Vec, yaw: Vec, a: real, b: real, y: Vec) {
    a > 0.0 && b >= 0.0 && Unit(y) && yaw == Add(Scale(a, EAST), Scale(b, Rot(h, y)))
  }

  lemma BlendSame(f: real, v: Vec)
    ensures Add(v, Scale(f, Sub(v, v))) == v
  {
  }

  lemma BlendFromEast(f: real, v: Vec)
    ensures Add(EAST, Scale(f, Sub(v, EAST))) == Add(Scale(1.0 - f, EAST), Scale(f, v))
    ensures Add(v, Scale(f, Sub(EAST, v))) == Add(Scale(f, EAST), Scale(1.0 - f, v))
  {
  }

  lemma NoTurningPart(v: Vec)
    ensures EAST == Add(Scale(1.0, EAST), Scale(0.0, v))
  {
  }

  predicate StuckParts(haveYaw: seq<bool>, samples: seq<Sample>, anchor: int, a: real, b: real, y: Vec)
    requires |haveYaw| == |samples| > 0
  {
    var ts := TimesOf(samples);
    var j := UsedAt(ts, anchor);
    if UsesNext(ts, anchor) && haveYaw[j] then
      a == Fraction(anchor, ts, j) && b == 1.0 - a && y == samples[j].yaw
    else if UsesNext(ts, anchor) && haveYaw[j + 1] then
      b == Fraction(anchor, ts, j) && a == 1.0 - b && y == samples[j + 1].yaw
    else a == 1.0 && b == 0.0 && y == EAST
  }

  lemma StuckAt(m: Motion, haveYaw: seq<bool>, samples: seq<Sample>, anchor: int, a: real, b: real, y: Vec)
    requires YawsOk(haveYaw, samples) && samples != [] && !AnchorHasYaw(haveYaw, samples, anchor)
    requires StuckParts(haveYaw, samples, anchor, a, b, y) && Unit(y) && a > 0.0 && b >= 0.0
    ensures Stuck(m.turn, AnchorYaw(TurnSamples(m, haveYaw, samples), anchor), a, b, y)
  {
    hide Move, Rot, InterpVec, Scale, Add, Sub, Unit;
    var turned, ts := TurnSamples(m, haveYaw, samples), TimesOf(samples);
    var j := UsedAt(ts, anchor);
    TurnedTimes(m, haveYaw, samples);
    NoTurningPart(Rot(m.turn, y));
    if UsesNext(ts, anchor) {
      var f := InterpTwo(anchor, ts, Yaws(turned));
      if haveYaw[j] {
        BlendFromEast(f, Rot(m.turn, y));
      } else if haveYaw[j + 1] {
        BlendFromEast(f, Rot(m.turn, y));
      } else {
        BlendSame(f, EAST);
      }
    } else {
      InterpOne(anchor, ts, Yaws(turned));
    }
  }

  /** The weights and the turning yaw depend on the samples alone. */
  lemma StuckAnchorYaw(haveYaw: seq<bool>, samples: seq<Sample>, anchor: int) returns (a: real, b: real, y: Vec)
    requires YawsOk(haveYaw, samples) && samples != [] && !AnchorHasYaw(haveYaw, samples, anchor)
    ensures StuckParts(haveYaw, samples, anchor, a, b, y) && Unit(y) && a > 0.0 && b >= 0.0
  {
    hide InterpVec, Unit, NormSq, UsedAt, Fraction, Add, Sub, Scale;
    var ts := TimesOf(samples);
    a, b, y := 1.0, 0.0, EAST;
    CompassUnit();
    if UsesNext(ts, anchor) {
      var j := UsedAt(ts, anchor);
      var f := InterpTwo(anchor, ts, Yaws(samples));
      if haveYaw[j] {
        a, b, y := f, 1.0 - f, samples[j].yaw;
      } else if haveYaw[j + 1] {
        a, b, y := 1.0 - f, f, samples[j + 1].yaw;
      }
    }
  }

  // ---------- what a turn does to the fit ----------

  /** What of the total error a turn can change. */
  function TurnValue(dir: Vec -> Vec, h: Vec, yaw: Vec, c: Vec): real {
    Dot(Relative(dir(yaw), h), c)
  }

  function TurnedYaw(m: Motion, haveYaw: seq<bool>, samples: seq<Sample>, anchor: int): Vec
    requires |haveYaw| == |samples| > 0
  {
    AnchorYaw(TurnSamples(m, haveYaw, samples), anchor)
  }

  /** How the executed offsets from the anchor correlate with the ground truth. */
  function Correlated(samples: seq<Sample>, gt: Track, anchor: int): Vec
    requires samples != [] && IsTrack(gt)
  {
    Correlation(Paired(samples, gt), gt, AnchorPos(samples, anchor))
  }

  lemma TurnedTotal(dir: Vec -> Vec, m: Motion, haveYaw: seq<bool>, samples: seq<Sample>, gt: Track, anchor: int)
    requires Directs(dir) && Unit(m.turn) && |haveYaw| == |samples| > 0 && IsTrack(gt)
    ensures (var paired, turned := Paired(samples, gt), TurnSamples(m, haveYaw, samples);
             var yaw, c := TurnedYaw(m, haveYaw, samples, anchor), Correlated(samples, gt, anchor);
             && |Paired(turned, gt)| == |paired|
             && TotalError(dir, turned, gt, anchor, Paired(turned, gt))
                == Sum(|paired|, Spans(paired, gt, AnchorPos(samples, anchor)))
                   - 2.0 * TurnValue(dir, m.turn, yaw, c))
  {
    hide Move, Rot, InterpVec, NormSq, SquaredError, Dot, Against, Unit, Relative, AnchorYaw, AnchorPos;
    hide MoveSample, TurnSample, Sum, Correlation;
    var turned := TurnSamples(m, haveYaw, samples);
    var a, yaw := AnchorPos(samples, anchor), TurnedYaw(m, haveYaw, samples, anchor);
    assert IsDirection(yaw, dir(yaw));
    TurnedTimes(m, haveYaw, samples);
    TurnedAnchorPos(m, haveYaw, samples, anchor);
    InSpanSamePlaces(turned, MoveSamples(m, samples), gt.ts[0], gt.ts[|gt.ts| - 1]);
    PairedMoves(m, samples, gt);
    TotalSamePlaces(Anchor(dir, turned, anchor), Paired(turned, gt), Paired(MoveSamples(m, samples), gt), gt);
    PlacedTotal(m, dir(yaw), Paired(samples, gt), gt, a);
  }

  lemma UnturnedSamples(haveYaw: seq<bool>, samples: seq<Sample>)
    requires |haveYaw| == |samples|
    ensures TurnSamples(Motion(EAST, ZERO), haveYaw, samples) == samples && Unit(EAST)
  {
    hide Rot, NormSq, TurnSample;
    RotEast(EAST);
    forall i | 0 <= i < |samples|
      ensures TurnSample(Motion(EAST, ZERO), haveYaw[i], samples[i]) == samples[i]
    {
      UnturnedSample(haveYaw[i], samples[i]);
    }
  }

  lemma UnturnedSample(hasYaw: bool, sample: Sample)
    ensures TurnSample(Motion(EAST, ZERO), hasYaw, sample) == sample
  {
    TurnFromEast(sample.pos);
    TurnFromEast(sample.yaw);
    hide Rot;
  }

  /** Turned and unturned fits agree exactly when the fit fails or the turn keeps its value. */
  lemma FitTurns(dir: Vec -> Vec, m: Motion, haveYaw: seq<bool>, samples: seq<Sample>, gt: Track, anchor: int)
    requires Directs(dir) && Unit(m.turn) && |haveYaw| == |samples| > 0 && IsTrack(gt)
    ensures (var c := Correlated(samples, gt, anchor);
             FitTo(dir, TurnSamples(m, haveYaw, samples), gt, anchor) == FitTo(dir, samples, gt, anchor) <==>
               || FitTo(dir, samples, gt, anchor).Err?
               || TurnValue(dir, m.turn, TurnedYaw(m, haveYaw, samples, anchor), c)
                  == TurnValue(dir, EAST, AnchorYaw(samples, anchor), c))
  {
    hide TurnValue, Correlated, TotalError, Paired, TurnSample, AnchorYaw, AnchorPos, Spans, Sum, Directs, Unit;
    UnturnedSamples(haveYaw, samples);
    TurnedTotal(dir, m, haveYaw, samples, gt, anchor);
    TurnedTotal(dir, Motion(EAST, ZERO), haveYaw, samples, gt, anchor);
    TurnedTimes(m, haveYaw, samples);
    var turned, n := TurnSamples(m, haveYaw, samples), |Paired(samples, gt)|;
    if n > 0 {
      SameQuotient(TotalError(dir, turned, gt, anchor, Paired(turned, gt)),
                   TotalError(dir, samples, gt, anchor, Paired(samples, gt)), n);
    }
  }

  lemma RotCommutes(u: Vec, v: Vec)
    ensures Rot(u, v) == Rot(v, u)
  {
  }

  lemma ConjRot(h: Vec, d: Vec)
    ensures Conj(Rot(h, d)) == Rot(Conj(h), Conj(d))
  {
  }

  /** A direction turned along keeps its place relative to the turn. */
  lemma TurnedAlong(h: Vec, d: Vec)
    requires Unit(h)
    ensures Relative(Rot(h, d), h) == Conj(d)
  {
    hide Rot, Conj, Unit;
    ConjRot(h, d);
    RotCommutes(Rot(Conj(h), Conj(d)), h);
    ConjUnturns(h, Conj(d));
  }

  lemma RelativeEast(h: Vec)
    ensures Relative(EAST, h) == h && Relative(h, EAST) == Conj(h)
  {
    hide Rot, Conj, Unit;
    ConjEast();
    TurnFromEast(h);
    RotEast(Conj(h));
  }

  lemma ConjEast()
    ensures Conj(EAST) == EAST
  {
  }

  /** Where the anchor yaw is nonzero and made of defined yaws, no turn changes the fit. */
  lemma DirectedFit(dir: Vec -> Vec, m: Motion, haveYaw: seq<bool>, samples: seq<Sample>, gt: Track, anchor: int)
    requires Directs(dir) && Unit(m.turn) && samples != [] && IsTrack(gt) && YawsOk(haveYaw, samples)
    requires AnchorHasYaw(haveYaw, samples, anchor) && AnchorYaw(samples, anchor) != ZERO
    ensures FitTo(dir, TurnSamples(m, haveYaw, samples), gt, anchor) == FitTo(dir, samples, gt, anchor)
  {
    hide FitTo, Correlated, AnchorYaw, TurnSample, Relative, Rot, Conj, NormSq, Dot, AnchorHasYaw;
    var yaw := AnchorYaw(samples, anchor);
    FitTurns(dir, m, haveYaw, samples, gt, anchor);
    TurnedAnchorYaw(m, haveYaw, samples, anchor);
    DirectionTurns(dir, m.turn, yaw);
    assert IsDirection(yaw, dir(yaw));
    TurnedAlong(m.turn, dir(yaw));
    RelativeEast(dir(yaw));
  }

  /** No turn changes the fit. */
  ghost predicate TurnInvariant(dir: Vec -> Vec, haveYaw: seq<bool>, samples: seq<Sample>, gt: Track, anchor: int)
    requires |haveYaw| == |samples| > 0 && IsTrack(gt)
  {
    forall m: Motion :: Unit(m.turn) ==>
      FitTo(dir, TurnSamples(m, haveYaw, samples), gt, anchor) == FitTo(dir, samples, gt, anchor)
  }

  lemma NothingCorrelates(dir: Vec -> Vec, h: Vec, yaw: Vec)
    ensures TurnValue(dir, h, yaw, ZERO) == 0.0
  {
    hide Relative;
  }

  /** A yaw that stays east leaves the whole turn in the value. */
  lemma UnyawedValue(dir: Vec -> Vec, h: Vec, yaw: Vec, c: Vec)
    requires Directs(dir) && (yaw == ZERO || exists a: real :: a > 0.0 && yaw == Scale(a, EAST))
    ensures TurnValue(dir, h, yaw, c) == Dot(h, c)
  {
    hide Relative, Dot, NormSq;
    EastwardDirection(dir, yaw);
    RelativeEast(h);
  }

  lemma EastwardDirection(dir: Vec -> Vec, yaw: Vec)
    requires Directs(dir) && (yaw == ZERO || exists a: real :: a > 0.0 && yaw == Scale(a, EAST))
    ensures dir(yaw) == EAST
  {
    assert IsDirection(yaw, dir(yaw));
    hide Unit, Scale;
    if yaw != ZERO {
      var a: real :| a > 0.0 && yaw == Scale(a, EAST);
      CompassUnit();
      PointsAlong(yaw, a, EAST);
      DirectionUnique(yaw, dir(yaw), EAST);
    }
  }

  lemma PointsAlong(v: Vec, n: real, h: Vec)
    requires n > 0.0 && v == Scale(n, h) && Unit(h) && v != ZERO
    ensures IsDirection(v, h)
  {
  }

  const NORTH := Vec(0.0, 1.0)
  const SOUTH := Vec(0.0, -1.0)

  lemma CompassUnit()
    ensures Unit(NORTH) && Unit(SOUTH) && Unit(EAST)
  {
    assert Plane.Times(1.0, 1.0) == 1.0 && Plane.Times(0.0, 0.0) == 0.0 && Plane.Times(-1.0, -1.0) == 1.0;
  }

  lemma DotConj(r: Vec, y: Vec, c: Vec)
    ensures Dot(Rot(r, Conj(y)), c) == Dot(r, Rot(y, c))
  {
    DotOfTurned(r, Conj(y), c);
    assert Cross(Conj(y), c) == Rot(y, c);
    hide Rot, Dot, Cross;
  }

  /** The value for the turn that brings the yaw `y` to `k`. */
  lemma StuckValue(dir: Vec -> Vec, a: real, b: real, y: Vec, k: Vec, yaw: Vec, c: Vec)
    requires Unit(y) && Unit(k) && Stuck(Rot(k, Conj(y)), yaw, a, b, y)
    ensures (var blend := Add(Scale(a, EAST), Scale(b, k));
             yaw == blend && TurnValue(dir, Rot(k, Conj(y)), yaw, c) == Dot(Rot(Conj(dir(blend)), k), Rot(y, c)))
  {
    hide Dot, NormSq, Add, Scale, Conj;
    ConjUnturns(y, EAST);
    UnturnsBack(k, y);
    var d := dir(Add(Scale(a, EAST), Scale(b, k)));
    RotRot(Conj(d), k, Conj(y));
    DotConj(Rot(Conj(d), k), y, c);
    hide Rot;
  }

  lemma UnturnsBack(k: Vec, y: Vec)
    requires Unit(y)
    ensures Rot(Rot(k, Conj(y)), y) == k
  {
    hide Rot, Conj, Unit;
    RotRot(k, Conj(y), y);
    RotCommutes(Conj(y), y);
    RotEast(Conj(y));
    ConjUnturns(y, EAST);
    RotEast(k);
  }

  lemma MirroredDirection(dir: Vec -> Vec, v: Vec)
    requires Directs(dir) && v.x > 0.0
    ensures dir(Conj(v)) == Conj(dir(v)) && dir(v).x > 0.0 && Unit(dir(v))
  {
    var d := dir(v);
    assert IsDirection(v, d);
    var n: real :| n > 0.0 && v == Scale(n, d);
    assert Conj(v) == Scale(n, Conj(d));
    ConjUnturns(d, v);
    assert IsDirection(Conj(v), Conj(d)) && IsDirection(Conj(v), dir(Conj(v)));
    DirectionUnique(Conj(v), dir(Conj(v)), Conj(d));
    PositiveFactor(n, d.x);
  }

  lemma PositiveFactor(n: real, x: real)
    requires n > 0.0 && n * x > 0.0
    ensures x > 0.0
  {
  }

  /** Three turns that agree leave nothing correlated. */
  lemma ThreeTurns(d: Vec, c: Vec)
    requires Unit(d) && d.x > 0.0
    requires c.x == d.y * c.x + d.x * c.y && c.x == d.y * c.x - d.x * c.y
    ensures c == ZERO
  {
    assert d.x * c.y == 0.0;
    assert c.y == 0.0;
    if c.x != 0.0 {
      assert (1.0 - d.y) * c.x == 0.0;
      assert d.y == 1.0;
      assert Plane.Times(1.0, 1.0) == 1.0;
      SquarePositive(d.x);
    }
  }

  lemma NorthValue(d: Vec, c: Vec)
    ensures Dot(Rot(Conj(d), NORTH), c) == d.y * c.x + d.x * c.y
  {
    assert Rot(Conj(d), NORTH) == Vec(d.y, d.x);
    hide Rot, Conj;
  }

  lemma SouthValue(d: Vec, c: Vec)
    ensures Dot(Rot(Conj(Conj(d)), SOUTH), c) == d.y * c.x - d.x * c.y
  {
    assert Rot(Conj(Conj(d)), SOUTH) == Vec(d.y, -d.x);
    hide Rot, Conj;
  }

  lemma EastBlend(a: real, b: real)
    ensures Add(Scale(a, EAST), Scale(b, EAST)) == Scale(a + b, EAST)
  {
  }

  lemma CompassBlends(a: real, b: real)
    ensures Add(Scale(a, EAST), Scale(b, NORTH)) == Vec(a, b)
    ensures Add(Scale(a, EAST), Scale(b, SOUTH)) == Conj(Vec(a, b))
  {
  }

  function BlendValue(dir: Vec -> Vec, a: real, b: real, k: Vec, c: Vec): real {
    Dot(Rot(Conj(dir(Add(Scale(a, EAST), Scale(b, k)))), k), c)
  }

  lemma EastBlendValue(dir: Vec -> Vec, a: real, b: real, c: Vec)
    requires Directs(dir) && a > 0.0 && b >= 0.0
    ensures BlendValue(dir, a, b, EAST, c) == Dot(EAST, c)
  {
    hide Directs, Dot, Rot, Scale, Add, Conj, Unit;
    EastBlend(a, b);
    EastwardDirection(dir, Scale(a + b, EAST));
    ConjEast();
    TurnFromEast(EAST);
  }

  lemma AgreeingBlends(dir: Vec -> Vec, a: real, b: real, c: Vec)
    requires Directs(dir) && a > 0.0 && b > 0.0
    requires BlendValue(dir, a, b, EAST, c) == BlendValue(dir, a, b, NORTH, c) == BlendValue(dir, a, b, SOUTH, c)
    ensures c == ZERO
  {
    hide Directs, Unit, Dot, Rot, Scale, Add, Conj;
    var d := dir(Vec(a, b));
    EastBlendValue(dir, a, b, c);
    CompassBlends(a, b);
    MirroredDirection(dir, Vec(a, b));
    NorthValue(d, c);
    SouthValue(d, c);
    EastDot(c);
    ThreeTurns(d, c);
  }

  lemma EastDot(c: Vec)
    ensures Dot(EAST, c) == c.x
  {
  }

  // ---------- exactly when turns do not matter ----------

  /** What every turn keeps is what this turn keeps. */
  lemma InvariantValue(dir: Vec -> Vec, h: Vec, haveYaw: seq<bool>, samples: seq<Sample>, gt: Track, anchor: int)
    requires Directs(dir) && Unit(h) && |haveYaw| == |samples| > 0 && IsTrack(gt)
    requires FitTo(dir, samples, gt, anchor).Ok? && TurnInvariant(dir, haveYaw, samples, gt, anchor)
    ensures (var c := Correlated(samples, gt, anchor);
             TurnValue(dir, h, TurnedYaw(Motion(h, ZERO), haveYaw, samples, anchor), c)
             == TurnValue(dir, EAST, AnchorYaw(samples, anchor), c))
  {
    hide FitTo, TurnValue, TurnedYaw, AnchorYaw, Correlated, TurnSample, Directs, Unit;
    var m := Motion(h, ZERO);
    assert Unit(m.turn);
    FitTurns(dir, m, haveYaw, samples, gt, anchor);
  }

  lemma StuckBlend(dir: Vec -> Vec, k: Vec, haveYaw: seq<bool>, samples: seq<Sample>, gt: Track, anchor: int, a: real,
                   b: real, y: Vec)
    requires Directs(dir) && Unit(k) && samples != [] && IsTrack(gt) && YawsOk(haveYaw, samples)
    requires FitTo(dir, samples, gt, anchor).Ok? && TurnInvariant(dir, haveYaw, samples, gt, anchor)
    requires !AnchorHasYaw(haveYaw, samples, anchor) && StuckParts(haveYaw, samples, anchor, a, b, y)
    requires Unit(y) && a > 0.0 && b >= 0.0
    ensures (var c := Correlated(samples, gt, anchor);
             BlendValue(dir, a, b, k, Rot(y, c)) == TurnValue(dir, EAST, AnchorYaw(samples, anchor), c))
  {
    hide FitTo, TurnValue, AnchorYaw, Correlated, TurnSample, Directs, Unit, Rot, Conj, Dot, Add, Scale;
    hide AnchorHasYaw, StuckParts, TurnInvariant, Stuck;
    var h := Rot(k, Conj(y));
    ConjUnturns(y, EAST);
    UnitRot(k, Conj(y));
    InvariantValue(dir, h, haveYaw, samples, gt, anchor);
    StuckAt(Motion(h, ZERO), haveYaw, samples, anchor, a, b, y);
    StuckValue(dir, a, b, y, k, TurnedYaw(Motion(h, ZERO), haveYaw, samples, anchor), Correlated(samples, gt, anchor));
  }

  /** Where a yaw is missing at the anchor, turns matter unless nothing correlates. */
  lemma StuckUncorrelated(dir: Vec -> Vec, haveYaw: seq<bool>, samples: seq<Sample>, gt: Track, anchor: int)
    requires Directs(dir) && samples != [] && IsTrack(gt) && YawsOk(haveYaw, samples)
    requires FitTo(dir, samples, gt, anchor).Ok? && TurnInvariant(dir, haveYaw, samples, gt, anchor)
    requires !AnchorHasYaw(haveYaw, samples, anchor)
    ensures Correlated(samples, gt, anchor) == ZERO
  {
    hide FitTo, TurnValue, AnchorYaw, Correlated, TurnSample, Directs, Unit, Rot, BlendValue;
    hide AnchorHasYaw, StuckParts, TurnInvariant, Dot;
    var a, b, y := StuckAnchorYaw(haveYaw, samples, anchor);
    var c := Correlated(samples, gt, anchor);
    CompassUnit();
    StuckBlend(dir, EAST, haveYaw, samples, gt, anchor, a, b, y);
    StuckBlend(dir, NORTH, haveYaw, samples, gt, anchor, a, b, y);
    StuckBlend(dir, SOUTH, haveYaw, samples, gt, anchor, a, b, y);
    RotZero(y, c);
    if b > 0.0 {
      AgreeingBlends(dir, a, b, Rot(y, c));
    } else {
      FlatBlend(dir, a, EAST, Rot(y, c));
      FlatBlend(dir, a, NORTH, Rot(y, c));
      FlatBlend(dir, a, SOUTH, Rot(y, c));
      CompassDots(Rot(y, c));
    }
  }

  lemma FlatBlend(dir: Vec -> Vec, a: real, k: Vec, c: Vec)
    requires Directs(dir) && a > 0.0
    ensures BlendValue(dir, a, 0.0, k, c) == Dot(k, c)
  {
    hide Directs, Dot, Rot, Scale, Add, Conj, Unit;
    NoBlend(a, k);
    EastwardDirection(dir, Scale(a, EAST));
    ConjEast();
    TurnFromEast(k);
  }

  lemma NoBlend(a: real, k: Vec)
    ensures Add(Scale(a, EAST), Scale(0.0, k)) == Scale(a, EAST)
  {
  }

  lemma CompassDots(c: Vec)
    ensures Dot(EAST, c) == Dot(NORTH, c) == Dot(SOUTH, c) ==> c == ZERO
  {
  }

  /** Where the anchor yaw vanishes, turns matter unless nothing correlates. */
  lemma VanishedUncorrelated(dir: Vec -> Vec, haveYaw: seq<bool>, samples: seq<Sample>, gt: Track, anchor: int)
    requires Directs(dir) && samples != [] && IsTrack(gt) && YawsOk(haveYaw, samples)
    requires FitTo(dir, samples, gt, anchor).Ok? && TurnInvariant(dir, haveYaw, samples, gt, anchor)
    requires AnchorHasYaw(haveYaw, samples, anchor) && AnchorYaw(samples, anchor) == ZERO
    ensures Correlated(samples, gt, anchor) == ZERO
  {
    hide FitTo, TurnValue, AnchorYaw, Correlated, TurnSample, Directs, Unit, AnchorHasYaw, TurnInvariant, Dot;
    var c := Correlated(samples, gt, anchor);
    CompassUnit();
    VanishedValue(dir, EAST, haveYaw, samples, gt, anchor);
    VanishedValue(dir, NORTH, haveYaw, samples, gt, anchor);
    VanishedValue(dir, SOUTH, haveYaw, samples, gt, anchor);
    CompassDots(c);
  }

  lemma VanishedValue(dir: Vec -> Vec, k: Vec, haveYaw: seq<bool>, samples: seq<Sample>, gt: Track, anchor: int)
    requires Directs(dir) && Unit(k) && samples != [] && IsTrack(gt) && YawsOk(haveYaw, samples)
    requires FitTo(dir, samples, gt, anchor).Ok? && TurnInvariant(dir, haveYaw, samples, gt, anchor)
    requires AnchorHasYaw(haveYaw, samples, anchor) && AnchorYaw(samples, anchor) == ZERO
    ensures (var c := Correlated(samples, gt, anchor);
             Dot(k, c) == TurnValue(dir, EAST, AnchorYaw(samples, anchor), c))
  {
    hide FitTo, TurnValue, AnchorYaw, Correlated, TurnSample, Directs, Unit, AnchorHasYaw, TurnInvariant, Dot, Rot;
    InvariantValue(dir, k, haveYaw, samples, gt, anchor);
    TurnedAnchorYaw(Motion(k, ZERO), haveYaw, samples, anchor);
    RotEast(k);
    UnyawedValue(dir, k, ZERO, Correlated(samples, gt, anchor));
  }

  /** Turning the executed poses never changes the fit exactly when the fit fails anyway, or the anchor yaw is
      nonzero and made of defined yaws, or the executed offsets and the ground truth do not correlate. */
  lemma TurnInvariantIff(dir: Vec -> Vec, haveYaw: seq<bool>, samples: seq<Sample>, gt: Track, anchor: int)
    requires Directs(dir) && samples != [] && IsTrack(gt) && YawsOk(haveYaw, samples)
    ensures TurnInvariant(dir, haveYaw, samples, gt, anchor) <==>
              || FitTo(dir, samples, gt, anchor).Err?
              || (AnchorHasYaw(haveYaw, samples, anchor) && AnchorYaw(samples, anchor) != ZERO)
              || Correlated(samples, gt, anchor) == ZERO
  {
    hide FitTo, TurnValue, AnchorYaw, Correlated, TurnSample, Directs, Unit, AnchorHasYaw, Dot;
    var c := Correlated(samples, gt, anchor);
    if FitTo(dir, samples, gt, anchor).Ok? && TurnInvariant(dir, haveYaw, samples, gt, anchor) {
      if !AnchorHasYaw(haveYaw, samples, anchor) {
        StuckUncorrelated(dir, haveYaw, samples, gt, anchor);
      } else if AnchorYaw(samples, anchor) == ZERO {
        VanishedUncorrelated(dir, haveYaw, samples, gt, anchor);
      }
    }
    forall m: Motion | Unit(m.turn)
      ensures || FitTo(dir, samples, gt, anchor).Err?
              || (AnchorHasYaw(haveYaw, samples, anchor) && AnchorYaw(samples, anchor) != ZERO)
              || c == ZERO
              ==> FitTo(dir, TurnSamples(m, haveYaw, samples), gt, anchor) == FitTo(dir, samples, gt, anchor)
    {
      FitTurns(dir, m, haveYaw, samples, gt, anchor);
      if AnchorHasYaw(haveYaw, samples, anchor) && AnchorYaw(samples, anchor) != ZERO {
        DirectedFit(dir, m, haveYaw, samples, gt, anchor);
      } else if c == ZERO {
        NothingCorrelates(dir, m.turn, TurnedYaw(m, haveYaw, samples, anchor));
        NothingCorrelates(dir, EAST, AnchorYaw(samples, anchor));
      }
    }
  }

  // ---------- the reward ----------

  lemma SampledYaws(dir: Vec -> Vec, poses: seq<EgoPose>)
    requires Directs(dir)
    ensures YawsOk(HaveYaw(poses), Samples(dir, poses))
  {
    hide Directs, Unit, Forward;
    forall i | 0 <= i < |poses|
      ensures Unit(Samples(dir, poses)[i].yaw) && (!HasYaw(poses[i]) ==> Samples(dir, poses)[i].yaw == EAST)
    {
      SampledYaw(dir, poses[i]);
    }
  }

  lemma SampledYaw(dir: Vec -> Vec, pose: EgoPose)
    requires Directs(dir)
    ensures Unit(SampleOf(dir, pose).yaw) && (!HasYaw(pose) ==> SampleOf(dir, pose).yaw == EAST)
  {
    assert IsDirection(Forward(pose.quat), dir(Forward(pose.quat)));
  }

  /** The fit of these poses does not depend on how they are turned. */
  ghost predicate Anchored(dir: Vec -> Vec, executed: seq<EgoPose>, truth: GroundTruth)
    requires executed != [] && truth.poses != []
  {
    var samples, gt := Samples(dir, executed), GtTrack(truth.poses);
    || (AnchorHasYaw(HaveYaw(executed), samples, truth.time) && AnchorYaw(samples, truth.time) != ZERO)
    || Correlated(samples, gt, truth.time) == ZERO
  }

  /** The reward of turned poses, as far as its checks of time and number pass, is that of the turned samples' fit. */
  lemma RewardOfTurned(dir: Vec -> Vec, root: real -> real, executed: seq<EgoPose>, truth: GroundTruth,
                       distanceScale: real, c: real, s: real, shift: Vec)
    requires Directs(dir) && c * c + s * s == 1.0 && AllUnit(executed) && |executed| >= 2 && |truth.poses| >= 2
    requires Increasing(TimesOf(Samples(dir, executed)))
    ensures (var m := Motion(FullTurn(c, s), shift);
             var fit := FitTo(dir, TurnSamples(m, HaveYaw(executed), Samples(dir, executed)), GtTrack(truth.poses),
                              truth.time);
             ComputeReward(dir, root, TurnPoses(c, s, shift, executed), Some(truth), distanceScale)
             == RewardOf(root, fit, truth.time, distanceScale))
  {
    hide RewardOf, FitTo, FullTurn, TurnPose, TurnSample, SampleOf, HasYaw, Directs;
    SamplesTurn(dir, c, s, shift, executed);
    TurnedTimes(Motion(FullTurn(c, s), shift), HaveYaw(executed), Samples(dir, executed));
  }

  /** The checks of time and number do not see turns. */
  lemma ChecksIgnoreTurns(dir: Vec -> Vec, root: real -> real, executed: seq<EgoPose>, truth: Option<GroundTruth>,
                          distanceScale: real, c: real, s: real, shift: Vec)
    requires Directs(dir) && c * c + s * s == 1.0 && AllUnit(executed)
    requires truth.Some? && |executed| >= 2 && |truth.value.poses| >= 2 ==>
               !Increasing(TimesOf(Samples(dir, executed)))
    ensures ComputeReward(dir, root, TurnPoses(c, s, shift, executed), truth, distanceScale)
            == ComputeReward(dir, root, executed, truth, distanceScale)
  {
    hide RewardOf, FitTo, FullTurn, TurnPose, TurnSample, SampleOf, HasYaw, Directs;
    SamplesTurn(dir, c, s, shift, executed);
    TurnedTimes(Motion(FullTurn(c, s), shift), HaveYaw(executed), Samples(dir, executed));
  }

  /** Turning the executed poses about the vertical and shifting them, quaternions and all, leaves the whole result:
      its value, or its error. */
  lemma RewardMoves(dir: Vec -> Vec, root: real -> real, executed: seq<EgoPose>, truth: Option<GroundTruth>,
                    distanceScale: real, c: real, s: real, shift: Vec)
    requires Directs(dir) && c * c + s * s == 1.0 && AllUnit(executed)
    requires ComputeReward(dir, root, executed, truth, distanceScale).Ok? ==> Anchored(dir, executed, truth.value)
    ensures ComputeReward(dir, root, TurnPoses(c, s, shift, executed), truth, distanceScale)
            == ComputeReward(dir, root, executed, truth, distanceScale)
  {
    hide FitTo, FullTurn, TurnPose, TurnSample, SampleOf, HasYaw, AnchorYaw, Directs, Unit, Correlated, TurnPoses;
    var samples := Samples(dir, executed);
    if truth.Some? && |executed| >= 2 && |truth.value.poses| >= 2 && Increasing(TimesOf(samples)) {
      var m, gt := Motion(FullTurn(c, s), shift), GtTrack(truth.value.poses);
      FullTurnUnit(c, s);
      SampledYaws(dir, executed);
      RewardOfTurned(dir, root, executed, truth.value, distanceScale, c, s, shift);
      TurnInvariantIff(dir, HaveYaw(executed), samples, gt, truth.value.time);
      assert FitTo(dir, TurnSamples(m, HaveYaw(executed), samples), gt, truth.value.time)
          == FitTo(dir, samples, gt, truth.value.time);
    } else {
      ChecksIgnoreTurns(dir, root, executed, truth, distanceScale, c, s, shift);
    }
  }

  /** No turn and shift of the executed poses changes the reward. */
  ghost predicate RewardInvariant(dir: Vec -> Vec, root: real -> real, executed: seq<EgoPose>,
                                  truth: Option<GroundTruth>, distanceScale: real)
  {
    forall c: real, s: real, shift: Vec :: c * c + s * s == 1.0 ==>
      ComputeReward(dir, root, TurnPoses(c, s, shift, executed), truth, distanceScale)
      == ComputeReward(dir, root, executed, truth, distanceScale)
  }

  /** `half` plays the part of halving an angle. */
  ghost predicate Halves(half: Vec -> Vec) {
    forall h :: Unit(h) ==> Unit(half(h)) && FullTurn(half(h).x, half(h).y) == h
  }

  /** `root` tells errors apart. */
  ghost predicate Separates(root: real -> real) {
    forall a: real, b: real :: a >= 0.0 && b >= 0.0 && root(a) == root(b) ==> a == b
  }

  lemma HalfTurn(half: Vec -> Vec, h: Vec)
    requires Halves(half) && Unit(h)
    ensures half(h).x * half(h).x + half(h).y * half(h).y == 1.0 && FullTurn(half(h).x, half(h).y) == h
  {
    hide FullTurn;
  }

  lemma FitNonnegative(dir: Vec -> Vec, samples: seq<Sample>, gt: Track, anchor: int)
    requires samples != [] && IsTrack(gt)
    ensures FitTo(dir, samples, gt, anchor).Ok? ==> FitTo(dir, samples, gt, anchor).value.mse >= 0.0
  {
    hide FitTo;
    if FitTo(dir, samples, gt, anchor).Ok? {
      ZeroIffOnTruth(dir, samples, gt, anchor);
    }
  }

  lemma SameRewardSameFit(root: real -> real, a: Result<Fit>, b: Result<Fit>, anchor: int, distanceScale: real)
    requires Separates(root) && b.Ok? && b.value.mse >= 0.0 && (a.Ok? ==> a.value.mse >= 0.0)
    requires RewardOf(root, a, anchor, distanceScale) == RewardOf(root, b, anchor, distanceScale)
    ensures a == b
  {
    assert a.Ok?;
    assert root(a.value.mse) == root(b.value.mse);
  }

  /** An invariant reward comes from an invariant fit. */
  lemma RewardTellsFit(dir: Vec -> Vec, root: real -> real, half: Vec -> Vec, executed: seq<EgoPose>,
                       truth: GroundTruth, distanceScale: real, m: Motion)
    requires Directs(dir) && Halves(half) && Separates(root) && AllUnit(executed) && Unit(m.turn)
    requires ComputeReward(dir, root, executed, Some(truth), distanceScale).Ok?
    requires RewardInvariant(dir, root, executed, Some(truth), distanceScale)
    ensures FitTo(dir, TurnSamples(m, HaveYaw(executed), Samples(dir, executed)), GtTrack(truth.poses), truth.time)
            == FitTo(dir, Samples(dir, executed), GtTrack(truth.poses), truth.time)
  {
    hide FitTo, FullTurn, TurnSample, SampleOf, HasYaw, Directs, Halves, Unit, Separates, RewardOf, TurnPoses, UnitQuat;
    var samples, gt, v := Samples(dir, executed), GtTrack(truth.poses), half(m.turn);
    var turned := TurnSamples(m, HaveYaw(executed), samples);
    HalfTurn(half, m.turn);
    assert m == Motion(FullTurn(v.x, v.y), m.shift);
    CheckedReward(dir, root, executed, truth, distanceScale);
    RewardOfTurned(dir, root, executed, truth, distanceScale, v.x, v.y, m.shift);
    FitNonnegative(dir, samples, gt, truth.time);
    FitNonnegative(dir, turned, gt, truth.time);
    SameRewardSameFit(root, FitTo(dir, turned, gt, truth.time), FitTo(dir, samples, gt, truth.time), truth.time,
                      distanceScale);
  }

  lemma CheckedReward(dir: Vec -> Vec, root: real -> real, executed: seq<EgoPose>, truth: GroundTruth,
                      distanceScale: real)
    requires ComputeReward(dir, root, executed, Some(truth), distanceScale).Ok?
    ensures |executed| >= 2 && |truth.poses| >= 2 && Increasing(TimesOf(Samples(dir, executed)))
    ensures (var fit := FitTo(dir, Samples(dir, executed), GtTrack(truth.poses), truth.time);
             && fit.Ok?
             && ComputeReward(dir, root, executed, Some(truth), distanceScale)
                == RewardOf(root, fit, truth.time, distanceScale))
  {
    hide FitTo, SampleOf;
  }

  /** No turn and shift of the executed poses ever changes the reward exactly when it fails anyway, or the yaw it
      anchors the ground truth with is nonzero and made of defined yaws, or the executed offsets and the ground truth do
      not correlate. */
  lemma RewardInvariantIff(dir: Vec -> Vec, root: real -> real, half: Vec -> Vec, executed: seq<EgoPose>,
                           truth: Option<GroundTruth>, distanceScale: real)
    requires Directs(dir) && Halves(half) && Separates(root) && AllUnit(executed)
    ensures RewardInvariant(dir, root, executed, truth, distanceScale) <==>
              || ComputeReward(dir, root, executed, truth, distanceScale).Err?
              || Anchored(dir, executed, truth.value)
  {
    hide FitTo, AnchorYaw, Correlated, TurnSample, Directs, Unit, AnchorHasYaw, Halves, Separates, TurnPoses, SampleOf;
    hide RewardOf, UnitQuat;
    var reward := ComputeReward(dir, root, executed, truth, distanceScale);
    if reward.Ok? && RewardInvariant(dir, root, executed, truth, distanceScale) {
      var samples, gt := Samples(dir, executed), GtTrack(truth.value.poses);
      SampledYaws(dir, executed);
      CheckedReward(dir, root, executed, truth.value, distanceScale);
      forall m: Motion | Unit(m.turn)
        ensures FitTo(dir, TurnSamples(m, HaveYaw(executed), samples), gt, truth.value.time)
                == FitTo(dir, samples, gt, truth.value.time)
      {
        RewardTellsFit(dir, root, half, executed, truth.value, distanceScale, m);
      }
      TurnInvariantIff(dir, HaveYaw(executed), samples, gt, truth.value.time);
    }
    if reward.Err? || Anchored(dir, executed, truth.value) {
      forall c: real, s: real, shift: Vec | c * c + s * s == 1.0
        ensures ComputeReward(dir, root, TurnPoses(c, s, shift, executed), truth, distanceScale) == reward
      {
        RewardMoves(dir, root, executed, truth, distanceScale, c, s, shift);
      }
    }
  }
}
