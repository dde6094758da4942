/** The distance-to-ground-truth reward: interpolate the executed pose at the anchor time, place the rig-frame ground
    truth there, and average squared distances over the executed points inside the ground-truth span. */
module DistanceToGt {
  import opened Plane
  import opened RealSums
  import opened Sorting
  import opened Wrappers

  datatype Quaternion = Quaternion(w: real, x: real, y: real, z: real)

  datatype EgoPose = EgoPose(time: int, pos: Vec, quat: Quaternion)

  datatype GroundTruth = GroundTruth(poses: seq<EgoPose>, time: int)

  datatype Reward = Reward(total: real, rmse: real, numPaired: nat, anchor: int)

  /** The two arguments `arctan2` gets for the yaw of a pose. */
  function Forward(q: Quaternion): Vec {
    Vec(1.0 - 2.0 * (q.y * q.y + q.z * q.z), 2.0 * (q.w * q.z + q.x * q.y))
  }

  // ---------- interpolation ----------

  function Xs(vs: seq<Vec>): (r: seq<real>)
    ensures |r| == |vs| && forall i :: 0 <= i < |vs| ==> r[i] == vs[i].x
  {
    seq(|vs|, i requires 0 <= i < |vs| => vs[i].x)
  }

  function Ys(vs: seq<Vec>): (r: seq<real>)
    ensures |r| == |vs| && forall i :: 0 <= i < |vs| ==> r[i] == vs[i].y
  {
    seq(|vs|, i requires 0 <= i < |vs| => vs[i].y)
  }

  /** The last sample at or before `q`. */
  function Segment(ts: seq<int>, q: int): (j: nat)
    requires ts != [] && ts[0] <= q
    ensures j < |ts| && ts[j] <= q && forall i :: j < i < |ts| ==> q < ts[i]
  {
    var last := |ts| - 1;
    if ts[last] <= q then last
    else
      assert forall i :: 0 <= i < last ==> ts[..last][i] == ts[i];
      Segment(ts[..last], q)
  }

  function Interp(q: int, ts: seq<int>, ys: seq<real>): real
    requires |ts| == |ys| > 0
  {
    if q < ts[0] then ys[0]
    else
      var j := Segment(ts, q);
      if j == |ts| - 1 then ys[j]
      else (ys[j + 1] - ys[j]) / (ts[j + 1] - ts[j]) as real * (q - ts[j]) as real + ys[j]
  }

  function InterpVec(q: int, ts: seq<int>, vs: seq<Vec>): Vec
    requires |ts| == |vs| > 0
  {
    Vec(Interp(q, ts, Xs(vs)), Interp(q, ts, Ys(vs)))
  }

  // ---------- the reward ----------

  datatype Sample = Sample(time: int, pos: Vec, yaw: Vec)

  function SampleOf(dir: Vec -> Vec, pose: EgoPose): Sample {
    Sample(pose.time, pose.pos, dir(Forward(pose.quat)))
  }

  function Samples(dir: Vec -> Vec, poses: seq<EgoPose>): (r: seq<Sample>)
    ensures |r| == |poses|
  {
    seq(|poses|, i requires 0 <= i < |poses| => SampleOf(dir, poses[i]))
  }

  function TimesOf(samples: seq<Sample>): (r: seq<int>)
    ensures |r| == |samples| && forall i :: 0 <= i < |r| ==> r[i] == samples[i].time
  {
    seq(|samples|, i requires 0 <= i < |samples| => samples[i].time)
  }

  function Positions(samples: seq<Sample>): (r: seq<Vec>)
    ensures |r| == |samples| && forall i :: 0 <= i < |r| ==> r[i] == samples[i].pos
  {
    seq(|samples|, i requires 0 <= i < |samples| => samples[i].pos)
  }

  function Yaws(samples: seq<Sample>): (r: seq<Vec>)
    ensures |r| == |samples| && forall i :: 0 <= i < |r| ==> r[i] == samples[i].yaw
  {
    seq(|samples|, i requires 0 <= i < |samples| => samples[i].yaw)
  }

  predicate Increasing(ts: seq<int>) {
    forall i :: 0 <= i < |ts| - 1 ==> ts[i] < ts[i + 1]
  }

  /** Times and rig-frame positions of the ground truth, sorted by time. */
  datatype Track = Track(ts: seq<int>, xy: seq<Vec>)

  predicate IsTrack(track: Track) {
    |track.ts| == |track.xy| > 0
  }

  function PoseTimes(poses: seq<EgoPose>): (r: seq<int>)
    ensures |r| == |poses| && forall i :: 0 <= i < |r| ==> r[i] == poses[i].time
  {
    seq(|poses|, i requires 0 <= i < |poses| => poses[i].time)
  }

  function GtTrack(poses: seq<EgoPose>): (r: Track)
    requires poses != []
    ensures IsTrack(r)
  {
    var keys := PoseTimes(poses);
    var order := StableArgsort(keys);
    Track(seq(|poses|, i requires 0 <= i < |poses| => keys[order[i]]),
          seq(|poses|, i requires 0 <= i < |poses| => poses[order[i]].pos))
  }

  /** A turn about the origin followed by a shift. */
  datatype Motion = Motion(turn: Vec, shift: Vec)

  function Move(m: Motion, v: Vec): Vec {
    Add(Rot(m.turn, v), m.shift)
  }

  function MoveAll(m: Motion, vs: seq<Vec>): (r: seq<Vec>)
    ensures |r| == |vs| && forall i :: 0 <= i < |vs| ==> r[i] == Move(m, vs[i])
  {
    seq(|vs|, i requires 0 <= i < |vs| => Move(m, vs[i]))
  }

  /** The samples inside the closed span. */
  function InSpan(samples: seq<Sample>, low: int, high: int): (r: seq<Sample>) {
    if samples == [] then []
    else
      var rest := InSpan(samples[1..], low, high);
      if low <= samples[0].time <= high then [samples[0]] + rest else rest
  }

  function SquaredError(sample: Sample, ts: seq<int>, xy: seq<Vec>): real
    requires |ts| == |xy| > 0
  {
    NormSq(Sub(sample.pos, InterpVec(sample.time, ts, xy)))
  }

  function SquaredErrors(paired: seq<Sample>, ts: seq<int>, xy: seq<Vec>): int -> real
    requires |ts| == |xy| > 0
  {
    (i: int) => if 0 <= i < |paired| then SquaredError(paired[i], ts, xy) else 0.0
  }

  datatype Fit = Fit(mse: real, numPaired: nat)

  /** The interpolated yaw vector at the anchor, before its direction is taken. */
  function AnchorYaw(samples: seq<Sample>, anchor: int): Vec
    requires samples != []
  {
    InterpVec(anchor, TimesOf(samples), Yaws(samples))
  }

  function AnchorPos(samples: seq<Sample>, anchor: int): Vec
    requires samples != []
  {
    InterpVec(anchor, TimesOf(samples), Positions(samples))
  }

  /** The motion from the rig frame at the anchor to the executed trajectory's frame. */
  function Anchor(dir: Vec -> Vec, samples: seq<Sample>, anchor: int): Motion
    requires samples != []
  {
    Motion(dir(AnchorYaw(samples, anchor)), AnchorPos(samples, anchor))
  }

  function TotalError(dir: Vec -> Vec, samples: seq<Sample>, gt: Track, anchor: int, paired: seq<Sample>): real
    requires samples != [] && IsTrack(gt)
  {
    Sum(|paired|, SquaredErrors(paired, gt.ts, MoveAll(Anchor(dir, samples, anchor), gt.xy)))
  }

  function Paired(samples: seq<Sample>, gt: Track): seq<Sample>
    requires IsTrack(gt)
  {
    InSpan(samples, gt.ts[0], gt.ts[|gt.ts| - 1])
  }

  function FitTo(dir: Vec -> Vec, samples: seq<Sample>, gt: Track, anchor: int): Result<Fit>
    requires samples != [] && IsTrack(gt)
  {
    if anchor < samples[0].time || anchor > samples[|samples| - 1].time then
      Err("GT anchor timestamp is outside the executed trajectory range")
    else
      var paired := Paired(samples, gt);
      if paired == [] then Err("found no executed points inside the GT span")
      else Ok(Fit(TotalError(dir, samples, gt, anchor, paired) / |paired| as real, |paired|))
  }

  /** `root` plays the part of the square root. */
  function RewardOf(root: real -> real, fit: Result<Fit>, anchor: int, distanceScale: real): Result<Reward> {
    if fit.Err? then Err(fit.message)
    else
      var rmse := root(fit.value.mse);
      Ok(Reward(distanceScale * rmse, rmse, fit.value.numPaired, anchor))
  }

  function ComputeReward(dir: Vec -> Vec, root: real -> real, executed: seq<EgoPose>, truth: Option<GroundTruth>,
                         distanceScale: real): Result<Reward>
  {
    if truth.None? then Err("requires ground_truth")
    else if |executed| < 2 then Err("requires at least two executed ego poses")
    else if |truth.value.poses| < 2 then Err("requires at least two ground-truth ego poses")
    else if !Increasing(TimesOf(Samples(dir, executed))) then Err("requires strictly increasing executed timestamps")
    else
      var fit := FitTo(dir, Samples(dir, executed), GtTrack(truth.value.poses), truth.value.time);
      RewardOf(root, fit, truth.value.time, distanceScale)
  }

  // ---------- interpolation commutes with motions ----------

  /** How far `q` is from sample j towards the next. */
  function Fraction(q: int, ts: seq<int>, j: nat): real
    requires j + 1 < |ts| && ts[j] < ts[j + 1]
  {
    (q - ts[j]) as real / (ts[j + 1] - ts[j]) as real
  }

  lemma SlopeIsFraction(a: real, b: real, d: real, e: real)
    requires d > 0.0
    ensures (b - a) / d * e + a == a + e / d * (b - a)
  {
    assert (b - a) / d * e == e / d * (b - a);
  }

  lemma InterpInside(q: int, ts: seq<int>, vs: seq<Vec>)
    requires |ts| == |vs| > 0 && ts[0] <= q && Segment(ts, q) + 1 < |ts|
    ensures (var j := Segment(ts, q);
             InterpVec(q, ts, vs) == Add(vs[j], Scale(Fraction(q, ts, j), Sub(vs[j + 1], vs[j]))))
  {
    var j := Segment(ts, q);
    var d, e := (ts[j + 1] - ts[j]) as real, (q - ts[j]) as real;
    SlopeIsFraction(vs[j].x, vs[j + 1].x, d, e);
    SlopeIsFraction(vs[j].y, vs[j + 1].y, d, e);
  }

  lemma InterpOutside(q: int, ts: seq<int>, vs: seq<Vec>)
    requires |ts| == |vs| > 0 && (q < ts[0] || Segment(ts, q) + 1 == |ts|)
    ensures InterpVec(q, ts, vs) == vs[if q < ts[0] then 0 else |ts| - 1]
  {
  }

  lemma MoveBlend(m: Motion, c: real, u: Vec, v: Vec)
    ensures Move(m, Add(u, Scale(c, Sub(v, u)))) == Add(Move(m, u), Scale(c, Sub(Move(m, v), Move(m, u))))
  {
    RotAdd(m.turn, u, Scale(c, Sub(v, u)));
    RotScale(m.turn, c, Sub(v, u));
    RotAdd(m.turn, v, u);
    hide Rot, Scale;
    assert Sub(Move(m, v), Move(m, u)) == Sub(Rot(m.turn, v), Rot(m.turn, u));
  }

  /** Interpolating moved points is moving the interpolated point. */
  lemma InterpMoves(m: Motion, q: int, ts: seq<int>, vs: seq<Vec>)
    requires |ts| == |vs| > 0
    ensures InterpVec(q, ts, MoveAll(m, vs)) == Move(m, InterpVec(q, ts, vs))
  {
    hide InterpVec, Move, Add, Sub, Scale;
    var moved := MoveAll(m, vs);
    if q < ts[0] || Segment(ts, q) + 1 == |ts| {
      InterpOutside(q, ts, vs);
      InterpOutside(q, ts, moved);
    } else {
      var j := Segment(ts, q);
      InterpInside(q, ts, vs);
      InterpInside(q, ts, moved);
      MoveBlend(m, Fraction(q, ts, j), vs[j], vs[j + 1]);
    }
  }

  /** Interpolation returns every sample at its own time. */
  lemma InterpAtSample(ts: seq<int>, ys: seq<real>, k: nat)
    requires |ts| == |ys| && k < |ts| && forall i, j :: 0 <= i < j < |ts| ==> ts[i] < ts[j]
    ensures Interp(ts[k], ts, ys) == ys[k]
  {
    assert Segment(ts, ts[k]) == k;
  }

  lemma SlopeOfLine(b: real, d: real)
    requires d != 0.0
    ensures b * d / d == b
  {
  }

  /** Interpolation reproduces straight lines between the first and the last sample. */
  lemma InterpStraight(q: int, ts: seq<int>, ys: seq<real>, a: real, b: real)
    requires |ts| == |ys| > 0 && ts[0] <= q <= ts[|ts| - 1]
    requires forall i :: 0 <= i < |ts| ==> ys[i] == a + b * ts[i] as real
    ensures Interp(q, ts, ys) == a + b * q as real
  {
    var j := Segment(ts, q);
    if j + 1 < |ts| {
      var d := (ts[j + 1] - ts[j]) as real;
      assert ys[j + 1] - ys[j] == b * d;
      SlopeOfLine(b, d);
      assert b * (q - ts[j]) as real == b * q as real - b * ts[j] as real;
    }
  }

  // ---------- rigid motions of the executed trajectory ----------

  function MoveSample(m: Motion, s: Sample): Sample {
    Sample(s.time, Move(m, s.pos), Rot(m.turn, s.yaw))
  }

  function MoveSamples(m: Motion, samples: seq<Sample>): (r: seq<Sample>)
    ensures |r| == |samples| && forall i :: 0 <= i < |r| ==> r[i] == MoveSample(m, samples[i])
  {
    seq(|samples|, i requires 0 <= i < |samples| => MoveSample(m, samples[i]))
  }

  lemma {:induction false} InSpanMoves(m: Motion, samples: seq<Sample>, low: int, high: int)
    ensures InSpan(MoveSamples(m, samples), low, high) == MoveSamples(m, InSpan(samples, low, high))
  {
    hide Move, Rot;
    if samples != [] {
      InSpanMoves(m, samples[1..], low, high);
      assert MoveSamples(m, samples)[1..] == MoveSamples(m, samples[1..]);
    }
  }

  lemma AnchorMoves(m: Motion, samples: seq<Sample>, anchor: int)
    requires samples != []
    ensures AnchorPos(MoveSamples(m, samples), anchor) == Move(m, AnchorPos(samples, anchor))
    ensures AnchorYaw(MoveSamples(m, samples), anchor) == Rot(m.turn, AnchorYaw(samples, anchor))
  {
    var moved := MoveSamples(m, samples);
    var about := Motion(m.turn, ZERO);
    hide Rot, InterpVec;
    assert TimesOf(moved) == TimesOf(samples);
    assert Positions(moved) == MoveAll(m, Positions(samples));
    assert Yaws(moved) == MoveAll(about, Yaws(samples));
    InterpMoves(m, anchor, TimesOf(samples), Positions(samples));
    InterpMoves(about, anchor, TimesOf(samples), Yaws(samples));
  }

  /** Placing the ground truth before or after interpolating it is the same. */
  lemma ErrorOfPlaced(sample: Sample, gt: Track, a: Motion)
    requires IsTrack(gt)
    ensures SquaredError(sample, gt.ts, MoveAll(a, gt.xy))
            == NormSq(Sub(sample.pos, Move(a, InterpVec(sample.time, gt.ts, gt.xy))))
  {
    hide Move, InterpVec, NormSq;
    InterpMoves(a, sample.time, gt.ts, gt.xy);
  }

  function MoveMotion(m: Motion, a: Motion): Motion {
    Motion(Rot(m.turn, a.turn), Move(m, a.shift))
  }

  lemma MoveTwice(m: Motion, a: Motion, v: Vec)
    ensures Move(MoveMotion(m, a), v) == Move(m, Move(a, v))
  {
    hide Rot;
    RotRot(m.turn, a.turn, v);
    RotAdd(m.turn, Rot(a.turn, v), a.shift);
  }

  /** Moving a point and its target together keeps their distance. */
  lemma MovedDistance(m: Motion, u: Vec, v: Vec)
    requires Unit(m.turn)
    ensures NormSq(Sub(Move(m, u), Move(m, v))) == NormSq(Sub(u, v))
  {
    hide Rot, NormSq;
    RotAdd(m.turn, u, v);
    assert Sub(Move(m, u), Move(m, v)) == Rot(m.turn, Sub(u, v));
    NormSqTurned(m.turn, Sub(u, v));
  }

  lemma ErrorMoves(m: Motion, sample: Sample, gt: Track, a: Motion)
    requires IsTrack(gt) && Unit(m.turn)
    ensures SquaredError(MoveSample(m, sample), gt.ts, MoveAll(MoveMotion(m, a), gt.xy))
            == SquaredError(sample, gt.ts, MoveAll(a, gt.xy))
  {
    hide Move, MoveMotion, NormSq, SquaredError, InterpVec;
    var g := InterpVec(sample.time, gt.ts, gt.xy);
    ErrorOfPlaced(sample, gt, a);
    ErrorOfPlaced(MoveSample(m, sample), gt, MoveMotion(m, a));
    MoveTwice(m, a, g);
    MovedDistance(m, sample.pos, Move(a, g));
  }

  lemma TotalMoves(dir: Vec -> Vec, m: Motion, samples: seq<Sample>, gt: Track, anchor: int, paired: seq<Sample>)
    requires Directs(dir) && Unit(m.turn) && samples != [] && IsTrack(gt) && AnchorYaw(samples, anchor) != ZERO
    ensures TotalError(dir, MoveSamples(m, samples), gt, anchor, MoveSamples(m, paired))
            == TotalError(dir, samples, gt, anchor, paired)
  {
    hide Move, Rot, AnchorYaw, AnchorPos, SquaredError, Directs, NormSq;
    var a := Anchor(dir, samples, anchor);
    AnchorMoves(m, samples, anchor);
    DirectionTurns(dir, m.turn, AnchorYaw(samples, anchor));
    assert Anchor(dir, MoveSamples(m, samples), anchor) == MoveMotion(m, a);
    var f := SquaredErrors(paired, gt.ts, MoveAll(a, gt.xy));
    var g := SquaredErrors(MoveSamples(m, paired), gt.ts, MoveAll(MoveMotion(m, a), gt.xy));
    forall i | 0 <= i < |paired|
      ensures f(i) == g(i)
    {
      ErrorMoves(m, paired[i], gt, a);
    }
    SumEq(|paired|, f, g);
  }

  /** One rigid motion of all executed positions and yaws leaves the fit alone, errors included, provided the
      interpolated yaw at the anchor has a direction. */
  lemma FitMoves(dir: Vec -> Vec, m: Motion, samples: seq<Sample>, gt: Track, anchor: int)
    requires Directs(dir) && Unit(m.turn) && samples != [] && IsTrack(gt) && AnchorYaw(samples, anchor) != ZERO
    ensures FitTo(dir, MoveSamples(m, samples), gt, anchor) == FitTo(dir, samples, gt, anchor)
  {
    hide Move, Rot, AnchorYaw, TotalError, InSpan;
    InSpanMoves(m, samples, gt.ts[0], gt.ts[|gt.ts| - 1]);
    TotalMoves(dir, m, samples, gt, anchor, Paired(samples, gt));
  }

  // ---------- without an anchor direction ----------

  function Cross(u: Vec, g: Vec): Vec {
    Vec(u.x * g.x + u.y * g.y, u.x * g.y - u.y * g.x)
  }

  function Dot(u: Vec, v: Vec): real {
    u.x * v.x + u.y * v.y
  }

  lemma SquareOfDifference(a: real, b: real)
    ensures Square(a - b) == Square(a) + Square(b) - 2.0 * (a * b)
  {
  }

  lemma ErrorOfTurned(h: Vec, u: Vec, g: Vec)
    requires Unit(h)
    ensures NormSq(Sub(Rot(h, u), g)) == NormSq(u) + NormSq(g) - 2.0 * Dot(h, Cross(u, g))
  {
    var r := Rot(h, u);
    NormSqTurned(h, u);
    SquareOfDifference(r.x, g.x);
    SquareOfDifference(r.y, g.y);
    DotOfTurned(h, u, g);
    hide Rot, Square, Cross;
  }

  lemma DotOfTurned(h: Vec, u: Vec, g: Vec)
    ensures Dot(Rot(h, u), g) == Dot(h, Cross(u, g))
  {
    assert (h.x * u.x - h.y * u.y) * g.x == h.x * (u.x * g.x) - h.y * (u.y * g.x);
    assert (h.y * u.x + h.x * u.y) * g.y == h.y * (u.x * g.y) + h.x * (u.y * g.y);
    assert h.x * (u.x * g.x + u.y * g.y) == h.x * (u.x * g.x) + h.x * (u.y * g.y);
    assert h.y * (u.x * g.y - u.y * g.x) == h.y * (u.x * g.y) - h.y * (u.y * g.x);
  }

  /** How the executed offset from the anchor and the ground truth turn against each other at one sample. */
  function Against(sample: Sample, gt: Track, a: Vec): Vec
    requires IsTrack(gt)
  {
    Cross(Sub(sample.pos, a), InterpVec(sample.time, gt.ts, gt.xy))
  }

  function AgainstX(paired: seq<Sample>, gt: Track, a: Vec): int -> real
    requires IsTrack(gt)
  {
    (i: int) => if 0 <= i < |paired| then Against(paired[i], gt, a).x else 0.0
  }

  function AgainstY(paired: seq<Sample>, gt: Track, a: Vec): int -> real
    requires IsTrack(gt)
  {
    (i: int) => if 0 <= i < |paired| then Against(paired[i], gt, a).y else 0.0
  }

  function Correlation(paired: seq<Sample>, gt: Track, a: Vec): Vec
    requires IsTrack(gt)
  {
    Vec(Sum(|paired|, AgainstX(paired, gt, a)), Sum(|paired|, AgainstY(paired, gt, a)))
  }

  /** The part of the error no turn changes. */
  function Spans(paired: seq<Sample>, gt: Track, a: Vec): int -> real
    requires IsTrack(gt)
  {
    (i: int) => if 0 <= i < |paired|
                then NormSq(Sub(paired[i].pos, a)) + NormSq(InterpVec(paired[i].time, gt.ts, gt.xy)) else 0.0
  }

  function MovedErrors(m: Motion, paired: seq<Sample>, gt: Track, a: Vec): int -> real
    requires IsTrack(gt)
  {
    SquaredErrors(MoveSamples(m, paired), gt.ts, MoveAll(Motion(EAST, Move(m, a)), gt.xy))
  }

  lemma UnturnedError(m: Motion, sample: Sample, gt: Track, a: Vec)
    requires IsTrack(gt) && Unit(m.turn)
    ensures SquaredError(MoveSample(m, sample), gt.ts, MoveAll(Motion(EAST, Move(m, a)), gt.xy))
            == NormSq(Sub(sample.pos, a)) + NormSq(InterpVec(sample.time, gt.ts, gt.xy))
               - 2.0 * Dot(m.turn, Against(sample, gt, a))
  {
    hide Rot, NormSq, InterpVec, SquaredError, Dot, Cross;
    var g := InterpVec(sample.time, gt.ts, gt.xy);
    ErrorOfPlaced(MoveSample(m, sample), gt, Motion(EAST, Move(m, a)));
    TurnFromEast(g);
    RotAdd(m.turn, sample.pos, a);
    assert Sub(Move(m, sample.pos), Add(g, Move(m, a))) == Sub(Rot(m.turn, Sub(sample.pos, a)), g);
    ErrorOfTurned(m.turn, Sub(sample.pos, a), g);
  }

  lemma {:induction false} SumsCombine(n: nat, h: Vec, f: int -> real, s: int -> real, x: int -> real, y: int -> real)
    requires forall i :: 0 <= i < n ==> f(i) == s(i) - 2.0 * Dot(h, Vec(x(i), y(i)))
    ensures Sum(n, f) == Sum(n, s) - 2.0 * Dot(h, Vec(Sum(n, x), Sum(n, y)))
  {
    if n > 0 {
      SumsCombine(n - 1, h, f, s, x, y);
      DotAdd(h, Vec(Sum(n - 1, x), Sum(n - 1, y)), Vec(x(n - 1), y(n - 1)));
      hide Dot;
    }
  }

  lemma DotAdd(h: Vec, u: Vec, v: Vec)
    ensures Dot(h, Vec(u.x + v.x, u.y + v.y)) == Dot(h, u) + Dot(h, v)
  {
  }

  lemma UnturnedTotal(m: Motion, paired: seq<Sample>, gt: Track, a: Vec)
    requires IsTrack(gt) && Unit(m.turn)
    ensures Sum(|paired|, MovedErrors(m, paired, gt, a))
            == Sum(|paired|, Spans(paired, gt, a)) - 2.0 * Dot(m.turn, Correlation(paired, gt, a))
  {
    hide Move, Rot, NormSq, InterpVec, SquaredError, Dot, Against, Unit;
    var f, x, y := MovedErrors(m, paired, gt, a), AgainstX(paired, gt, a), AgainstY(paired, gt, a);
    forall i | 0 <= i < |paired|
      ensures f(i) == Spans(paired, gt, a)(i) - 2.0 * Dot(m.turn, Vec(x(i), y(i)))
    {
      UnturnedError(m, paired[i], gt, a);
    }
    SumsCombine(|paired|, m.turn, f, Spans(paired, gt, a), x, y);
  }

  lemma UndirectedTotal(dir: Vec -> Vec, m: Motion, samples: seq<Sample>, gt: Track, anchor: int, paired: seq<Sample>)
    requires Directs(dir) && Unit(m.turn) && samples != [] && IsTrack(gt) && AnchorYaw(samples, anchor) == ZERO
    ensures (var a := AnchorPos(samples, anchor);
             TotalError(dir, MoveSamples(m, samples), gt, anchor, MoveSamples(m, paired))
             == Sum(|paired|, Spans(paired, gt, a)) - 2.0 * Dot(m.turn, Correlation(paired, gt, a)))
  {
    hide Move, Rot, AnchorYaw, AnchorPos, SquaredErrors, Dot, NormSq, Correlation, Spans, Unit;
    assert IsDirection(ZERO, dir(ZERO));
    AnchorMoves(m, samples, anchor);
    RotEast(m.turn);
    UnturnedTotal(m, paired, gt, AnchorPos(samples, anchor));
  }

  lemma UnmovedSample(sample: Sample)
    ensures MoveSample(Motion(EAST, ZERO), sample) == sample
  {
    TurnFromEast(sample.pos);
    TurnFromEast(sample.yaw);
    hide Rot;
  }

  lemma UnmovedSamples(samples: seq<Sample>)
    ensures MoveSamples(Motion(EAST, ZERO), samples) == samples && Unit(EAST)
  {
    hide Rot, NormSq, MoveSample;
    RotEast(EAST);
    forall i | 0 <= i < |samples|
      ensures MoveSample(Motion(EAST, ZERO), samples[i]) == samples[i]
    {
      UnmovedSample(samples[i]);
    }
  }

  /** The fit is the same wherever and whichever way the executed trajectory lies. */
  ghost predicate MotionInvariant(dir: Vec -> Vec, samples: seq<Sample>, gt: Track, anchor: int)
    requires samples != [] && IsTrack(gt)
  {
    forall m: Motion :: Unit(m.turn) ==>
      FitTo(dir, MoveSamples(m, samples), gt, anchor) == FitTo(dir, samples, gt, anchor)
  }

  lemma PairedMoves(m: Motion, samples: seq<Sample>, gt: Track)
    requires IsTrack(gt)
    ensures Paired(MoveSamples(m, samples), gt) == MoveSamples(m, Paired(samples, gt))
  {
    InSpanMoves(m, samples, gt.ts[0], gt.ts[|gt.ts| - 1]);
  }

  lemma SameQuotient(a: real, b: real, n: nat)
    requires n > 0
    ensures a / n as real == b / n as real <==> a == b
  {
  }

  /** Moved and unmoved fits agree exactly when the total errors do. */
  lemma FitIsTotal(dir: Vec -> Vec, m: Motion, samples: seq<Sample>, gt: Track, anchor: int)
    requires samples != [] && IsTrack(gt)
    ensures (var paired := Paired(samples, gt);
             FitTo(dir, MoveSamples(m, samples), gt, anchor) == FitTo(dir, samples, gt, anchor) <==>
               || FitTo(dir, samples, gt, anchor).Err?
               || TotalError(dir, MoveSamples(m, samples), gt, anchor, MoveSamples(m, paired))
                  == TotalError(dir, samples, gt, anchor, paired))
  {
    hide TotalError, Paired, Move, Rot;
    PairedMoves(m, samples, gt);
    var paired := Paired(samples, gt);
    if paired != [] {
      SameQuotient(TotalError(dir, MoveSamples(m, samples), gt, anchor, MoveSamples(m, paired)),
                   TotalError(dir, samples, gt, anchor, paired), |paired|);
    }
  }

  lemma UncorrelatedDots(c: Vec)
    ensures Dot(Vec(-1.0, 0.0), c) == Dot(EAST, c) && Dot(Vec(0.0, 1.0), c) == Dot(EAST, c) ==> c == ZERO
    ensures c == ZERO ==> forall h: Vec :: Dot(h, c) == 0.0
    ensures Unit(Vec(-1.0, 0.0)) && Unit(Vec(0.0, 1.0)) && Unit(EAST)
  {
    assert Plane.Times(1.0, 1.0) == 1.0 && Plane.Times(0.0, 0.0) == 0.0 && Plane.Times(-1.0, -1.0) == 1.0;
  }

  lemma UndirectedInvariance(dir: Vec -> Vec, m: Motion, samples: seq<Sample>, gt: Track, anchor: int)
    requires Directs(dir) && Unit(m.turn) && samples != [] && IsTrack(gt) && AnchorYaw(samples, anchor) == ZERO
    ensures (var paired := Paired(samples, gt);
             var c := Correlation(paired, gt, AnchorPos(samples, anchor));
             (TotalError(dir, MoveSamples(m, samples), gt, anchor, MoveSamples(m, paired))
              == TotalError(dir, samples, gt, anchor, paired)) <==> Dot(m.turn, c) == Dot(EAST, c))
  {
    hide TotalError, Paired, Move, Rot, AnchorYaw, AnchorPos, Correlation, Dot, Unit;
    var paired := Paired(samples, gt);
    UnmovedSamples(samples);
    UnmovedSamples(paired);
    UndirectedTotal(dir, m, samples, gt, anchor, paired);
    UndirectedTotal(dir, Motion(EAST, ZERO), samples, gt, anchor, paired);
  }

  /** Rigid motions never matter exactly when the fit fails anyway, or the anchor yaw has a direction, or the executed
      offsets and the ground truth do not correlate. */
  lemma InvariantIff(dir: Vec -> Vec, samples: seq<Sample>, gt: Track, anchor: int)
    requires Directs(dir) && samples != [] && IsTrack(gt)
    ensures MotionInvariant(dir, samples, gt, anchor) <==>
              || FitTo(dir, samples, gt, anchor).Err?
              || AnchorYaw(samples, anchor) != ZERO
              || Correlation(Paired(samples, gt), gt, AnchorPos(samples, anchor)) == ZERO
  {
    hide FitTo, TotalError, Paired, Move, Rot, AnchorYaw, AnchorPos, Correlation, Dot, Unit, Directs;
    var c := Correlation(Paired(samples, gt), gt, AnchorPos(samples, anchor));
    UncorrelatedDots(c);
    forall m: Motion | Unit(m.turn)
      ensures FitTo(dir, MoveSamples(m, samples), gt, anchor) == FitTo(dir, samples, gt, anchor) <==>
                || FitTo(dir, samples, gt, anchor).Err?
                || AnchorYaw(samples, anchor) != ZERO
                || Dot(m.turn, c) == Dot(EAST, c)
    {
      FitIsTotal(dir, m, samples, gt, anchor);
      if AnchorYaw(samples, anchor) == ZERO {
        UndirectedInvariance(dir, m, samples, gt, anchor);
      } else {
        FitMoves(dir, m, samples, gt, anchor);
      }
    }
    if MotionInvariant(dir, samples, gt, anchor) {
      assert Unit(Motion(Vec(-1.0, 0.0), ZERO).turn) && Unit(Motion(Vec(0.0, 1.0), ZERO).turn);
    }
  }

  // ---------- what a zero error means ----------

  lemma {:induction false} SumOfNonnegative(n: nat, f: int -> real)
    requires forall i :: 0 <= i < n ==> f(i) >= 0.0
    ensures Sum(n, f) >= 0.0 && (Sum(n, f) == 0.0 <==> forall i :: 0 <= i < n ==> f(i) == 0.0)
  {
    if n > 0 {
      SumOfNonnegative(n - 1, f);
    }
  }

  lemma SubZero(u: Vec, v: Vec)
    ensures Sub(u, v) == ZERO <==> u == v
  {
  }

  /** The mean squared error is never negative, and zero exactly when every paired point lies on the placed ground
      truth at its own time. */
  lemma ZeroIffOnTruth(dir: Vec -> Vec, samples: seq<Sample>, gt: Track, anchor: int)
    requires samples != [] && IsTrack(gt) && FitTo(dir, samples, gt, anchor).Ok?
    ensures (var paired := Paired(samples, gt);
             var placed := MoveAll(Anchor(dir, samples, anchor), gt.xy);
             && FitTo(dir, samples, gt, anchor).value.mse >= 0.0
             && (FitTo(dir, samples, gt, anchor).value.mse == 0.0 <==>
                   forall i :: 0 <= i < |paired| ==> paired[i].pos == InterpVec(paired[i].time, gt.ts, placed)))
  {
    hide NormSq, InterpVec, Paired, Anchor, Move;
    var paired := Paired(samples, gt);
    var placed := MoveAll(Anchor(dir, samples, anchor), gt.xy);
    var f := SquaredErrors(paired, gt.ts, placed);
    forall i | 0 <= i < |paired|
      ensures f(i) >= 0.0 && (f(i) == 0.0 <==> paired[i].pos == InterpVec(paired[i].time, gt.ts, placed))
    {
      NormSqPositive(Sub(paired[i].pos, InterpVec(paired[i].time, gt.ts, placed)));
      SubZero(paired[i].pos, InterpVec(paired[i].time, gt.ts, placed));
    }
    SumOfNonnegative(|paired|, f);
    QuotientSign(Sum(|paired|, f), |paired|);
  }

  /** Exactly the samples of the closed ground-truth span are paired. */
  lemma {:induction false} PairedInSpan(samples: seq<Sample>, low: int, high: int, sample: Sample)
    ensures sample in InSpan(samples, low, high) <==> sample in samples && low <= sample.time <= high
  {
    if samples != [] {
      PairedInSpan(samples[1..], low, high, sample);
      assert samples == [samples[0]] + samples[1..];
    }
  }

  /** The error is an average: it lies between any bounds of the single squared errors. */
  lemma MeanBetweenBounds(dir: Vec -> Vec, samples: seq<Sample>, gt: Track, anchor: int, least: real, most: real)
    requires samples != [] && IsTrack(gt) && FitTo(dir, samples, gt, anchor).Ok?
    requires forall i :: 0 <= i < |Paired(samples, gt)| ==>
                           (least <= SquaredError(Paired(samples, gt)[i], gt.ts,
                                                  MoveAll(Anchor(dir, samples, anchor), gt.xy)) <= most)
    ensures least <= FitTo(dir, samples, gt, anchor).value.mse <= most
    ensures FitTo(dir, samples, gt, anchor).value.numPaired == |Paired(samples, gt)|
  {
    hide NormSq, InterpVec, Anchor, Paired;
    var paired := Paired(samples, gt);
    var f := SquaredErrors(paired, gt.ts, MoveAll(Anchor(dir, samples, anchor), gt.xy));
    SumBetween(|paired|, f, least, most);
    QuotientBetween(Sum(|paired|, f), |paired|, least, most);
  }

  lemma {:induction false} SumBetween(n: nat, f: int -> real, least: real, most: real)
    requires forall i :: 0 <= i < n ==> least <= f(i) <= most
    ensures n as real * least <= Sum(n, f) <= n as real * most
  {
    if n > 0 {
      SumBetween(n - 1, f, least, most);
      assert n as real * least == (n - 1) as real * least + least;
      assert n as real * most == (n - 1) as real * most + most;
    }
  }

  lemma QuotientBetween(a: real, n: nat, least: real, most: real)
    requires n > 0 && n as real * least <= a <= n as real * most
    ensures least <= a / n as real <= most
  {
    var q := a / n as real;
    assert q * n as real == a;
    if q < least {
      TimesStrict(q, least, n as real);
    }
    if most < q {
      TimesStrict(most, q, n as real);
    }
  }

  lemma TimesStrict(a: real, b: real, c: real)
    requires a < b && c > 0.0
    ensures a * c < b * c
  {
  }

  lemma QuotientSign(a: real, n: nat)
    requires a >= 0.0 && n > 0
    ensures a / n as real >= 0.0 && (a / n as real == 0.0 <==> a == 0.0)
  {
  }

  /** The order the ground-truth poses are listed in does not matter when their times differ. */
  lemma GtOrderIrrelevant(poses: seq<EgoPose>, p: seq<nat>)
    requires poses != [] && |p| == |poses| && IsPermutation(p)
    requires forall i, j :: 0 <= i < j < |poses| ==> poses[i].time != poses[j].time
    ensures GtTrack(seq(|poses|, i requires 0 <= i < |poses| => poses[p[i]])) == GtTrack(poses)
  {
    var shuffled := seq(|poses|, i requires 0 <= i < |poses| => poses[p[i]]);
    var order, shuffledOrder := StableArgsort(PoseTimes(poses)), StableArgsort(PoseTimes(shuffled));
    ShuffledArgsort(PoseTimes(poses), PoseTimes(shuffled), p);
    assert forall i :: 0 <= i < |poses| ==> shuffled[shuffledOrder[i]] == poses[order[i]];
  }

  // ---------- what the pieces are ----------

  lemma IncreasingApart(ts: seq<int>, i: nat, j: nat)
    requires Increasing(ts) && i < j < |ts|
    ensures ts[i] < ts[j]
    decreases j
  {
    if i < j - 1 {
      IncreasingApart(ts, i, j - 1);
    }
  }

  lemma AllApart(ts: seq<int>)
    requires Increasing(ts)
    ensures forall a: nat, b: nat :: a < b < |ts| ==> ts[a] < ts[b]
  {
    forall a: nat, b: nat | a < b < |ts|
      ensures ts[a] < ts[b]
    {
      IncreasingApart(ts, a, b);
    }
  }

  lemma InterpBetween(q: int, ts: seq<int>, ys: seq<real>, j: nat)
    requires |ts| == |ys| > 0 && Increasing(ts) && j + 1 < |ts| && ts[j] <= q < ts[j + 1]
    ensures Interp(q, ts, ys) == (ys[j + 1] - ys[j]) / (ts[j + 1] - ts[j]) as real * (q - ts[j]) as real + ys[j]
  {
    AllApart(ts);
    assert Segment(ts, q) == j;
  }

  /** Up to the first sample the first value holds, from the last on the last one, and between two neighbours the value
      lies on their chord. */
  lemma InterpIsPiecewise(q: int, ts: seq<int>, ys: seq<real>, j: nat)
    requires |ts| == |ys| > 0 && Increasing(ts) && j + 1 < |ts|
    ensures q <= ts[0] ==> Interp(q, ts, ys) == ys[0]
    ensures q >= ts[|ts| - 1] ==> Interp(q, ts, ys) == ys[|ts| - 1]
    ensures ts[j] <= q <= ts[j + 1] ==>
              (Interp(q, ts, ys) - ys[j]) * (ts[j + 1] - ts[j]) as real == (ys[j + 1] - ys[j]) * (q - ts[j]) as real
  {
    AllApart(ts);
    InterpOutsideAll(q, ts, ys);
    hide Interp;
    if ts[j] <= q < ts[j + 1] {
      InterpBetween(q, ts, ys, j);
      ChordPoint(ys[j], ys[j + 1], (ts[j + 1] - ts[j]) as real, (q - ts[j]) as real);
    } else if q == ts[j + 1] {
      InterpAtSample(ts, ys, j + 1);
    }
  }

  lemma InterpOutsideAll(q: int, ts: seq<int>, ys: seq<real>)
    requires |ts| == |ys| > 0 && Increasing(ts)
    ensures q <= ts[0] ==> Interp(q, ts, ys) == ys[0]
    ensures q >= ts[|ts| - 1] ==> Interp(q, ts, ys) == ys[|ts| - 1]
  {
    AllApart(ts);
    if q == ts[0] {
      InterpAtSample(ts, ys, 0);
    }
    if q >= ts[|ts| - 1] {
      assert Segment(ts, q) == |ts| - 1;
    }
  }

  lemma ChordPoint(a: real, b: real, d: real, e: real)
    requires d > 0.0
    ensures ((b - a) / d * e + a - a) * d == (b - a) * e
  {
    var slope := (b - a) / d;
    assert slope * d == b - a;
    assert slope * e * d == slope * d * e;
  }

  /** The ground-truth track is the poses' times and positions, each exactly once, in time order. */
  lemma GtTrackIsSorted(poses: seq<EgoPose>)
    requires poses != []
    ensures (var track := GtTrack(poses);
             && |track.ts| == |poses| && (forall i, j :: 0 <= i < j < |poses| ==> track.ts[i] <= track.ts[j])
             && exists p: seq<nat> :: && |p| == |poses| && IsPermutation(p)
                                      && forall i :: 0 <= i < |poses| ==>
                                           track.ts[i] == poses[p[i]].time && track.xy[i] == poses[p[i]].pos)
  {
    var order := StableArgsort(PoseTimes(poses));
    forall i, j | 0 <= i < j < |poses|
      ensures GtTrack(poses).ts[i] <= GtTrack(poses).ts[j]
    {
      assert ByKey(PoseTimes(poses))(order[i], order[j]);
    }
  }

  /** Each sample inside the span is paired as often as it was executed, and no other. */
  lemma {:induction false} PairedExactly(samples: seq<Sample>, low: int, high: int, sample: Sample)
    ensures multiset(InSpan(samples, low, high))[sample]
            == if low <= sample.time <= high then multiset(samples)[sample] else 0
  {
    if samples != [] {
      PairedExactly(samples[1..], low, high, sample);
      assert samples == [samples[0]] + samples[1..];
    }
  }

  lemma UnitIsNonzero(u: Vec)
    requires Unit(u)
    ensures u != ZERO && u == Scale(1.0, u)
  {
    NormSqPositive(u);
    hide Square;
  }

  lemma UnitIsDirection(u: Vec)
    requires Unit(u)
    ensures IsDirection(u, u)
  {
    UnitIsNonzero(u);
    hide Unit, Scale;
    assert 1.0 > 0.0 && u == Scale(1.0, u);
  }

  lemma UnitPointsItself(dir: Vec -> Vec, u: Vec)
    requires Directs(dir) && Unit(u)
    ensures dir(u) == u
  {
    hide Unit, IsDirection;
    UnitIsDirection(u);
    assert IsDirection(u, dir(u));
    DirectionUnique(u, dir(u), u);
  }

  lemma AnchorAtSample(dir: Vec -> Vec, samples: seq<Sample>, k: nat)
    requires Directs(dir) && k < |samples| && Increasing(TimesOf(samples)) && Unit(samples[k].yaw)
    ensures Anchor(dir, samples, samples[k].time) == Motion(samples[k].yaw, samples[k].pos)
  {
    hide Unit, Directs;
    var ts := TimesOf(samples);
    forall a: nat, b: nat | a < b < |ts|
      ensures ts[a] < ts[b]
    {
      IncreasingApart(ts, a, b);
    }
    InterpAtSample(ts, Xs(Positions(samples)), k);
    InterpAtSample(ts, Ys(Positions(samples)), k);
    InterpAtSample(ts, Xs(Yaws(samples)), k);
    InterpAtSample(ts, Ys(Yaws(samples)), k);
    UnitPointsItself(dir, samples[k].yaw);
  }

  /** Anchored at an executed sample, the error is zero exactly when every paired point lies where the ground truth is
      once moved from the rig frame to that sample's position and heading. */
  lemma PerfectDriveIff(dir: Vec -> Vec, samples: seq<Sample>, gt: Track, k: nat)
    requires Directs(dir) && k < |samples| && Increasing(TimesOf(samples)) && Unit(samples[k].yaw) && IsTrack(gt)
    requires FitTo(dir, samples, gt, samples[k].time).Ok?
    ensures (var (m, paired) := (Motion(samples[k].yaw, samples[k].pos), Paired(samples, gt));
             FitTo(dir, samples, gt, samples[k].time).value.mse == 0.0 <==>
               forall i :: 0 <= i < |paired| ==> paired[i].pos == Move(m, InterpVec(paired[i].time, gt.ts, gt.xy)))
  {
    hide InterpVec, Paired, Anchor, Move, FitTo, Unit, Directs, Increasing;
    AnchorAtSample(dir, samples, k);
    ZeroIffOnTruth(dir, samples, gt, samples[k].time);
    var m, paired := Motion(samples[k].yaw, samples[k].pos), Paired(samples, gt);
    forall i | 0 <= i < |paired|
      ensures InterpVec(paired[i].time, gt.ts, MoveAll(m, gt.xy)) == Move(m, InterpVec(paired[i].time, gt.ts, gt.xy))
    {
      InterpMoves(m, paired[i].time, gt.ts, gt.xy);
    }
  }

  // ---------- what the reward is ----------

  /** What the reward needs of the square root. */
  ghost predicate IsRoot(root: real -> real) {
    forall a: real :: a >= 0.0 ==> root(a) >= 0.0 && root(a) * root(a) == a
  }

  lemma SquareOfScaled(scale: real, rmse: real, n: real, total: real)
    requires n > 0.0 && rmse >= 0.0 && rmse * rmse == total / n
    ensures (scale * rmse) * (scale * rmse) * n == scale * scale * total && rmse * rmse * n == total
    ensures scale >= 0.0 ==> scale * rmse >= 0.0
    ensures scale <= 0.0 ==> scale * rmse <= 0.0
  {
    assert total / n * n == total;
    assert (scale * rmse) * (scale * rmse) == scale * scale * (rmse * rmse);
    assert scale * scale * (rmse * rmse) * n == scale * scale * (rmse * rmse * n);
  }

  /** A reward is the scale times the root of the mean squared error: its square times the number of pairs is the
      scale's square times the total, and its sign the scale's. */
  lemma RewardIsScaledRoot(dir: Vec -> Vec, root: real -> real, executed: seq<EgoPose>, truth: GroundTruth,
                           distanceScale: real)
    requires IsRoot(root) && ComputeReward(dir, root, executed, Some(truth), distanceScale).Ok?
    ensures |executed| >= 2 && |truth.poses| >= 2
    ensures (var (samples, gt) := (Samples(dir, executed), GtTrack(truth.poses));
             var reward := ComputeReward(dir, root, executed, Some(truth), distanceScale).value;
             var (paired, n) := (Paired(samples, gt), reward.numPaired as real);
             var total := TotalError(dir, samples, gt, truth.time, paired);
             && reward.numPaired == |paired| > 0 && reward.anchor == truth.time
             && reward.rmse >= 0.0 && reward.rmse * reward.rmse * n == total
             && reward.total * reward.total * n == distanceScale * distanceScale * total
             && (distanceScale >= 0.0 ==> reward.total >= 0.0) && (distanceScale <= 0.0 ==> reward.total <= 0.0))
  {
    hide SampleOf, TotalError, Paired;
    var (samples, gt) := (Samples(dir, executed), GtTrack(truth.poses));
    var fit := FitTo(dir, samples, gt, truth.time);
    assert fit.Ok?;
    hide Paired, TotalError;
    FitPositive(dir, samples, gt, truth.time);
    SquareOfScaled(distanceScale, root(fit.value.mse), fit.value.numPaired as real,
                   TotalError(dir, samples, gt, truth.time, Paired(samples, gt)));
  }

  lemma FitPositive(dir: Vec -> Vec, samples: seq<Sample>, gt: Track, anchor: int)
    requires samples != [] && IsTrack(gt) && FitTo(dir, samples, gt, anchor).Ok?
    ensures FitTo(dir, samples, gt, anchor).value.mse >= 0.0
  {
    ZeroIffOnTruth(dir, samples, gt, anchor);
    hide FitTo;
  }

  /** Some ground-truth pose is no later and some no earlier. */
  predicate Covered(poses: seq<EgoPose>, time: int) {
    exists j, k :: 0 <= j < |poses| && 0 <= k < |poses| && poses[j].time <= time <= poses[k].time
  }

  lemma SpanCovers(poses: seq<EgoPose>, time: int)
    requires poses != []
    ensures (var ts := GtTrack(poses).ts; ts[0] <= time <= ts[|ts| - 1] <==> Covered(poses, time))
  {
    var order, track := StableArgsort(PoseTimes(poses)), GtTrack(poses);
    GtTrackIsSorted(poses);
    if Covered(poses, time) {
      var j, k :| 0 <= j < |poses| && 0 <= k < |poses| && poses[j].time <= time <= poses[k].time;
      var a := PermutationIsOnto(order, j);
      var b := PermutationIsOnto(order, k);
      assert track.ts[a] == poses[j].time && track.ts[b] == poses[k].time;
    }
    if track.ts[0] <= time <= track.ts[|poses| - 1] {
      assert poses[order[0]].time <= time <= poses[order[|poses| - 1]].time;
    }
  }

  /** The reward fails exactly without ground truth, with fewer than two poses on either side, with executed times that
      do not increase, with an anchor outside the executed time, or with no executed pose inside the ground truth's. */
  lemma RewardFailsIff(dir: Vec -> Vec, root: real -> real, executed: seq<EgoPose>, truth: Option<GroundTruth>,
                       distanceScale: real)
    ensures ComputeReward(dir, root, executed, truth, distanceScale).Err? <==>
              || truth.None? || |executed| < 2 || |truth.value.poses| < 2
              || (exists i :: 0 <= i < |executed| - 1 && executed[i].time >= executed[i + 1].time)
              || truth.value.time < executed[0].time || truth.value.time > executed[|executed| - 1].time
              || forall i :: 0 <= i < |executed| ==> !Covered(truth.value.poses, executed[i].time)
  {
    hide Covered, TotalError, SampleOf, GtTrack, Samples, Increasing;
    if truth.Some? && |executed| >= 2 && |truth.value.poses| >= 2 {
      var samples, poses := Samples(dir, executed), truth.value.poses;
      TimesAreExecuted(dir, executed);
      var gt := GtTrack(poses);
      PairedNone(samples, gt.ts[0], gt.ts[|gt.ts| - 1]);
      forall i | 0 <= i < |executed|
        ensures gt.ts[0] <= samples[i].time <= gt.ts[|gt.ts| - 1] <==> Covered(poses, executed[i].time)
      {
        SpanCovers(poses, executed[i].time);
      }
    }
  }

  lemma TimesAreExecuted(dir: Vec -> Vec, executed: seq<EgoPose>)
    ensures forall i :: 0 <= i < |executed| ==> Samples(dir, executed)[i].time == executed[i].time
    ensures Increasing(TimesOf(Samples(dir, executed))) <==>
              forall i :: 0 <= i < |executed| - 1 ==> executed[i].time < executed[i + 1].time
  {
    assert forall i :: 0 <= i < |executed| ==> TimesOf(Samples(dir, executed))[i] == executed[i].time;
  }

  lemma {:induction false} PairedNone(samples: seq<Sample>, low: int, high: int)
    ensures InSpan(samples, low, high) == [] <==> forall i :: 0 <= i < |samples| ==> !(low <= samples[i].time <= high)
  {
    if samples != [] {
      PairedNone(samples[1..], low, high);
      assert forall i :: 1 <= i < |samples| ==> samples[i] == samples[1..][i - 1];
    }
  }
}
