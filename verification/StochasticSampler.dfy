/** The stochastic flow sampler and the scorer that replays its recorded states, over the reals.

    A tensor is a total function of its indices; the expert network is an arbitrary function of a whole batch. */
module StochasticSampler {
  import opened Wrappers
  import opened RealSums

  /** Indexed by sample, waypoint and point dimension. */
  type Tensor = (int, int, int) -> real

  /** Indexed by sample and cosine mode. */
  type Coeffs = (int, int) -> real

  /** `rootDt` stands for the square root of one step's duration, `logNorm` for the Gaussian's log normaliser and
      `basis` for the cosine basis, indexed by waypoint and mode. */
  datatype Config = Config(
    steps: nat,
    epsilon: real,
    rootDt: real,
    modes: nat,
    stochasticSteps: seq<int>,
    minOneMinusT: real,
    sigmaMin: real,
    clipBound: real,
    waypoints: nat,
    dims: nat,
    logNorm: real,
    basis: (int, int) -> real)

  function Max(a: real, b: real): (r: real)
    ensures a <= r && b <= r && (r == a || r == b)
  {
    if a >= b then a else b
  }

  function TransitionStd(c: Config): real {
    Max(c.epsilon * c.rootDt, c.sigmaMin)
  }

  /** A configuration the sampler can run: nothing it divides by is zero. */
  predicate Runnable(c: Config) {
    c.steps > 0 && c.modes > 0 && c.waypoints > 0 && c.dims > 0 && TransitionStd(c) > 0.0
  }

  function BasisProduct(c: Config, j: int, l: int): int -> real {
    (t: int) => c.basis(t, j) * c.basis(t, l)
  }

  /** The columns of the basis are orthonormal under the plain inner product over waypoints. */
  ghost predicate Orthonormal(c: Config) {
    forall j, l :: 0 <= j < c.modes && 0 <= l < c.modes ==>
      Sum(c.waypoints, BasisProduct(c, j, l)) == if j == l then 1.0 else 0.0
  }

  // ---------- shared by both loops ----------

  function Clamp(x: real, bound: real): real {
    var raised := Max(x, -bound);
    if raised > bound then bound else raised
  }

  function Clipped(x: Tensor, bound: real): Tensor {
    (b: int, t: int, d: int) => Clamp(x(b, t, d), bound)
  }

  lemma TimeRemains(k: nat, steps: nat)
    requires k < steps
    ensures 1.0 - k as real / steps as real > 0.0
  {
    var n := steps as real;
    assert k as real / n * n == k as real;
  }

  /** The score-corrected increment of one coordinate, with both floors on the time left. */
  function Drift(c: Config, time: real, x: real, endpoint: real): real
    requires c.steps > 0 && time < 1.0
  {
    var remaining := Max(1.0 - time, c.minOneMinusT);
    var damping := Max(1.0 - time, 0.000001);
    var variance := TransitionStd(c) * TransitionStd(c);
    ((endpoint - x) / remaining - variance * ((time * endpoint - x) / (damping * damping))) / c.steps as real
  }

  function Time(c: Config, k: nat): (t: real)
    requires k < c.steps
    ensures t < 1.0
  {
    TimeRemains(k, c.steps);
    k as real / c.steps as real
  }

  function MeanDrift(c: Config, expert: (Tensor, real) -> Tensor, x: Tensor, k: nat): Tensor
    requires Runnable(c) && k < c.steps
  {
    var endpoint := expert(x, Time(c, k));
    (b: int, t: int, d: int) => Drift(c, Time(c, k), x(b, t, d), endpoint(b, t, d))
  }

  // ---------- what a step does ----------

  function Gap(a: real, b: real): real {
    if a < b then b - a else a - b
  }

  /** Clipping moves a value to the nearest one within the bound, and to no other. */
  lemma ClampIsNearest(x: real, bound: real, y: real)
    requires -bound <= y <= bound
    ensures -bound <= Clamp(x, bound) <= bound && Gap(Clamp(x, bound), x) <= Gap(y, x)
    ensures y != Clamp(x, bound) ==> Gap(Clamp(x, bound), x) < Gap(y, x)
  {
  }

  /** Unless the floor is larger, one step's variance is the diffusion's over one step's time. */
  lemma VarianceIsDiffusion(c: Config)
    requires c.steps > 0 && c.rootDt * c.rootDt == 1.0 / c.steps as real
    ensures TransitionStd(c) >= c.sigmaMin
    ensures c.epsilon * c.rootDt >= c.sigmaMin ==>
              TransitionStd(c) * TransitionStd(c) * c.steps as real == c.epsilon * c.epsilon
  {
    if c.epsilon * c.rootDt >= c.sigmaMin {
      assert (c.epsilon * c.rootDt) * (c.epsilon * c.rootDt) == c.epsilon * c.epsilon * (c.rootDt * c.rootDt);
      assert 1.0 / c.steps as real * c.steps as real == 1.0;
      assert c.epsilon * c.epsilon * (1.0 / c.steps as real) * c.steps as real
          == c.epsilon * c.epsilon * (1.0 / c.steps as real * c.steps as real);
    }
  }

  /** How fast the flow moves towards the endpoint, as a share of the speed that reaches it in time. */
  function Pace(c: Config, left: real): real
    requires left > 0.0
  {
    if left >= c.minOneMinusT then 1.0 else left / c.minOneMinusT
  }

  /** How strongly the score pulls a noise of one. */
  function Pull(left: real): real
    requires left > 0.0
  {
    if left >= 0.000001 then 1.0 / left else left * 1000000000000.0
  }

  lemma VelocityOnLine(t: real, n: real, e: real, r: real)
    requires r > 0.0
    ensures (e - ((1.0 - t) * n + t * e)) / r == (1.0 - t) / r * (e - n)
  {
    assert e - ((1.0 - t) * n + t * e) == (1.0 - t) * (e - n);
    assert (1.0 - t) * (e - n) / r == (1.0 - t) / r * (e - n);
  }

  lemma ScoreOnLine(t: real, n: real, e: real, m: real)
    requires m > 0.0 && 1.0 - t > 0.0
    ensures (t * e - ((1.0 - t) * n + t * e)) / (m * m) == -((1.0 - t) / (m * m) * n)
  {
    assert t * e - ((1.0 - t) * n + t * e) == -((1.0 - t) * n);
    var square := m * m;
    assert -((1.0 - t) * n) / square == -((1.0 - t) / square * n);
  }

  lemma PullIs(left: real)
    requires left > 0.0
    ensures (var m := Max(left, 0.000001); left / (m * m) == Pull(left))
  {
    if left >= 0.000001 {
      assert left / (left * left) == 1.0 / left;
    }
  }

  lemma PaceIs(c: Config, left: real)
    requires left > 0.0
    ensures left / Max(left, c.minOneMinusT) == Pace(c, left)
  {
    assert left / left == 1.0;
    if left < c.minOneMinusT {
      assert Max(left, c.minOneMinusT) == c.minOneMinusT;
    }
  }

  lemma Undivided(velocity: real, variance: real, score: real, steps: real)
    requires steps > 0.0
    ensures (velocity - variance * score) / steps * steps == velocity - variance * score
  {
  }

  /** The point the straight way from the noise `n` to the endpoint `e` passes at time `t`. */
  function OnLine(t: real, n: real, e: real): real {
    (1.0 - t) * n + t * e
  }

  /** Wherever a state lies, on the way from some noise `n` to the endpoint `e` the expert predicts there, it drifts
      towards the endpoint at the speed that reaches it in time, unless too little time is left, and along the noise
      by the variance's share of the score. */
  lemma DriftOnLine(c: Config, expert: (Tensor, real) -> Tensor, x: Tensor, k: nat, n: real, b: int, w: int, d: int)
    requires Runnable(c) && k < c.steps
    requires x(b, w, d) == OnLine(Time(c, k), n, expert(x, Time(c, k))(b, w, d))
    ensures (var (left, e, sigma) := (1.0 - Time(c, k), expert(x, Time(c, k))(b, w, d), TransitionStd(c));
             MeanDrift(c, expert, x, k)(b, w, d) * c.steps as real
             == Pace(c, left) * (e - n) + sigma * sigma * (Pull(left) * n))
  {
    DriftArithmetic(c, Time(c, k), n, expert(x, Time(c, k))(b, w, d));
    hide Drift, TransitionStd, Pull, Pace, OnLine, Time;
  }

  lemma DriftArithmetic(c: Config, t: real, n: real, e: real)
    requires c.steps > 0 && t < 1.0
    ensures Drift(c, t, OnLine(t, n, e), e) * c.steps as real
            == Pace(c, 1.0 - t) * (e - n) + TransitionStd(c) * TransitionStd(c) * (Pull(1.0 - t) * n)
  {
    var left, x, variance := 1.0 - t, OnLine(t, n, e), TransitionStd(c) * TransitionStd(c);
    var (r, m) := (Max(left, c.minOneMinusT), Max(left, 0.000001));
    VelocityOnLine(t, n, e, r);
    ScoreOnLine(t, n, e, m);
    PullIs(left);
    PaceIs(c, left);
    var (velocity, score) := ((e - x) / r, (t * e - x) / (m * m));
    Undivided(velocity, variance, score, c.steps as real);
    hide Pull, Pace, TransitionStd;
    MinusTimes(variance, Pull(left) * n);
  }

  lemma MinusTimes(a: real, b: real)
    ensures -(a * -b) == a * b
  {
  }

  function Projected(c: Config, z: Coeffs, b: int, t: int): int -> real {
    (j: int) => z(b, j) * c.basis(t, j)
  }

  /** The perturbation `sigma * (z @ B^T)`, the same in every point dimension. */
  function Perturbation(c: Config, z: Coeffs): Tensor {
    (b: int, t: int, d: int) => TransitionStd(c) * Sum(c.modes, Projected(c, z, b, t))
  }

  function Squares(r: int -> real): int -> real {
    (j: int) => r(j) * r(j)
  }

  function MeanSquare(c: Config, r: int -> real): real
    requires Runnable(c)
  {
    Sum(c.modes, Squares(r)) / c.modes as real
  }

  // ---------- rollout ----------

  function Next(c: Config, expert: (Tensor, real) -> Tensor, x: Tensor, k: nat, z: Coeffs): Tensor
    requires Runnable(c) && k < c.steps
  {
    var drift := MeanDrift(c, expert, Clipped(x, c.clipBound), k);
    if k in c.stochasticSteps then
      (b: int, t: int, d: int) => x(b, t, d) + drift(b, t, d) + Perturbation(c, z)(b, t, d)
    else
      (b: int, t: int, d: int) => x(b, t, d) + drift(b, t, d)
  }

  lemma OneStepOn(n: real, e: real, t: real, steps: real)
    requires steps > 0.0
    ensures OnLine(t, n, e) + (e - n) / steps == OnLine(t + 1.0 / steps, n, e)
  {
    var dt := 1.0 / steps;
    assert (e - n) / steps == dt * (e - n);
    assert dt * (e - n) == dt * e - dt * n;
    assert (1.0 - (t + dt)) * n == (1.0 - t) * n - dt * n && (t + dt) * e == t * e + dt * e;
  }

  lemma SplitOverSteps(drift: real, u: real, v: real, steps: real)
    requires steps > 0.0 && drift * steps == u + v
    ensures drift == u / steps + v / steps
  {
    assert drift * steps / steps == drift;
  }

  lemma NextTime(c: Config, k: nat)
    requires k < c.steps
    ensures (k + 1) as real / c.steps as real == Time(c, k) + 1.0 / c.steps as real
  {
  }

  lemma EnoughTime(c: Config, left: real, n: real, e: real)
    requires left >= c.minOneMinusT && left >= 0.000001
    ensures Pace(c, left) * (e - n) == e - n && Pull(left) == 1.0 / left
  {
  }

  /** What the score adds to a coordinate in one step. */
  function ScorePull(c: Config, left: real, n: real): real
    requires c.steps > 0 && left > 0.0
  {
    TransitionStd(c) * TransitionStd(c) * (1.0 / left * n) / c.steps as real
  }

  lemma DriftPerStep(c: Config, expert: (Tensor, real) -> Tensor, x: Tensor, k: nat, n: real, b: int, w: int, d: int)
    requires Runnable(c) && k < c.steps
    requires 1.0 - Time(c, k) >= c.minOneMinusT && 1.0 - Time(c, k) >= 0.000001
    requires x(b, w, d) == OnLine(Time(c, k), n, expert(x, Time(c, k))(b, w, d))
    ensures MeanDrift(c, expert, x, k)(b, w, d)
            == (expert(x, Time(c, k))(b, w, d) - n) / c.steps as real + ScorePull(c, 1.0 - Time(c, k), n)
  {
    hide MeanDrift, TransitionStd, OnLine, Pace, Pull, Time;
    var left, e, sigma := 1.0 - Time(c, k), expert(x, Time(c, k))(b, w, d), TransitionStd(c);
    DriftOnLine(c, expert, x, k, n, b, w, d);
    EnoughTime(c, left, n, e);
    SplitOverSteps(MeanDrift(c, expert, x, k)(b, w, d), e - n, sigma * sigma * (1.0 / left * n), c.steps as real);
  }

  /** With enough time left a step takes an unclipped state on to the next point of its way to the predicted endpoint,
      plus the score's pull, plus the perturbation if the step is stochastic. */
  lemma StepOnLine(c: Config, expert: (Tensor, real) -> Tensor, x: Tensor, k: nat, z: Coeffs, n: real, b: int, w: int,
                   d: int)
    requires Runnable(c) && k < c.steps && -c.clipBound <= x(b, w, d) <= c.clipBound
    requires 1.0 - Time(c, k) >= c.minOneMinusT && 1.0 - Time(c, k) >= 0.000001
    requires x(b, w, d) == OnLine(Time(c, k), n, expert(Clipped(x, c.clipBound), Time(c, k))(b, w, d))
    ensures (var e := expert(Clipped(x, c.clipBound), Time(c, k))(b, w, d);
             Next(c, expert, x, k, z)(b, w, d)
             == OnLine((k + 1) as real / c.steps as real, n, e) + ScorePull(c, 1.0 - Time(c, k), n)
                + if k in c.stochasticSteps then Perturbation(c, z)(b, w, d) else 0.0)
  {
    assert Clipped(x, c.clipBound)(b, w, d) == x(b, w, d);
    hide MeanDrift, Perturbation, TransitionStd, OnLine, ScorePull, Time, Next, Clipped;
    var clipped, t := Clipped(x, c.clipBound), Time(c, k);
    DriftPerStep(c, expert, clipped, k, n, b, w, d);
    OneStepOn(n, expert(clipped, t)(b, w, d), t, c.steps as real);
    NextTime(c, k);
    StepIs(c, expert, x, k, z, b, w, d);
  }

  lemma StepIs(c: Config, expert: (Tensor, real) -> Tensor, x: Tensor, k: nat, z: Coeffs, b: int, w: int, d: int)
    requires Runnable(c) && k < c.steps
    ensures Next(c, expert, x, k, z)(b, w, d)
            == x(b, w, d) + MeanDrift(c, expert, Clipped(x, c.clipBound), k)(b, w, d)
               + if k in c.stochasticSteps then Perturbation(c, z)(b, w, d) else 0.0
  {
    hide MeanDrift, Perturbation;
  }

  /** `draw(k)` is what the generator yields at step `k`. */
  function States(c: Config, expert: (Tensor, real) -> Tensor, noise: Tensor, draw: int -> Coeffs, k: nat)
    : (s: seq<Tensor>)
    requires Runnable(c) && k <= c.steps
    ensures |s| == k + 1
  {
    if k == 0 then [noise]
    else
      var before := States(c, expert, noise, draw, k - 1);
      before + [Next(c, expert, before[k - 1], k - 1, draw(k - 1))]
  }

  /** The coefficients injected before step `k`. */
  function Injected(c: Config, draw: int -> Coeffs, k: nat): seq<Coeffs> {
    if k == 0 then []
    else Injected(c, draw, k - 1) + if k - 1 in c.stochasticSteps then [draw(k - 1)] else []
  }

  function OldLogprob(c: Config, zs: seq<Coeffs>, b: int): real
    requires Runnable(c)
  {
    if zs == [] then 0.0
    else OldLogprob(c, zs[..|zs| - 1], b) - 0.5 * MeanSquare(c, Row(zs[|zs| - 1], b)) - c.logNorm
  }

  datatype Rollout = Rollout(trajectory: Tensor, z: seq<Coeffs>, states: seq<Tensor>, oldLogprob: int -> real)

  method StochasticSample(c: Config, expert: (Tensor, real) -> Tensor, noise: Tensor, draw: int -> Coeffs)
    returns (r: Result<Rollout>)
    requires Runnable(c)
    ensures r.Err? <==> Injected(c, draw, c.steps) == []
    ensures r.Ok? ==>
      && r.value.states == States(c, expert, noise, draw, c.steps)
      && r.value.trajectory == r.value.states[c.steps]
      && r.value.z == Injected(c, draw, c.steps)
      && forall b :: r.value.oldLogprob(b) == OldLogprob(c, r.value.z, b)
  {
    var waypoints := noise;
    var states := [waypoints];
    var zList: seq<Coeffs> := [];
    for k := 0 to c.steps
      invariant states == States(c, expert, noise, draw, k) && waypoints == states[k]
      invariant zList == Injected(c, draw, k)
    {
      waypoints := Next(c, expert, waypoints, k, draw(k));
      if k in c.stochasticSteps {
        zList := zList + [draw(k)];
      }
      states := states + [waypoints];
    }
    if zList == [] {
      return Err("stack expects a non-empty list");
    }
    var oldLogprob: int -> real := _ => 0.0;
    for i := 0 to |zList|
      invariant forall b :: oldLogprob(b) == OldLogprob(c, zList[..i], b)
    {
      var before, z := oldLogprob, zList[i];
      oldLogprob := b => before(b) - 0.5 * MeanSquare(c, Row(z, b)) - c.logNorm;
      assert zList[..i + 1][..i] == zList[..i];
    }
    assert zList[..|zList|] == zList;
    r := Ok(Rollout(waypoints, zList, states, oldLogprob));
  }

  // ---------- replay ----------

  /** The transition mean the scorer recomputes, from the clipped recorded state. */
  function TransitionMean(c: Config, expert: (Tensor, real) -> Tensor, x: Tensor, k: nat): Tensor
    requires Runnable(c) && k < c.steps
  {
    var clipped := Clipped(x, c.clipBound);
    var drift := MeanDrift(c, expert, clipped, k);
    (b: int, t: int, d: int) => clipped(b, t, d) + drift(b, t, d)
  }

  function Scaled(c: Config, u: Tensor, v: Tensor, b: int, t: int): int -> real
    requires Runnable(c)
  {
    (d: int) => (u(b, t, d) - v(b, t, d)) / TransitionStd(c)
  }

  function ProjectionTerm(c: Config, u: Tensor, v: Tensor, b: int, j: int): int -> real
    requires Runnable(c)
  {
    (t: int) => Sum(c.dims, Scaled(c, u, v, b, t)) * c.basis(t, j)
  }

  /** `(u - v) / sigma`, averaged over the point dimensions and projected onto the cosine modes. */
  function Projection(c: Config, u: Tensor, v: Tensor, b: int): int -> real
    requires Runnable(c)
  {
    (j: int) => Sum(c.waypoints, ProjectionTerm(c, u, v, b, j)) / c.dims as real
  }

  function Residual(c: Config, expert: (Tensor, real) -> Tensor, x: Tensor, next: Tensor, k: nat, b: int): int -> real
    requires Runnable(c) && k < c.steps
  {
    Projection(c, next, TransitionMean(c, expert, x, k), b)
  }

  function ReplayLogprob(c: Config, expert: (Tensor, real) -> Tensor, states: seq<Tensor>, k: nat, b: int): real
    requires Runnable(c) && k < |states| && k <= c.steps
  {
    if k == 0 then 0.0
    else
      var before := ReplayLogprob(c, expert, states, k - 1, b);
      if k - 1 in c.stochasticSteps
      then before - 0.5 * MeanSquare(c, Residual(c, expert, states[k - 1], states[k], k - 1, b)) - c.logNorm
      else before
  }

  function StochasticCount(c: Config, k: nat): nat {
    if k == 0 then 0 else StochasticCount(c, k - 1) + if k - 1 in c.stochasticSteps then 1 else 0
  }

  method StochasticLogprob(c: Config, expert: (Tensor, real) -> Tensor, states: seq<Tensor>, z: seq<Coeffs>)
    returns (r: Result<int -> real>)
    requires Runnable(c) && |states| == c.steps + 1
    ensures r.Ok? <==> |z| == StochasticCount(c, c.steps)
    ensures r.Ok? ==> forall b :: r.value(b) == ReplayLogprob(c, expert, states, c.steps, b)
  {
    var logprob: int -> real := _ => 0.0;
    var stochasticIndex := 0;
    for k := 0 to c.steps
      invariant stochasticIndex == StochasticCount(c, k)
      invariant forall b :: logprob(b) == ReplayLogprob(c, expert, states, k, b)
    {
      if k in c.stochasticSteps {
        var before, x, next := logprob, states[k], states[k + 1];
        logprob := b => before(b) - 0.5 * MeanSquare(c, Residual(c, expert, x, next, k, b)) - c.logNorm;
        stochasticIndex := stochasticIndex + 1;
      }
    }
    if stochasticIndex != |z| {
      return Err("recorded z does not match the stochastic steps");
    }
    r := Ok(logprob);
  }

  // ---------- the two loops agree ----------

  /** What clipping cuts off a state, in the modes' coordinates. */
  function Overflow(c: Config, x: Tensor, b: int): int -> real
    requires Runnable(c)
  {
    Projection(c, x, Clipped(x, c.clipBound), b)
  }

  function ModeTerms(c: Config, z: Coeffs, b: int, j: int): (int, int) -> real {
    (t: int, l: int) => z(b, l) * (c.basis(t, l) * c.basis(t, j))
  }

  lemma ModeColumn(c: Config, z: Coeffs, b: int, j: int, l: int)
    requires Orthonormal(c) && 0 <= j < c.modes && 0 <= l < c.modes
    ensures ColSums(c.waypoints, ModeTerms(c, z, b, j))(l) == if l == j then z(b, j) else 0.0
  {
    SumScale(c.waypoints, z(b, l), BasisProduct(c, l, j), Col(ModeTerms(c, z, b, j), l));
  }

  /** Projecting a combination of orthonormal modes onto mode `j` returns its coefficient. */
  lemma ProjectModes(c: Config, z: Coeffs, b: int, j: int, f: int -> real)
    requires Orthonormal(c) && 0 <= j < c.modes
    requires forall t :: 0 <= t < c.waypoints ==> f(t) == Sum(c.modes, Projected(c, z, b, t)) * c.basis(t, j)
    ensures Sum(c.waypoints, f) == z(b, j)
  {
    var terms := ModeTerms(c, z, b, j);
    forall t | 0 <= t < c.waypoints ensures f(t) == RowSums(c.modes, terms)(t) {
      SumScale(c.modes, c.basis(t, j), Projected(c, z, b, t), Row(terms, t));
    }
    SumEq(c.waypoints, f, RowSums(c.modes, terms));
    SumSwap(c.waypoints, c.modes, terms);
    forall l | 0 <= l < c.modes ensures ColSums(c.waypoints, terms)(l) == if l == j then z(b, j) else 0.0 {
      ModeColumn(c, z, b, j, l);
    }
    SumOnly(c.modes, j, ColSums(c.waypoints, terms));
  }

  /** Drift cancels: the recorded next state exceeds the recomputed mean by what was clipped plus the perturbation. */
  lemma NextExceedsMean(c: Config, expert: (Tensor, real) -> Tensor, x: Tensor, k: nat, z: Coeffs, b: int, t: int,
                        d: int)
    requires Runnable(c) && k < c.steps && k in c.stochasticSteps
    ensures Next(c, expert, x, k, z)(b, t, d) - TransitionMean(c, expert, x, k)(b, t, d)
            == x(b, t, d) - Clipped(x, c.clipBound)(b, t, d) + Perturbation(c, z)(b, t, d)
  {
    var drift := MeanDrift(c, expert, Clipped(x, c.clipBound), k);
    assert Next(c, expert, x, k, z)(b, t, d) == x(b, t, d) + drift(b, t, d) + Perturbation(c, z)(b, t, d);
    assert TransitionMean(c, expert, x, k)(b, t, d) == Clipped(x, c.clipBound)(b, t, d) + drift(b, t, d);
  }

  lemma ScaledSplits(c: Config, next: Tensor, mu: Tensor, x: Tensor, cx: Tensor, z: Coeffs, b: int, t: int)
    requires Runnable(c)
    requires forall d :: next(b, t, d) - mu(b, t, d) == x(b, t, d) - cx(b, t, d) + Perturbation(c, z)(b, t, d)
    ensures Sum(c.dims, Scaled(c, next, mu, b, t))
            == Sum(c.dims, Scaled(c, x, cx, b, t)) + c.dims as real * Sum(c.modes, Projected(c, z, b, t))
  {
    var sigma, mix := TransitionStd(c), Sum(c.modes, Projected(c, z, b, t));
    var cut, whole := Scaled(c, x, cx, b, t), Scaled(c, next, mu, b, t);
    forall d | 0 <= d < c.dims ensures whole(d) == cut(d) + mix {
      SplitQuotient(x(b, t, d) - cx(b, t, d), mix, sigma);
    }
    var mixes: int -> real := _ => mix;
    SumAdd(c.dims, cut, mixes, whole);
    SumConst(c.dims, mix, mixes);
  }

  lemma SplitQuotient(cut: real, mix: real, sigma: real)
    requires sigma > 0.0
    ensures (cut + sigma * mix) / sigma == cut / sigma + mix
  {
  }

  lemma ProjectionSplits(c: Config, next: Tensor, mu: Tensor, x: Tensor, cx: Tensor, z: Coeffs, b: int, j: int)
    requires Runnable(c) && Orthonormal(c) && 0 <= j < c.modes
    requires forall t :: 0 <= t < c.waypoints ==>
      Sum(c.dims, Scaled(c, next, mu, b, t))
      == Sum(c.dims, Scaled(c, x, cx, b, t)) + c.dims as real * Sum(c.modes, Projected(c, z, b, t))
    ensures Projection(c, next, mu, b)(j) == z(b, j) + Projection(c, x, cx, b)(j)
  {
    hide TransitionStd, Scaled, Sum;
    var whole, cut := ProjectionTerm(c, next, mu, b, j), ProjectionTerm(c, x, cx, b, j);
    var mix := (t: int) => Sum(c.modes, Projected(c, z, b, t)) * c.basis(t, j);
    forall t | 0 <= t < c.waypoints ensures whole(t) == cut(t) + c.dims as real * mix(t) {
      Distribute(Sum(c.dims, Scaled(c, x, cx, b, t)), c.dims as real, Sum(c.modes, Projected(c, z, b, t)),
                 c.basis(t, j));
    }
    ProjectModes(c, z, b, j, mix);
    SumsSplit(c.waypoints, c.dims as real, whole, cut, mix);
  }

  lemma SumsSplit(n: nat, scale: real, whole: int -> real, cut: int -> real, mix: int -> real)
    requires scale > 0.0 && forall t :: 0 <= t < n ==> whole(t) == cut(t) + scale * mix(t)
    ensures Sum(n, whole) / scale == Sum(n, mix) + Sum(n, cut) / scale
  {
    var mixed := (t: int) => scale * mix(t);
    SumAdd(n, cut, mixed, whole);
    SumScale(n, scale, mix, mixed);
    SplitQuotient(Sum(n, cut), Sum(n, mix), scale);
  }

  lemma Distribute(u: real, n: real, v: real, w: real)
    ensures (u + n * v) * w == u * w + n * (v * w)
  {
  }

  /** At every stochastic step the replayed residual is the injected coefficient plus what clipping cut off. */
  lemma ResidualIsCoefficientPlusOverflow(c: Config, expert: (Tensor, real) -> Tensor, x: Tensor, k: nat, z: Coeffs,
                                          b: int, j: int)
    requires Runnable(c) && Orthonormal(c) && k < c.steps && k in c.stochasticSteps && 0 <= j < c.modes
    ensures Residual(c, expert, x, Next(c, expert, x, k, z), k, b)(j) == z(b, j) + Overflow(c, x, b)(j)
  {
    var next, mu := Next(c, expert, x, k, z), TransitionMean(c, expert, x, k);
    forall t | 0 <= t < c.waypoints
      ensures Sum(c.dims, Scaled(c, next, mu, b, t))
              == Sum(c.dims, Scaled(c, x, Clipped(x, c.clipBound), b, t))
                 + c.dims as real * Sum(c.modes, Projected(c, z, b, t))
    {
      forall d
        ensures next(b, t, d) - mu(b, t, d)
                == x(b, t, d) - Clipped(x, c.clipBound)(b, t, d) + Perturbation(c, z)(b, t, d)
      {
        NextExceedsMean(c, expert, x, k, z, b, t, d);
      }
      ScaledSplits(c, next, mu, x, Clipped(x, c.clipBound), z, b, t);
    }
    ProjectionSplits(c, next, mu, x, Clipped(x, c.clipBound), z, b, j);
  }

  /** No mode sees what clipping cuts off sample `b`. */
  ghost predicate Unclipped(c: Config, x: Tensor, b: int)
    requires Runnable(c)
  {
    forall j :: 0 <= j < c.modes ==> Overflow(c, x, b)(j) == 0.0
  }

  /** A step's residuals are the injected coefficients exactly when clipping is invisible to the modes. */
  lemma ResidualExactWhenUnclipped(c: Config, expert: (Tensor, real) -> Tensor, x: Tensor, k: nat, z: Coeffs, b: int)
    requires Runnable(c) && Orthonormal(c) && k < c.steps && k in c.stochasticSteps
    ensures (forall j :: 0 <= j < c.modes ==> Residual(c, expert, x, Next(c, expert, x, k, z), k, b)(j) == z(b, j))
            <==> Unclipped(c, x, b)
  {
    forall j | 0 <= j < c.modes
      ensures Residual(c, expert, x, Next(c, expert, x, k, z), k, b)(j) == z(b, j) + Overflow(c, x, b)(j)
    {
      ResidualIsCoefficientPlusOverflow(c, expert, x, k, z, b, j);
    }
  }

  /** A state within the clip bound is unclipped. */
  lemma WithinBoundUnclipped(c: Config, x: Tensor, b: int)
    requires Runnable(c)
    requires forall t, d :: 0 <= t < c.waypoints && 0 <= d < c.dims ==> -c.clipBound <= x(b, t, d) <= c.clipBound
    ensures Unclipped(c, x, b)
  {
    var cx := Clipped(x, c.clipBound);
    forall j | 0 <= j < c.modes ensures Overflow(c, x, b)(j) == 0.0 {
      forall t | 0 <= t < c.waypoints ensures ProjectionTerm(c, x, cx, b, j)(t) == 0.0 {
        forall d | 0 <= d < c.dims ensures Scaled(c, x, cx, b, t)(d) == 0.0 {
          assert x(b, t, d) == cx(b, t, d);
        }
        SumZero(c.dims, Scaled(c, x, cx, b, t));
      }
      SumZero(c.waypoints, ProjectionTerm(c, x, cx, b, j));
    }
  }

  lemma InjectedCount(c: Config, draw: int -> Coeffs, k: nat)
    ensures |Injected(c, draw, k)| == StochasticCount(c, k)
  {
  }

  lemma {:induction false} StatesPrefix(c: Config, expert: (Tensor, real) -> Tensor, noise: Tensor, draw: int -> Coeffs,
                                        k: nat, n: nat)
    requires Runnable(c) && k <= n <= c.steps
    ensures States(c, expert, noise, draw, n)[..k + 1] == States(c, expert, noise, draw, k)
  {
    if k < n {
      StatesPrefix(c, expert, noise, draw, k, n - 1);
    }
  }

  lemma {:induction false} ReplayPrefix(c: Config, expert: (Tensor, real) -> Tensor, noise: Tensor, draw: int -> Coeffs,
                                        k: nat, b: int)
    requires Runnable(c) && Orthonormal(c) && k <= c.steps
    requires forall i :: 0 <= i < c.steps && i in c.stochasticSteps ==>
      Unclipped(c, States(c, expert, noise, draw, c.steps)[i], b)
    ensures ReplayLogprob(c, expert, States(c, expert, noise, draw, c.steps), k, b)
            == OldLogprob(c, Injected(c, draw, k), b)
  {
    if k > 0 {
      ReplayPrefix(c, expert, noise, draw, k - 1, b);
      var states, before := States(c, expert, noise, draw, c.steps), Injected(c, draw, k - 1);
      if k - 1 in c.stochasticSteps {
        StatesPrefix(c, expert, noise, draw, k, c.steps);
        StatesPrefix(c, expert, noise, draw, k - 1, c.steps);
        assert states[k] == states[..k + 1][k] && states[k - 1] == states[..k][k - 1];
        assert states[k] == Next(c, expert, states[k - 1], k - 1, draw(k - 1));
        ResidualExactWhenUnclipped(c, expert, states[k - 1], k - 1, draw(k - 1), b);
        SameMeanSquare(c, Residual(c, expert, states[k - 1], states[k], k - 1, b), Row(draw(k - 1), b));
        assert (before + [draw(k - 1)])[..|before|] == before;
      } else {
        assert before + [] == before;
      }
    }
  }

  lemma SameMeanSquare(c: Config, r: int -> real, z: int -> real)
    requires Runnable(c) && forall j :: 0 <= j < c.modes ==> r(j) == z(j)
    ensures MeanSquare(c, r) == MeanSquare(c, z)
  {
    SumEq(c.modes, Squares(r), Squares(z));
  }

  /** Scoring a rollout's own states gives its own log-density, for every expert, every orthonormal basis and every
      set of stochastic steps, when those steps' states are unclipped; and the step-count check passes always. */
  lemma ReplayMatchesRollout(c: Config, expert: (Tensor, real) -> Tensor, noise: Tensor, draw: int -> Coeffs, b: int)
    requires Runnable(c) && Orthonormal(c)
    ensures |Injected(c, draw, c.steps)| == StochasticCount(c, c.steps)
    ensures (forall i :: 0 <= i < c.steps && i in c.stochasticSteps ==>
               Unclipped(c, States(c, expert, noise, draw, c.steps)[i], b)) ==>
            ReplayLogprob(c, expert, States(c, expert, noise, draw, c.steps), c.steps, b)
            == OldLogprob(c, Injected(c, draw, c.steps), b)
  {
    InjectedCount(c, draw, c.steps);
    if forall i :: 0 <= i < c.steps && i in c.stochasticSteps ==>
         Unclipped(c, States(c, expert, noise, draw, c.steps)[i], b) {
      ReplayPrefix(c, expert, noise, draw, c.steps, b);
    }
  }

  /** One step, one waypoint, one mode, a clip bound of 5 and a first state of 6: the replayed residual is off by the
      clipped unit, so the scores differ already at the rollout's own parameters. */
  lemma ClippedStateDisagrees(logNorm: real)
    ensures var c := Config(1, 1.0, 1.0, 1, [0], 0.1, 0.001, 5.0, 1, 1, logNorm, (_, _) => 1.0);
      var still: (Tensor, real) -> Tensor := (x, _) => x;
      var noise: Tensor := (_, _, _) => 6.0;
      var draw: int -> Coeffs := _ => (_, _) => 0.0;
      && Runnable(c) && Orthonormal(c)
      && ReplayLogprob(c, still, States(c, still, noise, draw, 1), 1, 0) != OldLogprob(c, Injected(c, draw, 1), 0)
  {
    var c := Config(1, 1.0, 1.0, 1, [0], 0.1, 0.001, 5.0, 1, 1, logNorm, (_, _) => 1.0);
    var still: (Tensor, real) -> Tensor := (x, _) => x;
    var noise: Tensor := (_, _, _) => 6.0;
    var draw: int -> Coeffs := _ => (_, _) => 0.0;
    forall j, l | 0 <= j < c.modes && 0 <= l < c.modes ensures Sum(1, BasisProduct(c, j, l)) == 1.0 {
      SumOnly(1, 0, BasisProduct(c, j, l));
    }
    assert Orthonormal(c);
    ResidualIsCoefficientPlusOverflow(c, still, noise, 0, draw(0), 0, 0);
    var cx := Clipped(noise, c.clipBound);
    assert TransitionStd(c) == 1.0 && cx(0, 0, 0) == 5.0;
    SumOnly(1, 0, Scaled(c, noise, cx, 0, 0));
    assert Sum(1, Scaled(c, noise, cx, 0, 0)) == 1.0;
    SumOnly(1, 0, ProjectionTerm(c, noise, cx, 0, 0));
    assert Sum(1, ProjectionTerm(c, noise, cx, 0, 0)) == 1.0;
    assert Overflow(c, noise, 0)(0) == 1.0;
  }

  // ---------- what the scores are ----------

  /** The log-density of `sigma * r` under a Gaussian of deviation sigma, whose log normaliser is `logNorm`. */
  function LogDensity(c: Config, r: real): real {
    -0.5 * (r * r) - c.logNorm
  }

  function LogDensities(c: Config, r: int -> real): int -> real {
    (j: int) => LogDensity(c, r(j))
  }

  /** The log-density averaged over the modes. */
  function MeanDensity(c: Config, r: int -> real): real
    requires Runnable(c)
  {
    Sum(c.modes, LogDensities(c, r)) / c.modes as real
  }

  lemma MeanSplits(n: nat, total: real, square: real, norm: real)
    requires n > 0 && total == -0.5 * square + n as real * -norm
    ensures total / n as real == -0.5 * (square / n as real) - norm
  {
    var m := n as real;
    assert (-0.5 * square + m * -norm) / m == -0.5 * square / m + m * -norm / m;
    assert m * -norm / m == -norm;
    assert -0.5 * square / m == -0.5 * (square / m);
  }

  lemma MeanDensityIs(c: Config, r: int -> real)
    requires Runnable(c)
    ensures MeanDensity(c, r) == -0.5 * MeanSquare(c, r) - c.logNorm
  {
    var halves := (j: int) => -0.5 * Squares(r)(j);
    var norms: int -> real := _ => -c.logNorm;
    SumScale(c.modes, -0.5, Squares(r), halves);
    forall j | 0 <= j < c.modes
      ensures LogDensities(c, r)(j) == halves(j) + norms(j)
    {
      assert halves(j) == -0.5 * (r(j) * r(j));
    }
    SumConst(c.modes, -c.logNorm, norms);
    SumAdd(c.modes, halves, norms, LogDensities(c, r));
    MeanSplits(c.modes, Sum(c.modes, LogDensities(c, r)), Sum(c.modes, Squares(r)), c.logNorm);
  }

  function StepDensities(c: Config, zs: seq<Coeffs>, b: int): int -> real
    requires Runnable(c)
  {
    (i: int) => if 0 <= i < |zs| then MeanDensity(c, Row(zs[i], b)) else 0.0
  }

  /** The rollout's score adds up, over the injected coefficients, their mode-averaged Gaussian log-densities. */
  lemma {:induction false} OldLogprobIsDensity(c: Config, zs: seq<Coeffs>, b: int)
    requires Runnable(c)
    ensures OldLogprob(c, zs, b) == Sum(|zs|, StepDensities(c, zs, b))
  {
    hide MeanSquare, MeanDensity;
    if zs != [] {
      var front := zs[..|zs| - 1];
      OldLogprobIsDensity(c, front, b);
      MeanDensityIs(c, Row(zs[|zs| - 1], b));
      SumEq(|front|, StepDensities(c, front, b), StepDensities(c, zs, b));
    }
  }

  function ReplayDensities(c: Config, expert: (Tensor, real) -> Tensor, states: seq<Tensor>, b: int): int -> real
    requires Runnable(c) && |states| == c.steps + 1
  {
    (k: int) => if 0 <= k < c.steps && k in c.stochasticSteps
                then MeanDensity(c, Residual(c, expert, states[k], states[k + 1], k, b)) else 0.0
  }

  /** The scorer adds up the same densities of the residuals, over the stochastic steps. */
  lemma {:induction false} ReplayLogprobIsDensity(c: Config, expert: (Tensor, real) -> Tensor, states: seq<Tensor>,
                                                  k: nat, b: int)
    requires Runnable(c) && |states| == c.steps + 1 && k <= c.steps
    ensures ReplayLogprob(c, expert, states, k, b) == Sum(k, ReplayDensities(c, expert, states, b))
  {
    hide MeanSquare, MeanDensity, Residual;
    if k > 0 {
      ReplayLogprobIsDensity(c, expert, states, k - 1, b);
      if k - 1 in c.stochasticSteps {
        MeanDensityIs(c, Residual(c, expert, states[k - 1], states[k], k - 1, b));
      }
    }
  }

  // ---------- other parameters ----------

  function Plus(u: Tensor, v: Tensor): Tensor {
    (b: int, t: int, d: int) => u(b, t, d) + v(b, t, d)
  }

  lemma ScaledAdds(c: Config, u: Tensor, v: Tensor, du: Tensor, dv: Tensor, b: int, t: int)
    requires Runnable(c)
    ensures Sum(c.dims, Scaled(c, Plus(u, du), Plus(v, dv), b, t))
            == Sum(c.dims, Scaled(c, u, v, b, t)) + Sum(c.dims, Scaled(c, du, dv, b, t))
  {
    hide TransitionStd;
    var f, g, h := Scaled(c, u, v, b, t), Scaled(c, du, dv, b, t), Scaled(c, Plus(u, du), Plus(v, dv), b, t);
    forall d | 0 <= d < c.dims
      ensures h(d) == f(d) + g(d)
    {
      QuotientAdds(u(b, t, d) - v(b, t, d), du(b, t, d) - dv(b, t, d), TransitionStd(c));
    }
    SumAdd(c.dims, f, g, h);
  }

  lemma QuotientAdds(a: real, b: real, n: real)
    requires n > 0.0
    ensures (a + b) / n == a / n + b / n
  {
  }

  lemma TimesAdds(a: real, b: real, c: real)
    ensures (a + b) * c == a * c + b * c
  {
  }

  /** Projecting is linear. */
  lemma ProjectionAdds(c: Config, u: Tensor, v: Tensor, du: Tensor, dv: Tensor, b: int, j: int)
    requires Runnable(c)
    ensures Projection(c, Plus(u, du), Plus(v, dv), b)(j) == Projection(c, u, v, b)(j) + Projection(c, du, dv, b)(j)
  {
    hide TransitionStd, Scaled;
    var f, g := ProjectionTerm(c, u, v, b, j), ProjectionTerm(c, du, dv, b, j);
    var h := ProjectionTerm(c, Plus(u, du), Plus(v, dv), b, j);
    forall t | 0 <= t < c.waypoints
      ensures h(t) == f(t) + g(t)
    {
      ScaledAdds(c, u, v, du, dv, b, t);
      TimesAdds(Sum(c.dims, Scaled(c, u, v, b, t)), Sum(c.dims, Scaled(c, du, dv, b, t)), c.basis(t, j));
    }
    SumAdd(c.waypoints, f, g, h);
    QuotientAdds(Sum(c.waypoints, f), Sum(c.waypoints, g), c.dims as real);
  }

  /** Scored by another expert, the residual of a step is the injected coefficient, plus what the modes see of the
      clipping, plus what they see of the difference between the two experts' drifts. */
  lemma ResidualUnderOtherExpert(c: Config, expert: (Tensor, real) -> Tensor, other: (Tensor, real) -> Tensor,
                                 x: Tensor, k: nat, z: Coeffs, b: int, j: int)
    requires Runnable(c) && Orthonormal(c) && k < c.steps && k in c.stochasticSteps && 0 <= j < c.modes
    ensures (var clipped := Clipped(x, c.clipBound);
             Residual(c, other, x, Next(c, expert, x, k, z), k, b)(j)
             == z(b, j) + Overflow(c, x, b)(j)
                + Projection(c, MeanDrift(c, expert, clipped, k), MeanDrift(c, other, clipped, k), b)(j))
  {
    hide MeanDrift, TransitionStd;
    var next, mu, clipped := Next(c, expert, x, k, z), TransitionMean(c, other, x, k), Clipped(x, c.clipBound);
    var drift, otherDrift := MeanDrift(c, expert, clipped, k), MeanDrift(c, other, clipped, k);
    var u, v := Plus(x, drift), Plus(clipped, otherDrift);
    ProjectionAdds(c, x, clipped, drift, otherDrift, b, j);
    hide Next, TransitionMean, Clipped, Projection;
    forall t | 0 <= t < c.waypoints
      ensures Sum(c.dims, Scaled(c, next, mu, b, t))
              == Sum(c.dims, Scaled(c, u, v, b, t)) + c.dims as real * Sum(c.modes, Projected(c, z, b, t))
    {
      forall d
        ensures next(b, t, d) - mu(b, t, d) == u(b, t, d) - v(b, t, d) + Perturbation(c, z)(b, t, d)
      {
        NextExceedsOther(c, expert, other, x, k, z, b, t, d);
      }
      ScaledSplits(c, next, mu, u, v, z, b, t);
    }
    ProjectionSplits(c, next, mu, u, v, z, b, j);
  }

  lemma NextExceedsOther(c: Config, expert: (Tensor, real) -> Tensor, other: (Tensor, real) -> Tensor, x: Tensor,
                         k: nat, z: Coeffs, b: int, t: int, d: int)
    requires Runnable(c) && k < c.steps && k in c.stochasticSteps
    ensures (var clipped := Clipped(x, c.clipBound);
             var (u, v) := (Plus(x, MeanDrift(c, expert, clipped, k)), Plus(clipped, MeanDrift(c, other, clipped, k)));
             Next(c, expert, x, k, z)(b, t, d) - TransitionMean(c, other, x, k)(b, t, d)
             == u(b, t, d) - v(b, t, d) + Perturbation(c, z)(b, t, d))
  {
    hide MeanDrift, Perturbation;
    StepIs(c, expert, x, k, z, b, t, d);
    assert TransitionMean(c, other, x, k)(b, t, d)
        == Clipped(x, c.clipBound)(b, t, d) + MeanDrift(c, other, Clipped(x, c.clipBound), k)(b, t, d);
  }
}
