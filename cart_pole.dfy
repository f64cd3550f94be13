/** CartPole-v1: a pole hinged on a cart pushed left or right. The state is
    updated field by field in `step`; `StepOf` and `ResetOf` state what a
    `step` and a `reset` produce, and the lemmas below say what that means
    for termination, truncation and the return. */
module CartPole {
  import opened Common
  import opened Core
  import opened Rng
  import opened FloatMath
  import Episode
  import Vector

  const GRAVITY: real := 9.8
  const MASSCART: real := 1.0
  const MASSPOLE: real := 0.1
  const TOTAL_MASS: real := MASSCART + MASSPOLE
  /** Half the pole's length. */
  const LENGTH: real := 0.5
  const POLEMASS_LENGTH: real := MASSPOLE * LENGTH
  const FORCE_MAG: real := 10.0
  /** Seconds between state updates. */
  const TAU: real := 0.02
  /** Twelve degrees, in radians. */
  const THETA_THRESHOLD: real := 12.0 * (PI / 180.0)
  const X_THRESHOLD: real := 2.4
  const DEFAULT_MAX_EPISODE_STEPS: u32 := 500
  /** The seed of `CartPoleEnv::default()`. */
  const DEFAULT_SEED: u64 := 1_234_567
  /** Half the width of the interval every `reset` value is drawn from. */
  const RESET_NOISE: real := 0.05

  /** Cart position and velocity, pole angle (0 upright) and angular
      velocity, the episode's step counter and limit, and the stream. */
  datatype State = State(
    x: real, xDot: real, theta: real, thetaDot: real,
    steps: nat, maxEpisodeSteps: u32, rng: RngStream)

  /** `CartPoleEnv::new(seed)`: everything at rest, limit 500. */
  function Initial(seed: u64): (s: State)
    ensures s.x == 0.0 && s.xDot == 0.0 && s.theta == 0.0 && s.thetaDot == 0.0
    ensures s.steps == 0 && s.maxEpisodeSteps == DEFAULT_MAX_EPISODE_STEPS
    ensures s.rng == RngFromSeed(seed)
  {
    State(0.0, 0.0, 0.0, 0.0, 0, DEFAULT_MAX_EPISODE_STEPS, RngFromSeed(seed))
  }

  /** The observation `[x, x_dot, theta, theta_dot]`. */
  function Obs(s: State): (o: seq<real>)
    ensures |o| == 4
    ensures o == [s.x, s.xDot, s.theta, s.thetaDot]
  {
    [s.x, s.xDot, s.theta, s.thetaDot]
  }

  /** The episode ends once the cart leaves `[-2.4, 2.4]` or the pole leaves
      `[-12°, 12°]`; both comparisons are strict. */
  predicate Terminated(s: State)
  {
    s.x < -X_THRESHOLD || s.x > X_THRESHOLD || s.theta < -THETA_THRESHOLD || s.theta > THETA_THRESHOLD
  }

  /** A state is terminal exactly when it lies outside the closed box of
      allowed positions and angles; the box's edges are not terminal. */
  lemma TerminatedOutsideBox(s: State)
    ensures Terminated(s) <==> !(-X_THRESHOLD <= s.x <= X_THRESHOLD && -THETA_THRESHOLD <= s.theta <= THETA_THRESHOLD)
    ensures s.x == X_THRESHOLD && s.theta == -THETA_THRESHOLD ==> !Terminated(s)
  {
  }

  /** Action 1 pushes right with `force_mag`; every other action pushes
      left. */
  function Force(action: u32): (f: real)
    ensures f == FORCE_MAG <==> action == 1
    ensures f == -FORCE_MAG <==> action != 1
  {
    if action == 1 then FORCE_MAG else -FORCE_MAG
  }

  /** The cart and pole accelerations under `force`, from the pre-step
      angle and angular velocity. The pole's denominator stays positive
      because the cosine lies in `[-1, 1]`. */
  function Accelerations(m: Trig, s: State, force: real): (acc: (real, real))
  {
    var cosTheta := m.cos(s.theta);
    var sinTheta := m.sin(s.theta);
    var temp := (force + POLEMASS_LENGTH * (s.thetaDot * s.thetaDot) * sinTheta) / TOTAL_MASS;
    SquareAtMostOne(cosTheta);
    var thetaAcc := (GRAVITY * sinTheta - cosTheta * temp)
      / (LENGTH * (4.0 / 3.0 - MASSPOLE * (cosTheta * cosTheta) / TOTAL_MASS));
    var xAcc := temp - POLEMASS_LENGTH * thetaAcc * cosTheta / TOTAL_MASS;
    (xAcc, thetaAcc)
  }

  /** `step(action)`: Euler integration in which the new position and angle
      use the velocities from before the step; one more step counted;
      reward 1.0 on every step, the terminating one included; truncation
      depends on the counter alone. */
  function StepOf(m: Trig, s: State, action: u32): (p: (State, Step<seq<real>>))
    ensures p.0.x == s.x + TAU * s.xDot && p.0.theta == s.theta + TAU * s.thetaDot
    ensures var acc := Accelerations(m, s, Force(action));
      p.0.xDot == s.xDot + TAU * acc.0 && p.0.thetaDot == s.thetaDot + TAU * acc.1
    ensures p.0.steps == s.steps + 1 && p.0.maxEpisodeSteps == s.maxEpisodeSteps && p.0.rng == s.rng
    ensures p.1.reward == 1.0
    ensures p.1.terminated <==> Terminated(p.0)
    ensures p.1.truncated <==> s.steps + 1 >= s.maxEpisodeSteps as nat
    ensures p.1.observation == Obs(p.0) && p.1.info == []
  {
    var acc := Accelerations(m, s, Force(action));
    var s' := s.(
      x := s.x + TAU * s.xDot, xDot := s.xDot + TAU * acc.0,
      theta := s.theta + TAU * s.thetaDot, thetaDot := s.thetaDot + TAU * acc.1,
      steps := s.steps + 1);
    (s', NewStep(Obs(s'), 1.0, Terminated(s'), s'.steps >= s.maxEpisodeSteps as nat, []))
  }

  /** `reset(seed)`: reseed when a seed is given, then draw position,
      velocity, angle and angular velocity in that order from
      `[-0.05, 0.05]`; the counter restarts at zero. */
  function ResetOf(u: Uniform, s: State, seed: Option<u64>): (p: (State, (seq<real>, Entries)))
    ensures var r := Reseeded(s.rng, seed);
      && p.0.x == u.inclusive(r, -RESET_NOISE, RESET_NOISE)
      && p.0.xDot == u.inclusive(Skip(r, 1), -RESET_NOISE, RESET_NOISE)
      && p.0.theta == u.inclusive(Skip(r, 2), -RESET_NOISE, RESET_NOISE)
      && p.0.thetaDot == u.inclusive(Skip(r, 3), -RESET_NOISE, RESET_NOISE)
      && p.0.rng == Skip(r, 4)
    ensures ValidUniform(u) ==>
      && -RESET_NOISE <= p.0.x <= RESET_NOISE && -RESET_NOISE <= p.0.xDot <= RESET_NOISE
      && -RESET_NOISE <= p.0.theta <= RESET_NOISE && -RESET_NOISE <= p.0.thetaDot <= RESET_NOISE
    ensures p.0.steps == 0 && p.0.maxEpisodeSteps == s.maxEpisodeSteps
    ensures p.1 == (Obs(p.0), [])
  {
    var r0 := Reseeded(s.rng, seed);
    var (x, r1) := DrawInclusive(u, r0, -RESET_NOISE, RESET_NOISE);
    var (xDot, r2) := DrawInclusive(u, r1, -RESET_NOISE, RESET_NOISE);
    var (theta, r3) := DrawInclusive(u, r2, -RESET_NOISE, RESET_NOISE);
    var (thetaDot, r4) := DrawInclusive(u, r3, -RESET_NOISE, RESET_NOISE);
    var s' := State(x, xDot, theta, thetaDot, 0, s.maxEpisodeSteps, r4);
    (s', (Obs(s'), []))
  }

  /** A freshly reset pole is never already terminal. */
  lemma ResetNotTerminated(u: Uniform, s: State, seed: Option<u64>)
    requires ValidUniform(u)
    ensures !Terminated(ResetOf(u, s, seed).0)
  {
  }

  /** The environment as a `Core.Env`; `close` does nothing and the
      picture a `render` returns is supplied by the caller. */
  function EnvOf(m: Trig, u: Uniform, render: State -> Option<RenderFrame>): (e: Env<State, u32, seq<real>>)
    ensures forall s, a :: e.step(s, a) == StepOf(m, s, a)
    ensures forall s, seed :: e.reset(s, seed) == ResetOf(u, s, seed)
  {
    Env((s, seed) => ResetOf(u, s, seed), (s, a) => StepOf(m, s, a), render, s => s)
  }

  /** The step counter and the episode limit of a state. */
  function Count(s: State): nat { s.steps }
  function Limit(s: State): nat { s.maxEpisodeSteps as nat }

  /** `step` and `reset` keep the episode bookkeeping. */
  lemma Bookkeeping(m: Trig, u: Uniform, render: State -> Option<RenderFrame>)
    ensures Episode.CountsSteps(EnvOf(m, u, render), Count, Limit)
    ensures Episode.ResetsCount(EnvOf(m, u, render), Count, Limit)
    ensures Episode.PaysConstant(EnvOf(m, u, render), 1.0)
  {
  }

  /** Over a whole episode: after `reset` and `k` steps the counter is `k`,
      and step `k` (from 1) is truncated exactly when `k` reaches the
      limit, whether or not the pole has fallen. */
  lemma Episodes(m: Trig, u: Uniform, render: State -> Option<RenderFrame>, s: State, seed: Option<u64>, actions: seq<u32>)
    ensures var e := EnvOf(m, u, render);
      var s0 := e.reset(s, seed).0;
      && Episode.Final(e, s0, actions).steps == |actions|
      && (forall k :: 0 <= k < |actions| ==>
            (Vector.Rollout(e, s0, actions)[k].truncated <==> k + 1 >= s.maxEpisodeSteps as nat))
  {
    Bookkeeping(m, u, render);
    Episode.EpisodeTruncation(EnvOf(m, u, render), Count, Limit, s, seed, actions);
  }

  /** Every step pays 1.0, so `k` steps from any state return `k`. */
  lemma ReturnIsLength(m: Trig, u: Uniform, render: State -> Option<RenderFrame>, s: State, actions: seq<u32>)
    ensures Episode.Return(Vector.Rollout(EnvOf(m, u, render), s, actions)) == |actions| as real
  {
    Bookkeeping(m, u, render);
    Episode.ReturnOfUnitRewards(EnvOf(m, u, render), s, actions);
  }

  /** `CartPoleEnv`: the physical state and the counter are fields updated
      in place; the math library and the distributions are fixed at
      construction. */
  class CartPoleEnv {
    const libm: Trig
    const uniform: Uniform
    var x: real
    var xDot: real
    var theta: real
    var thetaDot: real
    /** The step counter; the source's `u32` is unbounded here. */
    var steps: nat
    var maxEpisodeSteps: u32
    var rng: RngStream

    /** The fields as one value. */
    function Snapshot(): State
      reads this
    {
      State(x, xDot, theta, thetaDot, steps, maxEpisodeSteps, rng)
    }

    /** `CartPoleEnv::new(seed)`. */
    constructor (libm: Trig, uniform: Uniform, seed: u64)
      ensures this.libm == libm && this.uniform == uniform
      ensures Snapshot() == Initial(seed)
    {
      this.libm := libm;
      this.uniform := uniform;
      x, xDot, theta, thetaDot := 0.0, 0.0, 0.0, 0.0;
      steps := 0;
      maxEpisodeSteps := DEFAULT_MAX_EPISODE_STEPS;
      rng := RngFromSeed(seed);
    }

    /** `reset`: reseed, draw the four values in order, zero the counter. */
    method Reset(seed: Option<u64>) returns (obs: seq<real>, info: Entries)
      modifies this
      ensures (Snapshot(), (obs, info)) == ResetOf(uniform, old(Snapshot()), seed)
    {
      if seed.Some? {
        rng := RngFromSeed(seed.value);
      }
      var d := DrawInclusive(uniform, rng, -RESET_NOISE, RESET_NOISE);
      x, rng := d.0, d.1;
      d := DrawInclusive(uniform, rng, -RESET_NOISE, RESET_NOISE);
      xDot, rng := d.0, d.1;
      d := DrawInclusive(uniform, rng, -RESET_NOISE, RESET_NOISE);
      theta, rng := d.0, d.1;
      d := DrawInclusive(uniform, rng, -RESET_NOISE, RESET_NOISE);
      thetaDot, rng := d.0, d.1;
      steps := 0;
      obs, info := Obs(Snapshot()), [];
    }

    /** `step`: accelerations from the current state, then the four Euler
      updates in order, the counter, and the transition result. */
    method Step(action: u32) returns (st: Step<seq<real>>)
      modifies this
      ensures (Snapshot(), st) == StepOf(libm, old(Snapshot()), action)
    {
      var force := Force(action);
      var acc := Accelerations(libm, Snapshot(), force);
      x := x + TAU * xDot;
      xDot := xDot + TAU * acc.0;
      theta := theta + TAU * thetaDot;
      thetaDot := thetaDot + TAU * acc.1;
      steps := steps + 1;
      var terminated := Terminated(Snapshot());
      var truncated := steps >= maxEpisodeSteps as nat;
      st := NewStep(Obs(Snapshot()), 1.0, terminated, truncated, []);
    }
  }
}
