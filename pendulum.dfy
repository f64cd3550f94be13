/** Pendulum-v1 with three torques: an inverted pendulum that never
    terminates. `step` integrates the angular velocity, clamps it, moves the
    angle by the clamped velocity and wraps it into `[-pi, pi)`; the reward
    is minus a sum of weighted squares. */
module Pendulum {
  import opened Common
  import opened Core
  import opened Rng
  import opened FloatMath
  import Episode
  import Vector

  const G: real := 10.0
  const M: real := 1.0
  const L: real := 1.0
  const MAX_SPEED: real := 8.0
  const MAX_TORQUE: real := 2.0
  const DT: real := 0.05
  const DEFAULT_MAX_EPISODE_STEPS: u32 := 200
  /** The angular acceleration per unit of `sin theta`, `3 g / (2 l)`. */
  const GRAVITY_GAIN: real := 15.0
  /** The angular acceleration per unit of torque, `3 / (m l^2)`. */
  const TORQUE_GAIN: real := 3.0
  /** The seed of `PendulumEnv::default()`. */
  const DEFAULT_SEED: u64 := 42

  /** The two gains are the source's expressions over `g`, `m` and `l`. */
  lemma Gains()
    ensures GRAVITY_GAIN == 3.0 * G / (2.0 * L)
    ensures TORQUE_GAIN == 3.0 / (M * L * L)
  {
  }

  /** Angle, angular velocity, the step counter and limit, and the stream. */
  datatype State = State(theta: real, thetaDot: real, steps: nat, maxEpisodeSteps: u32, rng: RngStream)

  /** `PendulumEnv::new(seed)`: at rest at angle 0, limit 200. */
  function Initial(seed: u64): (s: State)
    ensures s.theta == 0.0 && s.thetaDot == 0.0
    ensures s.steps == 0 && s.maxEpisodeSteps == DEFAULT_MAX_EPISODE_STEPS && s.rng == RngFromSeed(seed)
  {
    State(0.0, 0.0, 0, DEFAULT_MAX_EPISODE_STEPS, RngFromSeed(seed))
  }

  /** The observation `[cos theta, sin theta, theta_dot]`. */
  function Obs(m: Trig, s: State): (o: seq<real>)
    ensures |o| == 3
    ensures o[0] == m.cos(s.theta) && o[1] == m.sin(s.theta) && o[2] == s.thetaDot
    ensures -1.0 <= o[0] <= 1.0 && -1.0 <= o[1] <= 1.0
  {
    [m.cos(s.theta), m.sin(s.theta), s.thetaDot]
  }

  /** `angle_normalize`: the angle wrap into `[-pi, pi)`. */
  function AngleNormalize(x: real): (r: real)
    ensures -PI <= r < PI
    ensures -PI <= x < PI ==> r == x
    ensures WrapAngle(r) == r
  {
    WrapAngleRange(x);
    WrapAngleIdempotent(x);
    WrapAngle(x)
  }

  /** Action 0 applies `-max_torque`, 1 nothing, anything else
      `+max_torque`. */
  function Torque(action: u32): (u: real)
    ensures action == 0 ==> u == -MAX_TORQUE
    ensures action == 1 ==> u == 0.0
    ensures action >= 2 ==> u == MAX_TORQUE
  {
    match action
    case 0 => -MAX_TORQUE
    case 1 => 0.0
    case _ => MAX_TORQUE
  }

  /** The angular velocity after one step: integrated, then clamped to
      `[-max_speed, max_speed]`. */
  function NewSpeed(m: Trig, s: State, torque: real): (v: real)
    ensures -MAX_SPEED <= v <= MAX_SPEED
    ensures var w := s.thetaDot + (GRAVITY_GAIN * m.sin(s.theta) + TORQUE_GAIN * torque) * DT;
      v == Clamp(w, -MAX_SPEED, MAX_SPEED)
  {
    var thetaDdot := GRAVITY_GAIN * m.sin(s.theta) + TORQUE_GAIN * torque;
    var v1 := s.thetaDot + thetaDdot * DT;
    var v2 := if v1 > MAX_SPEED then MAX_SPEED else v1;
    if v2 < -MAX_SPEED then -MAX_SPEED else v2
  }

  /** The cost of a step: squared normalised angle, plus weighted squared
      speed and torque; never negative, and zero when upright, at rest and
      unpushed. */
  function Cost(thetaNorm: real, thetaDot: real, torque: real): (c: real)
    ensures c >= 0.0
    ensures thetaNorm == 0.0 && thetaDot == 0.0 && torque == 0.0 ==> c == 0.0
  {
    thetaNorm * thetaNorm + 0.1 * (thetaDot * thetaDot) + 0.001 * (torque * torque)
  }

  /** `step(action)`: the speed is clamped before the angle moves by it;
      the angle is wrapped, so normalising it again for the cost changes
      nothing; the reward is minus the cost, and no step terminates. */
  function StepOf(m: Trig, s: State, action: u32): (p: (State, Step<seq<real>>))
    ensures p.0.thetaDot == NewSpeed(m, s, Torque(action))
    ensures -MAX_SPEED <= p.0.thetaDot <= MAX_SPEED
    ensures p.0.theta == AngleNormalize(s.theta + p.0.thetaDot * DT)
    ensures -PI <= p.0.theta < PI
    ensures p.0.steps == s.steps + 1 && p.0.maxEpisodeSteps == s.maxEpisodeSteps && p.0.rng == s.rng
    ensures p.1.reward == -Cost(p.0.theta, p.0.thetaDot, Torque(action))
    ensures p.1.reward <= 0.0
    ensures !p.1.terminated
    ensures p.1.truncated <==> s.steps + 1 >= s.maxEpisodeSteps as nat
    ensures p.1.observation == Obs(m, p.0) && p.1.info == []
  {
    var torque := Torque(action);
    var thetaDot := NewSpeed(m, s, torque);
    var theta := AngleNormalize(s.theta + thetaDot * DT);
    var s' := s.(theta := theta, thetaDot := thetaDot, steps := s.steps + 1);
    var thetaNorm := AngleNormalize(theta);
    (s', NewStep(Obs(m, s'), -Cost(thetaNorm, thetaDot, torque), false, s'.steps >= s.maxEpisodeSteps as nat, []))
  }

  /** `reset(seed)`: reseed when a seed is given, draw the angle from
      `[-pi, pi]` and then the speed from `[-1, 1]`, zero the counter. */
  function ResetOf(m: Trig, u: Uniform, s: State, seed: Option<u64>): (p: (State, (seq<real>, Entries)))
    ensures var r := Reseeded(s.rng, seed);
      && p.0.theta == u.inclusive(r, -PI, PI)
      && p.0.thetaDot == u.inclusive(Skip(r, 1), -1.0, 1.0)
      && p.0.rng == Skip(r, 2)
    ensures ValidUniform(u) ==> -PI <= p.0.theta <= PI && -1.0 <= p.0.thetaDot <= 1.0
    ensures p.0.steps == 0 && p.0.maxEpisodeSteps == s.maxEpisodeSteps
    ensures p.1 == (Obs(m, p.0), [])
  {
    var (theta, r1) := DrawInclusive(u, Reseeded(s.rng, seed), -PI, PI);
    var (thetaDot, r2) := DrawInclusive(u, r1, -1.0, 1.0);
    var s' := State(theta, thetaDot, 0, s.maxEpisodeSteps, r2);
    (s', (Obs(m, s'), []))
  }

  /** The environment as a `Core.Env`. */
  function EnvOf(m: Trig, u: Uniform, render: State -> Option<RenderFrame>): (e: Env<State, u32, seq<real>>)
    ensures forall s, a :: e.step(s, a) == StepOf(m, s, a)
    ensures forall s, seed :: e.reset(s, seed) == ResetOf(m, u, s, seed)
  {
    Env((s, seed) => ResetOf(m, u, s, seed), (s, a) => StepOf(m, s, a), render, s => s)
  }

  /** The step counter and the episode limit of a state. */
  function Count(s: State): nat { s.steps }
  function Limit(s: State): nat { s.maxEpisodeSteps as nat }

  /** `step` and `reset` keep the episode bookkeeping, and no step pays
      more than 0.0. */
  lemma Bookkeeping(m: Trig, u: Uniform, render: State -> Option<RenderFrame>)
    ensures Episode.CountsSteps(EnvOf(m, u, render), Count, Limit)
    ensures Episode.ResetsCount(EnvOf(m, u, render), Count, Limit)
    ensures Episode.PaysAtMost(EnvOf(m, u, render), 0.0)
  {
  }

  /** After `reset` and `k` steps the counter is `k`, and step `k` (from 1)
      is truncated exactly when `k` reaches the limit, since no step
      terminates. */
  lemma Episodes(m: Trig, u: Uniform, render: State -> Option<RenderFrame>, s: State, seed: Option<u64>, actions: seq<u32>)
    ensures var e := EnvOf(m, u, render);
      var s0 := e.reset(s, seed).0;
      && Episode.Final(e, s0, actions).steps == |actions|
      && (forall k :: 0 <= k < |actions| ==>
            (Vector.Rollout(e, s0, actions)[k].truncated <==> k + 1 >= s.maxEpisodeSteps as nat))
  {
    Bookkeeping(m, u, render);
    Episode.EpisodeTruncation(EnvOf(m, u, render), Count, Limit, s, seed, actions);
  }

  /** No run returns more than 0.0. */
  lemma ReturnNonPositive(m: Trig, u: Uniform, render: State -> Option<RenderFrame>, s: State, actions: seq<u32>)
    ensures Episode.Return(Vector.Rollout(EnvOf(m, u, render), s, actions)) <= 0.0
  {
    Bookkeeping(m, u, render);
    Episode.ReturnNonPositive(EnvOf(m, u, render), s, actions);
  }

  /** `PendulumEnv`, its fields updated in place. */
  class PendulumEnv {
    const libm: Trig
    const uniform: Uniform
    var theta: real
    var thetaDot: real
    var maxEpisodeSteps: u32
    /** The step counter; the source's `u32` is unbounded here. */
    var steps: nat
    var rng: RngStream

    /** The fields as one value. */
    function Snapshot(): State
      reads this
    {
      State(theta, thetaDot, steps, maxEpisodeSteps, rng)
    }

    /** `PendulumEnv::new(seed)`. */
    constructor (libm: Trig, uniform: Uniform, seed: u64)
      ensures this.libm == libm && this.uniform == uniform
      ensures Snapshot() == Initial(seed)
    {
      this.libm := libm;
      this.uniform := uniform;
      theta, thetaDot := 0.0, 0.0;
      maxEpisodeSteps := DEFAULT_MAX_EPISODE_STEPS;
      steps := 0;
      rng := RngFromSeed(seed);
    }

    /** `reset`: reseed, draw angle then speed, zero the counter. */
    method Reset(seed: Option<u64>) returns (obs: seq<real>, info: Entries)
      modifies this
      ensures (Snapshot(), (obs, info)) == ResetOf(libm, uniform, old(Snapshot()), seed)
    {
      if seed.Some? {
        rng := RngFromSeed(seed.value);
      }
      var d := DrawInclusive(uniform, rng, -PI, PI);
      theta, rng := d.0, d.1;
      d := DrawInclusive(uniform, rng, -1.0, 1.0);
      thetaDot, rng := d.0, d.1;
      steps := 0;
      obs, info := Obs(libm, Snapshot()), [];
    }

    /** `step`: the speed update and its clamps, the angle update and wrap,
        then the cost of the new state. */
    method Step(action: u32) returns (st: Step<seq<real>>)
      modifies this
      ensures (Snapshot(), st) == StepOf(libm, old(Snapshot()), action)
    {
      ghost var before := Snapshot();
      var torque := Torque(action);
      var thetaDdot := GRAVITY_GAIN * libm.sin(theta) + TORQUE_GAIN * torque;
      thetaDot := thetaDot + thetaDdot * DT;
      if thetaDot > MAX_SPEED { thetaDot := MAX_SPEED; }
      if thetaDot < -MAX_SPEED { thetaDot := -MAX_SPEED; }
      assert thetaDot == NewSpeed(libm, before, torque);
      theta := theta + thetaDot * DT;
      theta := AngleNormalize(theta);
      steps := steps + 1;
      var thetaNorm := AngleNormalize(theta);
      var cost := Cost(thetaNorm, thetaDot, torque);
      var truncated := steps >= maxEpisodeSteps as nat;
      st := NewStep(Obs(libm, Snapshot()), -cost, false, truncated, []);
    }
  }
}
