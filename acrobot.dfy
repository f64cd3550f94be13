/** Acrobot-v1: a double pendulum driven by a torque on its second joint.
    `step` advances both angles and velocities by one classical Runge-Kutta
    step over the equations of motion, wraps the angles into `[-pi, pi)`,
    clamps the velocities, and ends the episode once the tip is high
    enough. */
module Acrobot {
  import opened Common
  import opened Core
  import opened Rng
  import opened FloatMath
  import Episode
  import Vector

  /** The physical parameters of `AcrobotEnv::new`. */
  const M1: real := 1.0
  const M2: real := 1.0
  const L1: real := 1.0
  const L2: real := 1.0
  const LC1: real := 0.5
  const LC2: real := 0.5
  const I1: real := 1.0
  const I2: real := 1.0
  const G: real := 9.8
  const DT: real := 0.2
  const MAX_VEL_1: real := 4.0 * PI
  const MAX_VEL_2: real := 9.0 * PI
  const DEFAULT_MAX_EPISODE_STEPS: u32 := 500
  /** The seed of `AcrobotEnv::default()`. */
  const DEFAULT_SEED: u64 := 7
  /** The interval `reset` draws both velocities from. */
  const START_VEL: real := 0.1

  /** The coefficients of the equations of motion, folded from the
      parameters above; `Coefficients` shows each one equals the source's
      expression. */
  const D1_CONST: real := 3.5
  const D1_COS: real := 1.0
  const D2_CONST: real := 1.25
  const D2_COS: real := 0.5
  const PHI2_GAIN: real := 4.9
  const PHI1_GAIN: real := 14.7
  const CORIOLIS: real := 0.5
  const INERTIA2: real := 1.25

  /** Each folded coefficient is the source's product of parameters. */
  lemma Coefficients()
    ensures D1_CONST == M1 * LC1 * LC1 + M2 * (L1 * L1 + LC2 * LC2) + I1 + I2
    ensures D1_COS == M2 * 2.0 * L1 * LC2
    ensures D2_CONST == M2 * LC2 * LC2 + I2 && INERTIA2 == M2 * LC2 * LC2 + I2
    ensures D2_COS == M2 * L1 * LC2 && CORIOLIS == M2 * L1 * LC2
    ensures PHI2_GAIN == M2 * LC2 * G
    ensures PHI1_GAIN == (M1 * LC1 + M2 * L1) * G
  {
  }

  /** Both angles, both angular velocities, the step counter and limit, and
      the stream. */
  datatype State = State(th1: real, th2: real, dth1: real, dth2: real, steps: nat, maxEpisodeSteps: u32, rng: RngStream)

  /** The part of the state the integrator advances. */
  datatype Phase = Phase(th1: real, th2: real, dth1: real, dth2: real)

  function PhaseOf(s: State): Phase
  {
    Phase(s.th1, s.th2, s.dth1, s.dth2)
  }

  /** `AcrobotEnv::new(seed)`: hanging at rest, limit 500. */
  function Initial(seed: u64): (s: State)
    ensures s.th1 == 0.0 && s.th2 == 0.0 && s.dth1 == 0.0 && s.dth2 == 0.0
    ensures s.steps == 0 && s.maxEpisodeSteps == DEFAULT_MAX_EPISODE_STEPS && s.rng == RngFromSeed(seed)
  {
    State(0.0, 0.0, 0.0, 0.0, 0, DEFAULT_MAX_EPISODE_STEPS, RngFromSeed(seed))
  }

  /** The observation `[th1, th2, dth1, dth2]`. */
  function Obs(s: State): (o: seq<real>)
    ensures |o| == 4 && o[0] == s.th1 && o[1] == s.th2 && o[2] == s.dth1 && o[3] == s.dth2
  {
    [s.th1, s.th2, s.dth1, s.dth2]
  }

  /** `terminal_height_reached`: the tip is at least one link length above
      the pivot. */
  predicate TerminalHeightReached(m: Trig, s: State)
  {
    -m.cos(s.th1) - m.cos(s.th1 + s.th2) >= 1.0
  }

  /** Action 0 applies torque -1, 1 none, anything else +1. */
  function Torque(action: u32): (u: real)
    ensures action == 0 ==> u == -1.0
    ensures action == 1 ==> u == 0.0
    ensures action >= 2 ==> u == 1.0
  {
    match action
    case 0 => -1.0
    case 1 => 0.0
    case _ => 1.0
  }

  /** The first diagonal entry of the mass matrix; it stays in `[2.5, 4.5]`. */
  function D1(m: Trig, th2: real): (d: real)
    ensures 2.5 <= d <= 4.5
  {
    D1_CONST + D1_COS * m.cos(th2)
  }

  /** The off-diagonal entry of the mass matrix; it stays in `[0.75, 1.75]`. */
  function D2(m: Trig, th2: real): (d: real)
    ensures 0.75 <= d <= 1.75
  {
    D2_CONST + D2_COS * m.cos(th2)
  }

  /** The gravity term of the second link. */
  function Phi2(m: Trig, th1: real, th2: real): real
  {
    PHI2_GAIN * m.cos(th1 + th2 - HALF_PI)
  }

  /** The Coriolis, centrifugal and gravity terms of the first joint. */
  function Phi1(m: Trig, th1: real, th2: real, dth1: real, dth2: real): real
  {
    -CORIOLIS * dth2 * dth2 * m.sin(th2)
      - 2.0 * CORIOLIS * dth2 * dth1 * m.sin(th2)
      + PHI1_GAIN * m.cos(th1 - HALF_PI)
      + Phi2(m, th1, th2)
  }

  /** `a * (z / a) == z` for every non-zero `a`. */
  lemma MulDivCancel(a: real, z: real)
    requires a != 0.0
    ensures a * (z / a) == z
  {
  }

  /** The elimination `dynamics` performs on the system
      `[[a, b], [b, c]] (x, y) = (-p, q)`: for a positive pivot `a` and a
      non-zero Schur complement `c - b^2/a`, solve for `y` first, then
      back-substitute for `x`; the result solves the system. */
  function SolveTwoByTwo(a: real, b: real, c: real, p: real, q: real): (r: (real, real))
    requires a > 0.0 && c - b * b / a != 0.0
    ensures a * r.0 + b * r.1 == -p && b * r.0 + c * r.1 == q
  {
    var den := c - b * b / a;
    var n := q + b / a * p;
    var y := n / den;
    var x := -(b * y + p) / a;
    MulDivCancel(a, -(b * y + p));
    MulDivCancel(den, n);
    assert b * x == -(b * b / a) * y - b / a * p;
    (x, y)
  }

  /** The divisor of the second acceleration stays positive: with `c` the
      cosine of the second angle, `1.25 d1 - d2^2 = 2.8125 - 0.25 c^2`. */
  lemma SchurPositive(m: Trig, th2: real)
    ensures INERTIA2 - D2(m, th2) * D2(m, th2) / D1(m, th2) > 0.0
  {
    var c := m.cos(th2);
    var d1 := D1(m, th2);
    var d2 := D2(m, th2);
    SquareAtMostOne(c);
    assert d2 * d2 == 1.5625 + 1.25 * c + 0.25 * (c * c);
    assert d2 * d2 < INERTIA2 * d1;
    assert d2 * d2 / d1 < INERTIA2;
  }

  /** `dynamics`: the angular accelerations `(ddth1, ddth2)`. Both divisors
      are non-zero, and the result solves the equations of motion, the mass
      matrix `[[d1, d2], [d2, 1.25]]` times the accelerations being the
      generalised forces. */
  function Dynamics(m: Trig, th1: real, th2: real, dth1: real, dth2: real, torque: real): (r: (real, real))
    ensures D1(m, th2) * r.0 + D2(m, th2) * r.1 == -Phi1(m, th1, th2, dth1, dth2)
    ensures D2(m, th2) * r.0 + INERTIA2 * r.1 ==
      torque - CORIOLIS * dth1 * dth1 * m.sin(th2) - Phi2(m, th1, th2)
  {
    SchurPositive(m, th2);
    SolveTwoByTwo(D1(m, th2), D2(m, th2), INERTIA2, Phi1(m, th1, th2, dth1, dth2),
                  torque - CORIOLIS * dth1 * dth1 * m.sin(th2) - Phi2(m, th1, th2))
  }

  /** An acceleration law: angles, velocities and torque to accelerations. */
  type Accel = (real, real, real, real, real) -> (real, real)

  /** The acrobot's acceleration law: `dynamics` over the library `m`.
      `StepOf`, `EnvOf` and the lemmas about them take any law `f`; the
      acrobot is their instance `f == AccelOf(m)`, the law `AcrobotEnv`
      fixes in its constructor. */
  function AccelOf(m: Trig): Accel
  {
    (th1, th2, dth1, dth2, torque) => Dynamics(m, th1, th2, dth1, dth2, torque)
  }

  /** The time derivative of a phase under the law `f`: the velocities,
      then the accelerations. */
  function Deriv(f: Accel, p: Phase, torque: real): (d: Phase)
    ensures d.th1 == p.dth1 && d.th2 == p.dth2
    ensures (d.dth1, d.dth2) == f(p.th1, p.th2, p.dth1, p.dth2, torque)
  {
    var (a1, a2) := f(p.th1, p.th2, p.dth1, p.dth2, torque);
    Phase(p.dth1, p.dth2, a1, a2)
  }

  /** The phase `s + h d`. */
  function Probe(s: Phase, h: real, d: Phase): Phase
  {
    Phase(s.th1 + h * d.th1, s.th2 + h * d.th2, s.dth1 + h * d.dth1, s.dth2 + h * d.dth2)
  }

  /** Under the acrobot's law every stage slope is the velocities followed
      by accelerations that solve the equations of motion at that phase. */
  lemma AcrobotSlopes(m: Trig, p: Phase, torque: real)
    ensures var d := Deriv(AccelOf(m), p, torque);
      && d.th1 == p.dth1 && d.th2 == p.dth2
      && D1(m, p.th2) * d.dth1 + D2(m, p.th2) * d.dth2 == -Phi1(m, p.th1, p.th2, p.dth1, p.dth2)
      && D2(m, p.th2) * d.dth1 + INERTIA2 * d.dth2 ==
           torque - CORIOLIS * p.dth1 * p.dth1 * m.sin(p.th2) - Phi2(m, p.th1, p.th2)
  {
  }

  /** One classical Runge-Kutta step of length `DT` under the law `f`: the
      slopes at the start, twice at the midpoint and at the end, combined
      with weights `(1, 2, 2, 1) / 6`. */
  function Rk4(f: Accel, s: Phase, torque: real): Phase
  {
    var k1 := Deriv(f, s, torque);
    var k2 := Deriv(f, Probe(s, 0.5 * DT, k1), torque);
    var k3 := Deriv(f, Probe(s, 0.5 * DT, k2), torque);
    var k4 := Deriv(f, Probe(s, DT, k3), torque);
    Phase(s.th1 + DT * (k1.th1 + 2.0 * k2.th1 + 2.0 * k3.th1 + k4.th1) / 6.0,
          s.th2 + DT * (k1.th2 + 2.0 * k2.th2 + 2.0 * k3.th2 + k4.th2) / 6.0,
          s.dth1 + DT * (k1.dth1 + 2.0 * k2.dth1 + 2.0 * k3.dth1 + k4.dth1) / 6.0,
          s.dth2 + DT * (k1.dth2 + 2.0 * k2.dth2 + 2.0 * k3.dth2 + k4.dth2) / 6.0)
  }

  /** The law `f` ignores its arguments and always accelerates by
      `(c1, c2)`. */
  ghost predicate ConstantAccel(f: Accel, c1: real, c2: real)
  {
    forall th1, th2, dth1, dth2, torque :: f(th1, th2, dth1, dth2, torque) == (c1, c2)
  }

  /** The weights are those of a consistent integrator: under a constant
      acceleration the step is exact, moving each angle by `v dt + a dt^2/2`
      and each velocity by `a dt`. */
  lemma Rk4ConstantAccel(f: Accel, c1: real, c2: real, s: Phase, torque: real)
    requires ConstantAccel(f, c1, c2)
    ensures Rk4(f, s, torque) ==
      Phase(s.th1 + DT * s.dth1 + 0.5 * (DT * DT) * c1, s.th2 + DT * s.dth2 + 0.5 * (DT * DT) * c2,
            s.dth1 + DT * c1, s.dth2 + DT * c2)
  {
  }

  /** `step(action)` under the law `f` (the acrobot's is `AccelOf(m)`):
      one Runge-Kutta step of the dynamics, both angles
      wrapped into `[-pi, pi)`, both velocities clamped to their limits; the
      episode ends at the terminal height, paying 0.0 there and -1.0 on every
      other step. */
  function StepOf(m: Trig, f: Accel, s: State, action: u32): (p: (State, Step<seq<real>>))
    ensures var r := Rk4(f, PhaseOf(s), Torque(action));
      && p.0.th1 == WrapAngle(r.th1) && p.0.th2 == WrapAngle(r.th2)
      && p.0.dth1 == Clamp(r.dth1, -MAX_VEL_1, MAX_VEL_1)
      && p.0.dth2 == Clamp(r.dth2, -MAX_VEL_2, MAX_VEL_2)
    ensures -PI <= p.0.th1 < PI && -PI <= p.0.th2 < PI
    ensures -MAX_VEL_1 <= p.0.dth1 <= MAX_VEL_1 && -MAX_VEL_2 <= p.0.dth2 <= MAX_VEL_2
    ensures p.0.steps == s.steps + 1 && p.0.maxEpisodeSteps == s.maxEpisodeSteps && p.0.rng == s.rng
    ensures p.1.terminated <==> TerminalHeightReached(m, p.0)
    ensures p.1.reward == (if p.1.terminated then 0.0 else -1.0)
    ensures p.1.truncated <==> s.steps + 1 >= s.maxEpisodeSteps as nat
    ensures p.1.observation == Obs(p.0) && p.1.info == []
  {
    var r := Rk4(f, PhaseOf(s), Torque(action));
    WrapAngleRange(r.th1);
    WrapAngleRange(r.th2);
    var s' := s.(th1 := WrapAngle(r.th1), th2 := WrapAngle(r.th2),
                 dth1 := Clamp(r.dth1, -MAX_VEL_1, MAX_VEL_1), dth2 := Clamp(r.dth2, -MAX_VEL_2, MAX_VEL_2),
                 steps := s.steps + 1);
    var terminated := TerminalHeightReached(m, s');
    (s', NewStep(Obs(s'), if terminated then 0.0 else -1.0, terminated, s'.steps >= s.maxEpisodeSteps as nat, []))
  }

  /** `reset(seed)`: reseed when a seed is given, then draw `th1`, `th2`
      from `[-pi, pi]` and `dth1`, `dth2` from `[-0.1, 0.1]`, in that order,
      and zero the counter. */
  function ResetOf(u: Uniform, s: State, seed: Option<u64>): (p: (State, (seq<real>, Entries)))
    ensures var r := Reseeded(s.rng, seed);
      && p.0.th1 == u.inclusive(r, -PI, PI)
      && p.0.th2 == u.inclusive(Skip(r, 1), -PI, PI)
      && p.0.dth1 == u.inclusive(Skip(r, 2), -START_VEL, START_VEL)
      && p.0.dth2 == u.inclusive(Skip(r, 3), -START_VEL, START_VEL)
      && p.0.rng == Skip(r, 4)
    ensures ValidUniform(u) ==>
      && -PI <= p.0.th1 <= PI && -PI <= p.0.th2 <= PI
      && -START_VEL <= p.0.dth1 <= START_VEL && -START_VEL <= p.0.dth2 <= START_VEL
    ensures p.0.steps == 0 && p.0.maxEpisodeSteps == s.maxEpisodeSteps
    ensures p.1 == (Obs(p.0), [])
  {
    var (th1, r1) := DrawInclusive(u, Reseeded(s.rng, seed), -PI, PI);
    var (th2, r2) := DrawInclusive(u, r1, -PI, PI);
    var (dth1, r3) := DrawInclusive(u, r2, -START_VEL, START_VEL);
    var (dth2, r4) := DrawInclusive(u, r3, -START_VEL, START_VEL);
    var s' := State(th1, th2, dth1, dth2, 0, s.maxEpisodeSteps, r4);
    (s', (Obs(s'), []))
  }

  /** The environment as a `Core.Env`. */
  function EnvOf(m: Trig, f: Accel, u: Uniform, render: State -> Option<RenderFrame>): (e: Env<State, u32, seq<real>>)
    ensures forall s, a :: e.step(s, a) == StepOf(m, f, s, a)
    ensures forall s, seed :: e.reset(s, seed) == ResetOf(u, s, seed)
  {
    Env((s, seed) => ResetOf(u, s, seed), (s, a) => StepOf(m, f, s, a), render, s => s)
  }

  /** The step counter and the episode limit of a state. */
  function Count(s: State): nat { s.steps }
  function Limit(s: State): nat { s.maxEpisodeSteps as nat }

  /** `step` and `reset` keep the episode bookkeeping, and no step pays
      more than 0.0. */
  lemma Bookkeeping(m: Trig, f: Accel, u: Uniform, render: State -> Option<RenderFrame>)
    ensures Episode.CountsSteps(EnvOf(m, f, u, render), Count, Limit)
    ensures Episode.ResetsCount(EnvOf(m, f, u, render), Count, Limit)
    ensures Episode.PaysAtMost(EnvOf(m, f, u, render), 0.0)
  {
    var e := EnvOf(m, f, u, render);
    forall s, a
      ensures Count(e.step(s, a).0) == Count(s) + 1 && Limit(e.step(s, a).0) == Limit(s)
      ensures e.step(s, a).1.truncated <==> Count(e.step(s, a).0) >= Limit(s)
      ensures e.step(s, a).1.reward <= 0.0
    {
      assert e.step(s, a) == StepOf(m, f, s, a);
    }
    forall s, seed
      ensures Count(e.reset(s, seed).0) == 0 && Limit(e.reset(s, seed).0) == Limit(s)
    {
      assert e.reset(s, seed) == ResetOf(u, s, seed);
    }
  }

  /** After `reset` and `k` steps the counter is `k`, and step `k` (from 1)
      is truncated exactly when `k` reaches the limit. */
  lemma Episodes(m: Trig, f: Accel, u: Uniform, render: State -> Option<RenderFrame>, s: State, seed: Option<u64>, actions: seq<u32>)
    ensures var e := EnvOf(m, f, u, render);
      var s0 := e.reset(s, seed).0;
      && Episode.Final(e, s0, actions).steps == |actions|
      && (forall k :: 0 <= k < |actions| ==>
            (Vector.Rollout(e, s0, actions)[k].truncated <==> k + 1 >= s.maxEpisodeSteps as nat))
  {
    Bookkeeping(m, f, u, render);
    Episode.EpisodeTruncation(EnvOf(m, f, u, render), Count, Limit, s, seed, actions);
  }

  /** No run returns more than 0.0. */
  lemma ReturnNonPositive(m: Trig, f: Accel, u: Uniform, render: State -> Option<RenderFrame>, s: State, actions: seq<u32>)
    ensures Episode.Return(Vector.Rollout(EnvOf(m, f, u, render), s, actions)) <= 0.0
  {
    Bookkeeping(m, f, u, render);
    Episode.ReturnNonPositive(EnvOf(m, f, u, render), s, actions);
  }

  /** `AcrobotEnv`, its fields updated in place. */
  class AcrobotEnv {
    const libm: Trig
    /** The acceleration law `step` integrates: `dynamics` over `libm`. */
    const accel: Accel
    const uniform: Uniform
    var th1: real
    var th2: real
    var dth1: real
    var dth2: real
    var maxEpisodeSteps: u32
    /** The step counter; the source's `u32` is unbounded here. */
    var steps: nat
    var rng: RngStream

    /** The fields as one value. */
    function Snapshot(): State
      reads this
    {
      State(th1, th2, dth1, dth2, steps, maxEpisodeSteps, rng)
    }

    /** `AcrobotEnv::new(seed)`. */
    constructor (libm: Trig, uniform: Uniform, seed: u64)
      ensures this.libm == libm && this.uniform == uniform && this.accel == AccelOf(libm)
      ensures Snapshot() == Initial(seed)
    {
      this.libm := libm;
      this.accel := AccelOf(libm);
      this.uniform := uniform;
      th1, th2, dth1, dth2 := 0.0, 0.0, 0.0, 0.0;
      maxEpisodeSteps := DEFAULT_MAX_EPISODE_STEPS;
      steps := 0;
      rng := RngFromSeed(seed);
    }

    /** `reset`: reseed, four draws, zero the counter. */
    method Reset(seed: Option<u64>) returns (obs: seq<real>, info: Entries)
      modifies this
      ensures (Snapshot(), (obs, info)) == ResetOf(uniform, old(Snapshot()), seed)
    {
      if seed.Some? {
        rng := RngFromSeed(seed.value);
      }
      var d := DrawInclusive(uniform, rng, -PI, PI);
      th1, rng := d.0, d.1;
      d := DrawInclusive(uniform, rng, -PI, PI);
      th2, rng := d.0, d.1;
      d := DrawInclusive(uniform, rng, -START_VEL, START_VEL);
      dth1, rng := d.0, d.1;
      d := DrawInclusive(uniform, rng, -START_VEL, START_VEL);
      dth2, rng := d.0, d.1;
      steps := 0;
      obs, info := Obs(Snapshot()), [];
    }

    /** The Runge-Kutta part of `step`: the four stages and the weighted
        in-place update of both angles and velocities. */
    method Integrate(torque: real)
      modifies this
      ensures PhaseOf(Snapshot()) == Rk4(accel, PhaseOf(old(Snapshot())), torque)
      ensures steps == old(steps) && maxEpisodeSteps == old(maxEpisodeSteps) && rng == old(rng)
    {
      ghost var s0 := PhaseOf(Snapshot());
      var k1_1, k1_2 := dth1, dth2;
      var (a1, a2) := accel(th1, th2, dth1, dth2, torque);
      ghost var k1 := Deriv(accel, s0, torque);
      assert k1 == Phase(k1_1, k1_2, a1, a2);
      var th1_2 := th1 + 0.5 * DT * k1_1;
      var th2_2 := th2 + 0.5 * DT * k1_2;
      var dth1_2 := dth1 + 0.5 * DT * a1;
      var dth2_2 := dth2 + 0.5 * DT * a2;
      var (a1_2, a2_2) := accel(th1_2, th2_2, dth1_2, dth2_2, torque);
      ghost var k2 := Deriv(accel, Probe(s0, 0.5 * DT, k1), torque);
      assert k2 == Phase(dth1_2, dth2_2, a1_2, a2_2);
      var th1_3 := th1 + 0.5 * DT * dth1_2;
      var th2_3 := th2 + 0.5 * DT * dth2_2;
      var dth1_3 := dth1 + 0.5 * DT * a1_2;
      var dth2_3 := dth2 + 0.5 * DT * a2_2;
      var (a1_3, a2_3) := accel(th1_3, th2_3, dth1_3, dth2_3, torque);
      ghost var k3 := Deriv(accel, Probe(s0, 0.5 * DT, k2), torque);
      assert k3 == Phase(dth1_3, dth2_3, a1_3, a2_3);
      var th1_4 := th1 + DT * dth1_3;
      var th2_4 := th2 + DT * dth2_3;
      var dth1_4 := dth1 + DT * a1_3;
      var dth2_4 := dth2 + DT * a2_3;
      var (a1_4, a2_4) := accel(th1_4, th2_4, dth1_4, dth2_4, torque);
      ghost var k4 := Deriv(accel, Probe(s0, DT, k3), torque);
      assert k4 == Phase(dth1_4, dth2_4, a1_4, a2_4);
      th1 := th1 + DT * (k1_1 + 2.0 * dth1_2 + 2.0 * dth1_3 + dth1_4) / 6.0;
      th2 := th2 + DT * (k1_2 + 2.0 * dth2_2 + 2.0 * dth2_3 + dth2_4) / 6.0;
      dth1 := dth1 + DT * (a1 + 2.0 * a1_2 + 2.0 * a1_3 + a1_4) / 6.0;
      dth2 := dth2 + DT * (a2 + 2.0 * a2_2 + 2.0 * a2_3 + a2_4) / 6.0;
    }

    /** `step`: integrate, then the wraps and the clamps in the source's
        order. */
    method Step(action: u32) returns (st: Step<seq<real>>)
      modifies this
      ensures (Snapshot(), st) == StepOf(libm, accel, old(Snapshot()), action)
    {
      ghost var before := Snapshot();
      var torque := Torque(action);
      Integrate(torque);
      ghost var r := Rk4(accel, PhaseOf(before), torque);
      th1 := WrapAngle(th1);
      th2 := WrapAngle(th2);
      if dth1 > MAX_VEL_1 { dth1 := MAX_VEL_1; }
      if dth1 < -MAX_VEL_1 { dth1 := -MAX_VEL_1; }
      if dth2 > MAX_VEL_2 { dth2 := MAX_VEL_2; }
      if dth2 < -MAX_VEL_2 { dth2 := -MAX_VEL_2; }
      assert dth1 == Clamp(r.dth1, -MAX_VEL_1, MAX_VEL_1) && dth2 == Clamp(r.dth2, -MAX_VEL_2, MAX_VEL_2);
      steps := steps + 1;
      assert Snapshot() == StepOf(libm, accel, before, action).0;
      var terminated := TerminalHeightReached(libm, Snapshot());
      var truncated := steps >= maxEpisodeSteps as nat;
      var reward := if terminated then 0.0 else -1.0;
      st := NewStep(Obs(Snapshot()), reward, terminated, truncated, []);
    }
  }
}
