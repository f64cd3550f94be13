/** A simplified LunarLander: a point lander with an angle, pulled down by
    gravity and pushed by a main engine and two side engines. `step` applies
    gravity and the chosen engine, damps the velocities, integrates, wraps
    the angle, and stops the lander on the ground; the episode ends with a
    landing on the pad or a crash. */
module LunarLander {
  import opened Common
  import opened Core
  import opened Rng
  import opened FloatMath
  import Episode
  import Vector

  /** The simulation parameters of `LunarLanderEnv::new`. */
  const GRAVITY: real := 0.6
  const MAIN_THRUST: real := 1.2
  const SIDE_THRUST: real := 0.6
  const ANG_DAMP: real := 0.15
  const LIN_DAMP: real := 0.02
  const DT: real := 0.05
  const X_LIMIT: real := 1.2
  const Y_LIMIT: real := 1.5
  const PAD_HALF_WIDTH: real := 0.2
  const DEFAULT_MAX_EPISODE_STEPS: u32 := 1000
  /** The seed of `LunarLanderEnv::default()`. */
  const DEFAULT_SEED: u64 := 2025
  /** The height `reset` starts from; `new` starts at 1.0. */
  const START_HEIGHT: real := 1.2
  /** The half-widths of the intervals `reset` draws `x` and the angle from. */
  const START_X: real := 0.05
  const START_ANGLE: real := 0.1
  /** How far each leg sits from the body, along `x`. */
  const LEG_OFFSET: real := 0.05
  /** The bonus for a landing and the penalty for a crash. */
  const OUTCOME: real := 100.0

  /** Position, velocity, angle and its rate, both leg contacts, the step
      counter and limit, and the stream. */
  datatype State = State(
    x: real, y: real, vx: real, vy: real, angle: real, vang: real,
    leftContact: bool, rightContact: bool,
    steps: nat, maxEpisodeSteps: u32, rng: RngStream)

  /** `LunarLanderEnv::new(seed)`: upright and at rest at height 1.0. */
  function Initial(seed: u64): (s: State)
    ensures s.x == 0.0 && s.y == 1.0 && s.vx == 0.0 && s.vy == 0.0 && s.angle == 0.0 && s.vang == 0.0
    ensures !s.leftContact && !s.rightContact
    ensures s.steps == 0 && s.maxEpisodeSteps == DEFAULT_MAX_EPISODE_STEPS && s.rng == RngFromSeed(seed)
  {
    State(0.0, 1.0, 0.0, 0.0, 0.0, 0.0, false, false, 0, DEFAULT_MAX_EPISODE_STEPS, RngFromSeed(seed))
  }

  /** `1.0` for a leg on the ground, `0.0` otherwise. */
  function ContactValue(c: bool): (v: real)
    ensures v == 1.0 || v == 0.0
    ensures v == 1.0 <==> c
  {
    if c then 1.0 else 0.0
  }

  /** The observation: the six kinematic values, then the two contacts as
      `1.0` or `0.0`. */
  function Obs(s: State): (o: seq<real>)
    ensures |o| == 8
    ensures o[..6] == [s.x, s.y, s.vx, s.vy, s.angle, s.vang]
    ensures o[6] == ContactValue(s.leftContact) && o[7] == ContactValue(s.rightContact)
  {
    [s.x, s.y, s.vx, s.vy, s.angle, s.vang, ContactValue(s.leftContact), ContactValue(s.rightContact)]
  }

  /** `landed_success`: on or below the ground, slow, nearly upright and
      over the pad. */
  predicate LandedSuccess(s: State)
  {
    && s.y <= 0.0
    && FAbs(s.vy) < 0.3
    && FAbs(s.vx) < 0.3
    && FAbs(s.angle) < 0.2
    && FAbs(s.x) <= PAD_HALF_WIDTH
  }

  /** `crashed`: on the ground too fast or too tilted, or out of bounds. */
  predicate Crashed(s: State)
  {
    || (s.y <= 0.0 && (FAbs(s.vy) >= 0.6 || FAbs(s.angle) >= 0.4))
    || FAbs(s.x) > X_LIMIT
    || s.y > Y_LIMIT
    || s.y < -0.2
  }

  /** Above or on the ground, a landing is not a crash: apart from the
      depth test, which needs `y < -0.2`, every crash condition contradicts
      one of the landing conditions. */
  lemma LandedNotCrashed(s: State)
    requires s.y >= 0.0
    ensures !(LandedSuccess(s) && Crashed(s))
  {
  }

  /** `apply_action`: action 2 fires the main engine along the body's up
      axis, 1 the left engine (push right, rotate left), 3 the right engine
      (push left, rotate right); any other action changes nothing, and no
      action touches the position, the angle or the contacts. */
  function ApplyAction(m: Trig, s: State, action: u32): (r: State)
    ensures action == 2 ==>
      r == s.(vx := s.vx + -m.sin(s.angle) * MAIN_THRUST * DT, vy := s.vy + m.cos(s.angle) * MAIN_THRUST * DT)
    ensures action == 1 ==>
      r == s.(vx := s.vx + SIDE_THRUST * DT, vang := s.vang - 1.5 * SIDE_THRUST * DT)
    ensures action == 3 ==>
      r == s.(vx := s.vx - SIDE_THRUST * DT, vang := s.vang + 1.5 * SIDE_THRUST * DT)
    ensures action !in {1, 2, 3} ==> r == s
    ensures r == s.(vx := r.vx, vy := r.vy, vang := r.vang)
  {
    if action == 2 then
      var ax := -m.sin(s.angle) * MAIN_THRUST;
      var ay := m.cos(s.angle) * MAIN_THRUST;
      s.(vx := s.vx + ax * DT, vy := s.vy + ay * DT)
    else if action == 1 then
      s.(vx := s.vx + SIDE_THRUST * DT, vang := s.vang - 1.5 * SIDE_THRUST * DT)
    else if action == 3 then
      s.(vx := s.vx - SIDE_THRUST * DT, vang := s.vang + 1.5 * SIDE_THRUST * DT)
    else
      s
  }

  /** Damping, then the integration of position and angle by the damped
      velocities, and the angle wrap; the contacts and counters are kept. */
  function Coast(s: State): (r: State)
    ensures -PI <= r.angle < PI
    ensures r.leftContact == s.leftContact && r.rightContact == s.rightContact
    ensures r.steps == s.steps && r.maxEpisodeSteps == s.maxEpisodeSteps && r.rng == s.rng
  {
    var vx := s.vx * (1.0 - LIN_DAMP);
    var vy := s.vy * (1.0 - LIN_DAMP * 0.5);
    var vang := s.vang * (1.0 - ANG_DAMP);
    WrapAngleRange(s.angle + vang * DT);
    s.(x := s.x + vx * DT, y := s.y + vy * DT, vx := vx, vy := vy, vang := vang,
       angle := WrapAngle(s.angle + vang * DT))
  }

  /** The state after gravity, the engine (actions above 3 acting as 3),
      damping, integration and the angle wrap, before the ground is
      consulted. */
  function Flight(m: Trig, s: State, action: u32): (r: State)
    ensures -PI <= r.angle < PI
    ensures r.leftContact == s.leftContact && r.rightContact == s.rightContact
    ensures r.steps == s.steps && r.maxEpisodeSteps == s.maxEpisodeSteps && r.rng == s.rng
  {
    Coast(ApplyAction(m, s.(vy := s.vy - GRAVITY * DT), Min(action as int, 3) as u32))
  }

  /** The ground rule: both contacts are cleared; a lander at or below the
      ground is put on it, stopped vertically, and each leg touches when it
      is over the pad. The result is never below the ground. */
  function Ground(s: State): (r: State)
    ensures r.y >= 0.0
    ensures s.y <= 0.0 ==>
      && r.y == 0.0 && r.vy == 0.0
      && (r.leftContact <==> FAbs(s.x - LEG_OFFSET) <= PAD_HALF_WIDTH)
      && (r.rightContact <==> FAbs(s.x + LEG_OFFSET) <= PAD_HALF_WIDTH)
    ensures s.y > 0.0 ==> r == s.(leftContact := false, rightContact := false)
    ensures r.x == s.x && r.vx == s.vx && r.angle == s.angle && r.vang == s.vang
    ensures r.steps == s.steps && r.maxEpisodeSteps == s.maxEpisodeSteps && r.rng == s.rng
  {
    if s.y <= 0.0 then
      s.(leftContact := FAbs(s.x - LEG_OFFSET) <= PAD_HALF_WIDTH,
         rightContact := FAbs(s.x + LEG_OFFSET) <= PAD_HALF_WIDTH,
         y := 0.0, vy := 0.0)
    else
      s.(leftContact := false, rightContact := false)
  }

  /** The shaping part of the reward: distance from the pad centre, speed
      and tilt, each costing; never more than 0.0. */
  function Shaping(s: State): (r: real)
    ensures r <= 0.0
  {
    -FAbs(s.x / X_LIMIT) * 0.5 - (FAbs(s.vx) + FAbs(s.vy)) * 0.1 - FAbs(s.angle) * 0.2
  }

  /** The reward of a step ending in `s`: the shaping, plus 100 for a
      landing, minus 100 for a crash. */
  function Reward(s: State): real
  {
    Shaping(s) + (if LandedSuccess(s) then OUTCOME else 0.0) - (if Crashed(s) then OUTCOME else 0.0)
  }

  /** `step(action)`: the flight, then the ground rule. The lander is never
      below the ground; in the air neither leg touches; the angle stays in
      `[-pi, pi)`; the step terminates on a landing or a crash, never both;
      and the reward is positive only for a landing, which earns more than
      99.8. */
  function StepOf(m: Trig, s: State, action: u32): (p: (State, Step<seq<real>>))
    ensures p.0 == Ground(Flight(m, s, action)).(steps := s.steps + 1)
    ensures p.0.y >= 0.0
    ensures Flight(m, s, action).y <= 0.0 ==> p.0.y == 0.0 && p.0.vy == 0.0
    ensures p.0.y > 0.0 ==> !p.0.leftContact && !p.0.rightContact
    ensures -PI <= p.0.angle < PI
    ensures p.0.maxEpisodeSteps == s.maxEpisodeSteps && p.0.rng == s.rng
    ensures p.1.terminated <==> LandedSuccess(p.0) || Crashed(p.0)
    ensures !(LandedSuccess(p.0) && Crashed(p.0))
    ensures p.1.reward == Reward(p.0)
    ensures p.1.reward > 0.0 ==> LandedSuccess(p.0)
    ensures LandedSuccess(p.0) ==> p.1.reward > 99.8
    ensures p.1.reward <= OUTCOME
    ensures p.1.truncated <==> s.steps + 1 >= s.maxEpisodeSteps as nat
    ensures p.1.observation == Obs(p.0) && p.1.info == []
  {
    var s' := Ground(Flight(m, s, action)).(steps := s.steps + 1);
    LandedNotCrashed(s');
    LandingReward(s');
    (s', NewStep(Obs(s'), Reward(s'), LandedSuccess(s') || Crashed(s'), s'.steps >= s.maxEpisodeSteps as nat, []))
  }

  /** A landing pays more than 99.8: over the pad, slow and upright, the
      shaping costs less than 0.2. */
  lemma LandingReward(s: State)
    requires s.y >= 0.0
    ensures LandedSuccess(s) ==> Reward(s) > 99.8
    ensures Reward(s) > 0.0 ==> LandedSuccess(s)
    ensures Reward(s) <= OUTCOME
  {
    LandedNotCrashed(s);
    if LandedSuccess(s) {
      assert FAbs(s.x / X_LIMIT) <= 0.2 by {
        assert FAbs(s.x) <= 0.2;
        assert s.x / X_LIMIT == s.x / 1.2;
      }
    }
  }

  /** Actions above 3 act exactly as action 3, the right engine. */
  lemma ActionsAboveThree(m: Trig, s: State, action: u32)
    requires action >= 3
    ensures StepOf(m, s, action) == StepOf(m, s, 3)
  {
    assert Min(action as int, 3) as u32 == 3;
    assert Flight(m, s, action) == Flight(m, s, 3);
  }

  /** On the ground the vertical speed is zero by the time it is tested, so
      both the landing and the crash tests see a lander at rest vertically:
      the outcome of a touchdown depends only on where it lands and how it
      is tilted and drifting, not on how fast it falls. */
  lemma TouchdownIgnoresFallSpeed(m: Trig, s: State, action: u32)
    requires Flight(m, s, action).y <= 0.0
    ensures var n := StepOf(m, s, action).0;
      var f := Flight(m, s, action);
      && (LandedSuccess(n) <==> FAbs(f.vx) < 0.3 && FAbs(f.angle) < 0.2 && FAbs(f.x) <= PAD_HALF_WIDTH)
      && (Crashed(n) <==> FAbs(f.angle) >= 0.4 || FAbs(f.x) > X_LIMIT)
  {
  }

  /** `reset(seed)`: reseed when a seed is given, draw `x` from
      `[-0.05, 0.05]` and then the angle from `[-0.1, 0.1]`; start at
      height 1.2 at rest with no contact, and zero the counter. */
  function ResetOf(u: Uniform, s: State, seed: Option<u64>): (p: (State, (seq<real>, Entries)))
    ensures var r := Reseeded(s.rng, seed);
      && p.0.x == u.inclusive(r, -START_X, START_X)
      && p.0.angle == u.inclusive(Skip(r, 1), -START_ANGLE, START_ANGLE)
      && p.0.rng == Skip(r, 2)
    ensures p.0.y == START_HEIGHT && p.0.vx == 0.0 && p.0.vy == 0.0 && p.0.vang == 0.0
    ensures !p.0.leftContact && !p.0.rightContact
    ensures p.0.steps == 0 && p.0.maxEpisodeSteps == s.maxEpisodeSteps
    ensures ValidUniform(u) ==> -START_X <= p.0.x <= START_X && -START_ANGLE <= p.0.angle <= START_ANGLE
    ensures p.1 == (Obs(p.0), [])
  {
    var s' := Spawn(u, Reseeded(s.rng, seed), s.maxEpisodeSteps);
    (s', (Obs(s'), []))
  }

  /** The lander `reset` starts from the stream `r`: `x`, then the angle,
      drawn from it, at rest at height 1.2 with no contact, counter zero. */
  function Spawn(u: Uniform, r: RngStream, maxEpisodeSteps: u32): State
  {
    var (x, r1) := DrawInclusive(u, r, -START_X, START_X);
    var (angle, r2) := DrawInclusive(u, r1, -START_ANGLE, START_ANGLE);
    State(x, START_HEIGHT, 0.0, 0.0, angle, 0.0, false, false, 0, maxEpisodeSteps, r2)
  }

  /** A reset lander has neither landed nor crashed. */
  lemma ResetNotTerminated(u: Uniform, s: State, seed: Option<u64>)
    requires ValidUniform(u)
    ensures var s0 := ResetOf(u, s, seed).0;
      !LandedSuccess(s0) && !Crashed(s0)
  {
  }

  /** The environment as a `Core.Env`. */
  function EnvOf(m: Trig, u: Uniform, render: State -> Option<RenderFrame>): (e: Env<State, u32, seq<real>>)
    ensures forall s, a :: e.step(s, a) == StepOf(m, s, a)
    ensures forall s, seed :: e.reset(s, seed) == ResetOf(u, s, seed)
  {
    Env((s, seed) => ResetOf(u, s, seed), (s, a) => StepOf(m, s, a), render, s => s)
  }

  /** The step counter and the episode limit of a state. */
  function Count(s: State): nat { s.steps }
  function Limit(s: State): nat { s.maxEpisodeSteps as nat }

  /** `step` and `reset` keep the episode bookkeeping, and no step pays
      more than 100. */
  lemma Bookkeeping(m: Trig, u: Uniform, render: State -> Option<RenderFrame>)
    ensures Episode.CountsSteps(EnvOf(m, u, render), Count, Limit)
    ensures Episode.ResetsCount(EnvOf(m, u, render), Count, Limit)
    ensures Episode.PaysAtMost(EnvOf(m, u, render), OUTCOME)
  {
  }

  /** After `reset` and `k` steps the counter is `k`, and step `k` (from 1)
      is truncated exactly when `k` reaches the limit. */
  lemma Episodes(m: Trig, u: Uniform, render: State -> Option<RenderFrame>, s: State, seed: Option<u64>, actions: seq<u32>)
    ensures var e := EnvOf(m, u, render);
      var s0 := e.reset(s, seed).0;
      && Episode.Final(e, s0, actions).steps == |actions|
      && (forall k :: 0 <= k < |actions| ==>
            (Vector.Rollout(e, s0, actions)[k].truncated <==> k + 1 >= s.maxEpisodeSteps as nat))
  {
    Bookkeeping(m, u, render);
    Episode.EpisodeTruncation(EnvOf(m, u, render), Count, Limit, s, seed, actions);
  }

  /** A run of `k` steps returns at most `100 k`. */
  lemma ReturnBounded(m: Trig, u: Uniform, render: State -> Option<RenderFrame>, s: State, actions: seq<u32>)
    ensures Episode.Return(Vector.Rollout(EnvOf(m, u, render), s, actions)) <= (|actions| as real) * OUTCOME
  {
    Bookkeeping(m, u, render);
    Episode.ReturnAtMost(EnvOf(m, u, render), OUTCOME, s, actions);
  }

  /** `LunarLanderEnv`, its fields updated in place. */
  class LunarLanderEnv {
    const libm: Trig
    const uniform: Uniform
    var x: real
    var y: real
    var vx: real
    var vy: real
    var angle: real
    var vang: real
    var leftContact: bool
    var rightContact: bool
    var maxEpisodeSteps: u32
    /** The step counter; the source's `u32` is unbounded here. */
    var steps: nat
    var rng: RngStream

    /** The fields as one value. */
    function Snapshot(): State
      reads this
    {
      State(x, y, vx, vy, angle, vang, leftContact, rightContact, steps, maxEpisodeSteps, rng)
    }

    /** `LunarLanderEnv::new(seed)`. */
    constructor (libm: Trig, uniform: Uniform, seed: u64)
      ensures this.libm == libm && this.uniform == uniform
      ensures Snapshot() == Initial(seed)
    {
      this.libm := libm;
      this.uniform := uniform;
      x, y, vx, vy, angle, vang := 0.0, 1.0, 0.0, 0.0, 0.0, 0.0;
      leftContact, rightContact := false, false;
      maxEpisodeSteps := DEFAULT_MAX_EPISODE_STEPS;
      steps := 0;
      rng := RngFromSeed(seed);
    }

    /** `reset`: reseed, draw `x` then the angle, restart above the ground. */
    method Reset(seed: Option<u64>) returns (obs: seq<real>, info: Entries)
      modifies this
      ensures (Snapshot(), (obs, info)) == ResetOf(uniform, old(Snapshot()), seed)
    {
      if seed.Some? {
        rng := RngFromSeed(seed.value);
      }
      SpawnInPlace();
      obs, info := Obs(Snapshot()), [];
    }

    /** The draws and field resets of `reset`, in place. */
    method SpawnInPlace()
      modifies this
      ensures Snapshot() == Spawn(uniform, old(rng), old(maxEpisodeSteps))
    {
      var d := DrawInclusive(uniform, rng, -START_X, START_X);
      x, rng := d.0, d.1;
      y, vx, vy := START_HEIGHT, 0.0, 0.0;
      d := DrawInclusive(uniform, rng, -START_ANGLE, START_ANGLE);
      angle, rng := d.0, d.1;
      vang := 0.0;
      leftContact, rightContact := false, false;
      steps := 0;
    }

    /** `apply_action`, in place. */
    method ApplyActionInPlace(action: u32)
      modifies this
      ensures Snapshot() == ApplyAction(libm, old(Snapshot()), action)
    {
      if action == 2 {
        var ca := libm.cos(angle);
        var sa := libm.sin(angle);
        var ax := -sa * MAIN_THRUST;
        var ay := ca * MAIN_THRUST;
        vx := vx + ax * DT;
        vy := vy + ay * DT;
      }
      if action == 1 {
        vx := vx + SIDE_THRUST * DT;
        vang := vang - 1.5 * SIDE_THRUST * DT;
      }
      if action == 3 {
        vx := vx - SIDE_THRUST * DT;
        vang := vang + 1.5 * SIDE_THRUST * DT;
      }
    }

    /** Gravity, then the engine, in place. */
    method Thrust(action: u32)
      modifies this
      ensures Snapshot() == ApplyAction(libm, old(Snapshot()).(vy := old(vy) - GRAVITY * DT), Min(action as int, 3) as u32)
    {
      vy := vy - GRAVITY * DT;
      ApplyActionInPlace(Min(action as int, 3) as u32);
    }

    /** Damping, integration and the angle wrap, in place. */
    method CoastInPlace()
      modifies this
      ensures Snapshot() == Coast(old(Snapshot()))
    {
      vx := vx * (1.0 - LIN_DAMP);
      vy := vy * (1.0 - LIN_DAMP * 0.5);
      vang := vang * (1.0 - ANG_DAMP);
      x := x + vx * DT;
      y := y + vy * DT;
      angle := angle + vang * DT;
      angle := WrapAngle(angle);
    }

    /** The ground collision part of `step`, in place. */
    method Touch()
      modifies this
      ensures Snapshot() == Ground(old(Snapshot()))
    {
      leftContact, rightContact := false, false;
      if y <= 0.0 {
        var leftOnPad := FAbs(x - LEG_OFFSET) <= PAD_HALF_WIDTH;
        var rightOnPad := FAbs(x + LEG_OFFSET) <= PAD_HALF_WIDTH;
        leftContact := leftOnPad;
        rightContact := rightOnPad;
        y := 0.0;
        vy := 0.0;
      }
    }

    /** `step`: fly, touch the ground, count the step, then the reward
        accumulated in a local. */
    method Step(action: u32) returns (st: Step<seq<real>>)
      modifies this
      ensures (Snapshot(), st) == StepOf(libm, old(Snapshot()), action)
    {
      ghost var before := Snapshot();
      Thrust(action);
      CoastInPlace();
      Touch();
      steps := steps + 1;
      assert Snapshot() == StepOf(libm, before, action).0;
      var landed := LandedSuccess(Snapshot());
      var crashed := Crashed(Snapshot());
      var terminated := landed || crashed;
      var truncated := steps >= maxEpisodeSteps as nat;
      var reward := 0.0;
      reward := reward - FAbs(x / X_LIMIT) * 0.5;
      reward := reward - (FAbs(vx) + FAbs(vy)) * 0.1;
      reward := reward - FAbs(angle) * 0.2;
      if landed { reward := reward + OUTCOME; }
      if crashed { reward := reward - OUTCOME; }
      st := NewStep(Obs(Snapshot()), reward, terminated, truncated, []);
    }
  }
}
