/** MountainCarContinuous-v0: the mountain car driven by a throttle in
    `[-1, 1]`. State, observation, `reset` and the clamped update are those
    of `MountainCar`; the action is clipped, scaled by `power`, paid for
    quadratically, and reaching the goal earns a bonus. */
module MountainCarContinuous {
  import opened Common
  import opened Core
  import opened Rng
  import opened FloatMath
  import MC = MountainCar
  import Episode
  import Vector

  const GOAL_POSITION: real := 0.45
  const POWER: real := 0.0015
  const DEFAULT_MAX_EPISODE_STEPS: u32 := 999
  /** The seed of `MountainCarContinuousEnv::default()`. */
  const DEFAULT_SEED: u64 := 2024
  const GOAL_BONUS: real := 100.0

  /** `MountainCarContinuousEnv::new(seed)`: at rest at 0, limit 999. */
  function Initial(seed: u64): (s: MC.State)
    ensures s.position == 0.0 && s.velocity == 0.0
    ensures s.steps == 0 && s.maxEpisodeSteps == DEFAULT_MAX_EPISODE_STEPS && s.rng == RngFromSeed(seed)
  {
    MC.State(0.0, 0.0, 0, DEFAULT_MAX_EPISODE_STEPS, RngFromSeed(seed))
  }

  /** The throttle actually applied: the action clamped to `[-1, 1]`. */
  function Throttle(action: real): (a: real)
    ensures -1.0 <= a <= 1.0
    ensures -1.0 <= action <= 1.0 ==> a == action
    ensures action < -1.0 ==> a == -1.0
    ensures action > 1.0 ==> a == 1.0
  {
    Clamp(action, -1.0, 1.0)
  }

  /** The action penalty `-0.1 a^2` of a step with throttle `a`. */
  function Penalty(a: real): (r: real)
    requires -1.0 <= a <= 1.0
    ensures -0.1 <= r <= 0.0
    ensures r == -0.1 * (a * a)
  {
    SquareAtMostOne(a);
    -0.1 * (a * a)
  }

  /** `step(action)`: the clipped throttle drives both the dynamics and the
      penalty; the update is the mountain car's; the episode ends at 0.45. */
  function StepOf(m: Trig, s: MC.State, action: real): (p: (MC.State, Step<seq<real>>))
    ensures (p.0.position, p.0.velocity) ==
      MC.Integrate(s.position, s.velocity, Throttle(action) * POWER - MC.GRAVITY * m.cos(3.0 * s.position))
    ensures MC.Admissible(p.0.position, p.0.velocity)
    ensures p.0.steps == s.steps + 1 && p.0.maxEpisodeSteps == s.maxEpisodeSteps && p.0.rng == s.rng
    ensures p.1.terminated <==> p.0.position >= GOAL_POSITION
    ensures p.1.reward == Penalty(Throttle(action)) + (if p.1.terminated then GOAL_BONUS else 0.0)
    ensures !p.1.terminated ==> -0.1 <= p.1.reward <= 0.0
    ensures p.1.terminated ==> GOAL_BONUS - 0.1 <= p.1.reward <= GOAL_BONUS
    ensures p.1.truncated <==> s.steps + 1 >= s.maxEpisodeSteps as nat
    ensures p.1.observation == MC.Obs(p.0) && p.1.info == []
  {
    var a := Throttle(action);
    var (position, velocity) := MC.Integrate(s.position, s.velocity, a * POWER - MC.GRAVITY * m.cos(3.0 * s.position));
    var s' := s.(position := position, velocity := velocity, steps := s.steps + 1);
    var terminated := position >= GOAL_POSITION;
    (s', NewStep(MC.Obs(s'), Penalty(a) + (if terminated then GOAL_BONUS else 0.0), terminated, s'.steps >= s.maxEpisodeSteps as nat, []))
  }

  /** The bonus is paid exactly on the terminating step: a step pays more
      than 0.0 only if it terminates, and a terminating step pays more than
      any other. */
  lemma BonusOnlyAtGoal(m: Trig, s: MC.State, action: real, s2: MC.State, action2: real)
    ensures var st := StepOf(m, s, action).1;
      st.reward > 0.0 <==> st.terminated
    ensures var st := StepOf(m, s, action).1;
      var st2 := StepOf(m, s2, action2).1;
      st.terminated && !st2.terminated ==> st.reward > st2.reward
  {
  }

  /** The environment as a `Core.Env`. */
  function EnvOf(m: Trig, u: Uniform, render: MC.State -> Option<RenderFrame>): (e: Env<MC.State, real, seq<real>>)
    ensures forall s, a :: e.step(s, a) == StepOf(m, s, a)
    ensures forall s, seed :: e.reset(s, seed) == MC.ResetOf(u, s, seed)
  {
    Env((s, seed) => MC.ResetOf(u, s, seed), (s, a) => StepOf(m, s, a), render, s => s)
  }

  /** `step` and `reset` keep the episode bookkeeping. */
  lemma Bookkeeping(m: Trig, u: Uniform, render: MC.State -> Option<RenderFrame>)
    ensures Episode.CountsSteps(EnvOf(m, u, render), MC.Count, MC.Limit)
    ensures Episode.ResetsCount(EnvOf(m, u, render), MC.Count, MC.Limit)
  {
  }

  /** After `reset` and `k` steps the counter is `k`, and step `k` (from 1)
      is truncated exactly when `k` reaches the limit. */
  lemma Episodes(m: Trig, u: Uniform, render: MC.State -> Option<RenderFrame>, s: MC.State, seed: Option<u64>, actions: seq<real>)
    ensures var e := EnvOf(m, u, render);
      var s0 := e.reset(s, seed).0;
      && Episode.Final(e, s0, actions).steps == |actions|
      && (forall k :: 0 <= k < |actions| ==>
            (Vector.Rollout(e, s0, actions)[k].truncated <==> k + 1 >= s.maxEpisodeSteps as nat))
  {
    Bookkeeping(m, u, render);
    Episode.EpisodeTruncation(EnvOf(m, u, render), MC.Count, MC.Limit, s, seed, actions);
  }

  /** `MountainCarContinuousEnv`, its fields updated in place. */
  class MountainCarContinuousEnv {
    const libm: Trig
    const uniform: Uniform
    var position: real
    var velocity: real
    var maxEpisodeSteps: u32
    /** The step counter; the source's `u32` is unbounded here. */
    var steps: nat
    var rng: RngStream

    /** The fields as one value. */
    function Snapshot(): MC.State
      reads this
    {
      MC.State(position, velocity, steps, maxEpisodeSteps, rng)
    }

    /** `MountainCarContinuousEnv::new(seed)`. */
    constructor (libm: Trig, uniform: Uniform, seed: u64)
      ensures this.libm == libm && this.uniform == uniform
      ensures Snapshot() == Initial(seed)
    {
      this.libm := libm;
      this.uniform := uniform;
      position, velocity := 0.0, 0.0;
      maxEpisodeSteps := DEFAULT_MAX_EPISODE_STEPS;
      steps := 0;
      rng := RngFromSeed(seed);
    }

    /** `reset`: reseed, draw the start position, stop, zero the counter. */
    method Reset(seed: Option<u64>) returns (obs: seq<real>, info: Entries)
      modifies this
      ensures (Snapshot(), (obs, info)) == MC.ResetOf(uniform, old(Snapshot()), seed)
    {
      if seed.Some? {
        rng := RngFromSeed(seed.value);
      }
      var d := DrawInclusive(uniform, rng, MC.START_LOW, MC.START_HIGH);
      position, rng := d.0, d.1;
      velocity := 0.0;
      steps := 0;
      obs, info := MC.Obs(Snapshot()), [];
    }

    /** `step`: clip, the field updates and clamps in the source's order,
        then the reward with its bonus. */
    method Step(action: real) returns (st: Step<seq<real>>)
      modifies this
      ensures (Snapshot(), st) == StepOf(libm, old(Snapshot()), action)
    {
      var a := Throttle(action);
      Move(a * POWER - MC.GRAVITY * libm.cos(3.0 * position));
      steps := steps + 1;
      var reward := Penalty(a);
      var terminated := position >= GOAL_POSITION;
      if terminated { reward := reward + GOAL_BONUS; }
      var truncated := steps >= maxEpisodeSteps as nat;
      st := NewStep(MC.Obs(Snapshot()), reward, terminated, truncated, []);
    }

    /** The velocity change `dv`, then the clamps, in the source's order. */
    method Move(dv: real)
      modifies this
      ensures (position, velocity) == MC.Integrate(old(position), old(velocity), dv)
      ensures steps == old(steps) && maxEpisodeSteps == old(maxEpisodeSteps) && rng == old(rng)
    {
      velocity := velocity + dv;
      if velocity > MC.MAX_SPEED { velocity := MC.MAX_SPEED; }
      if velocity < -MC.MAX_SPEED { velocity := -MC.MAX_SPEED; }
      position := position + velocity;
      if position > MC.MAX_POSITION { position := MC.MAX_POSITION; }
      if position < MC.MIN_POSITION { position := MC.MIN_POSITION; }
      if position <= MC.MIN_POSITION && velocity < 0.0 { velocity := 0.0; }
    }
  }
}
