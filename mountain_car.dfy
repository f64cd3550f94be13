/** MountainCar-v0: a car in a valley, pushed left, not at all, or right.
    `step` updates the velocity, clamps it, moves the car, clamps the
    position and stops the car at the left wall; `Integrate` states that
    sequence once, and the continuous variant reuses it. */
module MountainCar {
  import opened Common
  import opened Core
  import opened Rng
  import opened FloatMath
  import Episode
  import Vector

  const MIN_POSITION: real := -1.2
  const MAX_POSITION: real := 0.6
  const MAX_SPEED: real := 0.07
  const GOAL_POSITION: real := 0.5
  const FORCE: real := 0.001
  const GRAVITY: real := 0.0025
  const DEFAULT_MAX_EPISODE_STEPS: u32 := 200
  /** The seed of `MountainCarEnv::default()`. */
  const DEFAULT_SEED: u64 := 2024
  /** The interval `reset` draws the start position from. */
  const START_LOW: real := -0.6
  const START_HIGH: real := -0.4

  /** Position and velocity, the step counter and limit, and the stream. */
  datatype State = State(position: real, velocity: real, steps: nat, maxEpisodeSteps: u32, rng: RngStream)

  /** `MountainCarEnv::new(seed)`: at rest at 0, limit 200. */
  function Initial(seed: u64): (s: State)
    ensures s.position == 0.0 && s.velocity == 0.0
    ensures s.steps == 0 && s.maxEpisodeSteps == DEFAULT_MAX_EPISODE_STEPS && s.rng == RngFromSeed(seed)
  {
    State(0.0, 0.0, 0, DEFAULT_MAX_EPISODE_STEPS, RngFromSeed(seed))
  }

  /** The observation `[position, velocity]`. */
  function Obs(s: State): (o: seq<real>)
    ensures |o| == 2
    ensures o == [s.position, s.velocity]
  {
    [s.position, s.velocity]
  }

  /** The states a step can leave the car in: speed at most `max_speed`,
      position within the track, and at the left wall not moving left. */
  predicate Admissible(position: real, velocity: real)
  {
    && -MAX_SPEED <= velocity <= MAX_SPEED
    && MIN_POSITION <= position <= MAX_POSITION
    && (position == MIN_POSITION ==> velocity >= 0.0)
  }

  /** The update shared by both mountain cars: add `dv` to the velocity and
      clamp it to `[-max_speed, max_speed]`, move by the clamped velocity
      and clamp the position to the track, then zero a leftward velocity at
      the left wall. The result is always admissible; where no clamp bites,
      the car simply moves by its new velocity. */
  function Integrate(position: real, velocity: real, dv: real): (r: (real, real))
    ensures Admissible(r.0, r.1)
    ensures -MAX_SPEED <= velocity + dv <= MAX_SPEED ==>
      r.1 == velocity + dv || (r.0 == MIN_POSITION && r.1 == 0.0)
    ensures var v := velocity + dv;
      -MAX_SPEED <= v <= MAX_SPEED && MIN_POSITION < position + v <= MAX_POSITION ==>
      r == (position + v, v)
    ensures r.0 == Clamp(position + Clamp(velocity + dv, -MAX_SPEED, MAX_SPEED), MIN_POSITION, MAX_POSITION)
  {
    var v1 := velocity + dv;
    var v2 := if v1 > MAX_SPEED then MAX_SPEED else v1;
    var v3 := if v2 < -MAX_SPEED then -MAX_SPEED else v2;
    var p1 := position + v3;
    var p2 := if p1 > MAX_POSITION then MAX_POSITION else p1;
    var p3 := if p2 < MIN_POSITION then MIN_POSITION else p2;
    var v4 := if p3 <= MIN_POSITION && v3 < 0.0 then 0.0 else v3;
    (p3, v4)
  }

  /** Action 0 pushes left, 1 not at all, anything else right. */
  function ActionForce(action: u32): (f: real)
    ensures action == 0 ==> f == -1.0
    ensures action == 1 ==> f == 0.0
    ensures action >= 2 ==> f == 1.0
  {
    match action
    case 0 => -1.0
    case 1 => 0.0
    case _ => 1.0
  }

  /** `step(action)`: the push and the slope's pull change the velocity,
      then `Integrate`; the episode ends at the goal, the reward is 0.0 on
      reaching it and -1.0 on every other step. */
  function StepOf(m: Trig, s: State, action: u32): (p: (State, Step<seq<real>>))
    ensures (p.0.position, p.0.velocity) ==
      Integrate(s.position, s.velocity, ActionForce(action) * FORCE - GRAVITY * m.cos(3.0 * s.position))
    ensures Admissible(p.0.position, p.0.velocity)
    ensures p.0.steps == s.steps + 1 && p.0.maxEpisodeSteps == s.maxEpisodeSteps && p.0.rng == s.rng
    ensures p.1.terminated <==> p.0.position >= GOAL_POSITION
    ensures p.1.reward == (if p.1.terminated then 0.0 else -1.0)
    ensures p.1.reward <= 0.0
    ensures p.1.truncated <==> s.steps + 1 >= s.maxEpisodeSteps as nat
    ensures p.1.observation == Obs(p.0) && p.1.info == []
  {
    var dv := ActionForce(action) * FORCE - GRAVITY * m.cos(3.0 * s.position);
    var (position, velocity) := Integrate(s.position, s.velocity, dv);
    var s' := s.(position := position, velocity := velocity, steps := s.steps + 1);
    var terminated := position >= GOAL_POSITION;
    (s', NewStep(Obs(s'), if terminated then 0.0 else -1.0, terminated, s'.steps >= s.maxEpisodeSteps as nat, []))
  }

  /** `reset(seed)`: reseed when a seed is given, draw the start position
      from `[-0.6, -0.4]`, stop the car and zero the counter. */
  function ResetOf(u: Uniform, s: State, seed: Option<u64>): (p: (State, (seq<real>, Entries)))
    ensures var r := Reseeded(s.rng, seed);
      p.0.position == u.inclusive(r, START_LOW, START_HIGH) && p.0.rng == Skip(r, 1)
    ensures p.0.velocity == 0.0 && p.0.steps == 0 && p.0.maxEpisodeSteps == s.maxEpisodeSteps
    ensures ValidUniform(u) ==> START_LOW <= p.0.position <= START_HIGH
    ensures p.1 == (Obs(p.0), [])
  {
    var (position, r1) := DrawInclusive(u, Reseeded(s.rng, seed), START_LOW, START_HIGH);
    var s' := State(position, 0.0, 0, s.maxEpisodeSteps, r1);
    (s', (Obs(s'), []))
  }

  /** A reset car is admissible and away from the goal. */
  lemma ResetAdmissible(u: Uniform, s: State, seed: Option<u64>)
    requires ValidUniform(u)
    ensures var s0 := ResetOf(u, s, seed).0;
      Admissible(s0.position, s0.velocity) && s0.position < GOAL_POSITION
  {
  }

  /** The environment as a `Core.Env`; `close` does nothing and the
      picture a `render` returns is supplied by the caller. */
  function EnvOf(m: Trig, u: Uniform, render: State -> Option<RenderFrame>): (e: Env<State, u32, seq<real>>)
    ensures forall s, a :: e.step(s, a) == StepOf(m, s, a)
    ensures forall s, seed :: e.reset(s, seed) == ResetOf(u, s, seed)
  {
    Env((s, seed) => ResetOf(u, s, seed), (s, a) => StepOf(m, s, a), render, s => s)
  }

  /** The step counter and the episode limit of a state. */
  function Count(s: State): nat { s.steps }
  function Limit(s: State): nat { s.maxEpisodeSteps as nat }

  /** `step` and `reset` keep the episode bookkeeping, and no step pays
      more than 0.0. */
  lemma Bookkeeping(m: Trig, u: Uniform, render: State -> Option<RenderFrame>)
    ensures Episode.CountsSteps(EnvOf(m, u, render), Count, Limit)
    ensures Episode.ResetsCount(EnvOf(m, u, render), Count, Limit)
    ensures Episode.PaysAtMost(EnvOf(m, u, render), 0.0)
  {
  }

  /** After `reset` and `k` steps the counter is `k`, and step `k` (from 1)
      is truncated exactly when `k` reaches the limit. */
  lemma Episodes(m: Trig, u: Uniform, render: State -> Option<RenderFrame>, s: State, seed: Option<u64>, actions: seq<u32>)
    ensures var e := EnvOf(m, u, render);
      var s0 := e.reset(s, seed).0;
      && Episode.Final(e, s0, actions).steps == |actions|
      && (forall k :: 0 <= k < |actions| ==>
            (Vector.Rollout(e, s0, actions)[k].truncated <==> k + 1 >= s.maxEpisodeSteps as nat))
  {
    Bookkeeping(m, u, render);
    Episode.EpisodeTruncation(EnvOf(m, u, render), Count, Limit, s, seed, actions);
  }

  /** No run returns more than 0.0. */
  lemma ReturnNonPositive(m: Trig, u: Uniform, render: State -> Option<RenderFrame>, s: State, actions: seq<u32>)
    ensures Episode.Return(Vector.Rollout(EnvOf(m, u, render), s, actions)) <= 0.0
  {
    Bookkeeping(m, u, render);
    Episode.ReturnNonPositive(EnvOf(m, u, render), s, actions);
  }

  /** `MountainCarEnv`, its fields updated in place. */
  class MountainCarEnv {
    const libm: Trig
    const uniform: Uniform
    var position: real
    var velocity: real
    var maxEpisodeSteps: u32
    /** The step counter; the source's `u32` is unbounded here. */
    var steps: nat
    var rng: RngStream

    /** The fields as one value. */
    function Snapshot(): State
      reads this
    {
      State(position, velocity, steps, maxEpisodeSteps, rng)
    }

    /** `MountainCarEnv::new(seed)`. */
    constructor (libm: Trig, uniform: Uniform, seed: u64)
      ensures this.libm == libm && this.uniform == uniform
      ensures Snapshot() == Initial(seed)
    {
      this.libm := libm;
      this.uniform := uniform;
      position, velocity := 0.0, 0.0;
      maxEpisodeSteps := DEFAULT_MAX_EPISODE_STEPS;
      steps := 0;
      rng := RngFromSeed(seed);
    }

    /** `reset`: reseed, draw the start position, stop, zero the counter. */
    method Reset(seed: Option<u64>) returns (obs: seq<real>, info: Entries)
      modifies this
      ensures (Snapshot(), (obs, info)) == ResetOf(uniform, old(Snapshot()), seed)
    {
      if seed.Some? {
        rng := RngFromSeed(seed.value);
      }
      var d := DrawInclusive(uniform, rng, START_LOW, START_HIGH);
      position, rng := d.0, d.1;
      velocity := 0.0;
      steps := 0;
      obs, info := Obs(Snapshot()), [];
    }

    /** `step`: the field updates and clamps in the source's order. */
    method Step(action: u32) returns (st: Step<seq<real>>)
      modifies this
      ensures (Snapshot(), st) == StepOf(libm, old(Snapshot()), action)
    {
      var actionForce := ActionForce(action);
      Move(actionForce * FORCE - GRAVITY * libm.cos(3.0 * position));
      steps := steps + 1;
      var terminated := position >= GOAL_POSITION;
      var truncated := steps >= maxEpisodeSteps as nat;
      var reward := if terminated then 0.0 else -1.0;
      st := NewStep(Obs(Snapshot()), reward, terminated, truncated, []);
    }

    /** The velocity change `dv`, then the clamps, in the source's order. */
    method Move(dv: real)
      modifies this
      ensures (position, velocity) == Integrate(old(position), old(velocity), dv)
      ensures steps == old(steps) && maxEpisodeSteps == old(maxEpisodeSteps) && rng == old(rng)
    {
      velocity := velocity + dv;
      if velocity > MAX_SPEED { velocity := MAX_SPEED; }
      if velocity < -MAX_SPEED { velocity := -MAX_SPEED; }
      position := position + velocity;
      if position > MAX_POSITION { position := MAX_POSITION; }
      if position < MIN_POSITION { position := MIN_POSITION; }
      if position <= MIN_POSITION && velocity < 0.0 { velocity := 0.0; }
    }
  }
}
