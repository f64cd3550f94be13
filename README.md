# rust-gymnasium core, modelled in Dafny

This project models the core of `rust-gymnasium`, a Rust port of the
Gymnasium reinforcement-learning toolkit, and proves properties of it. The
modelled parts are:

- the environment contract: `reset`, `step`, `render` and `close`, the `Step`
  transition result, and the `Info` key/value map;
- the deterministic seeding layer: a SplitMix64 `SeedSequence` and seeded
  random streams;
- the four parameter spaces: `Discrete`, `MultiBinary`, `MultiDiscrete` and
  `BoxSpace`;
- the synchronous vector environment;
- the six physics environments: CartPole, Pendulum, MountainCar,
  MountainCarContinuous, Acrobot and the simplified LunarLander;
- the wrappers: `TimeLimit`, `ClipAction`, `ClipReward`, the three
  `Transform*` wrappers and `RecordEpisodeStatistics`;
- the environment registry;
- the RGBA software canvas that the renderers draw on.

Each source file has one module. The file a module lives in is named after
its source file.

| module | models |
|---|---|
| `Common` | options, results, `GymError`, fixed-width integer ranges |
| `FloatMath` | `f32` pi, Rust's truncating float `%`, the angle wrap, clamping, `sin`/`cos` as a supplied library |
| `Core` | `Info`, `Step`, `RenderFrame` and the `Env` contract |
| `Rng` | utils/rng.rs |
| `Spaces` | spaces/mod.rs |
| `Vector` | vector/mod.rs |
| `Episode` | step counting, truncation and returns, as every environment shares them |
| `CartPole`, `Pendulum`, `MountainCar`, `MountainCarContinuous`, `Acrobot`, `LunarLander` | the environment files |
| `Wrappers` | wrappers/mod.rs |
| `Registry` | registry.rs |
| `Render2d` | utils/render2d.rs and the channel check of utils/render.rs |

Every environment is modelled twice:

- **A value-level description.** A `State` datatype, with `Initial`, `Obs`,
  `StepOf` and `ResetOf` functions whose contracts state the physics,
  termination, truncation and reward rules. `EnvOf` packages them as a
  `Core.Env`.
- **A class.** Its fields are updated in place, in the order the Rust code
  updates them. The `Reset` and `Step` methods are proved to leave exactly
  the state, and return exactly the result, that `ResetOf` and `StepOf`
  compute from the old state.

Lemmas over `EnvOf` connect each environment to the shared episode
properties of `Episode`:

- `Bookkeeping`: every step adds one to the counter, and `reset` restarts it.
- `Episodes`: after `reset`, step `k` is truncated exactly when `k` reaches
  the limit.
- The `Return*` lemmas bound the total reward of a run.

The vector layer is generic over `Core.Env`. `Vector.SingleMemberRollout`
proves the reproducibility guarantee: a one-member vector environment and a
standalone environment give identical results for the same actions.
`Vector.SingleMemberReset` proves the same for the seeded reset.

Floating point is modelled over exact reals:

- `f32` values become `real`. `PI` is the exact value of
  `std::f32::consts::PI`.
- Rust's `%` on floats rounds the quotient toward zero. `FloatMath.FRem`
  writes that out.
- `sin` and `cos` are a `Libm` value that the caller supplies. The model
  assumes only that both stay in `[-1, 1]`.
- The random streams are an `RngStream` value that counts its draws.
- The `rand` distributions are a `Uniform` oracle. The model knows only the
  range of each sample.
- The physics is exact arithmetic over these. For example,
  `Acrobot.Dynamics` is proved to solve the equations of motion.

## Where the code and its comments differ

The model follows the code in each of these cases:

- **The angle wrap is half-open.** The comments at
  `envs/classic_control/acrobot.rs:195` and
  `envs/box2d/lunar_lander.rs:219` say the angles stay in `[-pi, pi]`. The
  expression `((x + pi) % 2pi + 2pi) % 2pi - pi` gives `[-pi, pi)`: `pi`
  itself wraps to `-pi` (`FloatMath.WrapAnglePi`).
- **The pendulum's starting angle includes `pi`.** The comment at
  `envs/classic_control/pendulum.rs:99` says `U[-pi, pi)`. The sampler is
  `Uniform::new_inclusive`, so `ResetOf` draws from `[-pi, pi]`.
- **The lander's fall speed is never tested.** At touchdown the lander
  zeroes `vy` before calling `landed_success` and `crashed`. Their
  vertical-speed tests always see 0, so the fall speed takes no part in the
  outcome (`LunarLander.TouchdownIgnoresFallSpeed`).


## Model

| member | source | states |
|---|---|---|
| Core.KeyList | core.rs:29-32 | `iter` yields one key per entry, entry `i`'s key at position `i` |
| Core.IndexOf | core.rs:17 | the position `find` stops at: no earlier entry has the key, the entry there has it, and the length means none does |
| Core.Find | core.rs:24-27 | `get` answers `Some` exactly when some entry has the key, and then with the value of the first such entry |
| Core.InsertedAt | core.rs:14-22 | `insert` overwrites the first entry with the key where it stands, and otherwise pushes the new entry at the end |
| Core.FindInsertedSame | core.rs:14-27 | after `insert(k, v)`, `get(k)` is `v` |
| Core.FindInsertedOther | core.rs:14-27 | `insert(k, _)` leaves `get(k')` unchanged for every other key `k'` |
| Core.InsertedShape | core.rs:14-22 | a replacing `insert` keeps the length and the key order; an appending one adds exactly one entry after the old ones |
| Core.IndexOfAppendOther | core.rs:17-20 | pushing an entry with another key keeps a key absent |
| Core.InsertedKeepsKeysUnique | core.rs:14-22 | `insert` never creates a duplicate key |
| Core.InsertAllKeepsKeysUnique | core.rs:12-22 | any sequence of inserts, from `Info::new()` or any duplicate-free map, leaves the keys pairwise distinct |
| Core.Info.constructor | core.rs:12 | `Info::new()` is the empty map |
| Core.Info.Of | core.rs:6-8 | an `Info` holding a given entry list |
| Core.Info.Insert | core.rs:14-22 | the in-place `insert` leaves the entries of `Inserted`, reads back the new value, leaves every other key's value, and keeps keys distinct |
| Core.Info.Get | core.rs:24-27 | `get` is `Some` exactly for keys in the key list, with the first matching entry's value |
| Core.Info.IsEmpty | core.rs:34-38 | `is_empty` holds exactly when `len` is 0 |
| Core.NewStep | core.rs:82-86 | `Step::new` keeps its five arguments as the step's fields |
| Rng.InitialState | utils/rng.rs:24-29 | the 128-bit state of `SeedSequence::new` is the seed XOR the golden constant, and so fits in its low 64 bits |
| Rng.Trace | utils/rng.rs:49-51 | the outputs along the first `n` states of an orbit: exactly `n` of them, the first from the starting state |
| Rng.TracePrefix | utils/rng.rs:49-51 | the first `n` outputs of an orbit are a prefix of its first `m`, for `n <= m` |
| Rng.TraceSnoc | utils/rng.rs:49-51 | `n + 1` outputs are the first `n` followed by the output at the state `n` steps on |
| Rng.Subseeds | utils/rng.rs:32-40 | `n` successive sub-seeds: exactly `n` values, the first computed from the current state by one `next_subseed` |
| Rng.SubseedsPrefix | utils/rng.rs:48-51 | drawing fewer sub-seeds from a state yields a prefix of drawing more |
| Rng.SubseedsSnoc | utils/rng.rs:32-40 | `n + 1` calls are `n` calls followed by one more, from the state `n` calls leave |
| Rng.SeedSequence.constructor | utils/rng.rs:24-29 | the new sequence holds the initial state, below 2^64 |
| Rng.SeedSequence.NextSubseed | utils/rng.rs:32-40 | `next_subseed` returns the SplitMix64 finalisation of `(state as u64) + golden` and folds it into the 128-bit state with wrapping multiplication; both depend on the old state alone |
| Rng.SeedSequence.NextRng | utils/rng.rs:43-46 | `next_rng` is the stream seeded by the next sub-seed, advancing the state once |
| Rng.SeedSequence.SplitN | utils/rng.rs:49-51 | `split_n(n)` returns the `n` successive sub-seeds and leaves the state `n` steps on |
| Rng.SplitSeed | utils/rng.rs:55-58 | the free `split_n(seed, n)` returns exactly `n` sub-seeds, determined by `seed` and `n` alone |
| Rng.SplitSeedPrefix | utils/rng.rs:55-58 | `split_n(seed, n)` is a prefix of `split_n(seed, m)` for `n <= m` |
| Rng.RngFromSeed | utils/rng.rs:61-63 | `rng_from_seed` is a fresh stream determined by its seed |
| Rng.Reseeded | core.rs:111-113 | `reset(Some(seed))` draws from a fresh stream for `seed`, `reset(None)` from the current stream |
| Rng.Skip | utils/rng.rs:12-13 | the stream after `k` further draws keeps its seed |
| Rng.Advance | utils/rng.rs:12-13 | one draw advances the stream by one value |
| Rng.DrawInclusive | envs/classic_control/cart_pole.rs:155-156 | a uniform sample from `[lo, hi]` lies in that range, and consumes one value of the stream |
| Rng.DrawBelow | spaces/mod.rs:31-32 | a uniform sample from `0..n` lies below `n`, and consumes one value of the stream |
| Spaces.NewDiscrete | spaces/mod.rs:17-20 | `Discrete::new(n)` succeeds exactly when `n > 0`, and the space then holds `n` |
| Spaces.SampleDiscrete | spaces/mod.rs:28-35 | a sample is a member, as `tests/property_spaces.rs` checks; `n == 1` gives 0 without drawing, any other `n` one draw from `0..n` |
| Spaces.NewMultiBinary | spaces/mod.rs:46-49 | `MultiBinary::new(n)` succeeds exactly when `n > 0` |
| Spaces.SampleMultiBinary | spaces/mod.rs:57-65 | a sample has length `n` and only 0/1 entries, entry `i` being the `i`-th draw; `n` values are drawn |
| Spaces.MultiBinaryExamples | src/lib.rs:81-102 | `MultiBinary(8)` rejects a vector holding a 2 and one of length 7, and accepts a 0/1 vector of length 8 |
| Spaces.NewMultiDiscrete | spaces/mod.rs:75-82 | `MultiDiscrete::new` succeeds exactly when `nvec` is non-empty and has no zero entry |
| Spaces.DrawCount | spaces/mod.rs:91-96 | sampling draws at most one value per dimension |
| Spaces.DimSample | spaces/mod.rs:94 | one dimension: below its bound; a bound of 1 gives 0 and draws nothing; any other bound gives the oracle's draw below it and uses one value |
| Spaces.SampleDims | spaces/mod.rs:91-96 | dimension by dimension: the sample has one entry per dimension, each below its bound, 0 where the bound is 1, and uses one value per dimension whose bound is not 1 |
| Spaces.DrawCountPrefix | spaces/mod.rs:91-96 | the values drawn for the first `i` dimensions are the first dimension's, if it draws, then those drawn for the next `i - 1` |
| Spaces.SampleDimsDrawAt | spaces/mod.rs:91-96 | dimension `i`, when its bound is not 1, holds the draw made after those of the dimensions before it |
| Spaces.SampleDimsDraws | spaces/mod.rs:91-96 | every dimension whose bound is not 1 holds the draw made after those of the dimensions before it |
| Spaces.SampleMultiDiscrete | spaces/mod.rs:91-101 | every sample of a valid space is a member, 0 in every dimension of bound 1, and holds in every other dimension the draw made after those of the dimensions before it |
| Spaces.MultiDiscreteExamples | src/lib.rs:89-102 | for `[1, 2, 5, 10]`, `[0, 2, 5, 10]` is rejected and every sample has length 4, starts with 0 and respects the bounds |
| Spaces.NewBox | spaces/mod.rs:113-119 | `BoxSpace::new` succeeds exactly when `low[i] <= high[i]` in every dimension |
| Spaces.BoxSample | spaces/mod.rs:131-143 | coordinate `i` of a sample is the `i`-th draw from `[low[i], high[i]]`, and a valid box's samples are members |
| Spaces.SampleBox | spaces/mod.rs:131-139 | the in-place fill of a copy of `low` returns that sample and consumes one value per dimension |
| Vector.SeedFor | vector/mod.rs:39 | member `i` gets `base + i` when a base seed is given and `None` otherwise |
| Vector.ResetAllOf | vector/mod.rs:34-43 | `reset_all` resets every member, member `i` with its own seed, one result per member in index order |
| Vector.StepAllOf | vector/mod.rs:47-54 | `step_all` steps every member once, member `i` with `actions[i]`, one result per member in index order |
| Vector.StepAllIndependent | vector/mod.rs:47-54 | members do not interact: member `j`'s new state and result depend only on its own state and action |
| Vector.Rollout | core.rs:115-116 | a run of one environment gives one transition result per action, the first from stepping the start state |
| Vector.VecRollout | vector/mod.rs:47-54 | a run of the vector environment gives one batch of results per action batch |
| Vector.Singletons | vector/mod.rs:47-54 | the one-action batches of a single-member vector environment |
| Vector.SingleMemberRollout | tests/vector_consistency.rs:5-26 | a one-member vector environment stepped with `[a]` batches returns exactly the results of a standalone environment stepped with the same actions |
| Vector.SingleMemberReset | tests/vector_consistency.rs:5-26 | a one-member `reset_all(Some(seed))` resets the member exactly as `reset(Some(seed))` does |
| Vector.SyncVectorEnv.constructor | vector/mod.rs:17-26 | `new(n, factory)` holds `n` members, member `i` produced by factory call `i` |
| Vector.SyncVectorEnv.Len | vector/mod.rs:29 | `len` is the number of members |
| Vector.SyncVectorEnv.IsEmpty | vector/mod.rs:31 | `is_empty` holds exactly when `len` is 0 |
| Vector.SyncVectorEnv.ResetAll | vector/mod.rs:34-43 | the in-place loop leaves the members and results of `ResetAllOf` |
| Vector.SyncVectorEnv.StepAll | vector/mod.rs:47-54 | the in-place loop leaves the members and results of `StepAllOf`; the batch must have one action per member |
| Vector.SyncVectorEnv.RenderAll | vector/mod.rs:57-59 | `render_all` returns one frame per member, each that member's `render` |
| Vector.SyncVectorEnv.CloseAll | vector/mod.rs:62-64 | `close_all` closes each member once and keeps the number of members |
| FloatMath.Trunc | envs/classic_control/pendulum.rs:55 | rounding toward zero: the floor for a non-negative quotient, minus the floor of its negation otherwise |
| FloatMath.FRemFacts | envs/classic_control/pendulum.rs:55 | Rust's float `%` agrees with the Euclidean remainder for a non-negative dividend and lies in `(-b, 0]` for a negative one |
| FloatMath.FRemShifted | envs/classic_control/pendulum.rs:55 | the first remainder plus `2*pi` lies in `(0, 4*pi)` and differs from the dividend by whole turns |
| FloatMath.DoubleFRemIsMod | envs/classic_control/pendulum.rs:55 | the remainder taken twice with the divisor added between is the Euclidean remainder |
| FloatMath.ModRange | envs/classic_control/pendulum.rs:55 | the Euclidean remainder lies in `[0, b)` |
| FloatMath.ModUnique | envs/classic_control/pendulum.rs:55 | a value in `[0, b)` that differs from the dividend by a multiple of `b` is the Euclidean remainder |
| FloatMath.WrapAngleIsMod | envs/classic_control/pendulum.rs:53-56 | the angle wrap is the Euclidean remainder of `x + pi` by `2*pi`, shifted back by `pi` |
| FloatMath.WrapAngleRange | envs/classic_control/acrobot.rs:195-199 | every wrapped angle lies in `[-pi, pi)` |
| FloatMath.WrapAngleIdentity | envs/box2d/lunar_lander.rs:219-221 | an angle already in `[-pi, pi)` is left unchanged |
| FloatMath.WrapAngleIdempotent | envs/classic_control/pendulum.rs:117-121 | wrapping twice is wrapping once, so the second `angle_normalize` of `step` changes nothing |
| FloatMath.WrapAnglePi | envs/classic_control/acrobot.rs:195-199 | `pi` wraps to `-pi`, so the interval is half-open despite the comment saying `[-pi, pi]` |
| FloatMath.WrapAngleTurns | envs/classic_control/pendulum.rs:53-56 | the wrap removes whole turns only, and an extra whole turn does not change its result |
| FloatMath.Clamp | envs/classic_control/mountain_car_continuous.rs:127 | the result lies in `[lo, hi]`, is `x` inside the range and the nearer bound outside it |
| FloatMath.SquareAtMostOne | envs/classic_control/mountain_car_continuous.rs:138 | a value in `[-1, 1]` has its square in `[0, 1]` |
| Episode.CountAfterRun | envs/classic_control/cart_pole.rs:182 | a run of `k` steps adds `k` to the step counter and keeps the episode limit |
| Episode.TruncationInRun | envs/classic_control/cart_pole.rs:182-184 | step `k` of a run is truncated exactly when the counter after it has reached the limit |
| Episode.EpisodeTruncation | envs/classic_control/cart_pole.rs:160-184 | after `reset`, step `k` (from 1) is truncated exactly when `k` reaches the limit, and `k` steps leave the counter at `k` |
| Episode.ReturnOfConstant | envs/classic_control/cart_pole.rs:185 | when every step pays `r`, a run of `k` steps returns `k * r` |
| Episode.ReturnOfUnitRewards | envs/classic_control/cart_pole.rs:9 | when every step pays 1.0, the return of a run is its length |
| Episode.ReturnNonPositive | envs/classic_control/mountain_car.rs:143 | when no step pays more than 0.0, no run returns more than 0.0 |
| Episode.ReturnAtMost | envs/box2d/lunar_lander.rs:241-246 | when no step pays more than `r`, a run of `k` steps returns at most `k * r` |
| CartPole.Initial | envs/classic_control/cart_pole.rs:44-74 | `new(seed)` starts at rest with counter 0, limit 500 and a stream from `seed` |
| CartPole.Obs | envs/classic_control/cart_pole.rs:145 | the observation is `[x, x_dot, theta, theta_dot]`, in that order |
| CartPole.TerminatedOutsideBox | envs/classic_control/cart_pole.rs:138-143 | a state is terminal exactly when it lies outside the closed box `|x| <= 2.4`, `|theta| <= 12 degrees`; the box's own corners are not terminal |
| CartPole.Force | envs/classic_control/cart_pole.rs:166 | action 1 pushes right with `force_mag`, and every other action pushes left |
| CartPole.StepOf | envs/classic_control/cart_pole.rs:164-187 | semi-explicit Euler: position and angle move by the old velocities, the velocities by the accelerations of the old state; the counter rises by one, the reward is 1.0, terminated iff the new state is terminal, truncated iff the count reaches the limit |
| CartPole.ResetOf | envs/classic_control/cart_pole.rs:152-162 | reseeds when given a seed, then draws `x`, `x_dot`, `theta`, `theta_dot` in that order from `[-0.05, 0.05]`, consuming four values, and zeroes the counter |
| CartPole.ResetNotTerminated | envs/classic_control/cart_pole.rs:152-162 | a freshly reset pole is never terminal |
| CartPole.EnvOf | envs/classic_control/cart_pole.rs:148-196 | the environment's `reset` and `step` are `ResetOf` and `StepOf` |
| CartPole.Bookkeeping | envs/classic_control/cart_pole.rs:160-185 | every step adds one to the counter, keeps the limit and truncates exactly at the limit; `reset` zeroes the counter; every step pays 1.0 |
| CartPole.Episodes | envs/classic_control/cart_pole.rs:160-184 | after `reset` and `k` steps the counter is `k`, and step `k` is truncated exactly when `k` reaches the limit |
| CartPole.ReturnIsLength | envs/classic_control/cart_pole.rs:9 | every step pays 1.0, so `k` steps from any state return `k` |
| CartPole.CartPoleEnv.constructor | envs/classic_control/cart_pole.rs:44-74 | the new environment's fields are those of `Initial(seed)` |
| CartPole.CartPoleEnv.Reset | envs/classic_control/cart_pole.rs:152-162 | the in-place `reset` leaves the fields and returns the observation of `ResetOf` |
| CartPole.CartPoleEnv.Step | envs/classic_control/cart_pole.rs:164-187 | the in-place `step`, its updates in the source's order, leaves the fields and returns the result of `StepOf` |
| Pendulum.Initial | envs/classic_control/pendulum.rs:32-46 | `new(seed)` starts upright and at rest, counter 0, limit 200, a stream from `seed` |
| Pendulum.Gains | envs/classic_control/pendulum.rs:113-114 | the folded gains 15 and 3 are `3g/(2l)` and `3/(m l^2)` for the parameters `g = 10`, `m = 1`, `l = 1` |
| Pendulum.Obs | envs/classic_control/pendulum.rs:48-50 | the observation is `[cos theta, sin theta, theta_dot]`; its first two entries lie in `[-1, 1]` |
| Pendulum.AngleNormalize | envs/classic_control/pendulum.rs:53-56 | the wrap lands in `[-pi, pi)`, leaves angles already there unchanged, and wrapping its result again changes nothing |
| Pendulum.Torque | envs/classic_control/pendulum.rs:109 | action 0 is `-max_torque`, 1 is no torque, every other action `+max_torque` |
| Pendulum.NewSpeed | envs/classic_control/pendulum.rs:111-116 | the new speed is the integrated speed clamped to `[-max_speed, max_speed]` |
| Pendulum.Cost | envs/classic_control/pendulum.rs:122 | the cost is never negative, and is zero when upright, at rest and unpushed |
| Pendulum.StepOf | envs/classic_control/pendulum.rs:108-128 | the speed is clamped before the angle moves by it; the new angle is wrapped into `[-pi, pi)`; the reward is minus the cost of the new state, so at most 0.0; no step terminates; truncated iff the count reaches the limit |
| Pendulum.ResetOf | envs/classic_control/pendulum.rs:97-106 | reseeds when given a seed, draws the angle from `[-pi, pi]` and then the speed from `[-1, 1]`, consuming two values, and zeroes the counter |
| Pendulum.EnvOf | envs/classic_control/pendulum.rs:93-134 | the environment's `reset` and `step` are `ResetOf` and `StepOf` |
| Pendulum.Bookkeeping | envs/classic_control/pendulum.rs:119-127 | every step adds one to the counter and truncates exactly at the limit; `reset` zeroes the counter; no step pays more than 0.0 |
| Pendulum.Episodes | envs/classic_control/pendulum.rs:119-127 | after `reset` and `k` steps the counter is `k`, and step `k` is truncated exactly when `k` reaches the limit |
| Pendulum.ReturnNonPositive | envs/classic_control/pendulum.rs:122-123 | no run returns more than 0.0 |
| Pendulum.PendulumEnv.constructor | envs/classic_control/pendulum.rs:32-46 | the new environment's fields are those of `Initial(seed)` |
| Pendulum.PendulumEnv.Reset | envs/classic_control/pendulum.rs:97-106 | the in-place `reset` leaves the fields and returns the observation of `ResetOf` |
| Pendulum.PendulumEnv.Step | envs/classic_control/pendulum.rs:108-128 | the in-place `step`, its updates and clamps in the source's order, leaves the fields and returns the result of `StepOf` |
| MountainCar.Initial | envs/classic_control/mountain_car.rs:33-47 | `new(seed)` starts at rest at 0, counter 0, limit 200, a stream from `seed` |
| MountainCar.Obs | envs/classic_control/mountain_car.rs:49 | the observation is `[position, velocity]`, in that order |
| MountainCar.Integrate | envs/classic_control/mountain_car.rs:132-138 | after the update the speed is at most `max_speed`, the car is on the track and not moving left at the left wall; the position is the clamped sum of the old position and the clamped speed; where no clamp bites the car simply moves by its new velocity |
| MountainCar.ActionForce | envs/classic_control/mountain_car.rs:131 | action 0 pushes left, 1 not at all, every other action right |
| MountainCar.StepOf | envs/classic_control/mountain_car.rs:129-145 | the push and the slope's pull change the velocity, then `Integrate`; terminated iff the new position reaches 0.5; reward 0.0 on that step and -1.0 otherwise; truncated iff the count reaches the limit |
| MountainCar.ResetOf | envs/classic_control/mountain_car.rs:119-127 | reseeds when given a seed, draws the start position from `[-0.6, -0.4]`, consuming one value, stops the car and zeroes the counter |
| MountainCar.ResetAdmissible | envs/classic_control/mountain_car.rs:119-127 | a reset car is on the track, within the speed limit and short of the goal |
| MountainCar.EnvOf | envs/classic_control/mountain_car.rs:115-153 | the environment's `reset` and `step` are `ResetOf` and `StepOf` |
| MountainCar.Bookkeeping | envs/classic_control/mountain_car.rs:125-143 | every step adds one to the counter and truncates exactly at the limit; `reset` zeroes the counter; no step pays more than 0.0 |
| MountainCar.Episodes | envs/classic_control/mountain_car.rs:125-142 | after `reset` and `k` steps the counter is `k`, and step `k` is truncated exactly when `k` reaches the limit |
| MountainCar.ReturnNonPositive | envs/classic_control/mountain_car.rs:143 | no run returns more than 0.0 |
| MountainCar.MountainCarEnv.constructor | envs/classic_control/mountain_car.rs:33-47 | the new environment's fields are those of `Initial(seed)` |
| MountainCar.MountainCarEnv.Reset | envs/classic_control/mountain_car.rs:119-127 | the in-place `reset` leaves the fields and returns the observation of `ResetOf` |
| MountainCar.MountainCarEnv.Step | envs/classic_control/mountain_car.rs:129-145 | the in-place `step` leaves the fields and returns the result of `StepOf` |
| MountainCar.MountainCarEnv.Move | envs/classic_control/mountain_car.rs:132-138 | the in-place velocity and position updates, with their clamps in the source's order, leave the pair that `Integrate` computes and change nothing else |
| MountainCarContinuous.Initial | envs/classic_control/mountain_car_continuous.rs:32-46 | `new(seed)` starts at rest at 0, counter 0, limit 999, a stream from `seed` |
| MountainCarContinuous.Throttle | envs/classic_control/mountain_car_continuous.rs:127 | the throttle lies in `[-1, 1]`, equals the action inside that range, and is the nearer bound outside it |
| MountainCarContinuous.Penalty | envs/classic_control/mountain_car_continuous.rs:138 | for a clipped throttle `a` the penalty `-0.1 a^2` lies in `[-0.1, 0]` |
| MountainCarContinuous.StepOf | envs/classic_control/mountain_car_continuous.rs:125-143 | the clipped throttle times `power`, minus the slope's pull, drives the shared `Integrate`; terminated iff the position reaches 0.45; the reward is the penalty plus 100 on the terminating step, so it lies in `[-0.1, 0]` off the goal and in `[99.9, 100]` at it; truncated iff the count reaches the limit |
| MountainCarContinuous.BonusOnlyAtGoal | envs/classic_control/mountain_car_continuous.rs:138-140 | a step pays more than 0.0 exactly when it terminates, and a terminating step pays more than any step that does not |
| MountainCarContinuous.EnvOf | envs/classic_control/mountain_car_continuous.rs:112-148 | the environment's `step` is `StepOf` and its `reset` the mountain car's `ResetOf` |
| MountainCarContinuous.Bookkeeping | envs/classic_control/mountain_car_continuous.rs:121-141 | every step adds one to the counter and truncates exactly at the limit; `reset` zeroes the counter |
| MountainCarContinuous.Episodes | envs/classic_control/mountain_car_continuous.rs:121-141 | after `reset` and `k` steps the counter is `k`, and step `k` is truncated exactly when `k` reaches the limit |
| MountainCarContinuous.MountainCarContinuousEnv.constructor | envs/classic_control/mountain_car_continuous.rs:32-46 | the new environment's fields are those of `Initial(seed)` |
| MountainCarContinuous.MountainCarContinuousEnv.Reset | envs/classic_control/mountain_car_continuous.rs:116-123 | the in-place `reset` leaves the fields and returns the observation of the mountain car's `ResetOf` |
| MountainCarContinuous.MountainCarContinuousEnv.Step | envs/classic_control/mountain_car_continuous.rs:125-143 | the in-place `step` leaves the fields and returns the result of `StepOf` |
| MountainCarContinuous.MountainCarContinuousEnv.Move | envs/classic_control/mountain_car_continuous.rs:129-135 | the in-place updates and clamps leave the pair the shared `Integrate` computes and change nothing else |
| Acrobot.Coefficients | envs/classic_control/acrobot.rs:132-140 | each folded coefficient of the equations of motion equals the source's product of the parameters set in `new` |
| Acrobot.Initial | envs/classic_control/acrobot.rs:45-67 | `new(seed)` starts hanging at rest, counter 0, limit 500, a stream from `seed` |
| Acrobot.Obs | envs/classic_control/acrobot.rs:69 | the observation is `[th1, th2, dth1, dth2]` |
| Acrobot.Torque | envs/classic_control/acrobot.rs:165 | action 0 applies torque -1, 1 none, every other action +1 |
| Acrobot.D1 | envs/classic_control/acrobot.rs:132 | the first diagonal entry of the mass matrix stays within `[2.5, 4.5]`, so dividing by it is defined |
| Acrobot.D2 | envs/classic_control/acrobot.rs:133 | the off-diagonal entry of the mass matrix stays within `[0.75, 1.75]` |
| Acrobot.MulDivCancel | envs/classic_control/acrobot.rs:139-141 | dividing by a non-zero value and multiplying back gives the original value |
| Acrobot.SolveTwoByTwo | envs/classic_control/acrobot.rs:139-141 | solving for the second unknown first and back-substituting gives a solution of the symmetric two-by-two system |
| Acrobot.SchurPositive | envs/classic_control/acrobot.rs:140 | the divisor of `ddth2` is positive for every angle, so `dynamics` never divides by zero |
| Acrobot.Dynamics | envs/classic_control/acrobot.rs:125-143 | the accelerations `dynamics` returns solve the equations of motion: the mass matrix times them equals the generalised forces of both joints |
| Acrobot.Deriv | envs/classic_control/acrobot.rs:169-170 | a stage slope is the velocities followed by the accelerations of the law at that phase |
| Acrobot.AcrobotSlopes | envs/classic_control/acrobot.rs:169-170 | under the acrobot's own law `AccelOf(m)`, every stage slope is the velocities followed by accelerations that solve both equations of motion at that phase |
| Acrobot.Rk4ConstantAccel | envs/classic_control/acrobot.rs:167-193 | the stage weights `(1, 2, 2, 1) / 6` are exact under a constant acceleration: each angle moves by `v dt + a dt^2 / 2` and each velocity by `a dt` |
| Acrobot.StepOf | envs/classic_control/acrobot.rs:164-212 | one Runge-Kutta step, both angles wrapped into `[-pi, pi)`, both velocities clamped to their limits; terminated iff the tip reaches the terminal height; reward 0.0 there and -1.0 otherwise; truncated iff the count reaches the limit |
| Acrobot.ResetOf | envs/classic_control/acrobot.rs:150-162 | reseeds when given a seed, draws `th1`, `th2` from `[-pi, pi]` and `dth1`, `dth2` from `[-0.1, 0.1]` in that order, consuming four values, and zeroes the counter |
| Acrobot.EnvOf | envs/classic_control/acrobot.rs:146-219 | the environment's `reset` and `step` are `ResetOf` and `StepOf` |
| Acrobot.Bookkeeping | envs/classic_control/acrobot.rs:160-210 | every step adds one to the counter and truncates exactly at the limit; `reset` zeroes the counter; no step pays more than 0.0 |
| Acrobot.Episodes | envs/classic_control/acrobot.rs:160-209 | after `reset` and `k` steps the counter is `k`, and step `k` is truncated exactly when `k` reaches the limit |
| Acrobot.ReturnNonPositive | envs/classic_control/acrobot.rs:210 | no run returns more than 0.0 |
| Acrobot.AcrobotEnv.constructor | envs/classic_control/acrobot.rs:45-67 | the new environment's fields are those of `Initial(seed)`, its acceleration law the acrobot's `dynamics` |
| Acrobot.AcrobotEnv.Reset | envs/classic_control/acrobot.rs:150-162 | the in-place `reset` leaves the fields and returns the observation of `ResetOf` |
| Acrobot.AcrobotEnv.Integrate | envs/classic_control/acrobot.rs:167-193 | the four in-place stages and the weighted update leave the phase one Runge-Kutta step would, and change nothing else |
| Acrobot.AcrobotEnv.Step | envs/classic_control/acrobot.rs:164-212 | the in-place `step`, its wraps and clamps in the source's order, leaves the fields and returns the result of `StepOf` |
| LunarLander.Initial | envs/box2d/lunar_lander.rs:47-70 | `new(seed)` starts upright and at rest at height 1.0 with no contact, counter 0, limit 1000, a stream from `seed` |
| LunarLander.ContactValue | envs/box2d/lunar_lander.rs:80-81 | a contact is observed as 1.0 exactly when the leg touches, and as 0.0 otherwise |
| LunarLander.Obs | envs/box2d/lunar_lander.rs:72-83 | the observation is the six kinematic values followed by the two contacts as 1.0 or 0.0 |
| LunarLander.LandedNotCrashed | envs/box2d/lunar_lander.rs:85-100 | a lander that is not below the ground cannot have both landed and crashed |
| LunarLander.ApplyAction | envs/box2d/lunar_lander.rs:102-125 | action 2 fires the main engine along the body's up axis, 1 the left engine, 3 the right engine; every other action changes nothing, and no action changes the position, the angle or the contacts |
| LunarLander.Coast | envs/box2d/lunar_lander.rs:210-221 | after damping, integration and the wrap the angle lies in `[-pi, pi)`, and the contacts and counters are kept |
| LunarLander.Flight | envs/box2d/lunar_lander.rs:204-221 | before the ground is consulted the angle lies in `[-pi, pi)`, and the contacts and counters are kept |
| LunarLander.Ground | envs/box2d/lunar_lander.rs:223-234 | the lander is never left below the ground; at or below it the lander is put on it, stopped vertically, and each leg touches exactly when it is over the pad; above it both contacts are cleared and nothing else changes |
| LunarLander.Shaping | envs/box2d/lunar_lander.rs:241-244 | the shaping part of the reward is never positive |
| LunarLander.StepOf | envs/box2d/lunar_lander.rs:202-249 | never below the ground, no contact in the air, angle in `[-pi, pi)`; terminated iff landed or crashed, never both; the reward is positive only for a landing, a landing earns more than 99.8, and no step pays more than 100; truncated iff the count reaches the limit |
| LunarLander.LandingReward | envs/box2d/lunar_lander.rs:240-246 | on or above the ground, a landing pays more than 99.8, a positive reward means a landing, and no reward exceeds 100 |
| LunarLander.ActionsAboveThree | envs/box2d/lunar_lander.rs:208 | every action above 3 steps exactly as action 3 does |
| LunarLander.TouchdownIgnoresFallSpeed | envs/box2d/lunar_lander.rs:225-237 | for a step that reaches the ground, landing and crashing depend only on the drift, the tilt and the position, not on the fall speed, since that is zeroed before both tests |
| LunarLander.ResetOf | envs/box2d/lunar_lander.rs:185-200 | reseeds when given a seed, draws `x` from `[-0.05, 0.05]` and then the angle from `[-0.1, 0.1]`, consuming two values; starts at height 1.2 at rest with no contact and the counter zeroed |
| LunarLander.ResetNotTerminated | envs/box2d/lunar_lander.rs:185-200 | a reset lander has neither landed nor crashed |
| LunarLander.EnvOf | envs/box2d/lunar_lander.rs:181-256 | the environment's `reset` and `step` are `ResetOf` and `StepOf` |
| LunarLander.Bookkeeping | envs/box2d/lunar_lander.rs:198-246 | every step adds one to the counter and truncates exactly at the limit; `reset` zeroes the counter; no step pays more than 100 |
| LunarLander.Episodes | envs/box2d/lunar_lander.rs:198-238 | after `reset` and `k` steps the counter is `k`, and step `k` is truncated exactly when `k` reaches the limit |
| LunarLander.ReturnBounded | envs/box2d/lunar_lander.rs:241-246 | a run of `k` steps returns at most `100 k` |
| LunarLander.LunarLanderEnv.constructor | envs/box2d/lunar_lander.rs:47-70 | the new environment's fields are those of `Initial(seed)` |
| LunarLander.LunarLanderEnv.Reset | envs/box2d/lunar_lander.rs:185-200 | the in-place `reset` leaves the fields and returns the observation of `ResetOf` |
| LunarLander.LunarLanderEnv.SpawnInPlace | envs/box2d/lunar_lander.rs:188-198 | the in-place draws and field resets leave the lander `reset` starts from |
| LunarLander.LunarLanderEnv.ApplyActionInPlace | envs/box2d/lunar_lander.rs:102-125 | the in-place `apply_action` leaves the state `ApplyAction` computes |
| LunarLander.LunarLanderEnv.Thrust | envs/box2d/lunar_lander.rs:205-208 | in place, gravity and then the engine of the action capped at 3 |
| LunarLander.LunarLanderEnv.CoastInPlace | envs/box2d/lunar_lander.rs:210-221 | in place, damping, integration and the wrap leave the state `Coast` computes |
| LunarLander.LunarLanderEnv.Touch | envs/box2d/lunar_lander.rs:223-234 | the in-place ground rule leaves the state `Ground` computes |
| LunarLander.LunarLanderEnv.Step | envs/box2d/lunar_lander.rs:202-249 | the in-place `step`, its reward accumulated term by term as in the source, leaves the fields and returns the result of `StepOf` |
| Wrappers.TruncateAt | wrappers/mod.rs:38-45 | everything but the truncation flag passes through; the step is truncated iff the inner step was, or it did not terminate and the count reached the limit; so at the limit every step ends the episode |
| Wrappers.TruncateAtPassThrough | wrappers/mod.rs:41-44 | a step that already ended, or one below the limit, passes through unchanged |
| Wrappers.TimeLimit.constructor | wrappers/mod.rs:20-22 | the wrapper holds the inner environment and the limit, with its counter at 0 |
| Wrappers.TimeLimit.Reset | wrappers/mod.rs:33-36 | the counter restarts at 0 and the inner `reset` is returned as is |
| Wrappers.TimeLimit.Step | wrappers/mod.rs:38-45 | the counter rises by one, the inner environment steps once, and the result is the inner step after `TruncateAt` with the new count |
| Wrappers.TimeLimit.Close | wrappers/mod.rs:48 | closes the inner environment and keeps the counter |
| Wrappers.ClipActionValue | wrappers/mod.rs:81 | for `min <= max` the action is clamped into `[min, max]` and unchanged inside it; for `min > max` the lower test wins below `min` and `max` is used otherwise |
| Wrappers.ClipAction.constructor | wrappers/mod.rs:65-67 | the wrapper holds the inner environment and both bounds |
| Wrappers.ClipAction.Reset | wrappers/mod.rs:78 | the inner `reset`, as is |
| Wrappers.ClipAction.Step | wrappers/mod.rs:80-83 | the inner environment steps on the clipped action and its result is returned as is |
| Wrappers.ClipAction.Close | wrappers/mod.rs:86 | closes the inner environment |
| Wrappers.ClipRewardValue | wrappers/mod.rs:108-109 | for `min <= max` the reward is clamped into `[min, max]` and unchanged inside it; for `min > max` the second test wins and the reward is always `max` |
| Wrappers.ClipsAgreeOnRanges | wrappers/mod.rs:81-109 | both clips agree whenever the range is well formed; with `min > max` they differ below `min`, where the action clip gives `min` and the reward clip `max` |
| Wrappers.ClipReward.constructor | wrappers/mod.rs:97 | the wrapper holds the inner environment and both bounds |
| Wrappers.ClipReward.Reset | wrappers/mod.rs:104 | the inner `reset`, as is |
| Wrappers.ClipReward.Step | wrappers/mod.rs:106-111 | the inner environment steps once, and its step is returned with only the reward clipped |
| Wrappers.ClipReward.Close | wrappers/mod.rs:114 | closes the inner environment |
| Wrappers.MapObservation | wrappers/mod.rs:149-152 | the observation is mapped through `f`, and reward, flags and info pass through |
| Wrappers.MapObservationLaws | wrappers/mod.rs:117-156 | mapping by the identity changes nothing, and mapping by `f` then `g` is mapping by their composition |
| Wrappers.MapReward | wrappers/mod.rs:225-229 | the reward is mapped through `f`, and observation, flags and info pass through |
| Wrappers.TransformObservation.constructor | wrappers/mod.rs:133 | the wrapper holds the inner environment and the map |
| Wrappers.TransformObservation.Reset | wrappers/mod.rs:144-147 | the inner `reset`, its observation mapped through `f` and its info kept |
| Wrappers.TransformObservation.Step | wrappers/mod.rs:149-152 | the inner step with its observation mapped through `f` |
| Wrappers.TransformObservation.Close | wrappers/mod.rs:155 | closes the inner environment |
| Wrappers.TransformAction.constructor | wrappers/mod.rs:174 | the wrapper holds the inner environment and the map |
| Wrappers.TransformAction.Reset | wrappers/mod.rs:186 | the inner `reset`, as is |
| Wrappers.TransformAction.Step | wrappers/mod.rs:188-191 | the inner environment steps on `f(action)` and its result is returned as is |
| Wrappers.TransformAction.Close | wrappers/mod.rs:194 | closes the inner environment |
| Wrappers.TransformReward.constructor | wrappers/mod.rs:212 | the wrapper holds the inner environment and the map |
| Wrappers.TransformReward.Reset | wrappers/mod.rs:223 | the inner `reset`, as is |
| Wrappers.TransformReward.Step | wrappers/mod.rs:225-229 | the inner step with its reward mapped through `f` |
| Wrappers.TransformReward.Close | wrappers/mod.rs:232 | closes the inner environment |
| Wrappers.KeysDiffer | wrappers/mod.rs:265-266 | the two statistics keys are different strings |
| Wrappers.WithEpisodeStatsFind | wrappers/mod.rs:263-267 | after both inserts, each key reads back the value just inserted for it |
| Wrappers.WithEpisodeStatsOthers | wrappers/mod.rs:263-267 | after both inserts, every other key reads as it did before |
| Wrappers.WithEpisodeStatsUnique | wrappers/mod.rs:263-267 | both inserts keep the keys pairwise distinct |
| Wrappers.WithEpisodeStatsAppends | wrappers/mod.rs:263-267 | an info holding neither key gains exactly the two entries at its end, the return first |
| Wrappers.InjectEpisodeStats | wrappers/mod.rs:264-267 | the two `Info::insert` calls on the step's info leave the entries of `WithEpisodeStats` |
| Wrappers.RecordStats | wrappers/mod.rs:263-272 | a step that does not end the episode is returned unchanged; an ending step carries the statistics in its info and is otherwise unchanged |
| Wrappers.RecordEpisodeStatistics.constructor | wrappers/mod.rs:246 | both counters start at zero, summarising an empty episode |
| Wrappers.RecordEpisodeStatistics.Reset | wrappers/mod.rs:253-257 | both counters restart at zero and the inner `reset` is returned as is |
| Wrappers.RecordEpisodeStatistics.Step | wrappers/mod.rs:259-273 | the counters remain the sum and count of the episode's rewards so far; an ending step reports the return and length of the whole episode, including its own reward, and restarts both counters; any other step passes through |
| Wrappers.RecordEpisodeStatistics.Close | wrappers/mod.rs:276 | closes the inner environment and keeps the counters |
| Registry.NewEnvSpec | registry.rs:33-42 | a new spec has the given id, no step limit, threshold or version, is deterministic and enforces order |
| Registry.RegisterIn | registry.rs:95-103 | an id already in the specs is refused with an error and changes nothing; a fresh id is added with its spec and factory and succeeds |
| Registry.SpecIn | registry.rs:105-108 | a spec is found exactly when its id is registered, and it is the registered one |
| Registry.MakeIn | registry.rs:110-116 | `make` succeeds exactly for a registered id, applying its factory to the arguments; an unknown id is an error |
| Registry.RegisterKeepsValid | registry.rs:95-103 | `register` keeps the spec table and the factory table over the same ids |
| Registry.RegisterThenLookup | registry.rs:95-116 | after a successful `register`, `get_spec` returns the spec, `make` calls the factory, and every other id answers as before |
| Registry.RegisterTwiceFails | registry.rs:97-99 | a second `register` of the same id fails and changes nothing, whatever spec and factory it brings |
| Registry.Registry.constructor | registry.rs:93 | a new registry has empty tables |
| Registry.Registry.Register | registry.rs:95-103 | the in-place `register` returns and leaves what `RegisterIn` computes, and keeps the tables in step |
| Registry.Registry.GetSpec | registry.rs:105-108 | the answer of `SpecIn` on the current tables |
| Registry.Registry.Make | registry.rs:110-116 | the answer of `MakeIn` on the current tables |
| Render2d.Fill | utils/render2d.rs:31-41 | a picture of the canvas's size in which every pixel has the one colour |
| Render2d.PutCell | utils/render2d.rs:44-53 | `put_pixel` on the picture keeps its size |
| Render2d.PutCellExactly | utils/render2d.rs:44-53 | `put_pixel` gives the target its colour when it is on the canvas and changes no other pixel |
| Render2d.Coords | utils/render2d.rs:34 | pixel number `n` splits into a column below the width and a row that number it back |
| Render2d.CoordsOfCell | utils/render2d.rs:34 | the pixel numbered `y*width + x` is `(x, y)` |
| Render2d.WriteCell | utils/render2d.rs:49-52 | the four-byte write keeps the buffer's length |
| Render2d.WriteCellAt | utils/render2d.rs:49-52 | a four-byte write stores its colour and leaves every colour stored four or more bytes away |
| Render2d.GridAfterWrite | utils/render2d.rs:34-38 | writing the four bytes from `(y*width + x)*4` changes exactly pixel `(x, y)` of the picture |
| Render2d.SpanEndAsWritten | utils/render2d.rs:60-61 | the span end as written: the capped end cast from `i32` to `u32`, a negative value wrapping to 2^32 plus it |
| Render2d.SpanEndOverrun | utils/render2d.rs:56-61 | for a rectangle wholly left of or above the canvas, the span end as written lies beyond the canvas edge |
| Render2d.ClippedSpanEnd | utils/render2d.rs:60-61 | the intended span end: never beyond the canvas edge, 0 for a non-positive end, the end itself when it is on the canvas |
| Render2d.ClippedSpanEndAgrees | utils/render2d.rs:60-61 | wherever the cast cannot wrap, the intended span end equals the one the code computes |
| Render2d.WalkStarts | utils/render2d.rs:76-82 | the loop state `draw_line` sets up is on track: the error term `dx + dy` accounts for every step still to take |
| Render2d.WalkStepTracks | utils/render2d.rs:86-88 | a pass of the loop short of the target stays on track and comes strictly closer to the target |
| Render2d.WalkFrom | utils/render2d.rs:83-89 | the points the loop plots from a state start at that state's point |
| Render2d.LinePoints | utils/render2d.rs:75-90 | the points `draw_line` plots start at `(x0, y0)` |
| Render2d.WalkEndsAtTarget | utils/render2d.rs:85 | a walk ends at its target and meets it nowhere earlier |
| Render2d.WalkStepAdjacent | utils/render2d.rs:86-88 | each pass moves to a different point, each coordinate by at most one step towards the target |
| Render2d.ConnectedCons | utils/render2d.rs:83-89 | a point next to the head of a gapless sequence of points extends it without a gap |
| Render2d.WalkConnected | utils/render2d.rs:83-89 | consecutive points of a walk are distinct neighbours |
| Render2d.WalkStepInBox | utils/render2d.rs:86-88 | no pass overshoots: each coordinate stays between the current point and the target |
| Render2d.WalkInBox | utils/render2d.rs:83-89 | every point of a walk lies in the box spanned by its start and its target |
| Render2d.WalkAdvance | utils/render2d.rs:83-89 | one pass short of the target keeps the walk on track, brings it closer, and moves the current point from the points still to plot to those plotted |
| Render2d.LineEndpoints | utils/render2d.rs:75-90 | `draw_line` starts at `(x0, y0)`, ends at `(x1, y1)` and plots that point once, so it always stops |
| Render2d.LineConnected | utils/render2d.rs:75-90 | the plotted line has no gaps: consecutive points are 8-neighbours |
| Render2d.LineInBox | utils/render2d.rs:75-90 | the plotted line stays in the bounding box of its endpoints |
| Render2d.PlotAll | utils/render2d.rs:84 | plotting a list of points keeps the picture's size |
| Render2d.PlotAllExactly | utils/render2d.rs:83-89 | after plotting, a pixel is the colour exactly when some point of the list hits it, and keeps its colour otherwise |
| Render2d.PixelChannels | utils/render.rs:19-30 | a buffer is accepted exactly when it holds three or four bytes per pixel; it is read as three channels exactly when it holds three |
| Render2d.CanvasFrameIsRgba | utils/render.rs:19-32 | a non-empty canvas buffer, four bytes per pixel, is read as RGBA |
| Render2d.Canvas.constructor | utils/render2d.rs:21-29 | a new canvas has the given size and a fresh buffer, every pixel black |
| Render2d.Canvas.SetCell | utils/render2d.rs:34-38 | the four-byte write of pixel `(x, y)` changes that pixel of the picture and no other |
| Render2d.Canvas.WriteBytes | utils/render2d.rs:35-38 | the four assignments leave the buffer of `WriteCell` |
| Render2d.Canvas.Clear | utils/render2d.rs:31-41 | after `clear(c)` every pixel is `c` |
| Render2d.Canvas.PutPixel | utils/render2d.rs:44-53 | an on-canvas target gets the colour, and an off-canvas one, negative or too large, changes nothing |
| Render2d.Canvas.FillRect | utils/render2d.rs:56-72 | with the clipped span ends, exactly the on-canvas pixels of the rectangle get the colour and every other pixel keeps its own; nothing changes for a non-positive width or height |
| Render2d.Canvas.DrawLine | utils/render2d.rs:75-90 | the picture after `draw_line` is the one that plots the Bresenham points from `(x0, y0)` to `(x1, y1)` in order |
| Render2d.Canvas.IntoRenderFrame | utils/render2d.rs:92-94 | the frame carries the canvas's size and bytes, and a non-empty one is read as RGBA |

## Left out

- Bit-exact `f32` and `f64` arithmetic: the model works over exact reals. So it does not capture rounding, the accuracy of the Euler steps or the rounding of the `f32` constants such as `MAX_VEL_1 = 4 pi` and `MAX_VEL_2 = 9 pi`. `RecordEpisodeStatistics`'s `f64` `ep_return` is an exact sum.
- Step counters are `nat`: the `u32` `steps` of every environment and of `TimeLimit`, and the `i64` `ep_length` of `RecordEpisodeStatistics`, never wrap here. In the source they wrap or overflow after 2^32 or 2^63 steps.
- The ChaCha8 `RngStream` and the `rand` `Uniform` distributions are foreign library code. A stream is a seed plus the number of values drawn from it. A sample is an oracle: the model knows only its range, and that each draw uses up one value.
- `sample_u64` (utils/rng.rs:66-68) only forwards to the foreign `next_u64`.
- Each environment's `render_pixels` and `render` are float-to-pixel casts plus drawing: `Core.Env` takes `render` as a parameter. cart_pole.rs also draws with `fill_circle`, `BEIGE` and `MAUVE`, which utils/render2d.rs does not define.
- utils/render.rs: PNG encoding through the `image` crate, its feature gate and the file write are I/O. Only the channel-count check (`Render2d.PixelChannels`) is modelled.
- The `Space` trait of spaces/space.rs is not a type in the model: each space kind has its own `sample` and `contains` functions.
- spaces/interop.rs: feature-gated conversions to and from ndarray and nalgebra types.
- The registry's global `OnceLock` and `RwLock`: concurrency and lock poisoning. The registry is a class whose two maps are updated in place.
- `DynEnv`'s `Box<dyn Any>` downcast and its panic (registry.rs:54-77), and `factory_of`: the model has no dynamic typing. A factory is a function value stored in the map.
- The `run_and_render` example program is a window and event loop. src/lib.rs, src/core.rs, envs/mod.rs, envs/classic_control/mod.rs and utils/mod.rs only re-export.
- `SyncVectorEnv::envs` and `envs_mut` (vector/mod.rs:67-69) hand out the member slice itself. In the model that slice is the `envs` field.
- Vector.SyncVectorEnv.StepAll: requires one action per member; the source stops with `assert_eq!` otherwise.
- Vector.SeedFor: requires `base + i` to fit in `u64`; the source's `s + i` overflows otherwise.
- Acrobot: the link parameters are folded into constant coefficients of the equations of motion, and `Acrobot.Coefficients` proves them equal to the source's expressions over the parameters.
- Render2d: coordinates are unbounded integers, so no `i32` or `u32` overflow is modelled. This leaves out `x1 - x0` and `2 * err` in `draw_line`; `x + w` and `y + h` in `fill_rect`, which panic in a debug build and wrap in a release build, and whose wrapped values would reach the same `as u32` wrap as in Findings; the `width as i32` and `height as i32` casts of `fill_rect`, which turn negative for a canvas at least 2^31 pixels wide or high; and the `y * width` pixel index. Each needs coordinates or canvas sizes near 2^31.
- Render2d.Canvas.FillRect: uses the corrected span end `Render2d.ClippedSpanEnd`, not the wrapping cast of the source (see Findings).
- The space constructors' panics on invalid arguments are modelled as `None` or `Err` results, so callers see the error case.

## Findings

| source | as written | input that shows it | evidently intended | confidence | as-written member | corrected member |
|---|---|---|---|---|---|---|
| utils/render2d.rs:60-61 | `fill_rect` computes each span end as `(x + w).min(width as i32) as u32` (and the same for `y + h`). When the end is negative the cast wraps it to 2^32 plus the end | `fill_rect(-20, 0, 10, 10, c)` on any canvas: `x + w = -10` becomes 4294967286, so the column loop runs past the canvas edge into the following rows and panics once its index leaves the buffer, where nothing should be drawn | the end is clipped at 0 as well as at the canvas edge, so a rectangle wholly left of or above the canvas draws nothing | not executed | Render2d.SpanEndAsWritten, Render2d.SpanEndOverrun | Render2d.ClippedSpanEnd, Render2d.Canvas.FillRect |
