/** Environment decorators. Each wrapper holds the state of the environment
    it wraps and updates it in place; what a wrapper does to a transition
    result is stated by a pure function beside it. */
module Wrappers {
  import opened Common
  import opened Core
  import FloatMath

  // ---------------------------------------------------------------- TimeLimit

  /** What `TimeLimit::step` makes of the inner result after counting the
      step: truncation is forced once the counter reaches the limit, unless
      the inner step already ended the episode. */
  function TruncateAt<O>(s: Step<O>, steps: nat, maxSteps: nat): (r: Step<O>)
    ensures r.observation == s.observation && r.reward == s.reward
    ensures r.terminated == s.terminated && r.info == s.info
    ensures r.truncated <==> s.truncated || (!s.terminated && steps >= maxSteps)
    ensures steps >= maxSteps ==> r.terminated || r.truncated
  {
    if !s.terminated && !s.truncated && steps >= maxSteps then s.(truncated := true) else s
  }

  /** An inner result that already ended the episode is passed through
      untouched, and so is any result before the limit. */
  lemma TruncateAtPassThrough<O>(s: Step<O>, steps: nat, maxSteps: nat)
    ensures s.terminated || s.truncated || steps < maxSteps ==> TruncateAt(s, steps, maxSteps) == s
  {
  }

  class TimeLimit<S, A, O> {
    const env: Env<S, A, O>
    const maxSteps: u32
    var inner: S
    /** The step counter; the source's `u32` is unbounded here. */
    var steps: nat

    /** `TimeLimit::new` starts the counter at zero. */
    constructor (env: Env<S, A, O>, inner: S, maxSteps: u32)
      ensures this.env == env && this.inner == inner && this.maxSteps == maxSteps
      ensures steps == 0
    {
      this.env := env;
      this.inner := inner;
      this.maxSteps := maxSteps;
      steps := 0;
    }

    /** `reset` zeroes the counter, then resets the inner environment. */
    method Reset(seed: Option<u64>) returns (obs: O, info: Entries)
      modifies this
      ensures steps == 0
      ensures (inner, (obs, info)) == env.reset(old(inner), seed)
    {
      steps := 0;
      var p := env.reset(inner, seed);
      inner := p.0;
      obs, info := p.1.0, p.1.1;
    }

    /** `step`: one inner step, the counter advanced by exactly one, and
      the truncation rule applied with the new count. */
    method Step(action: A) returns (s: Step<O>)
      modifies this
      ensures steps == old(steps) + 1
      ensures inner == env.step(old(inner), action).0
      ensures s == TruncateAt(env.step(old(inner), action).1, steps, maxSteps as nat)
    {
      var p := env.step(inner, action);
      inner := p.0;
      s := p.1;
      steps := steps + 1;
      if !s.terminated && !s.truncated && steps >= maxSteps as nat {
        s := s.(truncated := true);
      }
    }

    function Render(): Option<RenderFrame>
      reads this
    {
      env.render(inner)
    }

    method Close()
      modifies this
      ensures inner == env.close(old(inner)) && steps == old(steps)
    {
      inner := env.close(inner);
    }
  }

  // --------------------------------------------------------------- ClipAction

  /** The action `ClipAction::step` forwards: below `min` gives `min`, else
      above `max` gives `max`, else the action itself. */
  function ClipActionValue(a: real, min: real, max: real): (r: real)
    ensures min <= max ==> min <= r <= max
    ensures min <= a <= max ==> r == a
    ensures min <= max ==> r == FloatMath.Clamp(a, min, max)
    ensures min > max ==> r == (if a < min then min else max)
  {
    if a < min then min else if a > max then max else a
  }

  class ClipAction<S, O> {
    const env: Env<S, real, O>
    const min: real
    const max: real
    var inner: S

    constructor (env: Env<S, real, O>, inner: S, min: real, max: real)
      ensures this.env == env && this.inner == inner && this.min == min && this.max == max
    {
      this.env := env;
      this.inner := inner;
      this.min := min;
      this.max := max;
    }

    method Reset(seed: Option<u64>) returns (obs: O, info: Entries)
      modifies this
      ensures (inner, (obs, info)) == env.reset(old(inner), seed)
    {
      var p := env.reset(inner, seed);
      inner := p.0;
      obs, info := p.1.0, p.1.1;
    }

    /** `step` hands the clipped action to the inner environment. */
    method Step(action: real) returns (s: Step<O>)
      modifies this
      ensures (inner, s) == env.step(old(inner), ClipActionValue(action, min, max))
    {
      var a := if action < min then min else if action > max then max else action;
      var p := env.step(inner, a);
      inner := p.0;
      s := p.1;
    }

    function Render(): Option<RenderFrame>
      reads this
    {
      env.render(inner)
    }

    method Close()
      modifies this
      ensures inner == env.close(old(inner))
    {
      inner := env.close(inner);
    }
  }

  // --------------------------------------------------------------- ClipReward

  /** The reward after `ClipReward::step`'s two sequential tests: raised to
      `min` when below it, then lowered to `max` when above it. With
      `min > max` every reward ends up `max`. */
  function ClipRewardValue(r: real, min: real, max: real): (c: real)
    ensures min <= max ==> min <= c <= max
    ensures min <= r <= max ==> c == r
    ensures min <= max ==> c == FloatMath.Clamp(r, min, max)
    ensures min > max ==> c == max
  {
    var raised := if r < min then min else r;
    if raised > max then max else raised
  }

  /** The two clips differ only for an empty range: there `ClipAction`
      keeps `min` for actions below it while `ClipReward` gives `max`. */
  lemma ClipsAgreeOnRanges(x: real, min: real, max: real)
    ensures min <= max ==> ClipActionValue(x, min, max) == ClipRewardValue(x, min, max)
    ensures min > max && x < min ==> ClipActionValue(x, min, max) == min != ClipRewardValue(x, min, max)
  {
  }

  class ClipReward<S, A, O> {
    const env: Env<S, A, O>
    const min: real
    const max: real
    var inner: S

    constructor (env: Env<S, A, O>, inner: S, min: real, max: real)
      ensures this.env == env && this.inner == inner && this.min == min && this.max == max
    {
      this.env := env;
      this.inner := inner;
      this.min := min;
      this.max := max;
    }

    method Reset(seed: Option<u64>) returns (obs: O, info: Entries)
      modifies this
      ensures (inner, (obs, info)) == env.reset(old(inner), seed)
    {
      var p := env.reset(inner, seed);
      inner := p.0;
      obs, info := p.1.0, p.1.1;
    }

    /** `step` clips the reward and nothing else. */
    method Step(action: A) returns (s: Step<O>)
      modifies this
      ensures inner == env.step(old(inner), action).0
      ensures var t := env.step(old(inner), action).1;
        s == t.(reward := ClipRewardValue(t.reward, min, max))
    {
      var p := env.step(inner, action);
      inner := p.0;
      s := p.1;
      if s.reward < min {
        s := s.(reward := min);
      }
      if s.reward > max {
        s := s.(reward := max);
      }
    }

    function Render(): Option<RenderFrame>
      reads this
    {
      env.render(inner)
    }

    method Close()
      modifies this
      ensures inner == env.close(old(inner))
    {
      inner := env.close(inner);
    }
  }

  // ------------------------------------------------------ Transform wrappers

  /** `TransformObservation::step`: the observation mapped through `f`,
      every other field as the inner step returned it. */
  function MapObservation<O, O2>(s: Step<O>, f: O -> O2): (r: Step<O2>)
    ensures r.observation == f(s.observation)
    ensures r.reward == s.reward && r.terminated == s.terminated
    ensures r.truncated == s.truncated && r.info == s.info
  {
    NewStep(f(s.observation), s.reward, s.terminated, s.truncated, s.info)
  }

  /** Mapping with the identity changes nothing, and mapping twice is
      mapping with the composition. */
  lemma MapObservationLaws<O, O2, O3>(s: Step<O>, f: O -> O2, g: O2 -> O3)
    ensures MapObservation(s, (o: O) => o) == s
    ensures MapObservation(MapObservation(s, f), g) == MapObservation(s, (o: O) => g(f(o)))
  {
  }

  /** `TransformReward::step`: the reward mapped through `f`, every other
      field as the inner step returned it. */
  function MapReward<O>(s: Step<O>, f: real -> real): (r: Step<O>)
    ensures r.reward == f(s.reward)
    ensures r.observation == s.observation && r.terminated == s.terminated
    ensures r.truncated == s.truncated && r.info == s.info
  {
    s.(reward := f(s.reward))
  }

  class TransformObservation<S, A, O, O2> {
    const env: Env<S, A, O>
    const f: O -> O2
    var inner: S

    constructor (env: Env<S, A, O>, inner: S, f: O -> O2)
      ensures this.env == env && this.inner == inner && this.f == f
    {
      this.env := env;
      this.inner := inner;
      this.f := f;
    }

    /** `reset` maps the observation and passes the info through. */
    method Reset(seed: Option<u64>) returns (obs: O2, info: Entries)
      modifies this
      ensures inner == env.reset(old(inner), seed).0
      ensures obs == f(env.reset(old(inner), seed).1.0)
      ensures info == env.reset(old(inner), seed).1.1
    {
      var p := env.reset(inner, seed);
      inner := p.0;
      obs, info := f(p.1.0), p.1.1;
    }

    method Step(action: A) returns (s: Step<O2>)
      modifies this
      ensures inner == env.step(old(inner), action).0
      ensures s == MapObservation(env.step(old(inner), action).1, f)
    {
      var p := env.step(inner, action);
      inner := p.0;
      var t := p.1;
      s := NewStep(f(t.observation), t.reward, t.terminated, t.truncated, t.info);
    }

    function Render(): Option<RenderFrame>
      reads this
    {
      env.render(inner)
    }

    method Close()
      modifies this
      ensures inner == env.close(old(inner))
    {
      inner := env.close(inner);
    }
  }

  class TransformAction<S, A, A2, O> {
    const env: Env<S, A, O>
    const f: A2 -> A
    var inner: S

    constructor (env: Env<S, A, O>, inner: S, f: A2 -> A)
      ensures this.env == env && this.inner == inner && this.f == f
    {
      this.env := env;
      this.inner := inner;
      this.f := f;
    }

    method Reset(seed: Option<u64>) returns (obs: O, info: Entries)
      modifies this
      ensures (inner, (obs, info)) == env.reset(old(inner), seed)
    {
      var p := env.reset(inner, seed);
      inner := p.0;
      obs, info := p.1.0, p.1.1;
    }

    /** `step` steps the inner environment with `f(action)`. */
    method Step(action: A2) returns (s: Step<O>)
      modifies this
      ensures (inner, s) == env.step(old(inner), f(action))
    {
      var p := env.step(inner, f(action));
      inner := p.0;
      s := p.1;
    }

    function Render(): Option<RenderFrame>
      reads this
    {
      env.render(inner)
    }

    method Close()
      modifies this
      ensures inner == env.close(old(inner))
    {
      inner := env.close(inner);
    }
  }

  class TransformReward<S, A, O> {
    const env: Env<S, A, O>
    const f: real -> real
    var inner: S

    constructor (env: Env<S, A, O>, inner: S, f: real -> real)
      ensures this.env == env && this.inner == inner && this.f == f
    {
      this.env := env;
      this.inner := inner;
      this.f := f;
    }

    method Reset(seed: Option<u64>) returns (obs: O, info: Entries)
      modifies this
      ensures (inner, (obs, info)) == env.reset(old(inner), seed)
    {
      var p := env.reset(inner, seed);
      inner := p.0;
      obs, info := p.1.0, p.1.1;
    }

    method Step(action: A) returns (s: Step<O>)
      modifies this
      ensures inner == env.step(old(inner), action).0
      ensures s == MapReward(env.step(old(inner), action).1, f)
    {
      var p := env.step(inner, action);
      inner := p.0;
      s := p.1;
      s := s.(reward := f(s.reward));
    }

    function Render(): Option<RenderFrame>
      reads this
    {
      env.render(inner)
    }

    method Close()
      modifies this
      ensures inner == env.close(old(inner))
    {
      inner := env.close(inner);
    }
  }

  // -------------------------------------------------- RecordEpisodeStatistics

  const EPISODE_RETURN: string := "episode_return"
  const EPISODE_LENGTH: string := "episode_length"

  lemma KeysDiffer()
    ensures EPISODE_RETURN != EPISODE_LENGTH
  {
    assert EPISODE_RETURN[8] != EPISODE_LENGTH[8];
  }

  function Sum(rs: seq<real>): real
  {
    if rs == [] then 0.0 else Sum(rs[..|rs| - 1]) + rs[|rs| - 1]
  }

  /** The info of an episode-ending step after `insert("episode_return")`
      and then `insert("episode_length")`. */
  function WithEpisodeStats(info: Entries, ret: real, len: nat): Entries
  {
    Inserted(Inserted(info, EPISODE_RETURN, F64(ret)), EPISODE_LENGTH, I64(len))
  }

  /** Both keys read back the values just inserted. */
  lemma WithEpisodeStatsFind(info: Entries, ret: real, len: nat)
    ensures Find(WithEpisodeStats(info, ret, len), EPISODE_RETURN) == Some(F64(ret))
    ensures Find(WithEpisodeStats(info, ret, len), EPISODE_LENGTH) == Some(I64(len))
  {
    KeysDiffer();
    var once := Inserted(info, EPISODE_RETURN, F64(ret));
    FindInsertedSame(info, EPISODE_RETURN, F64(ret));
    FindInsertedOther(once, EPISODE_LENGTH, I64(len), EPISODE_RETURN);
    FindInsertedSame(once, EPISODE_LENGTH, I64(len));
  }

  /** Every other key reads as it did before the inserts. */
  lemma WithEpisodeStatsOthers(info: Entries, ret: real, len: nat, k: string)
    requires k != EPISODE_RETURN && k != EPISODE_LENGTH
    ensures Find(WithEpisodeStats(info, ret, len), k) == Find(info, k)
  {
    var once := Inserted(info, EPISODE_RETURN, F64(ret));
    FindInsertedOther(info, EPISODE_RETURN, F64(ret), k);
    FindInsertedOther(once, EPISODE_LENGTH, I64(len), k);
  }

  /** Keys stay pairwise distinct. */
  lemma WithEpisodeStatsUnique(info: Entries, ret: real, len: nat)
    requires KeysUnique(info)
    ensures KeysUnique(WithEpisodeStats(info, ret, len))
  {
    InsertedKeepsKeysUnique(info, EPISODE_RETURN, F64(ret));
    InsertedKeepsKeysUnique(Inserted(info, EPISODE_RETURN, F64(ret)), EPISODE_LENGTH, I64(len));
  }

  /** An info without either key gains exactly the two entries at its end,
      return first. */
  lemma WithEpisodeStatsAppends(info: Entries, ret: real, len: nat)
    requires IndexOf(info, EPISODE_RETURN) == |info| && IndexOf(info, EPISODE_LENGTH) == |info|
    ensures WithEpisodeStats(info, ret, len) == info + [(EPISODE_RETURN, F64(ret)), (EPISODE_LENGTH, I64(len))]
  {
    KeysDiffer();
    var a, b := (EPISODE_RETURN, F64(ret)), (EPISODE_LENGTH, I64(len));
    var once := Inserted(info, EPISODE_RETURN, F64(ret));
    InsertedAt(info, EPISODE_RETURN, F64(ret));
    assert once == info + [a];
    IndexOfAppendOther(info, EPISODE_LENGTH, a);
    InsertedAt(once, EPISODE_LENGTH, I64(len));
    assert Inserted(once, EPISODE_LENGTH, I64(len)) == once + [b];
  }

  /** The inserts of an episode-ending step, on an `Info` built from the
      step's own info. */
  method InjectEpisodeStats(es: Entries, ret: real, len: nat) returns (r: Entries)
    ensures r == WithEpisodeStats(es, ret, len)
  {
    var info := new Info.Of(es);
    info.Insert(EPISODE_RETURN, F64(ret));
    info.Insert(EPISODE_LENGTH, I64(len));
    r := info.entries;
  }

  /** What `RecordEpisodeStatistics::step` returns given the updated
      counters: an ending step carries the statistics in its info, any
      other step is returned unchanged. */
  function RecordStats<O>(s: Step<O>, ret: real, len: nat): (r: Step<O>)
    ensures !(s.terminated || s.truncated) ==> r == s
    ensures s.terminated || s.truncated ==> r == s.(info := WithEpisodeStats(s.info, ret, len))
  {
    if s.terminated || s.truncated then s.(info := WithEpisodeStats(s.info, ret, len)) else s
  }

  class RecordEpisodeStatistics<S, A, O> {
    const env: Env<S, A, O>
    var inner: S
    var epReturn: real
    /** The episode length; the source's `i64` is unbounded here. */
    var epLength: nat
    /** The rewards of the current episode so far. */
    ghost var episode: seq<real>

    /** The counters summarise the rewards since the last reset or episode
        end. */
    ghost predicate Valid()
      reads this
    {
      epLength == |episode| && epReturn == Sum(episode)
    }

    constructor (env: Env<S, A, O>, inner: S)
      ensures this.env == env && this.inner == inner
      ensures epReturn == 0.0 && epLength == 0 && Valid()
    {
      this.env := env;
      this.inner := inner;
      epReturn := 0.0;
      epLength := 0;
      episode := [];
    }

    /** `reset` zeroes both counters, then resets the inner environment. */
    method Reset(seed: Option<u64>) returns (obs: O, info: Entries)
      modifies this
      ensures epReturn == 0.0 && epLength == 0 && episode == [] && Valid()
      ensures (inner, (obs, info)) == env.reset(old(inner), seed)
    {
      epReturn := 0.0;
      epLength := 0;
      episode := [];
      var p := env.reset(inner, seed);
      inner := p.0;
      obs, info := p.1.0, p.1.1;
    }

    /** `step`: counts the step and its reward; on an ending step the
        episode's length and return go into the info through `insert` and
        both counters restart. */
    method Step(action: A) returns (s: Step<O>)
      requires Valid()
      modifies this
      ensures Valid()
      ensures inner == env.step(old(inner), action).0
      ensures var t := env.step(old(inner), action).1;
        s == RecordStats(t, Sum(old(episode) + [t.reward]), |old(episode)| + 1)
      ensures var t := env.step(old(inner), action).1;
        t.terminated || t.truncated ==> epLength == 0 && epReturn == 0.0 && episode == []
      ensures var t := env.step(old(inner), action).1;
        !(t.terminated || t.truncated) ==> episode == old(episode) + [t.reward]
    {
      var p := env.step(inner, action);
      inner := p.0;
      s := p.1;
      epReturn := epReturn + s.reward;
      epLength := epLength + 1;
      episode := episode + [s.reward];
      assert Sum(episode) == Sum(old(episode)) + s.reward by {
        assert episode[..|episode| - 1] == old(episode);
      }
      if s.terminated || s.truncated {
        var info := InjectEpisodeStats(s.info, epReturn, epLength);
        s := s.(info := info);
        epReturn := 0.0;
        epLength := 0;
        episode := [];
      }
    }

    function Render(): Option<RenderFrame>
      reads this
    {
      env.render(inner)
    }

    method Close()
      modifies this
      ensures inner == env.close(old(inner))
      ensures epReturn == old(epReturn) && epLength == old(epLength) && episode == old(episode)
    {
      inner := env.close(inner);
    }
  }
}
