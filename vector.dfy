/** The synchronous vector environment: `N` copies of one environment kind,
    reset and stepped index by index in a loop. Environments are the
    transition functions of `Core.Env`; a copy is its state. */
module Vector {
  import opened Common
  import opened Core

  /** The seed member `i` is reset with: `base + i` when a base is given. */
  function SeedFor(base: Option<u64>, i: nat): (r: Option<u64>)
    requires base.Some? ==> base.value + i < U64_LIMIT
    ensures base.None? <==> r.None?
    ensures base.Some? ==> r == Some(base.value + i)
  {
    match base
    case None => None
    case Some(b) => Some(b + i)
  }

  /** `reset_all` over member states `ss`: member `i` reset with its own
      seed, results in index order. */
  function ResetAllOf<S, A, O>(env: Env<S, A, O>, ss: seq<S>, base: Option<u64>): (p: (seq<S>, seq<(O, Entries)>))
    requires base.Some? ==> base.value + |ss| <= U64_LIMIT
    ensures |p.0| == |ss| && |p.1| == |ss|
    ensures forall i :: 0 <= i < |ss| ==> (p.0[i], p.1[i]) == env.reset(ss[i], SeedFor(base, i))
  {
    (seq(|ss|, i requires 0 <= i < |ss| => env.reset(ss[i], SeedFor(base, i)).0),
     seq(|ss|, i requires 0 <= i < |ss| => env.reset(ss[i], SeedFor(base, i)).1))
  }

  /** `step_all` over member states `ss`: member `i` stepped once with
      `actions[i]`, results in index order. */
  function StepAllOf<S, A, O>(env: Env<S, A, O>, ss: seq<S>, actions: seq<A>): (p: (seq<S>, seq<Step<O>>))
    requires |actions| == |ss|
    ensures |p.0| == |ss| && |p.1| == |ss|
    ensures forall i :: 0 <= i < |ss| ==> (p.0[i], p.1[i]) == env.step(ss[i], actions[i])
  {
    (seq(|ss|, i requires 0 <= i < |ss| => env.step(ss[i], actions[i]).0),
     seq(|ss|, i requires 0 <= i < |ss| => env.step(ss[i], actions[i]).1))
  }

  /** Members do not interact: what member `j` becomes and returns under
      `step_all` depends on its own state and action only. */
  lemma StepAllIndependent<S, A, O>(env: Env<S, A, O>, ss: seq<S>, as1: seq<A>, ts: seq<S>, as2: seq<A>, j: nat)
    requires |as1| == |ss| && |as2| == |ts|
    requires j < |ss| && j < |ts| && ss[j] == ts[j] && as1[j] == as2[j]
    ensures StepAllOf(env, ss, as1).0[j] == StepAllOf(env, ts, as2).0[j]
    ensures StepAllOf(env, ss, as1).1[j] == StepAllOf(env, ts, as2).1[j]
  {
  }

  /** A single environment run from state `s` over `actions`: the
      transition results in order. */
  function Rollout<S, A, O>(env: Env<S, A, O>, s: S, actions: seq<A>): (r: seq<Step<O>>)
    ensures |r| == |actions|
    ensures |actions| > 0 ==> r[0] == env.step(s, actions[0]).1
    decreases |actions|
  {
    if actions == [] then []
    else
      var (s', st) := env.step(s, actions[0]);
      [st] + Rollout(env, s', actions[1..])
  }

  /** A vector environment run from member states `ss` over a sequence of
      action batches: the batch results in order. */
  function VecRollout<S, A, O>(env: Env<S, A, O>, ss: seq<S>, batches: seq<seq<A>>): (r: seq<seq<Step<O>>>)
    requires forall k :: 0 <= k < |batches| ==> |batches[k]| == |ss|
    ensures |r| == |batches|
    decreases |batches|
  {
    if batches == [] then []
    else
      var (ss', sts) := StepAllOf(env, ss, batches[0]);
      [sts] + VecRollout(env, ss', batches[1..])
  }

  /** The batches of a one-member vector environment fed `actions`. */
  function Singletons<A>(actions: seq<A>): (bs: seq<seq<A>>)
    ensures |bs| == |actions|
    ensures forall k :: 0 <= k < |bs| ==> bs[k] == [actions[k]]
  {
    seq(|actions|, k requires 0 <= k < |actions| => [actions[k]])
  }

  /** With one member, `step_all([a])` calls give exactly the results of a
      standalone environment stepped with the same actions. */
  lemma {:induction false} SingleMemberRollout<S, A, O>(env: Env<S, A, O>, s: S, actions: seq<A>)
    ensures forall k :: 0 <= k < |actions| ==> |Singletons(actions)[k]| == 1
    ensures forall k :: 0 <= k < |actions| ==>
      VecRollout(env, [s], Singletons(actions))[k] == [Rollout(env, s, actions)[k]]
    decreases |actions|
  {
    if actions != [] {
      var (s', st) := env.step(s, actions[0]);
      var p := StepAllOf(env, [s], [actions[0]]);
      assert p.0 == [s'] && p.1 == [st];
      var bs := Singletons(actions);
      assert bs[1..] == Singletons(actions[1..]);
      var v := VecRollout(env, [s], bs);
      assert v == [p.1] + VecRollout(env, p.0, bs[1..]);
      SingleMemberRollout(env, s', actions[1..]);
      forall k | 0 <= k < |actions|
        ensures v[k] == [Rollout(env, s, actions)[k]]
      {
        if k > 0 {
          assert v[k] == VecRollout(env, [s'], Singletons(actions[1..]))[k - 1];
          assert Rollout(env, s, actions)[k] == Rollout(env, s', actions[1..])[k - 1];
        }
      }
    }
  }

  /** With one member, `reset_all(Some(seed))` resets it exactly as
      `reset(Some(seed))` resets a standalone environment. */
  lemma SingleMemberReset<S, A, O>(env: Env<S, A, O>, s: S, seed: u64)
    ensures ResetAllOf(env, [s], Some(seed)) == ([env.reset(s, Some(seed)).0], [env.reset(s, Some(seed)).1])
  {
    var p := ResetAllOf(env, [s], Some(seed));
    assert SeedFor(Some(seed), 0) == Some(seed);
    assert p.0 == [env.reset(s, Some(seed)).0];
    assert p.1 == [env.reset(s, Some(seed)).1];
  }

  /** `SyncVectorEnv`: the member states, updated in place. */
  class SyncVectorEnv<S, A, O> {
    const env: Env<S, A, O>
    var envs: seq<S>

    /** `new(n, factory)`: `n` factory calls in order; call `i` produces
        member `i`. */
    constructor (env: Env<S, A, O>, n: nat, factory: nat -> S)
      ensures this.env == env
      ensures |envs| == n
      ensures forall i :: 0 <= i < n ==> envs[i] == factory(i)
    {
      this.env := env;
      var members: seq<S> := [];
      for i := 0 to n
        invariant |members| == i
        invariant forall j :: 0 <= j < i ==> members[j] == factory(j)
      {
        members := members + [factory(i)];
      }
      envs := members;
    }

    /** `len`: the number of members. */
    function Len(): (n: nat)
      reads this
      ensures n == |envs|
    {
      |envs|
    }

    /** `is_empty` holds exactly when `len() == 0`. */
    predicate IsEmpty()
      reads this
      ensures IsEmpty() <==> Len() == 0
    {
      |envs| == 0
    }

    /** `reset_all`: member `i` reset in place with `base + i` (or `None`),
        one result per member in index order. */
    method ResetAll(base: Option<u64>) returns (out: seq<(O, Entries)>)
      requires base.Some? ==> base.value + |envs| <= U64_LIMIT
      modifies this
      ensures envs == ResetAllOf(env, old(envs), base).0
      ensures out == ResetAllOf(env, old(envs), base).1
      ensures |out| == |envs| == |old(envs)|
    {
      ghost var before := envs;
      out := [];
      var i := 0;
      while i < |envs|
        invariant 0 <= i <= |envs| == |before|
        invariant |out| == i
        invariant forall j :: 0 <= j < i ==> (envs[j], out[j]) == env.reset(before[j], SeedFor(base, j))
        invariant forall j :: i <= j < |envs| ==> envs[j] == before[j]
      {
        var seed := SeedFor(base, i);
        var p := env.reset(envs[i], seed);
        envs := envs[i := p.0];
        out := out + [p.1];
        i := i + 1;
      }
      assert envs == ResetAllOf(env, before, base).0;
      assert out == ResetAllOf(env, before, base).1;
    }

    /** `step_all`: the batch must have one action per member; member `i`
        stepped once in place with `actions[i]`, results in index order. */
    method StepAll(actions: seq<A>) returns (out: seq<Step<O>>)
      requires |actions| == |envs|
      modifies this
      ensures envs == StepAllOf(env, old(envs), actions).0
      ensures out == StepAllOf(env, old(envs), actions).1
      ensures |out| == |envs| == |old(envs)|
    {
      ghost var before := envs;
      out := [];
      var i := 0;
      while i < |envs|
        invariant 0 <= i <= |envs| == |before|
        invariant |out| == i
        invariant forall j :: 0 <= j < i ==> (envs[j], out[j]) == env.step(before[j], actions[j])
        invariant forall j :: i <= j < |envs| ==> envs[j] == before[j]
      {
        var p := env.step(envs[i], actions[i]);
        envs := envs[i := p.0];
        out := out + [p.1];
        i := i + 1;
      }
      assert envs == StepAllOf(env, before, actions).0;
      assert out == StepAllOf(env, before, actions).1;
    }

    /** `render_all`: one frame per member, in index order. */
    function RenderAll(): (frames: seq<Option<RenderFrame>>)
      reads this
      ensures |frames| == Len()
      ensures forall i :: 0 <= i < |envs| ==> frames[i] == env.render(envs[i])
    {
      seq(|envs|, i requires 0 <= i < |envs| reads this => env.render(envs[i]))
    }

    /** `close_all`: every member closed once, in place. */
    method CloseAll()
      modifies this
      ensures |envs| == |old(envs)|
      ensures forall i :: 0 <= i < |envs| ==> envs[i] == env.close(old(envs)[i])
    {
      for i := 0 to |envs|
        invariant |envs| == |old(envs)|
        invariant forall j :: 0 <= j < i ==> envs[j] == env.close(old(envs)[j])
        invariant forall j :: i <= j < |envs| ==> envs[j] == old(envs)[j]
      {
        envs := envs[i := env.close(envs[i])];
      }
    }
  }
}
