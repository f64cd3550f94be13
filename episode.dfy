/** The episode bookkeeping shared by all environments: `reset` sets a step
    counter to zero, every `step` adds one to it, and a step is truncated
    exactly when the new count has reached the episode limit. Stated once
    over `Core.Env`, then instantiated by each environment. */
module Episode {
  import opened Common
  import opened Core
  import opened Vector

  /** The state after running `actions` from `s`. */
  function Final<S, A, O>(env: Env<S, A, O>, s: S, actions: seq<A>): S
    decreases |actions|
  {
    if actions == [] then s else Final(env, env.step(s, actions[0]).0, actions[1..])
  }

  /** `count` is the environment's step counter and `limit` its episode
      limit: each step adds one to the counter, keeps the limit, and
      truncates exactly when the new count reaches the limit. */
  ghost predicate CountsSteps<S(!new), A(!new), O>(env: Env<S, A, O>, count: S -> nat, limit: S -> nat)
  {
    forall s, a ::
      && count(env.step(s, a).0) == count(s) + 1
      && limit(env.step(s, a).0) == limit(s)
      && (env.step(s, a).1.truncated <==> count(env.step(s, a).0) >= limit(s))
  }

  /** `reset` sets the counter to zero and keeps the limit. */
  ghost predicate ResetsCount<S(!new), A(!new), O>(env: Env<S, A, O>, count: S -> nat, limit: S -> nat)
  {
    forall s, seed :: count(env.reset(s, seed).0) == 0 && limit(env.reset(s, seed).0) == limit(s)
  }

  /** A run of `k` steps adds `k` to the counter and keeps the limit. */
  lemma {:induction false} CountAfterRun<S(!new), A(!new), O>(env: Env<S, A, O>, count: S -> nat, limit: S -> nat, s: S, actions: seq<A>)
    requires CountsSteps(env, count, limit)
    ensures count(Final(env, s, actions)) == count(s) + |actions|
    ensures limit(Final(env, s, actions)) == limit(s)
    decreases |actions|
  {
    if actions != [] {
      CountAfterRun(env, count, limit, env.step(s, actions[0]).0, actions[1..]);
    }
  }

  /** In a run from `s`, step `k` (counting from 0) is truncated exactly
      when `count(s) + k + 1` has reached the limit. */
  lemma {:induction false} TruncationInRun<S(!new), A(!new), O>(env: Env<S, A, O>, count: S -> nat, limit: S -> nat, s: S, actions: seq<A>)
    requires CountsSteps(env, count, limit)
    ensures forall k :: 0 <= k < |actions| ==>
      (Rollout(env, s, actions)[k].truncated <==> count(s) + k + 1 >= limit(s))
    decreases |actions|
  {
    if actions != [] {
      var s' := env.step(s, actions[0]).0;
      TruncationInRun(env, count, limit, s', actions[1..]);
      forall k | 0 <= k < |actions|
        ensures Rollout(env, s, actions)[k].truncated <==> count(s) + k + 1 >= limit(s)
      {
        if k > 0 {
          assert Rollout(env, s, actions)[k] == Rollout(env, s', actions[1..])[k - 1];
        }
      }
    }
  }

  /** After `reset`, the `k`-th step of an episode (from 1) is truncated
      exactly when `k` has reached the limit, and `k` steps leave the
      counter at `k`. */
  lemma EpisodeTruncation<S(!new), A(!new), O>(env: Env<S, A, O>, count: S -> nat, limit: S -> nat, s: S, seed: Option<u64>, actions: seq<A>)
    requires CountsSteps(env, count, limit) && ResetsCount(env, count, limit)
    ensures var s0 := env.reset(s, seed).0;
      && count(Final(env, s0, actions)) == |actions|
      && forall k :: 0 <= k < |actions| ==> (Rollout(env, s0, actions)[k].truncated <==> k + 1 >= limit(s))
  {
    var s0 := env.reset(s, seed).0;
    CountAfterRun(env, count, limit, s0, actions);
    TruncationInRun(env, count, limit, s0, actions);
  }

  /** The undiscounted return of a run: the sum of its rewards. */
  function Return<O>(sts: seq<Step<O>>): real
    decreases |sts|
  {
    if sts == [] then 0.0 else sts[0].reward + Return(sts[1..])
  }

  /** Every step pays exactly `r`. */
  ghost predicate PaysConstant<S(!new), A(!new), O>(env: Env<S, A, O>, r: real)
  {
    forall s, a :: env.step(s, a).1.reward == r
  }

  /** Every step pays at most `r`. */
  ghost predicate PaysAtMost<S(!new), A(!new), O>(env: Env<S, A, O>, r: real)
  {
    forall s, a :: env.step(s, a).1.reward <= r
  }

  /** Every step pays `r`: a run of `k` steps returns `k * r`. */
  lemma {:induction false} ReturnOfConstant<S(!new), A(!new), O>(env: Env<S, A, O>, r: real, s: S, actions: seq<A>)
    requires PaysConstant(env, r)
    ensures Return(Rollout(env, s, actions)) == (|actions| as real) * r
    decreases |actions|
  {
    if actions != [] {
      var s' := env.step(s, actions[0]).0;
      ReturnOfConstant(env, r, s', actions[1..]);
      assert Rollout(env, s, actions)[1..] == Rollout(env, s', actions[1..]);
    }
  }

  /** Every step pays 1.0: the return of a run is its length. */
  lemma ReturnOfUnitRewards<S(!new), A(!new), O>(env: Env<S, A, O>, s: S, actions: seq<A>)
    requires PaysConstant(env, 1.0)
    ensures Return(Rollout(env, s, actions)) == |actions| as real
  {
    ReturnOfConstant(env, 1.0, s, actions);
  }

  /** No step pays more than 0.0: no run returns more than 0.0. */
  lemma ReturnNonPositive<S(!new), A(!new), O>(env: Env<S, A, O>, s: S, actions: seq<A>)
    requires PaysAtMost(env, 0.0)
    ensures Return(Rollout(env, s, actions)) <= 0.0
  {
    ReturnAtMost(env, 0.0, s, actions);
  }

  /** Every step pays at most `r`: a run of `k` steps returns at most
      `k * r`. */
  lemma {:induction false} ReturnAtMost<S(!new), A(!new), O>(env: Env<S, A, O>, r: real, s: S, actions: seq<A>)
    requires PaysAtMost(env, r)
    ensures Return(Rollout(env, s, actions)) <= (|actions| as real) * r
    decreases |actions|
  {
    if actions != [] {
      var s' := env.step(s, actions[0]).0;
      ReturnAtMost(env, r, s', actions[1..]);
      assert Rollout(env, s, actions)[1..] == Rollout(env, s', actions[1..]);
    }
  }
}
