/** Deterministic seeding: the SplitMix64-style `SeedSequence` with its
    128-bit state, and the ChaCha8 stream and `rand` uniform distributions,
    which are not modelled bit for bit but as oracles whose only known
    property is the range of the values they return. */
module Rng {
  import opened Common

  const GOLDEN: bv64 := 0x9E37_79B9_7F4A_7C15
  const MIX1: bv64 := 0xBF58_476D_1CE4_E5B9
  const MIX2: bv64 := 0x94D0_49BB_1331_11EB
  const LOW64_MASK: bv128 := 0xFFFF_FFFF_FFFF_FFFF

  /** `SeedSequence::new`: the seed widened to 128 bits, XOR the golden
      constant; the initial state therefore fits in 64 bits. */
  function InitialState(seed: u64): (s: bv128)
    ensures s < 0x1_0000_0000_0000_0000
    ensures s & LOW64_MASK == s
  {
    (seed as bv64 as bv128) ^ (GOLDEN as bv128)
  }

  /** `state as u64`: the low 64 bits of the state. */
  function Low64(s: bv128): bv64
  {
    (s & LOW64_MASK) as bv64
  }

  /** The working value `z` of one `next_subseed` call. */
  function Working(s: bv128): bv64
  {
    Low64(s) + GOLDEN
  }

  /** `(state ^ z) * MIX1`, wrapping modulo 2^128. */
  function Fold(s: bv128, z: bv64): bv128
  {
    (s ^ (z as bv128)) * (MIX1 as bv128)
  }

  /** The state after one `next_subseed` call. */
  function NextState(s: bv128): bv128
  {
    Fold(s, Working(s))
  }

  /** First finalisation round `(z ^ (z >> 30)) * MIX1`, wrapping modulo 2^64. */
  function Round1(z: bv64): bv64
  {
    (z ^ (z >> 30)) * MIX1
  }

  /** Second finalisation round `(z ^ (z >> 27)) * MIX2`. */
  function Round2(z: bv64): bv64
  {
    (z ^ (z >> 27)) * MIX2
  }

  /** Closing xor-shift `z ^ (z >> 31)`. */
  function Round3(z: bv64): bv64
  {
    z ^ (z >> 31)
  }

  /** The finalisation applied to the working value. */
  function Finalize(z: bv64): bv64
  {
    Round3(Round2(Round1(z)))
  }

  /** The sub-seed one `next_subseed` call returns from state `s`. */
  function Subseed(s: bv128): bv64
  {
    Finalize(Working(s))
  }

  /** `f` applied `n` times to `s`. */
  function Iterate<T>(f: T -> T, s: T, n: nat): T
    decreases n
  {
    if n == 0 then s else Iterate(f, f(s), n - 1)
  }

  /** The outputs `g` yields along the first `n` states of the orbit of `s`
      under `f`. */
  function Trace<T, U>(f: T -> T, g: T -> U, s: T, n: nat): (r: seq<U>)
    ensures |r| == n
    ensures n > 0 ==> r[0] == g(s)
    decreases n
  {
    if n == 0 then [] else [g(s)] + Trace(f, g, f(s), n - 1)
  }

  lemma {:induction false} TracePrefix<T, U>(f: T -> T, g: T -> U, s: T, n: nat, m: nat)
    requires n <= m
    ensures Trace(f, g, s, n) == Trace(f, g, s, m)[..n]
    decreases n
  {
    if n > 0 {
      TracePrefix(f, g, f(s), n - 1, m - 1);
      assert Trace(f, g, s, m)[..n] == [g(s)] + Trace(f, g, f(s), m - 1)[..n - 1];
    }
  }

  lemma {:induction false} TraceSnoc<T, U>(f: T -> T, g: T -> U, s: T, n: nat)
    ensures Trace(f, g, s, n + 1) == Trace(f, g, s, n) + [g(Iterate(f, s, n))]
    ensures Iterate(f, s, n + 1) == f(Iterate(f, s, n))
    decreases n
  {
    if n > 0 {
      TraceSnoc(f, g, f(s), n - 1);
      assert Trace(f, g, s, n + 1) == [g(s)] + Trace(f, g, f(s), n);
    }
  }

  /** The state after `n` calls. */
  function AdvanceBy(s: bv128, n: nat): bv128
  {
    Iterate(NextState, s, n)
  }

  /** The sub-seeds `n` successive calls return from state `s`. */
  function Subseeds(s: bv128, n: nat): (r: seq<bv64>)
    ensures |r| == n
    ensures n > 0 ==> r[0] == Subseed(s)
  {
    Trace(NextState, Subseed, s, n)
  }

  /** Drawing fewer sub-seeds yields a prefix of drawing more. */
  lemma SubseedsPrefix(s: bv128, n: nat, m: nat)
    requires n <= m
    ensures Subseeds(s, n) == Subseeds(s, m)[..n]
  {
    TracePrefix(NextState, Subseed, s, n, m);
  }

  /** `n + 1` calls are `n` calls followed by one more. */
  lemma SubseedsSnoc(s: bv128, n: nat)
    ensures Subseeds(s, n + 1) == Subseeds(s, n) + [Subseed(AdvanceBy(s, n))]
    ensures AdvanceBy(s, n + 1) == NextState(AdvanceBy(s, n))
  {
    TraceSnoc(NextState, Subseed, s, n);
  }

  /** The seed-expansion mixer; the state evolves in place. */
  class SeedSequence {
    var state: bv128

    constructor (seed: u64)
      ensures state == InitialState(seed)
      ensures state < 0x1_0000_0000_0000_0000
    {
      state := (seed as bv64 as bv128) ^ (GOLDEN as bv128);
    }

    /** `next_subseed`: the result and the next state depend on the current
        state alone. */
    method NextSubseed() returns (r: bv64)
      modifies this
      ensures r == Subseed(old(state))
      ensures state == NextState(old(state))
    {
      var z := Working(state);
      state := Fold(state, z);
      z := Round1(z);
      z := Round2(z);
      r := Round3(z);
    }

    /** `next_rng`: a fresh stream seeded from the next sub-seed. */
    method NextRng() returns (r: RngStream)
      modifies this
      ensures r == RngFromSeed(Subseed(old(state)) as int)
      ensures state == NextState(old(state))
    {
      var s := NextSubseed();
      r := RngFromSeed(s as int);
    }

    /** `split_n` on a sequence: `n` successive `next_subseed` calls. */
    method SplitN(n: nat) returns (out: seq<bv64>)
      modifies this
      ensures out == Subseeds(old(state), n)
      ensures state == AdvanceBy(old(state), n)
    {
      out := [];
      var i := 0;
      while i < n
        invariant 0 <= i <= n
        invariant out == Subseeds(old(state), i)
        invariant state == AdvanceBy(old(state), i)
      {
        SubseedsSnoc(old(state), i);
        var s := NextSubseed();
        out := out + [s];
        i := i + 1;
      }
    }
  }

  /** The free `split_n(seed, n)`: exactly `n` sub-seeds, those of `n`
      successive calls on `SeedSequence::new(seed)`; the same arguments
      always give the same vector. */
  method SplitSeed(seed: u64, n: nat) returns (out: seq<bv64>)
    ensures |out| == n
    ensures out == Subseeds(InitialState(seed), n)
  {
    var ss := new SeedSequence(seed);
    out := ss.SplitN(n);
  }

  /** `split_n(seed, n)` is a prefix of `split_n(seed, m)` when `n <= m`. */
  lemma SplitSeedPrefix(seed: u64, n: nat, m: nat)
    requires n <= m
    ensures Subseeds(InitialState(seed), n) == Subseeds(InitialState(seed), m)[..n]
  {
    SubseedsPrefix(InitialState(seed), n, m);
  }

  /** A ChaCha8 stream, identified by the seed it was created from and the
      number of values drawn from it so far. */
  datatype RngStream = RngStream(seed: u64, drawn: nat)

  /** `rng_from_seed`: a fresh stream; equal seeds give equal streams. */
  function RngFromSeed(seed: u64): (r: RngStream)
    ensures r.seed == seed && r.drawn == 0
  {
    RngStream(seed, 0)
  }

  /** The stream a `reset(seed)` draws from: a fresh stream for a given
      seed, the current one otherwise. */
  function Reseeded(r: RngStream, seed: Option<u64>): (r': RngStream)
    ensures seed.Some? ==> r' == RngFromSeed(seed.value)
    ensures seed.None? ==> r' == r
  {
    match seed
    case Some(s) => RngFromSeed(s)
    case None => r
  }

  /** The stream after `k` more values have been drawn from it. */
  function Skip(r: RngStream, k: nat): (r': RngStream)
    ensures r'.seed == r.seed && r'.drawn == r.drawn + k
  {
    RngStream(r.seed, r.drawn + k)
  }

  /** The stream after one more value has been drawn from it. */
  function Advance(r: RngStream): (r': RngStream)
    ensures r' == Skip(r, 1)
  {
    RngStream(r.seed, r.drawn + 1)
  }

  /** The `rand` uniform distributions as oracles over a stream:
      `inclusive(r, lo, hi)` is `Uniform::new_inclusive(lo, hi).sample(r)`
      and `below(r, n)` is `Uniform::from(0..n).sample(r)`. */
  datatype Uniform = Uniform(
    inclusive: (RngStream, real, real) -> real,
    below: (RngStream, nat) -> nat)

  /** The only property of the distributions the model relies on: values
      lie in the requested range. */
  ghost predicate ValidUniform(u: Uniform)
  {
    && (forall r, lo, hi :: lo <= hi ==> lo <= u.inclusive(r, lo, hi) <= hi)
    && (forall r, n :: 0 < n ==> u.below(r, n) < n)
  }

  /** One draw from `[lo, hi]`, and the stream after it. */
  function DrawInclusive(u: Uniform, r: RngStream, lo: real, hi: real): (p: (real, RngStream))
    ensures ValidUniform(u) && lo <= hi ==> lo <= p.0 <= hi
    ensures p.1 == Advance(r)
  {
    (u.inclusive(r, lo, hi), Advance(r))
  }

  /** One draw from `[0, n)`, and the stream after it. */
  function DrawBelow(u: Uniform, r: RngStream, n: nat): (p: (nat, RngStream))
    ensures ValidUniform(u) && 0 < n ==> p.0 < n
    ensures p.1 == Advance(r)
  {
    (u.below(r, n), Advance(r))
  }
}
