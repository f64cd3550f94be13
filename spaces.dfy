/** The parameter spaces: `Discrete`, `MultiBinary`, `MultiDiscrete` and
    `BoxSpace`, each with its validating constructor, its exact membership
    test and its sampler. Sampling draws from the uniform oracle of `Rng`;
    the stream is threaded through explicitly. */
module Spaces {
  import opened Common
  import opened Rng

  // ---------------------------------------------------------------- Discrete

  /** Integers in `[0, n)`. */
  datatype Discrete = Discrete(n: u32)
  {
    ghost predicate Valid() { n > 0 }

    /** `contains`: the element is below `n`. */
    predicate Contains(e: u32) { e < n }
  }

  /** `Discrete::new`: panics on `n == 0`, modelled as `None`. */
  function NewDiscrete(n: u32): (r: Option<Discrete>)
    ensures r.Some? <==> n > 0
    ensures r.Some? ==> r.value.n == n && r.value.Valid()
  {
    if n > 0 then Some(Discrete(n)) else None
  }

  /** `Discrete::sample`: with `n == 1` the answer is 0 and nothing is
      drawn; otherwise one draw from `[0, n)`. Either way the result is a
      member of the space. */
  function SampleDiscrete(d: Discrete, u: Uniform, r: RngStream): (p: (u32, RngStream))
    requires d.Valid() && ValidUniform(u)
    ensures d.Contains(p.0)
    ensures d.n == 1 ==> p.0 == 0 && p.1 == r
    ensures d.n != 1 ==> p.0 == u.below(r, d.n as nat) && p.1 == Advance(r)
  {
    if d.n == 1 then (0, r)
    else
      var (e, r') := DrawBelow(u, r, d.n as nat);
      (e as u32, r')
  }

  // ------------------------------------------------------------- MultiBinary

  /** Binary vectors of length `n`. */
  datatype MultiBinary = MultiBinary(n: nat)
  {
    ghost predicate Valid() { n > 0 }

    /** `contains`: the right length and every entry 0 or 1. */
    predicate Contains(v: seq<u8>)
    {
      |v| == n && forall i :: 0 <= i < |v| ==> v[i] == 0 || v[i] == 1
    }
  }

  /** `MultiBinary::new`: panics on `n == 0`, modelled as `None`. */
  function NewMultiBinary(n: nat): (r: Option<MultiBinary>)
    ensures r.Some? <==> n > 0
    ensures r.Some? ==> r.value.n == n && r.value.Valid()
  {
    if n > 0 then Some(MultiBinary(n)) else None
  }

  /** `MultiBinary::sample`: entry `i` is the `i`-th draw from `{0, 1}`
      (`Uniform::from(0u8..=1u8)`, the same range as `[0, 2)`). */
  function SampleMultiBinary(mb: MultiBinary, u: Uniform, r: RngStream): (p: (seq<u8>, RngStream))
    requires ValidUniform(u)
    ensures |p.0| == mb.n && mb.Contains(p.0)
    ensures forall i :: 0 <= i < mb.n ==> p.0[i] == u.below(Skip(r, i), 2)
    ensures p.1 == Skip(r, mb.n)
  {
    var bits := seq(mb.n, i requires 0 <= i < mb.n => DrawBelow(u, Skip(r, i), 2).0 as u8);
    (bits, Skip(r, mb.n))
  }

  /** The vectors of the library test: `[0,1,2,0,1,0,1,0]` is rejected by
      `MultiBinary(8)` and an all-0/1 vector of length 8 is accepted. */
  lemma MultiBinaryExamples()
    ensures !MultiBinary(8).Contains([0, 1, 2, 0, 1, 0, 1, 0])
    ensures MultiBinary(8).Contains([0, 1, 1, 0, 1, 0, 1, 0])
    ensures !MultiBinary(8).Contains([0, 1, 1, 0, 1, 0, 1])
  {
    var bad: seq<u8> := [0, 1, 2, 0, 1, 0, 1, 0];
    assert bad[2] == 2;
  }

  // ----------------------------------------------------------- MultiDiscrete

  /** Integer vectors with `v[i]` in `[0, nvec[i])`. */
  datatype MultiDiscrete = MultiDiscrete(nvec: seq<u32>)
  {
    ghost predicate Valid()
    {
      |nvec| > 0 && forall i :: 0 <= i < |nvec| ==> nvec[i] > 0
    }

    /** `contains`: the right length and each entry below its bound. */
    predicate Contains(v: seq<u32>)
    {
      |v| == |nvec| && forall i :: 0 <= i < |v| ==> v[i] < nvec[i]
    }
  }

  /** `MultiDiscrete::new`: scans `nvec` and panics on an empty vector or a
      zero entry, modelled as `None`. */
  method NewMultiDiscrete(nvec: seq<u32>) returns (r: Option<MultiDiscrete>)
    ensures r.Some? <==> (|nvec| > 0 && forall i :: 0 <= i < |nvec| ==> nvec[i] > 0)
    ensures r.Some? ==> r.value.nvec == nvec && r.value.Valid()
  {
    if |nvec| == 0 {
      return None;
    }
    var i := 0;
    while i < |nvec|
      invariant 0 <= i <= |nvec|
      invariant forall j :: 0 <= j < i ==> nvec[j] > 0
    {
      if nvec[i] == 0 {
        return None;
      }
      i := i + 1;
    }
    r := Some(MultiDiscrete(nvec));
  }

  /** The number of values sampling draws: one per dimension whose bound is
      not 1. */
  function DrawCount(nvec: seq<u32>): (k: nat)
    ensures k <= |nvec|
  {
    if nvec == [] then 0 else (if nvec[0] == 1 then 0 else 1) + DrawCount(nvec[1..])
  }

  /** One dimension of `MultiDiscrete::sample`: a bound of 1 gives 0
      without drawing, any other bound one draw below it. */
  function DimSample(n: u32, u: Uniform, r: RngStream): (p: (u32, RngStream))
    requires ValidUniform(u) && n > 0
    ensures p.0 < n
    ensures n == 1 ==> p == (0, r)
    ensures n != 1 ==> p.0 as nat == DrawBelow(u, r, n as nat).0 && p.1 == Advance(r)
  {
    if n == 1 then (0, r) else
      var d := DrawBelow(u, r, n as nat); (d.0 as u32, d.1)
  }

  /** `MultiDiscrete::sample`, dimension by dimension in order. */
  function SampleDims(nvec: seq<u32>, u: Uniform, r: RngStream): (p: (seq<u32>, RngStream))
    requires ValidUniform(u)
    requires forall i :: 0 <= i < |nvec| ==> nvec[i] > 0
    ensures |p.0| == |nvec|
    ensures forall i :: 0 <= i < |nvec| ==> p.0[i] < nvec[i]
    ensures forall i :: 0 <= i < |nvec| && nvec[i] == 1 ==> p.0[i] == 0
    ensures p.1 == Skip(r, DrawCount(nvec))
    decreases |nvec|
  {
    if nvec == [] then ([], r)
    else
      var (e, r1) := DimSample(nvec[0], u, r);
      var (rest, r2) := SampleDims(nvec[1..], u, r1);
      ([e] + rest, r2)
  }

  /** Dimension `i`, when its bound is not 1, holds the draw made after
      those of the dimensions before it. */
  lemma {:induction false} SampleDimsDrawAt(nvec: seq<u32>, u: Uniform, r: RngStream, i: nat)
    requires ValidUniform(u)
    requires forall j :: 0 <= j < |nvec| ==> nvec[j] > 0
    requires i < |nvec| && nvec[i] != 1
    ensures SampleDims(nvec, u, r).0[i] as nat == DrawBelow(u, Skip(r, DrawCount(nvec[..i])), nvec[i] as nat).0
    decreases i
  {
    var d := DimSample(nvec[0], u, r);
    var q := SampleDims(nvec[1..], u, d.1);
    assert SampleDims(nvec, u, r).0 == [d.0] + q.0;
    if i == 0 {
      assert nvec[..0] == [];
    } else {
      SampleDimsDrawAt(nvec[1..], u, d.1, i - 1);
      DrawCountPrefix(nvec, i);
      assert Skip(r, DrawCount(nvec[..i])) == Skip(d.1, DrawCount(nvec[1..][..i - 1]));
      assert nvec[1..][i - 1] == nvec[i];
    }
  }

  /** The draws of the first `i` dimensions: the first dimension's, if it
      draws, then those of the next `i - 1`. */
  lemma DrawCountPrefix(nvec: seq<u32>, i: nat)
    requires 0 < i <= |nvec|
    ensures DrawCount(nvec[..i]) == (if nvec[0] == 1 then 0 else 1) + DrawCount(nvec[1..][..i - 1])
  {
    assert nvec[..i][0] == nvec[0] && nvec[..i][1..] == nvec[1..][..i - 1];
  }

  /** Every dimension whose bound is not 1 holds the draw made after those
      of the dimensions before it. */
  lemma SampleDimsDraws(nvec: seq<u32>, u: Uniform, r: RngStream)
    requires ValidUniform(u)
    requires forall i :: 0 <= i < |nvec| ==> nvec[i] > 0
    ensures forall i :: 0 <= i < |nvec| && nvec[i] != 1 ==>
      SampleDims(nvec, u, r).0[i] as nat == DrawBelow(u, Skip(r, DrawCount(nvec[..i])), nvec[i] as nat).0
  {
    forall i | 0 <= i < |nvec| && nvec[i] != 1
      ensures SampleDims(nvec, u, r).0[i] as nat == DrawBelow(u, Skip(r, DrawCount(nvec[..i])), nvec[i] as nat).0
    {
      SampleDimsDrawAt(nvec, u, r, i);
    }
  }

  /** Every sample of a valid `MultiDiscrete` is a member, and is 0 in every
      dimension whose bound is 1. */
  function SampleMultiDiscrete(md: MultiDiscrete, u: Uniform, r: RngStream): (p: (seq<u32>, RngStream))
    requires md.Valid() && ValidUniform(u)
    ensures md.Contains(p.0)
    ensures forall i :: 0 <= i < |md.nvec| && md.nvec[i] == 1 ==> p.0[i] == 0
    ensures forall i :: 0 <= i < |md.nvec| && md.nvec[i] != 1 ==>
      p.0[i] as nat == DrawBelow(u, Skip(r, DrawCount(md.nvec[..i])), md.nvec[i] as nat).0
    ensures p.1 == Skip(r, DrawCount(md.nvec))
  {
    SampleDimsDraws(md.nvec, u, r);
    SampleDims(md.nvec, u, r)
  }

  /** The library test's space `[1, 2, 5, 10]`: `[0, 2, 5, 10]` is rejected,
      and every sample has length 4, starts with 0 and respects the bounds. */
  lemma MultiDiscreteExamples(u: Uniform, r: RngStream)
    requires ValidUniform(u)
    ensures !MultiDiscrete([1, 2, 5, 10]).Contains([0, 2, 5, 10])
    ensures var v := SampleMultiDiscrete(MultiDiscrete([1, 2, 5, 10]), u, r).0;
      |v| == 4 && v[0] == 0 && v[1] < 2 && v[2] < 5 && v[3] < 10
  {
    var md := MultiDiscrete([1, 2, 5, 10]);
    assert md.Valid() by {
      assert forall i :: 0 <= i < 4 ==> md.nvec[i] > 0;
    }
    var bad: seq<u32> := [0, 2, 5, 10];
    assert !(bad[1] < md.nvec[1]);
  }

  // ---------------------------------------------------------------- BoxSpace

  /** Fixed-length vectors bounded per dimension by the closed interval
      `[low[i], high[i]]`; `low` and `high` have the same length `N`. */
  datatype BoxSpace = BoxSpace(low: seq<real>, high: seq<real>)
  {
    ghost predicate Valid()
    {
      |low| == |high| && forall i :: 0 <= i < |low| ==> low[i] <= high[i]
    }

    /** `contains`: every coordinate within its closed bounds. */
    predicate Contains(e: seq<real>)
      requires |e| == |low| == |high|
    {
      forall i :: 0 <= i < |e| ==> low[i] <= e[i] <= high[i]
    }
  }

  /** `BoxSpace::new`: checks `low[i] <= high[i]` for every `i` and panics
      otherwise, modelled as `None`. */
  method NewBox(low: seq<real>, high: seq<real>) returns (r: Option<BoxSpace>)
    requires |low| == |high|
    ensures r.Some? <==> forall i :: 0 <= i < |low| ==> low[i] <= high[i]
    ensures r.Some? ==> r.value == BoxSpace(low, high) && r.value.Valid()
  {
    for i := 0 to |low|
      invariant forall j :: 0 <= j < i ==> low[j] <= high[j]
    {
      if !(low[i] <= high[i]) {
        return None;
      }
    }
    r := Some(BoxSpace(low, high));
  }

  /** What `BoxSpace::sample` returns: coordinate `i` is the `i`-th draw,
      from `[low[i], high[i]]`; a valid box's samples are members. */
  function BoxSample(b: BoxSpace, u: Uniform, r: RngStream): (v: seq<real>)
    requires |b.low| == |b.high|
    ensures |v| == |b.low|
    ensures forall i :: 0 <= i < |v| ==> v[i] == u.inclusive(Skip(r, i), b.low[i], b.high[i])
    ensures ValidUniform(u) && b.Valid() ==> b.Contains(v)
  {
    seq(|b.low|, i requires 0 <= i < |b.low| => DrawInclusive(u, Skip(r, i), b.low[i], b.high[i]).0)
  }

  /** `BoxSpace::sample`: start from a copy of `low` and overwrite slot `i`
      with one draw from `[low[i], high[i]]`, in order. */
  method SampleBox(b: BoxSpace, u: Uniform, r: RngStream) returns (v: seq<real>, r': RngStream)
    requires |b.low| == |b.high|
    ensures v == BoxSample(b, u, r)
    ensures r' == Skip(r, |b.low|)
    ensures ValidUniform(u) && b.Valid() ==> b.Contains(v)
  {
    var n := |b.low|;
    var arr := new real[n](i requires 0 <= i < n => b.low[i]);
    var cur := r;
    for i := 0 to n
      invariant cur == Skip(r, i)
      invariant forall j :: 0 <= j < i ==> arr[j] == u.inclusive(Skip(r, j), b.low[j], b.high[j])
    {
      var d := DrawInclusive(u, cur, b.low[i], b.high[i]);
      arr[i] := d.0;
      cur := d.1;
    }
    v := arr[..];
    r' := cur;
  }
}
