/** The floating-point vocabulary the environments share, over exact reals:
    the `f32` value of pi, Rust's truncating `%` on floats, the angle wrap
    every rotating body uses, clamping, and `sin`/`cos` as an oracle. */
module FloatMath {

  /** `std::f32::consts::PI`: the `f32` nearest to pi, exactly. */
  const PI: real := 3.1415927410125732421875

  const TWO_PI: real := 2.0 * PI

  /** `std::f32::consts::FRAC_PI_2`. */
  const HALF_PI: real := PI / 2.0

  /** Rounding toward zero. */
  function Trunc(q: real): (t: int)
    ensures q >= 0.0 ==> t == q.Floor
    ensures q < 0.0 ==> t == -((-q).Floor)
  {
    if q >= 0.0 then q.Floor else -((-q).Floor)
  }

  /** Rust's float `%`: the remainder of the quotient truncated toward zero,
      so its sign follows the dividend. */
  function FRem(a: real, b: real): real
    requires b != 0.0
  {
    a - b * (Trunc(a / b) as real)
  }

  /** The Euclidean remainder, always in `[0, b)`: the reference the angle
      wrap is compared with. */
  function Mod(a: real, b: real): (r: real)
    requires b > 0.0
  {
    a - b * ((a / b).Floor as real)
  }

  /** Multiplying by a positive factor keeps a strict order. */
  lemma MulStrict(b: real, x: real, y: real)
    requires b > 0.0 && x < y
    ensures b * x < b * y
  {
    var d := y - x;
    assert d > 0.0;
    assert b * d > 0.0;
    assert b * y == b * x + b * d;
  }

  /** `q.Floor` is the integer `k` with `k <= q < k + 1`. */
  lemma FloorBounds(a: real, b: real)
    requires b > 0.0
    ensures b * ((a / b).Floor as real) <= a < b * ((a / b).Floor as real) + b
  {
    var q := a / b;
    var k := q.Floor as real;
    assert k <= q < k + 1.0;
    assert b * q == a;
    assert b * k <= b * q;
    MulStrict(b, q, k + 1.0);
    assert b * (k + 1.0) == b * k + b;
    assert a < b * k + b;
  }

  /** The Euclidean remainder lies in `[0, b)`. */
  lemma ModRange(a: real, b: real)
    requires b > 0.0
    ensures 0.0 <= Mod(a, b) < b
  {
    FloorBounds(a, b);
  }

  /** A positive product with a positive factor has a positive cofactor. */
  lemma PosCofactor(b: real, y: real)
    requires b > 0.0 && b * y > 0.0
    ensures y > 0.0
  {
  }

  /** Integers `i`, `j` with `b*i <= a < b*j + b` for positive `b` have
      `i <= j`. */
  lemma IntLeFromMul(a: real, b: real, i: int, j: int)
    requires b > 0.0
    requires b * (i as real) <= a < b * (j as real) + b
    ensures i <= j
  {
    var y := 1.0 - ((i - j) as real);
    assert b * y == b * (j as real) + b - b * (i as real);
    PosCofactor(b, y);
  }

  /** A value `a - b*k` already in `[0, b)` is the Euclidean remainder. */
  lemma ModUnique(a: real, b: real, k: int)
    requires b > 0.0
    requires 0.0 <= a - b * (k as real) < b
    ensures Mod(a, b) == a - b * (k as real)
  {
    FloorBounds(a, b);
    var f := (a / b).Floor;
    IntLeFromMul(a, b, k, f);
    IntLeFromMul(a, b, f, k);
  }

  /** For a non-negative dividend the truncated remainder is the Euclidean
      one; for a negative dividend it lies in `(-b, 0]`, and in both cases
      it differs from the dividend by a multiple of `b`. */
  lemma FRemFacts(a: real, b: real)
    requires b > 0.0
    ensures a >= 0.0 ==> FRem(a, b) == Mod(a, b)
    ensures a < 0.0 ==> -b < FRem(a, b) <= 0.0
    ensures FRem(a, b) == a - b * (Trunc(a / b) as real)
  {
    var q := a / b;
    assert b * q == a;
    if a < 0.0 {
      assert q < 0.0;
      var f := (-q).Floor as real;
      assert f <= -q < f + 1.0;
      assert b * f <= b * (-q) == -a;
      MulStrict(b, -q, f + 1.0);
      assert b * (f + 1.0) == b * f + b;
    } else {
      assert q >= 0.0;
    }
  }

  /** The angle wrap of `angle_normalize` and of the acrobot and lander
      steps: shift by pi, truncated remainder by 2*pi, add 2*pi, remainder
      again, shift back. */
  function WrapAngle(x: real): real
  {
    FRem(FRem(x + PI, TWO_PI) + TWO_PI, TWO_PI) - PI
  }

  /** Adding `b` to a truncated remainder gives a value in `(0, 2b)` that
      still differs from the dividend by a multiple of `b`. */
  lemma FRemShifted(a: real, b: real)
    requires b > 0.0
    ensures 0.0 < FRem(a, b) + b < 2.0 * b
    ensures FRem(a, b) + b == a - b * ((Trunc(a / b) - 1) as real)
  {
    FRemFacts(a, b);
    if a >= 0.0 {
      ModRange(a, b);
    }
  }

  /** The truncated remainder taken twice, with `b` added in between, is
      the Euclidean remainder. */
  lemma DoubleFRemIsMod(a: real, b: real)
    requires b > 0.0
    ensures FRem(FRem(a, b) + b, b) == Mod(a, b)
  {
    FRemShifted(a, b);
    var r := FRem(a, b) + b;
    FRemFacts(r, b);
    ModRange(r, b);
    var k := (r / b).Floor;
    assert FRem(r, b) == r - b * (k as real);
    var t := Trunc(a / b) - 1;
    assert r - b * (k as real) == a - b * ((t + k) as real);
    ModUnique(a, b, t + k);
  }

  /** The wrap is the Euclidean remainder of `x + pi`, shifted back: the
      double remainder fixes up the sign of Rust's `%`. */
  lemma WrapAngleIsMod(x: real)
    ensures WrapAngle(x) == Mod(x + PI, TWO_PI) - PI
  {
    DoubleFRemIsMod(x + PI, TWO_PI);
  }

  /** Every wrapped angle lies in `[-pi, pi)`: `-pi` is reached, `pi` never. */
  lemma WrapAngleRange(x: real)
    ensures -PI <= WrapAngle(x) < PI
  {
    WrapAngleIsMod(x);
    ModRange(x + PI, TWO_PI);
  }

  /** Angles already in `[-pi, pi)` are left unchanged. */
  lemma WrapAngleIdentity(x: real)
    requires -PI <= x < PI
    ensures WrapAngle(x) == x
  {
    WrapAngleIsMod(x);
    ModUnique(x + PI, TWO_PI, 0);
  }

  /** Wrapping twice is wrapping once. */
  lemma WrapAngleIdempotent(x: real)
    ensures WrapAngle(WrapAngle(x)) == WrapAngle(x)
  {
    WrapAngleRange(x);
    WrapAngleIdentity(WrapAngle(x));
  }

  /** `pi` itself wraps to `-pi`. */
  lemma WrapAnglePi()
    ensures WrapAngle(PI) == -PI
  {
    WrapAngleIsMod(PI);
    ModUnique(PI + PI, TWO_PI, 1);
  }

  /** The wrap only removes whole turns: the result is `x` minus a multiple
      of 2*pi, and a whole turn more or less gives the same result. */
  lemma WrapAngleTurns(x: real) returns (k: int)
    ensures WrapAngle(x) == x - TWO_PI * (k as real)
    ensures WrapAngle(x + TWO_PI) == WrapAngle(x)
  {
    WrapAngleIsMod(x);
    WrapAngleIsMod(x + TWO_PI);
    k := ((x + PI) / TWO_PI).Floor;
    assert WrapAngle(x) == x - TWO_PI * (k as real);
    ModRange(x + PI, TWO_PI);
    ModUnique(x + TWO_PI + PI, TWO_PI, k + 1);
  }

  /** `f32::clamp(lo, hi)` for `lo <= hi`. */
  function Clamp(x: real, lo: real, hi: real): (r: real)
    requires lo <= hi
    ensures lo <= r <= hi
    ensures lo <= x <= hi ==> r == x
    ensures x < lo ==> r == lo
    ensures x > hi ==> r == hi
  {
    if x < lo then lo else if x > hi then hi else x
  }

  /** `f32::min` / `f32::max`. */
  function FMin(a: real, b: real): real { if a <= b then a else b }
  function FMax(a: real, b: real): real { if a <= b then b else a }

  /** `f32::abs`. */
  function FAbs(x: real): real { if x < 0.0 then -x else x }

  /** `sin` and `cos`, supplied by the platform's math library. */
  datatype Libm = Libm(sin: real -> real, cos: real -> real)

  /** What the model needs of the math library: both functions stay in
      `[-1, 1]`. */
  ghost predicate BoundedTrig(m: Libm)
  {
    forall x :: -1.0 <= m.sin(x) <= 1.0 && -1.0 <= m.cos(x) <= 1.0
  }

  /** The math libraries the environments are built with. */
  type Trig = m: Libm | BoundedTrig(m) witness Libm(x => 0.0, x => 0.0)

  /** A value in `[-1, 1]` has its square in `[0, 1]`. */
  lemma SquareAtMostOne(c: real)
    requires -1.0 <= c <= 1.0
    ensures 0.0 <= c * c <= 1.0
  {
    if c >= 0.0 {
      assert c * c <= c * 1.0;
    } else {
      assert c * c <= (-c) * 1.0;
    }
  }
}
