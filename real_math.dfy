/** Real-number helpers shared by every simulation: the constant pi, clamping,
    JavaScript's remainder operator on reals, and the transcendental functions
    (sine, cosine, square root, atan2) as parameters with explicit laws. */
module RealMath {

  /** Math.PI, written out as the decimal the browser prints for it. */
  const Pi: real := 3.141592653589793

  /** Standard gravity used by the projectile, friction and incline scenarios. */
  const G: real := 9.8

  function Sq(x: real): real { x * x }

  function Min(a: real, b: real): (r: real)
    ensures r <= a && r <= b && (r == a || r == b)
  {
    if a <= b then a else b
  }

  function Max(a: real, b: real): (r: real)
    ensures r >= a && r >= b && (r == a || r == b)
  {
    if a >= b then a else b
  }

  /** Math.max(lo, Math.min(hi, v)). */
  function Clamp(v: real, lo: real, hi: real): (r: real)
    requires lo <= hi
    ensures lo <= r <= hi
    ensures lo <= v <= hi ==> r == v
    ensures v < lo ==> r == lo
    ensures v > hi ==> r == hi
  {
    Max(lo, Min(hi, v))
  }

  /** A JavaScript number as the model needs it: a finite value, one of the two
      infinities, or NaN (also what parseFloat gives for text that is no number). */
  datatype JsNumber = Finite(value: real) | PosInf | NegInf | NaN

  /** JavaScript division. Dividing by zero gives an infinity with the sign of
      the dividend, or NaN for 0 / 0 (the divisors here are never -0). */
  function JsDiv(x: real, y: real): (r: JsNumber)
    ensures r.Finite? <==> y != 0.0
    ensures r.Finite? ==> r.value * y == x
  {
    if y != 0.0 then Finite(x / y)
    else if x > 0.0 then PosInf
    else if x < 0.0 then NegInf
    else NaN
  }

  /** Degrees to radians, as `(angle * Math.PI) / 180`. */
  function Radians(deg: real): real { deg * Pi / 180.0 }

  lemma RadiansOfRightAngleRange(deg: real)
    requires 0.0 <= deg <= 90.0
    ensures 0.0 <= Radians(deg) <= Pi / 2.0
  {
  }

  /** Truncation toward zero of a real, as JavaScript's `%` uses for its quotient. */
  function Trunc(q: real): int
  {
    if q >= 0.0 then q.Floor else -((-q).Floor)
  }

  /** JavaScript `x % m` on numbers: the remainder takes the sign of x. */
  function JsRem(x: real, m: real): real
    requires m > 0.0
  {
    x - (Trunc(x / m) as real) * m
  }

  /** For a non-negative dividend the remainder lies in [0, m). */
  lemma JsRemRange(x: real, m: real)
    requires m > 0.0 && x >= 0.0
    ensures 0.0 <= JsRem(x, m) < m
  {
    var q := x / m;
    DivMul(x, m);
    var k: real := q.Floor as real;
    assert Trunc(q) as real == k;
    var f := q - k;
    assert 0.0 <= f < 1.0;
    assert JsRem(x, m) == f * m;
    MulLeq(0.0, f, m);
    MulLt(f, 1.0, m);
  }

  /** A dividend already in [0, m) is its own remainder. */
  lemma JsRemIdentity(x: real, m: real)
    requires m > 0.0 && 0.0 <= x < m
    ensures JsRem(x, m) == x
  {
    DivBelowOne(x, m);
    assert (x / m).Floor == 0;
  }

  /** A dividend in [0, m) has a quotient in [0, 1). */
  lemma DivBelowOne(x: real, m: real)
    requires m > 0.0 && 0.0 <= x < m
    ensures 0.0 <= x / m < 1.0
  {
    DivMul(x, m);
    if x / m >= 1.0 {
      MulLeq(1.0, x / m, m);
    }
  }

  lemma DivMul(x: real, m: real)
    requires m > 0.0
    ensures (x / m) * m == x && (x >= 0.0 ==> x / m >= 0.0)
  {
  }

  lemma MulLeq(a: real, b: real, m: real)
    requires a <= b && m > 0.0
    ensures a * m <= b * m
  {
  }

  lemma MulLt(a: real, b: real, m: real)
    requires a < b && m > 0.0
    ensures a * m < b * m
  {
  }

  /** Squaring is strictly increasing on the non-negative reals. */
  lemma SquareLt(a: real, b: real)
    requires 0.0 <= a < b
    ensures Sq(a) < Sq(b)
  {
    SquareGrows(a, b - a);
    assert a + (b - a) == b;
  }

  lemma SquareGrows(a: real, d: real)
    requires a >= 0.0 && d > 0.0
    ensures a * a < (a + d) * (a + d)
  {
    MulPos(d, d);
    MulNonneg(a, d);
    assert (a + d) * (a + d) == a * a + 2.0 * (a * d) + d * d;
  }

  lemma MulPos(x: real, y: real)
    requires x > 0.0 && y > 0.0
    ensures x * y > 0.0
  {
  }

  lemma MulNonneg(x: real, y: real)
    requires x >= 0.0 && y >= 0.0
    ensures x * y >= 0.0
  {
  }

  /** The browser's Math functions used by the scenarios. They are left
      uninterpreted: a lemma that needs one of their properties says so with
      one of the predicates below. */
  datatype MathLib = MathLib(
    sin: real -> real,
    cos: real -> real,
    sqrt: real -> real,
    atan2: (real, real) -> real)

  /** sin² + cos² = 1 at every argument. */
  ghost predicate Pythagorean(m: MathLib)
  {
    forall x :: Sq(m.sin(x)) + Sq(m.cos(x)) == 1.0
  }

  /** sin and cos are non-negative on [0, π/2]. */
  ghost predicate AcuteNonNegative(m: MathLib)
  {
    forall x :: 0.0 <= x <= Pi / 2.0 ==> 0.0 <= m.sin(x) && 0.0 <= m.cos(x)
  }

  /** sqrt returns the non-negative square root of a non-negative argument. */
  ghost predicate SqrtLaw(m: MathLib)
  {
    forall x :: 0.0 <= x ==> 0.0 <= m.sqrt(x) && Sq(m.sqrt(x)) == x
  }

  /** The square root of a square of a non-negative number is that number. */
  lemma SqrtOfSquare(m: MathLib, v: real)
    requires SqrtLaw(m) && v >= 0.0
    ensures m.sqrt(Sq(v)) == v
  {
    var s := m.sqrt(Sq(v));
    assert 0.0 <= s && Sq(s) == Sq(v);
    assert (s - v) * (s + v) == 0.0;
    if s != v {
      ProductZero(s - v, s + v);
      assert false;
    }
  }

  lemma ProductZero(a: real, b: real)
    requires a * b == 0.0 && a != 0.0
    ensures b == 0.0
  {
  }

  /** Under the laws, both sin and cos of an acute angle lie in [0, 1]. */
  lemma AcuteUnitBounds(m: MathLib, x: real)
    requires Pythagorean(m) && AcuteNonNegative(m)
    requires 0.0 <= x <= Pi / 2.0
    ensures 0.0 <= m.sin(x) <= 1.0 && 0.0 <= m.cos(x) <= 1.0
  {
    var s, c := m.sin(x), m.cos(x);
    assert Sq(s) + Sq(c) == 1.0;
    assert 0.0 <= s && 0.0 <= c;
    if s > 1.0 {
      MulLt(1.0, s, s);
    }
    if c > 1.0 {
      MulLt(1.0, c, c);
    }
  }
}
