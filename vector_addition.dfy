/** Adding two vectors given by magnitude and angle: their canvas components,
    the resultant as the componentwise sum, the head-to-tail and parallelogram
    constructions, and the resultant's magnitude and angle. */
module VectorAddition {
  import opened RealMath

  /** A vector or a point on the canvas, whose y axis points down. */
  datatype Vec = Vec(x: real, y: real)

  function Plus(p: Vec, q: Vec): Vec { Vec(p.x + q.x, p.y + q.y) }

  function Minus(p: Vec, q: Vec): Vec { Vec(p.x - q.x, p.y - q.y) }

  /** Canvas components of a vector of magnitude `mag` at `deg` degrees
      anticlockwise: the y component is negated because the canvas y axis
      points down. */
  function Components(m: MathLib, mag: real, deg: real): Vec
  {
    Vec(mag * m.cos(Radians(deg)), -mag * m.sin(Radians(deg)))
  }

  /** Sliders: magnitudes 20–150, angles 0–360 degrees. */
  ghost predicate InSliderRange(magA: real, degA: real, magB: real, degB: real)
  {
    20.0 <= magA <= 150.0 && 0.0 <= degA <= 360.0
    && 20.0 <= magB <= 150.0 && 0.0 <= degB <= 360.0
  }

  /** Everything the diagram derives from the four sliders. */
  datatype Sum = Sum(a: Vec, b: Vec, r: Vec, rMag: real, rAngle: real)

  function Resolve(m: MathLib, magA: real, degA: real, magB: real, degB: real): (s: Sum)
    ensures s.a == Components(m, magA, degA) && s.b == Components(m, magB, degB)
    ensures Minus(s.r, s.a) == s.b && Minus(s.r, s.b) == s.a
    ensures SqrtLaw(m) ==> 0.0 <= s.rMag && Sq(s.rMag) == NormSq(s.r)
  {
    var a := Components(m, magA, degA);
    var b := Components(m, magB, degB);
    var r := Plus(a, b);
    Sum(a, b, r, Magnitude(m, r), Degrees(m.atan2(-r.y, r.x)))
  }

  /** x² + y². */
  function NormSq(v: Vec): real { v.x * v.x + v.y * v.y }

  /** √(x² + y²). */
  function Magnitude(m: MathLib, v: Vec): real { m.sqrt(NormSq(v)) }

  /** Radians to degrees, as `(rad * 180) / Math.PI`. */
  function Degrees(rad: real): real { (rad * 180.0) / Pi }

  /** Swapping A and B gives the same resultant, magnitude and angle. */
  lemma SumCommutes(m: MathLib, magA: real, degA: real, magB: real, degB: real)
    ensures Resolve(m, magB, degB, magA, degA).r == Resolve(m, magA, degA, magB, degB).r
    ensures Resolve(m, magB, degB, magA, degA).rMag == Resolve(m, magA, degA, magB, degB).rMag
    ensures Resolve(m, magB, degB, magA, degA).rAngle == Resolve(m, magA, degA, magB, degB).rAngle
  {
    var a, b := Components(m, magA, degA), Components(m, magB, degB);
    assert Plus(b, a) == Plus(a, b);
  }

  /** Head to tail: B drawn from A's tip, and the dashed component path through
      A's and B's corners, both end exactly at the resultant's tip. */
  lemma HeadToTailCloses(m: MathLib, origin: Vec, magA: real, degA: real, magB: real, degB: real)
    ensures var s := Resolve(m, magA, degA, magB, degB);
      && Minus(Plus(origin, s.r), Plus(origin, s.a)) == s.b
      && Plus(Vec(origin.x + s.a.x + s.b.x, origin.y + s.a.y), Vec(0.0, s.b.y)) == Plus(origin, s.r)
  {
  }

  /** The parallelogram edge from B's tip to the resultant's tip is A. */
  lemma ParallelogramEdgeIsA(m: MathLib, origin: Vec, magA: real, degA: real, magB: real, degB: real)
    ensures var s := Resolve(m, magA, degA, magB, degB);
      Minus(Plus(origin, s.r), Plus(origin, s.b)) == s.a
  {
  }

  /** The resultant angle is taken of (rx, −ry), which undoes the canvas flip:
      its y argument is the sum of the upward components |A| sin θ₁ + |B| sin θ₂. */
  lemma AngleUsesUpwardComponent(m: MathLib, magA: real, degA: real, magB: real, degB: real)
    ensures var s := Resolve(m, magA, degA, magB, degB);
      -s.r.y == magA * m.sin(Radians(degA)) + magB * m.sin(Radians(degB))
  {
  }

  /** |A + B|² = rx² + ry². */
  lemma MagnitudeSquared(m: MathLib, magA: real, degA: real, magB: real, degB: real)
    requires SqrtLaw(m)
    ensures var s := Resolve(m, magA, degA, magB, degB);
      s.rMag >= 0.0 && Sq(s.rMag) == NormSq(s.r)
  {
    var s := Resolve(m, magA, degA, magB, degB);
    assert NormSq(s.r) >= 0.0;
  }

  /** A component pair has the magnitude it was made from. */
  lemma ComponentsLength(m: MathLib, mag: real, deg: real)
    requires Pythagorean(m)
    ensures NormSq(Components(m, mag, deg)) == Sq(mag)
  {
    var s, c := m.sin(Radians(deg)), m.cos(Radians(deg));
    assert Sq(s) + Sq(c) == 1.0;
    calc {
      Sq(mag * c) + Sq(-mag * s);
      Sq(mag) * (Sq(s) + Sq(c));
      Sq(mag);
    }
  }

  /** A vector whose squared components add up to len² has magnitude len. */
  lemma MagnitudeOfLength(m: MathLib, v: Vec, len: real)
    requires SqrtLaw(m) && len >= 0.0
    requires NormSq(v) == Sq(len)
    ensures Magnitude(m, v) == len
  {
    SqrtOfSquare(m, len);
  }

  /** The dot product of two vectors is at most the product of their lengths. */
  lemma DotBound(p: Vec, q: Vec, lp: real, lq: real)
    requires lp >= 0.0 && lq >= 0.0
    requires Sq(p.x) + Sq(p.y) == Sq(lp) && Sq(q.x) + Sq(q.y) == Sq(lq)
    ensures p.x * q.x + p.y * q.y <= lp * lq
  {
    var d := p.x * q.x + p.y * q.y;
    Lagrange(p, q);
    var cross := p.x * q.y - p.y * q.x;
    assert Sq(cross) >= 0.0;
    assert Sq(d) <= Sq(lp) * Sq(lq);
    assert Sq(lp) * Sq(lq) == Sq(lp * lq);
    if d > lp * lq {
      SquareLt(lp * lq, d);
      assert false;
    }
  }

  /** Lagrange's identity in the plane. */
  lemma Lagrange(p: Vec, q: Vec)
    ensures Sq(p.x * q.x + p.y * q.y) + Sq(p.x * q.y - p.y * q.x)
         == (Sq(p.x) + Sq(p.y)) * (Sq(q.x) + Sq(q.y))
  {
    var a, b, c, d := p.x * q.x, p.y * q.y, p.x * q.y, p.y * q.x;
    assert a * b == c * d;
    CrossTermsCancel(a, b, c, d);
    SqOfProduct(p.x, q.x);
    SqOfProduct(p.y, q.y);
    SqOfProduct(p.x, q.y);
    SqOfProduct(p.y, q.x);
    ProductOfSums(Sq(p.x), Sq(p.y), Sq(q.x), Sq(q.y));
  }

  lemma CrossTermsCancel(a: real, b: real, c: real, d: real)
    requires a * b == c * d
    ensures Sq(a + b) + Sq(c - d) == Sq(a) + Sq(b) + Sq(c) + Sq(d)
  {
  }

  lemma SqOfProduct(x: real, y: real)
    ensures Sq(x * y) == Sq(x) * Sq(y)
  {
  }

  lemma ProductOfSums(a: real, b: real, c: real, d: real)
    ensures (a + b) * (c + d) == a * c + b * d + a * d + b * c
  {
  }

  /** |p + q|² = |p|² + 2 p·q + |q|². */
  lemma SumSquare(p: Vec, q: Vec)
    ensures Sq(p.x + q.x) + Sq(p.y + q.y)
         == (Sq(p.x) + Sq(p.y)) + 2.0 * (p.x * q.x + p.y * q.y) + (Sq(q.x) + Sq(q.y))
  {
  }

  /** The triangle inequality for the displayed magnitudes: |A + B| ≤ |A| + |B|. */
  lemma ResultantNoLongerThanParts(m: MathLib, magA: real, degA: real, magB: real, degB: real)
    requires Pythagorean(m) && SqrtLaw(m)
    requires magA >= 0.0 && magB >= 0.0
    ensures Resolve(m, magA, degA, magB, degB).rMag <= magA + magB
  {
    var s := Resolve(m, magA, degA, magB, degB);
    ComponentsLength(m, magA, degA);
    ComponentsLength(m, magB, degB);
    MagnitudeSquared(m, magA, degA, magB, degB);
    TriangleOfVecs(s.a, s.b, magA, magB, s.rMag);
  }

  lemma TriangleOfVecs(p: Vec, q: Vec, lp: real, lq: real, len: real)
    requires lp >= 0.0 && lq >= 0.0 && len >= 0.0
    requires NormSq(p) == Sq(lp) && NormSq(q) == Sq(lq)
    requires Sq(len) == NormSq(Plus(p, q))
    ensures len <= lp + lq
  {
    DotBound(p, q, lp, lq);
    SumSquare(p, q);
    LengthBound(len, lp, lq, p.x * q.x + p.y * q.y);
  }

  lemma LengthBound(len: real, la: real, lb: real, dot: real)
    requires len >= 0.0 && la >= 0.0 && lb >= 0.0
    requires dot <= la * lb
    requires Sq(len) == Sq(la) + 2.0 * dot + Sq(lb)
    ensures len <= la + lb
  {
    assert Sq(la + lb) == Sq(la) + 2.0 * (la * lb) + Sq(lb);
    if len > la + lb {
      SquareLt(la + lb, len);
      assert false;
    }
  }
}
