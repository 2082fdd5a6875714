/** Decomposing one vector, given by magnitude and angle, into its horizontal
    and vertical components, and recombining them into the magnitude. */
module VectorDecomposition {
  import opened RealMath
  import opened VectorAddition

  /** Sliders: magnitude 30–150, angle 0–90 degrees. */
  ghost predicate InSliderRange(mag: real, deg: real)
  {
    30.0 <= mag <= 150.0 && 0.0 <= deg <= 90.0
  }

  /** What the diagram derives: the canvas components, the tip, the ends of the
      two component arrows, the Vy label (upward positive) and √(Vx² + Vy²). */
  datatype Decomposition = Decomposition(
    v: Vec, tip: Vec, xArrowEnd: Vec, yArrowEnd: Vec, shownVy: real, reconstructed: real)

  function Decompose(m: MathLib, origin: Vec, mag: real, deg: real): (d: Decomposition)
    ensures d.v == Components(m, mag, deg) && Minus(d.tip, origin) == d.v
    ensures d.shownVy == -d.v.y
  {
    var v := Components(m, mag, deg);
    var tip := Plus(origin, v);
    Decomposition(v, tip, Vec(tip.x, origin.y), Vec(origin.x, tip.y), -v.y, Magnitude(m, v))
  }

  /** The two component arrows are the projections of the tip on the axes
      through the origin, and together they add up to the vector. */
  lemma ArrowsProjectTip(m: MathLib, origin: Vec, mag: real, deg: real)
    ensures var d := Decompose(m, origin, mag, deg);
      && d.tip == Plus(origin, d.v)
      && Minus(d.xArrowEnd, origin) == Vec(d.v.x, 0.0)
      && Minus(d.yArrowEnd, origin) == Vec(0.0, d.v.y)
      && Plus(Minus(d.xArrowEnd, origin), Minus(d.yArrowEnd, origin)) == d.v
  {
  }

  /** The labels read Vx = |V| cos θ and Vy = |V| sin θ: the shown Vy undoes the
      canvas flip of the y axis. */
  lemma LabelsAreTextbookComponents(m: MathLib, origin: Vec, mag: real, deg: real)
    ensures Decompose(m, origin, mag, deg).v.x == mag * m.cos(Radians(deg))
    ensures Decompose(m, origin, mag, deg).shownVy == mag * m.sin(Radians(deg))
  {
  }

  /** √(Vx² + Vy²) gives back the magnitude the vector was built from. */
  lemma ReconstructionIsMagnitude(m: MathLib, origin: Vec, mag: real, deg: real)
    requires Pythagorean(m) && SqrtLaw(m)
    requires InSliderRange(mag, deg)
    ensures Decompose(m, origin, mag, deg).reconstructed == mag
  {
    ComponentsLength(m, mag, deg);
    MagnitudeOfLength(m, Components(m, mag, deg), mag);
  }

  /** In the first quadrant both labelled components are non-negative and at
      most the magnitude: the tip lies right of and above the origin. */
  lemma FirstQuadrantComponents(m: MathLib, origin: Vec, mag: real, deg: real)
    requires Pythagorean(m) && AcuteNonNegative(m)
    requires InSliderRange(mag, deg)
    ensures var d := Decompose(m, origin, mag, deg);
      && 0.0 <= d.v.x <= mag && 0.0 <= d.shownVy <= mag
      && d.tip.x >= origin.x && d.tip.y <= origin.y
  {
    var theta := Radians(deg);
    RadiansOfRightAngleRange(deg);
    AcuteUnitBounds(m, theta);
    MulLeq(m.cos(theta), 1.0, mag);
    MulLeq(m.sin(theta), 1.0, mag);
    MulLeq(0.0, m.cos(theta), mag);
    MulLeq(0.0, m.sin(theta), mag);
  }
}
