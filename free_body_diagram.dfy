/** Forces on a block resting on an incline: its weight, the normal force and
    the along-slope component of the weight that the friction arrow shows. */
module FreeBodyDiagram {
  import opened RealMath

  /** Sliders: mass 1–20 kg, incline 5–60 degrees. */
  ghost predicate InSliderRange(mass: real, angleDeg: real)
  {
    1.0 <= mass <= 20.0 && 5.0 <= angleDeg <= 60.0
  }

  /** The three arrows of the diagram. The along-slope component is drawn as the
      friction arrow, of the size that holds the block in place. */
  datatype InclineForces = InclineForces(weight: real, normal: real, friction: real)

  function Forces(m: MathLib, mass: real, angleDeg: real): (f: InclineForces)
    ensures mass > 0.0 ==> f.weight > 0.0
    ensures AcuteNonNegative(m) && 0.0 <= angleDeg <= 90.0 && mass >= 0.0
      ==> 0.0 <= f.normal && 0.0 <= f.friction
  {
    var theta := Radians(angleDeg);
    var weight := mass * G;
    InclineForces(weight, weight * m.cos(theta), weight * m.sin(theta))
  }

  /** The info panel's W∥ and W⊥, computed a second time from weight and angle.
      Its numbers are the arrows' magnitudes: W∥ is the friction arrow, W⊥ is
      the normal force. */
  datatype InfoPanel = InfoPanel(parallel: real, perpendicular: real)

  function Panel(m: MathLib, mass: real, angleDeg: real): (p: InfoPanel)
    ensures p.parallel == Forces(m, mass, angleDeg).friction
    ensures p.perpendicular == Forces(m, mass, angleDeg).normal
  {
    var theta := Radians(angleDeg);
    InfoPanel((mass * G) * m.sin(theta), (mass * G) * m.cos(theta))
  }

  /** The two components recombine into the weight: N² + W∥² = W². */
  lemma ComponentsRecombine(m: MathLib, mass: real, angleDeg: real)
    requires Pythagorean(m)
    ensures Sq(Forces(m, mass, angleDeg).normal) + Sq(Forces(m, mass, angleDeg).friction)
         == Sq(Forces(m, mass, angleDeg).weight)
  {
    var theta := Radians(angleDeg);
    var w, c, s := mass * G, m.cos(theta), m.sin(theta);
    assert Sq(s) + Sq(c) == 1.0;
    calc {
      Sq(w * c) + Sq(w * s);
      Sq(w) * (Sq(c) + Sq(s));
      Sq(w);
    }
  }

  /** On every slider setting the weight is positive and each component lies
      between 0 and the weight. */
  lemma ComponentsWithinWeight(m: MathLib, mass: real, angleDeg: real)
    requires Pythagorean(m) && AcuteNonNegative(m)
    requires InSliderRange(mass, angleDeg)
    ensures Forces(m, mass, angleDeg).weight > 0.0
    ensures 0.0 <= Forces(m, mass, angleDeg).normal <= Forces(m, mass, angleDeg).weight
    ensures 0.0 <= Forces(m, mass, angleDeg).friction <= Forces(m, mass, angleDeg).weight
  {
    var theta := Radians(angleDeg);
    var w := mass * G;
    RadiansOfRightAngleRange(angleDeg);
    AcuteUnitBounds(m, theta);
    MulLeq(m.cos(theta), 1.0, w);
    MulLeq(m.sin(theta), 1.0, w);
    MulLeq(0.0, m.cos(theta), w);
    MulLeq(0.0, m.sin(theta), w);
  }
}
