/** The closed-form formulas of motion under constant acceleration that the
    kinematics and force scenarios evaluate at their current time. */
module UniformMotion {
  import opened RealMath

  /** v = u + a t */
  function Velocity(u: real, a: real, t: real): real { u + a * t }

  /** s = u t + ½ a t² */
  function Displacement(u: real, a: real, t: real): real { u * t + 0.5 * a * t * t }

  /** At t = 0 the velocity is u and nothing has been travelled. */
  lemma AtStart(u: real, a: real)
    ensures Velocity(u, a, 0.0) == u && Displacement(u, a, 0.0) == 0.0
  {
  }

  /** The time-free equation v² = u² + 2 a s holds at every instant. */
  lemma Timeless(u: real, a: real, t: real)
    ensures Sq(Velocity(u, a, t)) == Sq(u) + 2.0 * a * Displacement(u, a, t)
  {
    calc {
      Sq(Velocity(u, a, t));
      (u + a * t) * (u + a * t);
      u * u + 2.0 * u * (a * t) + (a * t) * (a * t);
      u * u + 2.0 * a * (u * t + 0.5 * a * t * t);
    }
  }

  /** The average-velocity form s = ½ (u + v) t holds at every instant. */
  lemma AverageVelocityForm(u: real, a: real, t: real)
    ensures Displacement(u, a, t) == 0.5 * (u + Velocity(u, a, t)) * t
  {
  }
}
