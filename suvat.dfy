/** The SUVAT equations panel: four derived values computed from the sliders
    u, v, a and t, and an animation whose clock runs from 0 to the chosen t. */
module SuvatEquations {
  import opened RealMath
  import opened UniformMotion
  import opened Playback

  const Step: real := 0.03

  /** v = u + a t, from the sliders u, a and t. */
  function FinalVelocity(u: real, a: real, t: real): real { Velocity(u, a, t) }

  /** s = u t + ½ a t². */
  function DisplacementFromTime(u: real, a: real, t: real): real { Displacement(u, a, t) }

  /** s = (v² − u²) / 2a, which JavaScript evaluates to an infinity or NaN when a = 0. */
  function DisplacementTimeless(u: real, v: real, a: real): (s: JsNumber)
    ensures s.Finite? <==> a != 0.0
    ensures s.Finite? ==> Sq(v) == Sq(u) + 2.0 * a * s.value
  {
    JsDiv(v * v - u * u, 2.0 * a)
  }

  /** s = ½ (u + v) t. */
  function DisplacementAverage(u: real, v: real, t: real): real { 0.5 * (u + v) * t }

  /** When the v slider agrees with u + a t, the average-velocity form gives the
      same displacement as s = u t + ½ a t². */
  lemma AverageAgreesWhenConsistent(u: real, v: real, a: real, t: real)
    requires v == FinalVelocity(u, a, t)
    ensures DisplacementAverage(u, v, t) == DisplacementFromTime(u, a, t)
  {
    AverageVelocityForm(u, a, t);
  }

  /** When the v slider agrees with u + a t and a is not zero, the time-free form
      is finite and gives the same displacement. */
  lemma TimelessAgreesWhenConsistent(u: real, v: real, a: real, t: real)
    requires v == FinalVelocity(u, a, t) && a != 0.0
    ensures DisplacementTimeless(u, v, a) == Finite(DisplacementFromTime(u, a, t))
  {
    Timeless(u, a, t);
    var s := DisplacementFromTime(u, a, t);
    assert v * v - u * u == s * (2.0 * a);
    assert (v * v - u * u) / (2.0 * a) == s;
  }

  /** The acceleration slider includes 0, where the time-free form has no finite value. */
  lemma TimelessFiniteIffAccelerating(u: real, v: real, a: real)
    ensures DisplacementTimeless(u, v, a).Finite? <==> a != 0.0
  {
  }

  /** The animated displacement and velocity at the animation time. */
  function AnimatedDisplacement(u: real, a: real, animTime: real): real { Displacement(u, a, animTime) }

  function AnimatedVelocity(u: real, a: real, animTime: real): real { Velocity(u, a, animTime) }

  /** At every animation time the drawn state satisfies v² = u² + 2 a s. */
  lemma AnimatedStateTimeless(u: real, a: real, animTime: real)
    ensures Sq(AnimatedVelocity(u, a, animTime))
         == Sq(u) + 2.0 * a * AnimatedDisplacement(u, a, animTime)
  {
    Timeless(u, a, animTime);
  }

  /** The object is drawn at min(s, 50) metres along the track. */
  function DrawnDisplacement(s: real): (r: real)
    ensures r <= 50.0 && r <= s
    ensures r == s <==> s <= 50.0
    ensures s > 50.0 ==> r == 50.0
  {
    Min(s, 50.0)
  }

  /** One SUVAT panel: its sliders, the selected equation and the animation clock. */
  class SuvatSim {
    var u: real
    var v: real
    var a: real
    var time: real
    var activeEquation: nat
    const clock: Clock

    /** Slider ranges, and the animation clock within a step of the chosen time. */
    ghost predicate Valid()
      reads this, clock
    {
      && 0.0 <= u <= 20.0 && 0.0 <= v <= 30.0
      && -5.0 <= a <= 5.0 && 1.0 <= time <= 10.0
      && activeEquation < 4
      && InBand(clock.State(), Step, time)
    }

    constructor ()
      ensures Valid() && fresh(clock)
      ensures u == 5.0 && v == 15.0 && a == 2.0 && time == 5.0 && activeEquation == 0
      ensures clock.State() == ClockState(0.0, false)
    {
      u, v, a, time, activeEquation := 5.0, 15.0, 2.0, 5.0, 0;
      clock := new Clock();
    }

    /** One animation frame: the clock advances by 0.03 s and is clamped to the chosen time. */
    method Tick()
      requires Valid()
      modifies clock
      ensures Valid()
      ensures clock.State() == ClampedTick(old(clock.State()), Step, time)
    {
      ClampedTickKeepsBand(clock.State(), Step, time);
      clock.Tick(Step, time);
    }

    method TogglePlay()
      requires Valid()
      modifies clock
      ensures Valid()
      ensures clock.playing == !old(clock.playing) && clock.t == old(clock.t)
    {
      clock.Toggle();
    }

    /** reset(): stop and rewind the animation. */
    method Reset()
      requires Valid()
      modifies clock
      ensures Valid()
      ensures clock.State() == ClockState(0.0, false)
    {
      clock.Reset();
    }

    /** Every slider stores its value and resets the animation. */
    method SetInitialVelocity(x: real)
      requires Valid() && 0.0 <= x <= 20.0
      modifies this, clock
      ensures Valid()
      ensures u == x && v == old(v) && a == old(a) && time == old(time)
      ensures activeEquation == old(activeEquation)
      ensures clock.State() == ClockState(0.0, false)
    {
      u := x;
      clock.Reset();
    }

    method SetFinalVelocity(x: real)
      requires Valid() && 0.0 <= x <= 30.0
      modifies this, clock
      ensures Valid()
      ensures v == x && u == old(u) && a == old(a) && time == old(time)
      ensures activeEquation == old(activeEquation)
      ensures clock.State() == ClockState(0.0, false)
    {
      v := x;
      clock.Reset();
    }

    method SetAcceleration(x: real)
      requires Valid() && -5.0 <= x <= 5.0
      modifies this, clock
      ensures Valid()
      ensures a == x && u == old(u) && v == old(v) && time == old(time)
      ensures activeEquation == old(activeEquation)
      ensures clock.State() == ClockState(0.0, false)
    {
      a := x;
      clock.Reset();
    }

    method SetTime(x: real)
      requires Valid() && 1.0 <= x <= 10.0
      modifies this, clock
      ensures Valid()
      ensures time == x && u == old(u) && v == old(v) && a == old(a)
      ensures activeEquation == old(activeEquation)
      ensures clock.State() == ClockState(0.0, false)
    {
      time := x;
      clock.Reset();
    }

    /** The equation selector changes only the highlighted equation; the
        animation keeps its time and play state. */
    method SelectEquation(i: nat)
      requires Valid() && i < 4
      modifies this
      ensures Valid()
      ensures activeEquation == i
      ensures u == old(u) && v == old(v) && a == old(a) && time == old(time)
    {
      activeEquation := i;
    }
  }
}
