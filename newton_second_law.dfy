/** Newton's second law: a constant force on a mass from rest. The clock stops
    when five seconds have passed or the block has travelled 25 m, without
    clamping the time. */
module NewtonSecondLaw {
  import opened RealMath
  import opened UniformMotion

  const Step: real := 0.03
  const MaxTime: real := 5.0
  const MaxTravel: real := 25.0

  /** The mass slider runs over [1, 20] kg, the force slider over [5, 100] N. */
  ghost predicate InSliderRange(force: real, mass: real)
  {
    5.0 <= force <= 100.0 && 1.0 <= mass <= 20.0
  }

  /** a = F / m, positive for every slider setting. */
  function Acceleration(force: real, mass: real): (a: real)
    requires mass > 0.0
    ensures a * mass == force
    ensures force > 0.0 ==> a > 0.0
    ensures mass >= 1.0 && force >= 0.0 ==> a <= force
  {
    force / mass
  }

  lemma AccelerationPositiveOnSliders(force: real, mass: real)
    requires InSliderRange(force, mass)
    ensures Acceleration(force, mass) > 0.0
  {
  }

  /** x = ½ a t², from rest. */
  function Position(a: real, t: real): real { Displacement(0.0, a, t) }

  /** v = a t, from rest. */
  function BlockVelocity(a: real, t: real): real { Velocity(0.0, a, t) }

  /** Starting from rest the distance covered is half the current velocity times the time. */
  lemma PositionIsHalfVelocityTimesTime(a: real, t: real)
    ensures Position(a, t) == 0.5 * BlockVelocity(a, t) * t
  {
    AverageVelocityForm(0.0, a, t);
  }

  /** The velocity arrow is drawn only above 0.1 m/s. */
  function ShowsVelocityArrow(v: real): bool { v > 0.1 }

  /** Under a positive acceleration the arrow is absent at the start and shown
      exactly after the time 0.1 / a. */
  lemma ArrowShownAfterThreshold(a: real, t: real)
    requires a > 0.0
    ensures ShowsVelocityArrow(BlockVelocity(a, t)) <==> t > 0.1 / a
  {
    DivMul(0.1, a);
    if t > 0.1 / a {
      MulLt(0.1 / a, t, a);
    } else {
      MulLeq(t, 0.1 / a, a);
    }
  }

  datatype NewtonClock = NewtonClock(t: real, playing: bool)

  /** One frame: stop, keeping t, once t ≥ 5 or ½ a t² > 25; otherwise add 0.03 s. */
  function NewtonTick(c: NewtonClock, a: real): (r: NewtonClock)
    ensures c.t <= r.t
    ensures r.t != c.t ==> c.t < MaxTime && r.t == c.t + Step && r.playing
    ensures !c.playing ==> r == c
  {
    if !c.playing then c
    else if c.t >= MaxTime || Position(a, c.t) > MaxTravel then NewtonClock(c.t, false)
    else NewtonClock(c.t + Step, true)
  }

  function NewtonRun(c: NewtonClock, a: real, n: nat): NewtonClock
    decreases n
  {
    if n == 0 then c else NewtonRun(NewtonTick(c, a), a, n - 1)
  }

  /** The time never becomes negative and, because the stop leaves t where it is,
      never reaches 5.03 s: every run from a rewound clock stays in [0, 5.03). */
  lemma {:induction false} NewtonRunBounded(c: NewtonClock, a: real, n: nat)
    requires 0.0 <= c.t < MaxTime + Step
    ensures 0.0 <= NewtonRun(c, a, n).t < MaxTime + Step
    ensures NewtonRun(c, a, n).t >= c.t
    decreases n
  {
    if n > 0 {
      NewtonRunBounded(NewtonTick(c, a), a, n - 1);
    }
  }

  /** A stopping frame does not move the clock: the last time shown is the time
      at which the stop condition was first seen. */
  lemma StopKeepsTime(c: NewtonClock, a: real)
    requires c.playing
    ensures !NewtonTick(c, a).playing <==> (c.t >= MaxTime || Position(a, c.t) > MaxTravel)
    ensures NewtonTick(c, a).t == c.t <==> !NewtonTick(c, a).playing
  {
  }

  class NewtonSim {
    var mass: real
    var force: real
    var t: real
    var playing: bool

    ghost predicate Valid()
      reads this
    {
      InSliderRange(force, mass) && 0.0 <= t < MaxTime + Step
    }

    function State(): NewtonClock
      reads this
    {
      NewtonClock(t, playing)
    }

    constructor ()
      ensures Valid()
      ensures mass == 5.0 && force == 20.0 && State() == NewtonClock(0.0, false)
    {
      mass, force, t, playing := 5.0, 20.0, 0.0, false;
    }

    method Tick()
      requires Valid()
      modifies this
      ensures Valid()
      ensures mass == old(mass) && force == old(force)
      ensures State() == NewtonTick(old(State()), Acceleration(force, mass))
    {
      if playing {
        if t >= MaxTime || Position(Acceleration(force, mass), t) > MaxTravel {
          playing := false;
        } else {
          t := t + Step;
        }
      }
    }

    method TogglePlay()
      requires Valid()
      modifies this
      ensures Valid()
      ensures mass == old(mass) && force == old(force)
      ensures playing == !old(playing) && t == old(t)
    {
      playing := !playing;
    }

    method Reset()
      requires Valid()
      modifies this
      ensures Valid()
      ensures mass == old(mass) && force == old(force)
      ensures State() == NewtonClock(0.0, false)
    {
      t, playing := 0.0, false;
    }

    /** Both sliders store their value and call reset. */
    method SetMass(m: real)
      requires Valid() && 1.0 <= m <= 20.0
      modifies this
      ensures Valid()
      ensures mass == m && force == old(force) && State() == NewtonClock(0.0, false)
    {
      mass := m;
      Reset();
    }

    method SetForce(f: real)
      requires Valid() && 5.0 <= f <= 100.0
      modifies this
      ensures Valid()
      ensures force == f && mass == old(mass) && State() == NewtonClock(0.0, false)
    {
      force := f;
      Reset();
    }
  }
}
