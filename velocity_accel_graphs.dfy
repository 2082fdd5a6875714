/** The velocity-time and acceleration-time graphs of one constant acceleration,
    plotted over ten seconds with the velocity axis cut at ±10 m/s. */
module VelocityAccelGraphs {
  import opened RealMath
  import opened UniformMotion
  import opened Playback

  const Step: real := 0.05
  const MaxTime: real := 10.0
  const MaxVel: real := 10.0
  const MinVel: real := -10.0

  /** The velocity the graph plots: u + a t cut to the axis range. The same
      expression gives the line samples and the current point. */
  function PlottedVelocity(u: real, a: real, t: real): real
  {
    Clamp(Velocity(u, a, t), MinVel, MaxVel)
  }

  /** The plotted velocity is on the axis and agrees with u + a t whenever that
      is on the axis; off the axis it sits on the nearer edge. */
  lemma PlottedVelocityOnAxis(u: real, a: real, t: real)
    ensures MinVel <= PlottedVelocity(u, a, t) <= MaxVel
    ensures MinVel <= Velocity(u, a, t) <= MaxVel ==> PlottedVelocity(u, a, t) == Velocity(u, a, t)
    ensures Velocity(u, a, t) > MaxVel ==> PlottedVelocity(u, a, t) == MaxVel
    ensures Velocity(u, a, t) < MinVel ==> PlottedVelocity(u, a, t) == MinVel
  {
  }

  /** A point of the acceleration graph, as (time, value). */
  datatype GraphPoint = GraphPoint(t: real, value: real)

  function AccelerationPoint(a: real, t: real): GraphPoint { GraphPoint(t, a) }

  /** The acceleration graph is one horizontal line, and its height is the
      slope of the velocity graph: between any two times u + a t changes by the
      plotted acceleration times the elapsed time. */
  lemma AccelerationLineFlat(u: real, a: real, t1: real, t2: real)
    ensures AccelerationPoint(a, t1).value == AccelerationPoint(a, t2).value
    ensures Velocity(u, a, t2) - Velocity(u, a, t1) == AccelerationPoint(a, t1).value * (t2 - t1)
  {
  }

  /** The footer prints the unclamped u + a t, which differs from the plotted
      value only when u + a t is off the axis. */
  function FooterVelocity(u: real, a: real, t: real): real { Velocity(u, a, t) }

  lemma FooterDiffersOnlyOffAxis(u: real, a: real, t: real)
    ensures FooterVelocity(u, a, t) != PlottedVelocity(u, a, t)
        <==> (FooterVelocity(u, a, t) < MinVel || FooterVelocity(u, a, t) > MaxVel)
  {
  }

  class GraphsSim {
    var initialVel: real
    var acceleration: real
    const clock: Clock

    ghost predicate Valid()
      reads this, clock
    {
      -5.0 <= initialVel <= 10.0 && -3.0 <= acceleration <= 3.0
      && InBand(clock.State(), Step, MaxTime)
    }

    constructor ()
      ensures Valid() && fresh(clock)
      ensures initialVel == 5.0 && acceleration == -1.0 && clock.State() == ClockState(0.0, false)
    {
      initialVel, acceleration := 5.0, -1.0;
      clock := new Clock();
    }

    /** One frame: add 0.05 s, clamped at 10 s where playback stops. */
    method Tick()
      requires Valid()
      modifies clock
      ensures Valid()
      ensures clock.State() == ClampedTick(old(clock.State()), Step, MaxTime)
    {
      ClampedTickKeepsBand(clock.State(), Step, MaxTime);
      clock.Tick(Step, MaxTime);
    }

    method TogglePlay()
      requires Valid()
      modifies clock
      ensures Valid()
      ensures clock.playing == !old(clock.playing) && clock.t == old(clock.t)
    {
      clock.Toggle();
    }

    method Reset()
      requires Valid()
      modifies clock
      ensures Valid()
      ensures clock.State() == ClockState(0.0, false)
    {
      clock.Reset();
    }

    /** The sliders change the plotted motion without touching the clock. */
    method SetInitialVelocity(u: real)
      requires Valid() && -5.0 <= u <= 10.0
      modifies this
      ensures Valid()
      ensures initialVel == u && acceleration == old(acceleration)
    {
      initialVel := u;
    }

    method SetAcceleration(a: real)
      requires Valid() && -3.0 <= a <= 3.0
      modifies this
      ensures Valid()
      ensures acceleration == a && initialVel == old(initialVel)
    {
      acceleration := a;
    }
  }
}
