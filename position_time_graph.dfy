/** The position-time graph of uniform motion x = x0 + v t over ten seconds. */
module PositionTimeGraph {
  import opened Playback

  const Step: real := 0.05
  const MaxTime: real := 10.0
  const MaxPos: real := 25.0

  function PositionAt(x0: real, v: real, t: real): real { x0 + v * t }

  /** The current point is drawn only while it is on the plotted area. */
  function PointVisible(pos: real, t: real): bool
  {
    0.0 <= pos <= MaxPos && t <= MaxTime
  }

  /** A line sample is skipped when its position leaves [0, 25]. */
  function SampleDrawn(pos: real): bool
  {
    !(pos < 0.0 || pos > MaxPos)
  }

  /** The point is on the graph exactly when its position is in [0, 25] and
      the time has not passed 10 s; at rest the point stays visible as long as
      the start is on the graph. */
  lemma VisibilityOfCurrentPoint(x0: real, v: real, t: real)
    ensures PointVisible(PositionAt(x0, v, t), t) <==> SampleDrawn(PositionAt(x0, v, t)) && t <= MaxTime
    ensures v == 0.0 ==> (PointVisible(PositionAt(x0, v, t), t) <==> 0.0 <= x0 <= MaxPos && t <= MaxTime)
  {
  }

  /** The sign placed between x0 and v t in the equation text; a negative v
      prints its own minus sign. */
  function SignText(v: real): (s: string)
    ensures s == "+" <==> v >= 0.0
    ensures s == "" <==> v < 0.0
  {
    if v >= 0.0 then "+" else ""
  }

  class GraphSim {
    var velocity: real
    var initialPos: real
    const clock: Clock

    ghost predicate Valid()
      reads this, clock
    {
      -5.0 <= velocity <= 5.0 && 0.0 <= initialPos <= 10.0
      && InBand(clock.State(), Step, MaxTime)
    }

    constructor ()
      ensures Valid() && fresh(clock)
      ensures velocity == 2.0 && initialPos == 0.0 && clock.State() == ClockState(0.0, false)
    {
      velocity, initialPos := 2.0, 0.0;
      clock := new Clock();
    }

    /** One frame: add 0.05 s, clamped at 10 s where playback stops. */
    method Tick()
      requires Valid()
      modifies clock
      ensures Valid()
      ensures clock.State() == ClampedTick(old(clock.State()), Step, MaxTime)
    {
      ClampedTickKeepsBand(clock.State(), Step, MaxTime);
      clock.Tick(Step, MaxTime);
    }

    method TogglePlay()
      requires Valid()
      modifies clock
      ensures Valid()
      ensures clock.playing == !old(clock.playing) && clock.t == old(clock.t)
    {
      clock.Toggle();
    }

    method Reset()
      requires Valid()
      modifies clock
      ensures Valid()
      ensures clock.State() == ClockState(0.0, false)
    {
      clock.Reset();
    }

    /** The sliders change the line but leave the clock running where it is. */
    method SetVelocity(v: real)
      requires Valid() && -5.0 <= v <= 5.0
      modifies this
      ensures Valid()
      ensures velocity == v && initialPos == old(initialPos)
    {
      velocity := v;
    }

    method SetInitialPosition(x: real)
      requires Valid() && 0.0 <= x <= 10.0
      modifies this
      ensures Valid()
      ensures initialPos == x && velocity == old(velocity)
    {
      initialPos := x;
    }
  }
}
