/** The initial-versus-final velocity comparator: four preset scenarios, each a
    constant acceleration run for a fixed duration, and a clock that plays it. */
module VelocityComparator {
  import opened RealMath
  import opened UniformMotion
  import opened Playback

  const Step: real := 0.02

  datatype Scenario = Accelerating | Decelerating | ConstantVelocity | FreeFall

  datatype Preset = Preset(u: real, a: real, duration: real)

  /** The scenario table. */
  function PresetOf(s: Scenario): (p: Preset)
    ensures p.duration > 0.0
  {
    match s
    case Accelerating => Preset(5.0, 3.0, 5.0)
    case Decelerating => Preset(20.0, -4.0, 5.0)
    case ConstantVelocity => Preset(10.0, 0.0, 5.0)
    case FreeFall => Preset(0.0, 9.8, 4.0)
  }

  function CurrentVelocity(s: Scenario, t: real): real
  {
    Velocity(PresetOf(s).u, PresetOf(s).a, t)
  }

  function CurrentDisplacement(s: Scenario, t: real): real
  {
    Displacement(PresetOf(s).u, PresetOf(s).a, t)
  }

  /** At t = 0 every scenario shows its initial velocity and no displacement. */
  lemma StartOfEveryScenario(s: Scenario)
    ensures CurrentVelocity(s, 0.0) == PresetOf(s).u
    ensures CurrentDisplacement(s, 0.0) == 0.0
  {
    AtStart(PresetOf(s).u, PresetOf(s).a);
  }

  /** The constant scenario has no acceleration, so its velocity is u at every time. */
  lemma ConstantScenarioKeepsVelocity(t: real)
    ensures CurrentVelocity(ConstantVelocity, t) == PresetOf(ConstantVelocity).u
  {
  }

  /** The change box: Δv = v − u. */
  function DeltaV(s: Scenario, t: real): real
  {
    CurrentVelocity(s, t) - PresetOf(s).u
  }

  /** The colour the change box takes. */
  datatype Tone = Gain | Loss | Neutral

  function DeltaTone(dv: real): (c: Tone)
    ensures c == Gain <==> dv > 0.0
    ensures c == Loss <==> dv < 0.0
  {
    if dv > 0.0 then Gain else if dv < 0.0 then Loss else Neutral
  }

  /** Δv equals a t, so once time has passed the change box's colour follows the
      sign of the scenario's acceleration. */
  lemma DeltaFollowsAcceleration(s: Scenario, t: real)
    requires t > 0.0
    ensures DeltaV(s, t) == PresetOf(s).a * t
    ensures DeltaTone(DeltaV(s, t)) == Gain <==> PresetOf(s).a > 0.0
    ensures DeltaTone(DeltaV(s, t)) == Loss <==> PresetOf(s).a < 0.0
    ensures DeltaTone(DeltaV(s, t)) == Neutral <==> PresetOf(s).a == 0.0
  {
    var a := PresetOf(s).a;
    if a > 0.0 {
      MulLt(0.0, a, t);
    } else if a < 0.0 {
      MulLt(a, 0.0, t);
    }
  }

  /** The vertical range of the graph. */
  datatype GraphRange = GraphRange(maxVel: real, minVel: real)

  function RangeOf(p: Preset): (g: GraphRange)
    ensures g.maxVel >= 25.0 && g.maxVel >= p.u && g.maxVel >= p.u + p.a * p.duration
    ensures g.maxVel == 25.0 || g.maxVel == p.u || g.maxVel == p.u + p.a * p.duration
    ensures g.minVel <= 0.0 && g.minVel <= p.u + p.a * p.duration
    ensures g.minVel == 0.0 || g.minVel == p.u + p.a * p.duration
  {
    var vEnd := p.u + p.a * p.duration;
    GraphRange(Max(Max(p.u, vEnd), 25.0), Min(0.0, vEnd))
  }

  /** The top is at least 25, the bottom at most 0, so the span used as a
      divisor is positive, and the run's start and end velocities are inside it. */
  lemma RangeIsProper(p: Preset)
    ensures RangeOf(p).maxVel >= 25.0 && RangeOf(p).minVel <= 0.0
    ensures RangeOf(p).maxVel - RangeOf(p).minVel > 0.0
    ensures RangeOf(p).minVel <= p.u + p.a * p.duration <= RangeOf(p).maxVel
    ensures p.u >= 0.0 ==> RangeOf(p).minVel <= p.u <= RangeOf(p).maxVel
  {
    var vEnd := p.u + p.a * p.duration;
    var r := RangeOf(p);
    assert r.maxVel >= Max(p.u, vEnd) >= vEnd;
    assert r.minVel <= vEnd;
  }

  /** The comparator: the selected scenario and its clock. */
  class ComparatorSim {
    var scenario: Scenario
    const clock: Clock

    ghost predicate Valid()
      reads this, clock
    {
      InBand(clock.State(), Step, PresetOf(scenario).duration)
    }

    constructor ()
      ensures Valid() && fresh(clock)
      ensures scenario == Accelerating && clock.State() == ClockState(0.0, false)
    {
      scenario := Accelerating;
      clock := new Clock();
    }

    /** One frame: advance by 0.02 s, clamped to the scenario's duration. */
    method Tick()
      requires Valid()
      modifies clock
      ensures Valid()
      ensures clock.State() == ClampedTick(old(clock.State()), Step, PresetOf(scenario).duration)
    {
      ClampedTickKeepsBand(clock.State(), Step, PresetOf(scenario).duration);
      clock.Tick(Step, PresetOf(scenario).duration);
    }

    method TogglePlay()
      requires Valid()
      modifies clock
      ensures Valid()
      ensures clock.playing == !old(clock.playing) && clock.t == old(clock.t)
    {
      clock.Toggle();
    }

    /** A scenario button selects the scenario, rewinds and stops. */
    method SelectScenario(s: Scenario)
      requires Valid()
      modifies this, clock
      ensures Valid()
      ensures scenario == s && clock.State() == ClockState(0.0, false)
    {
      scenario := s;
      clock.Reset();
    }

    /** The Reset button rewinds and stops, keeping the scenario. */
    method Reset()
      requires Valid()
      modifies clock
      ensures Valid()
      ensures clock.State() == ClockState(0.0, false)
    {
      clock.Reset();
    }

    /** The time slider, bounded by the scenario's duration, sets the time and stops. */
    method Scrub(at: real)
      requires Valid() && 0.0 <= at <= PresetOf(scenario).duration
      modifies clock
      ensures Valid()
      ensures clock.State() == ClockState(at, false)
    {
      clock.Seek(at);
    }
  }
}
