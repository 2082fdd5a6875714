/** A projectile launched from the ground at an angle and speed: the derived
    flight quantities, the height over time, and the clock whose frames append
    the projectile's canvas position to a bounded trail. */
module ProjectileMotion {
  import opened RealMath
  import opened Playback

  const Step: real := 0.02
  /** Canvas pixels per metre, the launch point's x and the ground line's y. */
  const Scale: real := 8.0
  const LaunchX: real := 60.0
  const GroundY: real := 310.0
  /** How many earlier trail points a frame keeps before appending. */
  const TrailKeep: nat := 50

  /** Sliders: angle 10–80 degrees, speed 5–30 m/s. */
  ghost predicate InSliderRange(angleDeg: real, speed: real)
  {
    10.0 <= angleDeg <= 80.0 && 5.0 <= speed <= 30.0
  }

  /** The quantities derived from the sliders. */
  datatype Launch = Launch(vx: real, vy: real, totalTime: real, maxHeight: real, range: real)

  function LaunchOf(m: MathLib, angleDeg: real, speed: real): (l: Launch)
    ensures l.totalTime * G == 2.0 * l.vy
    ensures l.maxHeight * (2.0 * G) == l.vy * l.vy
    ensures l.range * G == 2.0 * l.vx * l.vy
  {
    var theta := Radians(angleDeg);
    var vx := speed * m.cos(theta);
    var vy := speed * m.sin(theta);
    var totalTime := (2.0 * vy) / G;
    assert (vx * totalTime) * G == vx * (totalTime * G);
    Launch(vx, vy, totalTime, (vy * vy) / (2.0 * G), vx * totalTime)
  }

  /** Height above the ground at time t: vy t − ½ g t². */
  function Height(vy: real, t: real): real { vy * t - 0.5 * G * t * t }

  /** The ground is left at t = 0 and reached again at the total flight time. */
  lemma LandsAtTotalTime(vy: real)
    ensures Height(vy, 0.0) == 0.0
    ensures Height(vy, (2.0 * vy) / G) == 0.0
  {
    var t := (2.0 * vy) / G;
    assert t * G == 2.0 * vy;
    calc {
      Height(vy, t);
      t * (vy - 0.5 * (G * t));
      t * (vy - 0.5 * (2.0 * vy));
      0.0;
    }
  }

  /** The height never exceeds the maximum height and reaches it at half the
      flight time: the gap is (vy − g t)² / 2g. */
  lemma MaxHeightIsApex(vy: real, t: real)
    ensures (vy * vy) / (2.0 * G) - Height(vy, t) == Sq(vy - G * t) / (2.0 * G)
    ensures Height(vy, t) <= (vy * vy) / (2.0 * G)
    ensures Height(vy, ((2.0 * vy) / G) / 2.0) == (vy * vy) / (2.0 * G)
  {
    assert Sq(vy - G * t) == vy * vy - 2.0 * G * Height(vy, t);
    assert Sq(vy - G * t) >= 0.0;
    assert ((2.0 * vy) / G) / 2.0 == vy / G;
    assert G * (vy / G) == vy;
  }

  /** The flight as the derived quantities describe it: the range is the
      horizontal distance covered in the total time, the height is zero at the
      launch and at the total time, and maxHeight is the highest point. */
  lemma FlightMatchesLaunch(m: MathLib, angleDeg: real, speed: real, t: real)
    ensures var l := LaunchOf(m, angleDeg, speed);
      && l.vx * l.totalTime == l.range
      && Height(l.vy, 0.0) == 0.0 && Height(l.vy, l.totalTime) == 0.0
      && Height(l.vy, t) <= l.maxHeight
      && Height(l.vy, l.totalTime / 2.0) == l.maxHeight
  {
    var l := LaunchOf(m, angleDeg, speed);
    LandsAtTotalTime(l.vy);
    MaxHeightIsApex(l.vy, t);
  }

  /** A position on the canvas. */
  datatype Pixel = Pixel(x: real, y: real)

  /** Where the projectile is drawn at time t. */
  function PixelAt(l: Launch, t: real): (p: Pixel)
    ensures p.y == GroundY <==> Height(l.vy, t) == 0.0
    ensures p.y < GroundY <==> Height(l.vy, t) > 0.0
  {
    Pixel(LaunchX + l.vx * t * Scale, GroundY - Height(l.vy, t) * Scale)
  }

  /** It is drawn on the ground line at the launch and at the landing time. */
  lemma PixelOnGroundAtEnds(m: MathLib, angleDeg: real, speed: real)
    ensures var l := LaunchOf(m, angleDeg, speed);
      PixelAt(l, 0.0) == Pixel(LaunchX, GroundY) && PixelAt(l, l.totalTime).y == GroundY
  {
    LandsAtTotalTime(LaunchOf(m, angleDeg, speed).vy);
  }

  /** `[...trail.slice(-50), p]`: the last 50 points at most, then the new one. */
  function AppendTrail(trail: seq<Pixel>, p: Pixel): (r: seq<Pixel>)
    ensures |r| <= TrailKeep + 1 && |r| >= 1
    ensures r[|r| - 1] == p
    ensures |r| - 1 <= |trail| && r[..|r| - 1] == trail[|trail| - (|r| - 1)..]
    ensures |trail| <= TrailKeep ==> r == trail + [p]
    ensures |trail| >= TrailKeep ==> |r| == TrailKeep + 1
  {
    (if |trail| <= TrailKeep then trail else trail[|trail| - TrailKeep..]) + [p]
  }

  /** The clock and the trail together. */
  datatype Flight = Flight(clock: ClockState, trail: seq<Pixel>)

  /** One frame: the clamped clock rule; a frame that advances the time also
      appends the position at the new time to the trail. */
  function FlightTick(f: Flight, l: Launch): (r: Flight)
    ensures r.clock == ClampedTick(f.clock, Step, l.totalTime)
    ensures r.clock.t != f.clock.t || r.clock.playing ==> f.clock.playing
    ensures f.clock.playing && f.clock.t < l.totalTime ==>
      r.trail == AppendTrail(f.trail, PixelAt(l, f.clock.t + Step))
    ensures !(f.clock.playing && f.clock.t < l.totalTime) ==> r.trail == f.trail
  {
    if !f.clock.playing then f
    else if f.clock.t >= l.totalTime then Flight(ClockState(l.totalTime, false), f.trail)
    else
      var newT := f.clock.t + Step;
      Flight(ClockState(newT, true), AppendTrail(f.trail, PixelAt(l, newT)))
  }

  /** `n` samples of the path, 0.02 s apart, the last one taken at time `newest`. */
  function Samples(l: Launch, newest: real, n: nat): (s: seq<Pixel>)
    ensures |s| == n
    decreases n
  {
    if n == 0 then [] else Samples(l, newest - Step, n - 1) + [PixelAt(l, newest)]
  }

  /** The i-th of the samples is the point at `newest` less n − 1 − i steps. */
  lemma {:induction false} SampleAt(l: Launch, newest: real, n: nat, i: nat)
    requires i < n
    ensures Samples(l, newest, n)[i] == PixelAt(l, newest - Step * ((n - 1 - i) as real))
    decreases n
  {
    if i < n - 1 {
      SampleAt(l, newest - Step, n - 1, i);
      assert Samples(l, newest, n)[i] == Samples(l, newest - Step, n - 1)[i];
      assert newest - Step - Step * ((n - 2 - i) as real) == newest - Step * ((n - 1 - i) as real);
    }
  }

  /** The trail is a run of consecutive samples of the path, 0.02 s apart, the
      last one taken at time `newest`. */
  ghost predicate TrailOnPath(trail: seq<Pixel>, l: Launch, newest: real)
  {
    trail == Samples(l, newest, |trail|)
  }

  /** The time of the newest sample after a frame. */
  function NewestAfter(f: Flight, l: Launch, newest: real): real
  {
    if f.clock.playing && f.clock.t < l.totalTime then f.clock.t + Step else newest
  }

  /** Every frame keeps the trail a run of consecutive samples of the path and
      keeps it at most 51 points long, provided that, while the clock is short
      of the landing time, the newest sample is the clock's own time. */
  lemma FlightTickKeepsTrail(f: Flight, l: Launch, newest: real)
    requires TrailOnPath(f.trail, l, newest) && |f.trail| <= TrailKeep + 1
    requires f.clock.t < l.totalTime ==> newest == f.clock.t
    ensures var r := FlightTick(f, l);
      && TrailOnPath(r.trail, l, NewestAfter(f, l, newest))
      && |r.trail| <= TrailKeep + 1
      && (r.clock.t < l.totalTime ==> NewestAfter(f, l, newest) == r.clock.t)
  {
    if f.clock.playing && f.clock.t < l.totalTime {
      AdvancingFrameKeepsTrail(f, l, newest);
    } else {
      HoldingFrameKeepsTrail(f, l, newest);
    }
  }

  /** A frame that advances the time appends the sample at the new time. */
  lemma AdvancingFrameKeepsTrail(f: Flight, l: Launch, newest: real)
    requires TrailOnPath(f.trail, l, newest)
    requires f.clock.playing && f.clock.t < l.totalTime && newest == f.clock.t
    ensures TrailOnPath(FlightTick(f, l).trail, l, newest + Step)
    ensures |FlightTick(f, l).trail| <= TrailKeep + 1
    ensures FlightTick(f, l).clock.t == newest + Step
    ensures NewestAfter(f, l, newest) == newest + Step
  {
    AppendedTrailOnPath(f.trail, FlightTick(f, l).trail, l, newest);
  }

  lemma AppendedTrailOnPath(trail: seq<Pixel>, appended: seq<Pixel>, l: Launch, newest: real)
    requires TrailOnPath(trail, l, newest)
    requires appended == AppendTrail(trail, PixelAt(l, newest + Step))
    ensures TrailOnPath(appended, l, newest + Step) && |appended| <= TrailKeep + 1
  {
    AppendSamples(l, newest, |trail|);
  }

  /** Any other frame keeps the trail and the time of its newest sample. */
  lemma HoldingFrameKeepsTrail(f: Flight, l: Launch, newest: real)
    requires !(f.clock.playing && f.clock.t < l.totalTime)
    ensures FlightTick(f, l).trail == f.trail
    ensures NewestAfter(f, l, newest) == newest
    ensures FlightTick(f, l).clock.t < l.totalTime ==> FlightTick(f, l).clock == f.clock
  {
  }

  /** Appending the next sample to the last 50 of n samples gives a run of
      at most 51 samples ending one step later. */
  lemma AppendSamples(l: Launch, newest: real, n: nat)
    ensures AppendTrail(Samples(l, newest, n), PixelAt(l, newest + Step))
         == Samples(l, newest + Step, (if n <= TrailKeep then n else TrailKeep) + 1)
  {
    var all := Samples(l, newest, n);
    var kept := if n <= TrailKeep then all else all[n - TrailKeep..];
    SamplesSuffix(l, newest, n, n - |kept|);
    assert kept == all[n - |kept|..];
    SamplesSnoc(l, newest, |kept|);
  }

  /** Dropping the oldest samples keeps a run of consecutive samples. */
  lemma {:induction false} SamplesSuffix(l: Launch, newest: real, n: nat, k: nat)
    requires k <= n
    ensures Samples(l, newest, n)[k..] == Samples(l, newest, n - k)
    decreases n
  {
    if k < n {
      var a := Samples(l, newest - Step, n - 1);
      SamplesSuffix(l, newest - Step, n - 1, k);
      assert (a + [PixelAt(l, newest)])[k..] == a[k..] + [PixelAt(l, newest)];
    }
  }

  /** Appending the sample one step after the newest extends the run. */
  lemma SamplesSnoc(l: Launch, newest: real, n: nat)
    ensures Samples(l, newest + Step, n + 1) == Samples(l, newest, n) + [PixelAt(l, newest + Step)]
  {
    assert newest + Step - Step == newest;
  }

  /** The trail invariant of a running simulation: at most 51 points, a run of
      consecutive samples ending at `newest`, which is the clock's time while
      the clock is short of the landing time. */
  ghost predicate TrailInvariant(l: Launch, f: Flight, newest: real)
  {
    && |f.trail| <= TrailKeep + 1
    && TrailOnPath(f.trail, l, newest)
    && (f.clock.t < l.totalTime ==> newest == f.clock.t)
  }

  class ProjectileSim {
    var angle: real
    var speed: real
    var trail: seq<Pixel>
    const clock: Clock
    const math: MathLib
    /** When the newest trail point was sampled. */
    ghost var newest: real

    function LaunchNow(): Launch
      reads this
    {
      LaunchOf(math, angle, speed)
    }

    function FlightNow(): Flight
      reads this, clock
    {
      Flight(clock.State(), trail)
    }

    ghost predicate Valid()
      reads this, clock
    {
      && InSliderRange(angle, speed)
      && TrailInvariant(LaunchNow(), FlightNow(), newest)
    }

    constructor (m: MathLib)
      ensures Valid() && fresh(clock)
      ensures math == m && angle == 45.0 && speed == 20.0
      ensures trail == [] && clock.State() == ClockState(0.0, false)
    {
      math, angle, speed, trail := m, 45.0, 20.0, [];
      clock := new Clock();
      newest := 0.0;
    }

    /** One animation frame. */
    method Tick()
      requires Valid()
      modifies this, clock
      ensures Valid()
      ensures angle == old(angle) && speed == old(speed)
      ensures FlightNow() == FlightTick(old(FlightNow()), LaunchNow())
    {
      var l := LaunchNow();
      var f := FlightNow();
      var r := FlightTick(f, l);
      FlightTickKeepsTrail(f, l, newest);
      var n := NewestAfter(f, l, newest);
      assert TrailInvariant(l, r, n);
      newest := n;
      trail := r.trail;
      clock.Tick(Step, l.totalTime);
      assert LaunchNow() == l && FlightNow() == r;
    }

    method TogglePlay()
      requires Valid()
      modifies clock
      ensures Valid()
      ensures clock.playing == !old(clock.playing) && clock.t == old(clock.t)
    {
      clock.Toggle();
    }

    /** reset(): stop, rewind and clear the trail. */
    method Reset()
      requires InSliderRange(angle, speed)
      modifies this, clock
      ensures Valid()
      ensures angle == old(angle) && speed == old(speed)
      ensures trail == [] && clock.State() == ClockState(0.0, false)
    {
      clock.Reset();
      trail := [];
      newest := 0.0;
    }

    /** Both sliders store their value and call reset(). */
    method SetAngle(a: real)
      requires Valid() && 10.0 <= a <= 80.0
      modifies this, clock
      ensures Valid()
      ensures angle == a && speed == old(speed)
      ensures trail == [] && clock.State() == ClockState(0.0, false)
    {
      angle := a;
      Reset();
    }

    method SetSpeed(v: real)
      requires Valid() && 5.0 <= v <= 30.0
      modifies this, clock
      ensures Valid()
      ensures speed == v && angle == old(angle)
      ensures trail == [] && clock.State() == ClockState(0.0, false)
    {
      speed := v;
      Reset();
    }
  }
}
