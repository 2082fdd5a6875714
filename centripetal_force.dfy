/** Uniform circular motion: the derived quantities ω, a_c, F_c and T, and the
    ball's angle advanced every frame and wrapped with JavaScript's `%` by 2π. */
module CentripetalForce {
  import opened RealMath

  /** The frame duration the angle step assumes, in seconds. */
  const FrameTime: real := 0.016

  /** Sliders: mass 1–10 kg, radius 50–150 (canvas units), speed 1–15 m/s. */
  ghost predicate InSliderRange(mass: real, radius: real, speed: real)
  {
    1.0 <= mass <= 10.0 && 50.0 <= radius <= 150.0 && 1.0 <= speed <= 15.0
  }

  /** ω = v / r. */
  function AngularVelocity(speed: real, radius: real): (w: real)
    requires radius > 0.0
    ensures w * radius == speed
    ensures speed > 0.0 ==> w > 0.0
  {
    speed / radius
  }

  /** a_c = v² / r. */
  function CentripetalAccel(speed: real, radius: real): (ac: real)
    requires radius > 0.0
    ensures ac * radius == speed * speed
    ensures ac >= 0.0
  {
    (speed * speed) / radius
  }

  /** F_c = m a_c. */
  function CentripetalForceOf(mass: real, speed: real, radius: real): (f: real)
    requires radius > 0.0
    ensures f * radius == mass * (speed * speed)
    ensures mass >= 0.0 ==> f >= 0.0
  {
    var ac := CentripetalAccel(speed, radius);
    assert (mass * ac) * radius == mass * (ac * radius);
    MulNonnegIf(mass, ac);
    mass * ac
  }

  lemma MulNonnegIf(x: real, y: real)
    requires y >= 0.0
    ensures x >= 0.0 ==> x * y >= 0.0
  {
    if x >= 0.0 {
      MulNonneg(x, y);
    }
  }

  /** T = 2π r / v. */
  function Period(speed: real, radius: real): (period: real)
    requires speed > 0.0
    ensures period * speed == 2.0 * Pi * radius
    ensures radius > 0.0 ==> period > 0.0
  {
    (2.0 * Pi * radius) / speed
  }

  /** The derived quantities agree with each other: a_c = ω v, F_c r = m v²,
      and one period sweeps exactly 2π at the angular velocity ω. */
  lemma DerivedQuantitiesAgree(mass: real, speed: real, radius: real)
    requires InSliderRange(mass, radius, speed)
    ensures CentripetalAccel(speed, radius) == AngularVelocity(speed, radius) * speed
    ensures CentripetalForceOf(mass, speed, radius) * radius == mass * speed * speed
    ensures CentripetalForceOf(mass, speed, radius) > 0.0
    ensures AngularVelocity(speed, radius) * Period(speed, radius) == 2.0 * Pi
  {
    var w := AngularVelocity(speed, radius);
    var ac := CentripetalAccel(speed, radius);
    var period := Period(speed, radius);
    assert ac == w * speed by {
      assert (w * speed) * radius == speed * speed;
      DivMul(speed * speed, radius);
    }
    assert w * period == 2.0 * Pi by {
      assert (w * period) * (speed * radius) == (w * radius) * (period * speed);
      assert (2.0 * Pi) * (speed * radius) == speed * (2.0 * Pi * radius);
      CancelPositive(w * period, 2.0 * Pi, speed * radius);
    }
  }

  lemma CancelPositive(x: real, y: real, k: real)
    requires k > 0.0 && x * k == y * k
    ensures x == y
  {
    if x != y {
      ProductZero(k, x - y);
    }
  }

  /** One frame of the ball: the angle grows by ω · 0.016 and is reduced by
      JavaScript's `%` with the divisor 2π. */
  function AngleTick(angle: real, w: real): (r: real)
    ensures var turns := (angle + w * FrameTime - r) / (2.0 * Pi); turns.Floor as real == turns
  {
    JsRem(angle + w * FrameTime, 2.0 * Pi)
  }

  /** Starting from a non-negative angle with a non-negative ω, one frame lands in
      [0, 2π), and a step that does not reach 2π is not wrapped at all. */
  lemma AngleTickInTurn(angle: real, w: real)
    requires 0.0 <= angle && 0.0 <= w
    ensures 0.0 <= AngleTick(angle, w) < 2.0 * Pi
    ensures angle + w * FrameTime < 2.0 * Pi ==> AngleTick(angle, w) == angle + w * FrameTime
  {
    JsRemRange(angle + w * FrameTime, 2.0 * Pi);
    if angle + w * FrameTime < 2.0 * Pi {
      JsRemIdentity(angle + w * FrameTime, 2.0 * Pi);
    }
  }

  /** `n` frames at a fixed angular velocity. */
  function AngleRun(angle: real, w: real, n: nat): real
    decreases n
  {
    if n == 0 then angle else AngleRun(AngleTick(angle, w), w, n - 1)
  }

  /** From an angle in [0, 2π) the ball stays in [0, 2π) for any number of frames. */
  lemma {:induction false} AngleRunInTurn(angle: real, w: real, n: nat)
    requires 0.0 <= angle < 2.0 * Pi && 0.0 <= w
    ensures 0.0 <= AngleRun(angle, w, n) < 2.0 * Pi
    decreases n
  {
    if n > 0 {
      AngleTickInTurn(angle, w);
      AngleRunInTurn(AngleTick(angle, w), w, n - 1);
    }
  }

  class CentripetalSim {
    var mass: real
    var radius: real
    var speed: real
    var angle: real
    var playing: bool

    ghost predicate Valid()
      reads this
    {
      InSliderRange(mass, radius, speed) && 0.0 <= angle < 2.0 * Pi
    }

    /** The simulation starts already playing, with the ball at angle 0. */
    constructor ()
      ensures Valid()
      ensures mass == 2.0 && radius == 100.0 && speed == 5.0
      ensures angle == 0.0 && playing
    {
      mass, radius, speed, angle, playing := 2.0, 100.0, 5.0, 0.0, true;
    }

    /** One animation frame; a paused simulation schedules none. */
    method Tick()
      requires Valid()
      modifies this
      ensures Valid()
      ensures mass == old(mass) && radius == old(radius) && speed == old(speed)
      ensures playing == old(playing)
      ensures angle == (if old(playing) then AngleTick(old(angle), AngularVelocity(speed, radius)) else old(angle))
    {
      if playing {
        AngleTickInTurn(angle, AngularVelocity(speed, radius));
        angle := AngleTick(angle, AngularVelocity(speed, radius));
      }
    }

    method TogglePlay()
      requires Valid()
      modifies this
      ensures Valid()
      ensures playing == !old(playing)
      ensures mass == old(mass) && radius == old(radius) && speed == old(speed) && angle == old(angle)
    {
      playing := !playing;
    }

    /** The three sliders change one parameter each and leave the angle and the
        play state as they are. */
    method SetMass(m: real)
      requires Valid() && 1.0 <= m <= 10.0
      modifies this
      ensures Valid()
      ensures mass == m && radius == old(radius) && speed == old(speed)
      ensures angle == old(angle) && playing == old(playing)
    {
      mass := m;
    }

    method SetRadius(r: real)
      requires Valid() && 50.0 <= r <= 150.0
      modifies this
      ensures Valid()
      ensures radius == r && mass == old(mass) && speed == old(speed)
      ensures angle == old(angle) && playing == old(playing)
    {
      radius := r;
    }

    method SetSpeed(v: real)
      requires Valid() && 1.0 <= v <= 15.0
      modifies this
      ensures Valid()
      ensures speed == v && mass == old(mass) && radius == old(radius)
      ensures angle == old(angle) && playing == old(playing)
    {
      speed := v;
    }
  }
}
