/** A block pushed along a floor with static and kinetic friction. The derived
    forces are recomputed from the sliders and the current velocity; velocity,
    position and time are integrated step by step, and playback stops when the
    block reaches the end of the 40 m track. */
module FrictionDemo {
  import opened RealMath

  const Dt: real := 0.03
  const Track: real := 40.0
  /** Below this speed the block counts as at rest. */
  const RestSpeed: real := 0.01

  /** The four sliders. */
  datatype Params = Params(mass: real, applied: real, muStatic: real, muKinetic: real)

  /** Sliders: mass 1–20 kg, applied force 0–100 N, μs 0.1–1, μk 0.05–0.8. */
  ghost predicate InSliderRange(p: Params)
  {
    1.0 <= p.mass <= 20.0 && 0.0 <= p.applied <= 100.0
    && 0.1 <= p.muStatic <= 1.0 && 0.05 <= p.muKinetic <= 0.8
  }

  function Weight(p: Params): real { p.mass * G }

  /** On a level floor the normal force equals the weight. */
  function Normal(p: Params): real { Weight(p) }

  function MaxStatic(p: Params): real { p.muStatic * Normal(p) }

  function Kinetic(p: Params): real { p.muKinetic * Normal(p) }

  /** The block counts as moving when it is faster than 0.01 m/s or the push
      exceeds the largest static friction. */
  function IsMoving(p: Params, v: real): bool
  {
    v > RestSpeed || p.applied > MaxStatic(p)
  }

  /** The force panel. */
  datatype Forces = Forces(friction: real, net: real, accel: real)

  function ForcesOf(p: Params, v: real): (f: Forces)
    requires p.mass > 0.0
    ensures f.net == p.applied - f.friction
    ensures f.accel * p.mass == f.net
    ensures !IsMoving(p, v) ==> f.net == 0.0
  {
    var friction := if IsMoving(p, v) then Kinetic(p) else Min(p.applied, MaxStatic(p));
    var net := if IsMoving(p, v) then p.applied - Kinetic(p)
               else if p.applied > MaxStatic(p) then p.applied - MaxStatic(p) else 0.0;
    Forces(friction, net, net / p.mass)
  }

  /** At rest, static friction matches the push exactly and nothing accelerates
      the block; moving, kinetic friction opposes the push and a = net / m. */
  lemma ForcesByRegime(p: Params, v: real)
    requires p.mass > 0.0
    ensures !IsMoving(p, v) ==> ForcesOf(p, v) == Forces(p.applied, 0.0, 0.0)
    ensures !IsMoving(p, v) ==> ForcesOf(p, v).friction <= MaxStatic(p)
    ensures IsMoving(p, v) ==>
      && ForcesOf(p, v).friction == Kinetic(p)
      && ForcesOf(p, v).net == p.applied - Kinetic(p)
      && ForcesOf(p, v).accel * p.mass == ForcesOf(p, v).net
  {
  }

  /** The velocity update of one frame, from the velocity before it. */
  function VelocityStep(p: Params, v: real): (r: real)
    requires p.mass > 0.0
    ensures r >= 0.0
    ensures !IsMoving(p, v) ==> r == 0.0
    ensures IsMoving(p, v) ==> r == Max(0.0, v + ((p.applied - Kinetic(p)) / p.mass) * Dt)
  {
    var moving := IsMoving(p, v);
    var currentFriction := if moving then Kinetic(p) else 0.0;
    var a := (p.applied - currentFriction) / p.mass;
    if !moving && p.applied <= MaxStatic(p) then 0.0
    else Max(0.0, v + a * Dt)
  }

  /** While the block moves, a push stronger than kinetic friction speeds it up
      and a weaker or equal push does not. */
  lemma MovingVelocityFollowsPush(p: Params, v: real)
    requires p.mass > 0.0 && v >= 0.0 && IsMoving(p, v)
    ensures p.applied > Kinetic(p) ==> VelocityStep(p, v) > v
    ensures p.applied <= Kinetic(p) ==> VelocityStep(p, v) <= v
  {
    var a := (p.applied - Kinetic(p)) / p.mass;
    DivMul(p.applied - Kinetic(p), p.mass);
    if p.applied > Kinetic(p) {
      assert a > 0.0;
      assert a * Dt > 0.0;
    } else {
      assert a * p.mass <= 0.0;
      if a > 0.0 {
        MulLt(0.0, a, p.mass);
        assert false;
      }
      assert a * Dt <= 0.0;
    }
  }

  /** When μk exceeds μs a push between the two counts as moving, yet a block
      at rest gets no speed: the panel shows kinetic friction larger than the
      push and a negative acceleration for a block that stays put. */
  lemma KineticAboveStaticStalls(p: Params)
    requires p.mass > 0.0 && MaxStatic(p) < p.applied <= Kinetic(p)
    ensures IsMoving(p, 0.0) && VelocityStep(p, 0.0) == 0.0
    ensures p.applied < Kinetic(p) ==> ForcesOf(p, 0.0).accel < 0.0
  {
    var n := p.applied - Kinetic(p);
    DivMul(n, p.mass);
    if n < 0.0 && n / p.mass >= 0.0 {
      MulLeq(0.0, n / p.mass, p.mass);
      assert false;
    }
    VelocityNotAbove(n / p.mass);
  }

  lemma VelocityNotAbove(a: real)
    requires a <= 0.0
    ensures Max(0.0, 0.0 + a * Dt) == 0.0
  {
  }

  /** Time, velocity, position and the play flag. */
  datatype Block = Block(t: real, v: real, x: real, playing: bool)

  /** One frame while playing: the new velocity from VelocityStep, the position
      advanced by the velocity from before the frame and stopped at the end of
      the track, and the time advanced by 0.03 s whatever happens. */
  function FrictionTick(p: Params, b: Block): (r: Block)
    requires p.mass > 0.0
    ensures b.playing ==> r.t == b.t + Dt && r.v == VelocityStep(p, b.v)
    ensures b.playing && !r.playing ==> r.x == Track && b.x + b.v * Dt > Track
    ensures b.playing ==> (r.playing <==> b.x + b.v * Dt <= Track)
    ensures b.playing && r.playing ==> r.x == b.x + b.v * Dt
    ensures !b.playing ==> r == b
  {
    if !b.playing then b
    else
      var newV := VelocityStep(p, b.v);
      var newP := b.x + b.v * Dt;
      if newP > Track then Block(b.t + Dt, newV, Track, false)
      else Block(b.t + Dt, newV, newP, true)
  }

  function FrictionRun(p: Params, b: Block, n: nat): Block
    requires p.mass > 0.0
    decreases n
  {
    if n == 0 then b else FrictionRun(p, FrictionTick(p, b), n - 1)
  }

  /** Velocity is never negative, the block stays on the track, and time is
      never negative. */
  ghost predicate OnTrack(b: Block)
  {
    b.v >= 0.0 && 0.0 <= b.x <= Track && b.t >= 0.0
  }

  /** A frame keeps the block on the track and never moves it backwards. */
  lemma FrictionTickKeepsTrack(p: Params, b: Block)
    requires p.mass > 0.0 && OnTrack(b)
    ensures OnTrack(FrictionTick(p, b))
    ensures FrictionTick(p, b).x >= b.x && FrictionTick(p, b).t >= b.t
  {
  }

  lemma {:induction false} FrictionRunKeepsTrack(p: Params, b: Block, n: nat)
    requires p.mass > 0.0 && OnTrack(b)
    ensures OnTrack(FrictionRun(p, b, n))
    ensures FrictionRun(p, b, n).x >= b.x
    decreases n
  {
    if n > 0 {
      FrictionTickKeepsTrack(p, b);
      FrictionRunKeepsTrack(p, FrictionTick(p, b), n - 1);
    }
  }

  /** A block at rest that is pushed no harder than the largest static friction
      never moves, however many frames pass. */
  lemma {:induction false} RestingBlockStays(p: Params, b: Block, n: nat)
    requires p.mass > 0.0 && p.applied <= MaxStatic(p)
    requires b.v == 0.0 && 0.0 <= b.x <= Track
    ensures FrictionRun(p, b, n).v == 0.0 && FrictionRun(p, b, n).x == b.x
    decreases n
  {
    if n > 0 {
      var b' := FrictionTick(p, b);
      assert b'.v == 0.0 && b'.x == b.x;
      RestingBlockStays(p, b', n - 1);
    }
  }

  class FrictionSim {
    var mass: real
    var applied: real
    var muStatic: real
    var muKinetic: real
    var t: real
    var v: real
    var x: real
    var playing: bool

    function ParamsNow(): Params
      reads this
    {
      Params(mass, applied, muStatic, muKinetic)
    }

    function BlockNow(): Block
      reads this
    {
      Block(t, v, x, playing)
    }

    ghost predicate Valid()
      reads this
    {
      InSliderRange(ParamsNow()) && OnTrack(BlockNow())
    }

    constructor ()
      ensures Valid()
      ensures ParamsNow() == Params(10.0, 30.0, 0.5, 0.3)
      ensures BlockNow() == Block(0.0, 0.0, 0.0, false)
    {
      mass, applied, muStatic, muKinetic := 10.0, 30.0, 0.5, 0.3;
      t, v, x, playing := 0.0, 0.0, 0.0, false;
    }

    /** One animation frame. */
    method Tick()
      requires Valid()
      modifies this
      ensures Valid()
      ensures ParamsNow() == old(ParamsNow())
      ensures BlockNow() == FrictionTick(ParamsNow(), old(BlockNow()))
    {
      FrictionTickKeepsTrack(ParamsNow(), BlockNow());
      if playing {
        var before := v;
        v := VelocityStep(ParamsNow(), v);
        var newP := x + before * Dt;
        if newP > Track {
          playing := false;
          x := Track;
        } else {
          x := newP;
        }
        t := t + Dt;
      }
    }

    method TogglePlay()
      requires Valid()
      modifies this
      ensures Valid()
      ensures ParamsNow() == old(ParamsNow())
      ensures playing == !old(playing) && t == old(t) && v == old(v) && x == old(x)
    {
      playing := !playing;
    }

    /** reset(): stop and put the block back at rest at the start. */
    method Reset()
      requires InSliderRange(ParamsNow())
      modifies this
      ensures Valid()
      ensures ParamsNow() == old(ParamsNow())
      ensures BlockNow() == Block(0.0, 0.0, 0.0, false)
    {
      playing, t, v, x := false, 0.0, 0.0, 0.0;
    }

    /** Mass, μs and μk store their value and call reset(); the applied force
        changes the push while the block keeps moving. */
    method SetMass(m: real)
      requires Valid() && 1.0 <= m <= 20.0
      modifies this
      ensures Valid()
      ensures ParamsNow() == old(ParamsNow()).(mass := m)
      ensures BlockNow() == Block(0.0, 0.0, 0.0, false)
    {
      mass := m;
      Reset();
    }

    method SetMuStatic(mu: real)
      requires Valid() && 0.1 <= mu <= 1.0
      modifies this
      ensures Valid()
      ensures ParamsNow() == old(ParamsNow()).(muStatic := mu)
      ensures BlockNow() == Block(0.0, 0.0, 0.0, false)
    {
      muStatic := mu;
      Reset();
    }

    method SetMuKinetic(mu: real)
      requires Valid() && 0.05 <= mu <= 0.8
      modifies this
      ensures Valid()
      ensures ParamsNow() == old(ParamsNow()).(muKinetic := mu)
      ensures BlockNow() == Block(0.0, 0.0, 0.0, false)
    {
      muKinetic := mu;
      Reset();
    }

    method SetApplied(f: real)
      requires Valid() && 0.0 <= f <= 100.0
      modifies this
      ensures Valid()
      ensures ParamsNow() == old(ParamsNow()).(applied := f)
      ensures BlockNow() == old(BlockNow())
    {
      applied := f;
    }
  }
}
