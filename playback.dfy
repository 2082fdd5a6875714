/** The playback clock shared by the clamped scenarios: a time value and a play
    flag, advanced once per animation frame by a fixed step until it reaches a
    limit, where it is clamped and playback stops. */
module Playback {

  datatype ClockState = ClockState(t: real, playing: bool)

  /** One animation frame of a clamped clock. A paused clock schedules no frame,
      so a tick leaves it as it is. A running clock at or past the limit is set
      to the limit and stopped; otherwise it advances by one step. */
  function ClampedTick(c: ClockState, step: real, limit: real): (r: ClockState)
    ensures !c.playing ==> r == c
    ensures c.playing ==> (r.playing <==> c.t < limit)
    ensures r.playing ==> r.t == c.t + step
    ensures c.playing && !r.playing ==> r.t == limit
  {
    if !c.playing then c
    else if c.t >= limit then ClockState(limit, false)
    else ClockState(c.t + step, true)
  }

  /** `n` animation frames. */
  function ClampedRun(c: ClockState, step: real, limit: real, n: nat): ClockState
    decreases n
  {
    if n == 0 then c else ClampedRun(ClampedTick(c, step, limit), step, limit, n - 1)
  }

  /** The band a clamped clock lives in: it never goes below zero and never
      exceeds the limit by a full step. */
  ghost predicate InBand(c: ClockState, step: real, limit: real)
  {
    0.0 <= c.t < limit + step
  }

  lemma ClampedTickKeepsBand(c: ClockState, step: real, limit: real)
    requires step > 0.0 && limit >= 0.0 && InBand(c, step, limit)
    ensures InBand(ClampedTick(c, step, limit), step, limit)
    ensures ClampedTick(c, step, limit).t >= c.t || ClampedTick(c, step, limit).t == limit
  {
  }

  /** A tick that stops a running clock leaves it exactly on the limit, and a tick
      never stops a clock that was below the limit. */
  lemma ClampedTickStopsOnLimit(c: ClockState, step: real, limit: real)
    requires c.playing
    ensures !ClampedTick(c, step, limit).playing <==> c.t >= limit
    ensures !ClampedTick(c, step, limit).playing ==> ClampedTick(c, step, limit).t == limit
  {
  }

  lemma {:induction false} ClampedRunKeepsBand(c: ClockState, step: real, limit: real, n: nat)
    requires step > 0.0 && limit >= 0.0 && InBand(c, step, limit)
    ensures InBand(ClampedRun(c, step, limit, n), step, limit)
    decreases n
  {
    if n > 0 {
      ClampedTickKeepsBand(c, step, limit);
      ClampedRunKeepsBand(ClampedTick(c, step, limit), step, limit, n - 1);
    }
  }

  /** Playback terminates: a running clock that starts at t is stopped exactly on
      the limit after any number of frames n with (n - 1) * step >= limit - t. */
  lemma {:induction false} ClampedRunStops(c: ClockState, step: real, limit: real, n: nat)
    requires step > 0.0 && n >= 1
    requires c.playing
    requires (n as real - 1.0) * step >= limit - c.t
    ensures ClampedRun(c, step, limit, n) == ClockState(limit, false)
    decreases n
  {
    var c' := ClampedTick(c, step, limit);
    if c.t >= limit {
      assert c' == ClockState(limit, false);
      PausedRunUnchanged(c', step, limit, n - 1);
    } else {
      assert c' == ClockState(c.t + step, true);
      assert n != 1;
      var m: nat := n - 1;
      assert (m as real - 1.0) * step == (n as real - 1.0) * step - step;
      ClampedRunStops(c', step, limit, m);
    }
  }

  /** Frames of a paused clock change nothing: pausing preserves the time. */
  lemma {:induction false} PausedRunUnchanged(c: ClockState, step: real, limit: real, n: nat)
    requires !c.playing
    ensures ClampedRun(c, step, limit, n) == c
    decreases n
  {
    if n > 0 {
      PausedRunUnchanged(ClampedTick(c, step, limit), step, limit, n - 1);
    }
  }

  /** The clock object of one simulation instance. */
  class Clock {
    var t: real
    var playing: bool

    function State(): ClockState
      reads this
    {
      ClockState(t, playing)
    }

    constructor ()
      ensures t == 0.0 && !playing
    {
      t, playing := 0.0, false;
    }

    /** One animation frame with the given step and limit. */
    method Tick(step: real, limit: real)
      modifies this
      ensures State() == ClampedTick(old(State()), step, limit)
    {
      if playing {
        if t >= limit {
          t, playing := limit, false;
        } else {
          t := t + step;
        }
      }
    }

    /** The Play/Pause button: flips the flag and keeps the time. */
    method Toggle()
      modifies this
      ensures playing == !old(playing) && t == old(t)
    {
      playing := !playing;
    }

    /** Stops playback and rewinds to zero. */
    method Reset()
      modifies this
      ensures t == 0.0 && !playing
    {
      t, playing := 0.0, false;
    }

    /** Sets the time directly and stops playback, as a time slider does. */
    method Seek(at: real)
      modifies this
      ensures t == at && !playing
    {
      t, playing := at, false;
    }
  }
}
