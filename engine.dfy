/** The engine's simulation state, updated in place once per frame: the
    crank angle advanced by the tick, and the run/pause and reset controls
    applied by the keyboard handler. */
module Engine {
  import opened Cycle
  import opened Strokes

  /** Crank degrees per second at the given speed: 360 degrees per
      revolution over 60 seconds per minute. */
  function DegreesPerSecond(rpm: real): (r: real)
    ensures r * 60.0 == rpm * 360.0
    ensures 0.0 <= rpm ==> 0.0 <= r
  {
    rpm * 6.0
  }

  /** Crank degrees covered in one frame of `dt` seconds: the revolutions
      turned in that time, 360 degrees each. */
  function FrameAdvance(rpm: real, dt: real): (r: real)
    ensures r * 60.0 == rpm * dt * 360.0
    ensures 0.0 <= rpm && 0.0 <= dt ==> 0.0 <= r
    ensures rpm == 0.0 || dt == 0.0 ==> r == 0.0
  {
    DegreesPerSecond(rpm) * dt
  }

  /** The crank angle after one tick: unchanged while paused, otherwise
      moved on by the frame's advance with a single wrap. */
  function TickedAngle(angle: real, rpm: real, dt: real, running: bool): (r: real)
    ensures !running ==> r == angle
    ensures running ==> r == angle + FrameAdvance(rpm, dt) || r == angle + FrameAdvance(rpm, dt) - CycleDegrees
    ensures running ==> (r == angle + FrameAdvance(rpm, dt) - CycleDegrees <==>
                         angle + FrameAdvance(rpm, dt) >= CycleDegrees)
    ensures running && 0.0 <= angle && 0.0 <= FrameAdvance(rpm, dt) ==>
              (InCycle(r) <==> angle + FrameAdvance(rpm, dt) < 2.0 * CycleDegrees)
  {
    if running then Step(angle, FrameAdvance(rpm, dt)) else angle
  }

  /** While paused, or with no speed or no elapsed time, a tick leaves an
      angle below 720 where it is (one at 720 or above still loses 720). */
  lemma TickIdle(angle: real, rpm: real, dt: real, running: bool)
    requires angle < CycleDegrees
    requires !running || rpm == 0.0 || dt == 0.0
    ensures TickedAngle(angle, rpm, dt, running) == angle
  {
  }

  /** A tick that advances by less than a cycle keeps an angle in the
      cycle, and lands exactly on `fmod` of the unwrapped sum. */
  lemma TickStaysInCycle(angle: real, rpm: real, dt: real, running: bool)
    requires InCycle(angle)
    requires 0.0 <= FrameAdvance(rpm, dt) < CycleDegrees
    ensures InCycle(TickedAngle(angle, rpm, dt, running))
    ensures running ==> TickedAngle(angle, rpm, dt, running) == Fmod720(angle + FrameAdvance(rpm, dt))
  {
    StepIsFmod(angle, FrameAdvance(rpm, dt));
  }

  /** At a constant speed, from an angle in the cycle, two frames with
      non-negative advances move the crank as far as one frame lasting as
      long as both, as long as together they stay below a cycle. */
  lemma TickAdditive(angle: real, rpm: real, dt1: real, dt2: real)
    requires InCycle(angle)
    requires 0.0 <= FrameAdvance(rpm, dt1) && 0.0 <= FrameAdvance(rpm, dt2)
    requires FrameAdvance(rpm, dt1 + dt2) < CycleDegrees
    ensures TickedAngle(TickedAngle(angle, rpm, dt1, true), rpm, dt2, true)
         == TickedAngle(angle, rpm, dt1 + dt2, true)
  {
    assert FrameAdvance(rpm, dt1 + dt2) == FrameAdvance(rpm, dt1) + FrameAdvance(rpm, dt2);
    StepAdditive(angle, FrameAdvance(rpm, dt1), FrameAdvance(rpm, dt2));
  }

  /** At 600 rpm a frame of 0.1 seconds turns the crank by 360 degrees,
      which is below one cycle and so is not wrapped: from 0 the angle
      becomes 360, where cylinder index 0 is in its power stroke. */
  lemma TickHalfCycle()
    ensures TickedAngle(0.0, 600.0, 0.1, true) == 360.0
    ensures Stroke(TickedAngle(0.0, 600.0, 0.1, true), 0) == Power
  {
    FmodOfInCycle(360.0);
  }

  /** At the default 1000 rpm a frame of 0.24 seconds or more takes the
      angle out of the cycle: from 0 it lands on 720. */
  lemma LongFrameLeavesCycle()
    ensures TickedAngle(0.0, DefaultRpm, 0.24, true) == CycleDegrees
    ensures !InCycle(TickedAngle(0.0, DefaultRpm, 0.24, true))
  {
  }

  /** Speed the program starts with. */
  const DefaultRpm: real := 1000.0

  /** The process-wide engine state: crank angle in degrees (one cycle is
      720), speed in revolutions per minute and the run/pause flag. */
  class EngineState {
    var angle: real
    var rpm: real
    var running: bool

    /** Total crank degrees turned since start or the last reset, before
        any wrap. */
    ghost var Travelled: real

    /** The wrapped angle is the total travelled angle reduced modulo one
        cycle, and so lies in [0, 720). */
    ghost predicate Tracks()
      reads this
    {
      0.0 <= Travelled && angle == Fmod720(Travelled)
    }

    /** Start paused at crank angle 0 with the default speed. */
    constructor ()
      ensures angle == 0.0 && rpm == DefaultRpm && !running
      ensures Tracks() && Travelled == 0.0
    {
      angle := 0.0;
      rpm := DefaultRpm;
      running := false;
      Travelled := 0.0;
      FmodOfInCycle(0.0);
    }

    /** The simulation update of one frame lasting `dt` seconds. While
        running, the angle moves by the frame's advance and 720 is taken off
        once if the sum reached 720; speed and run flag stay as they were.
        Short frames keep the angle equal to the travelled angle modulo 720. */
    method Tick(dt: real)
      modifies this
      ensures rpm == old(rpm) && running == old(running)
      ensures angle == TickedAngle(old(angle), old(rpm), dt, old(running))
      ensures Travelled == old(Travelled) + (if old(running) then FrameAdvance(old(rpm), dt) else 0.0)
      ensures old(Tracks()) && (!old(running) || 0.0 <= FrameAdvance(old(rpm), dt) < CycleDegrees)
              ==> Tracks()
    {
      if running {
        var degreesPerSecond := DegreesPerSecond(rpm);
        ghost var delta := FrameAdvance(rpm, dt);
        ghost var before := angle;
        ghost var tracked := Tracks();
        angle := angle + degreesPerSecond * dt;
        if angle >= 720.0 {
          angle := angle - 720.0;
        }
        assert angle == Step(before, delta);
        if tracked && 0.0 <= delta < CycleDegrees {
          FmodShift(Travelled, delta);
        }
        Travelled := Travelled + delta;
      }
    }

    /** The Space key: flip between running and paused. */
    method Toggle()
      modifies this
      ensures running == !old(running)
      ensures angle == old(angle) && rpm == old(rpm) && Travelled == old(Travelled)
      ensures old(Tracks()) ==> Tracks()
    {
      running := !running;
    }

    /** The R key: back to crank angle 0, paused, at the same speed. */
    method Reset()
      modifies this
      ensures angle == 0.0 && !running
      ensures rpm == old(rpm)
      ensures Travelled == 0.0 && Tracks()
    {
      angle := 0.0;
      running := false;
      Travelled := 0.0;
      FmodOfInCycle(0.0);
    }

    /** The keyboard handler of one frame: Space (if held) toggles, then R
        (if held) resets, so holding both leaves the engine reset and
        paused. */
    method ProcessInput(spaceHeld: bool, resetHeld: bool)
      modifies this
      ensures running == (if resetHeld then false else old(running) != spaceHeld)
      ensures angle == (if resetHeld then 0.0 else old(angle))
      ensures rpm == old(rpm)
      ensures Travelled == (if resetHeld then 0.0 else old(Travelled))
      ensures old(Tracks()) || resetHeld ==> Tracks()
    {
      if spaceHeld {
        Toggle();
      }
      if resetHeld {
        Reset();
      }
    }

    /** One pass of the main loop: input first, then the tick, so a frame
        in which R is held ends at angle 0 whatever its length. */
    method Frame(spaceHeld: bool, resetHeld: bool, dt: real)
      modifies this
      ensures rpm == old(rpm)
      ensures running == (if resetHeld then false else old(running) != spaceHeld)
      ensures angle == TickedAngle(if resetHeld then 0.0 else old(angle), old(rpm), dt, running)
      ensures resetHeld ==> angle == 0.0
      ensures Travelled == (if resetHeld then 0.0 else old(Travelled))
                           + (if running then FrameAdvance(old(rpm), dt) else 0.0)
      ensures (old(Tracks()) || resetHeld) && (!running || 0.0 <= FrameAdvance(old(rpm), dt) < CycleDegrees)
              ==> Tracks()
    {
      ProcessInput(spaceHeld, resetHeld);
      Tick(dt);
    }

    /** The stroke of every cylinder at the current crank angle, queried in
        cylinder order as the renderer does once per frame. While the angle
        is non-negative the four strokes are all different, so each stroke
        is under way in exactly one cylinder. */
    method CylinderStrokes() returns (strokes: seq<StrokePhase>)
      ensures |strokes| == NumCylinders
      ensures forall i :: 0 <= i < NumCylinders ==> strokes[i] == Stroke(angle, i)
      ensures 0.0 <= angle ==> forall i, j :: 0 <= i < j < NumCylinders ==> strokes[i] != strokes[j]
      ensures 0.0 <= angle ==> forall p: StrokePhase :: p in strokes
    {
      strokes := [];
      var i := 0;
      while i < NumCylinders
        invariant 0 <= i <= NumCylinders
        invariant |strokes| == i
        invariant forall k :: 0 <= k < i ==> strokes[k] == Stroke(angle, k)
      {
        strokes := strokes + [Stroke(angle, i)];
        i := i + 1;
      }
      if 0.0 <= angle {
        EveryStrokeOnce(angle, strokes);
      }
    }
  }
}
