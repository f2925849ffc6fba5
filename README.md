# Four-stroke inline-4 engine simulation: phase and crank-angle model

The engine simulation animates a four-cylinder, four-stroke engine from one
number, the crank angle in degrees. One four-stroke cycle is 720 degrees,
which is two crankshaft revolutions. Its logic has three parts, and this
project models them in Dafny and proves properties about them.

- **Stroke classification** (`get_stroke_name`). Each cylinder has a fixed
  phase offset: 0, 540, 180 and 360 degrees for indices 0 to 3, and 0 for any
  other index. The lookup adds the offset to the crank angle and reduces the
  sum with C's `fmod` by 720, which truncates toward zero. It then reports
  INTAKE for [0, 180), COMPRESSION for [180, 360), POWER/COMBUSTION for
  [360, 540), and EXHAUST for everything else. This is modelled by the
  functions `Strokes.PhaseOffset`, `Cycle.Fmod720`, `Strokes.Classify` and
  `Strokes.Stroke`, over the datatype `StrokePhase`.
- **The simulation tick**. While the engine is running, each frame moves the
  crank angle on by `rpm * 6 * dt` degrees. If the result has reached 720, it
  takes 720 off once. This is `Engine.EngineState.Tick`, specified by the
  function `Engine.TickedAngle` and the wrap `Cycle.Step`.
- **The controls**. Space flips run/pause. R puts the angle back to 0 and
  pauses. Both come from `Engine.EngineState.ProcessInput`, which is built
  from `Toggle` and `Reset`. A pass of the main loop runs input first and
  then the tick; this is `Frame`.

The class `Engine.EngineState` holds the program's global state: `angle`,
`rpm` and `running`. It also has a ghost `Travelled`, the total angle turned
since start or the last reset. `Tracks()` says that `angle` is `Travelled`
reduced by `fmod` 720. Every operation keeps `Tracks()` as long as each frame
advances by at least 0 and less than one full cycle.

Three modules follow the three parts: `Cycle` (`cycle.dfy`), `Strokes`
(`strokes.dfy`) and `Engine` (`engine.dfy`).

The model follows the code as written, including these behaviours, which
an idealised description of the engine would state differently:

- The code has no step that adds 720 to a negative `fmod` result. A negative
  effective angle is therefore classified as EXHAUST, whatever its size.
  `Strokes.NoForwardWrap` shows an angle where this gives a different stroke
  than wrapping forward would. The engine never produces a negative angle:
  it starts at 0 and its advance is never negative.
- The tick subtracts 720 at most once. At 600 rpm a 0.1 s frame advances
  360 degrees, so from 0 the angle becomes 360 (cylinder 0 in its power
  stroke), not 0 (`Engine.TickHalfCycle`).
- The speed is fixed at 1000 rpm. The source has no code that changes it;
  the speed slider exists only as a comment (src/engine_sim.cpp:329).

The offset table's comment names firing order 1-3-4-2. Each offset is added
to the crank angle, so a larger offset puts that cylinder further ahead in
its cycle. Power strokes therefore start in the sequence 4-3-1-2, which is
1-2-4-3 read cyclically: the same order played backwards
(`Strokes.PowerStrokeOrder`). The model keeps the table as written. It still
has one cylinder in every stroke at any moment
(`Strokes.OneCylinderPerStroke`).

## Model

| member | source | states |
|---|---|---|
| `Cycle.Trunc` | src/engine_sim.cpp:178 | rounding toward zero, as `fmod` uses it: for a non-negative argument the result is the largest integer not above it, for a negative argument the smallest integer not below it |
| `Cycle.Fmod720` | src/engine_sim.cpp:178 | C `fmod` by 720: the result keeps the sign of its argument and is less than 720 in magnitude (in [0, 720) for a non-negative argument, in (-720, 0] for a negative one), and differs from the argument by a whole number of cycles |
| `Cycle.FmodUnique` | src/engine_sim.cpp:178 | those three properties determine the `fmod` result uniquely |
| `Cycle.FmodIdempotent` | src/engine_sim.cpp:178 | applying `fmod` by 720 to its own result changes nothing, for every real argument, negative ones included |
| `Cycle.FmodPeriodic` | src/engine_sim.cpp:178 | for a non-negative angle, adding 720 does not change the `fmod` result |
| `Cycle.Step` | src/engine_sim.cpp:93-98 | the add-then-subtract-once wrap gives the sum or the sum less 720, the latter exactly when the sum has reached 720; its result is below 720 exactly when the sum is below 1440; it is never negative for a non-negative angle and step |
| `Cycle.FmodShift` | src/engine_sim.cpp:93-98 | for a non-negative x and a step in [0, 720), `fmod(x + step)` equals the tick's single-subtraction wrap applied to `fmod(x)` |
| `Cycle.StepIsFmod` | src/engine_sim.cpp:93-98 | for an angle in [0, 720) and a step in [0, 720), the tick's add-then-subtract-720-once equals `fmod` of the sum, and the result stays in [0, 720) |
| `Cycle.StepAdditive` | src/engine_sim.cpp:93-98 | for a start angle in [0, 720) and non-negative steps, two wrapped steps land where one wrapped step covering both lands, as long as the two together are less than a cycle |
| `Cycle.StepCanLeaveCycle` | src/engine_sim.cpp:95-98 | the single subtraction is not a full wrap: a step of 1440 from 0 lands on 720, outside [0, 720) |
| `Strokes.PhaseOffset` | src/engine_sim.cpp:173-176 | every offset lies in [0, 720), and the offset is 0 exactly for indices outside 1..3 |
| `Strokes.OffsetsAlongCommentedOrder` | src/engine_sim.cpp:166-176 | taking cylinders in the order 1-3-4-2 (indices 0, 2, 3, 1), the offsets are 0, 180, 360 and 540 |
| `Strokes.Classify` | src/engine_sim.cpp:181-189 | INTAKE exactly on [0, 180), COMPRESSION exactly on [180, 360), POWER exactly on [360, 540), EXHAUST exactly on negatives and on [540, ∞) |
| `Strokes.EffectiveAngle` | src/engine_sim.cpp:178 | crank angle plus the cylinder's offset, reduced by `fmod` 720: in [0, 720) for a non-negative crank angle, and a whole number of cycles away from the unreduced sum |
| `Strokes.Stroke` | src/engine_sim.cpp:165-190 | for a crank angle in [0, 720), the stroke is the range of crank angle plus offset wrapped by one subtraction of 720; a crank angle plus offset in (-720, 0) gives EXHAUST |
| `Strokes.Label` | src/engine_sim.cpp:182-188 | the returned name is "INTAKE", "COMPRESSION", "POWER/COMBUSTION" or "EXHAUST" exactly when the stroke is intake, compression, power or exhaust |
| `Strokes.ClassifyBoundaries` | src/engine_sim.cpp:181-189 | 180, 360 and 540 go to the later stroke; 179.999, 359.999, 539.999 and 719.999 stay in the earlier one |
| `Strokes.LabelInjective` | src/engine_sim.cpp:182-188 | the four stroke names are pairwise different |
| `Strokes.StrokeIsShiftedReference` | src/engine_sim.cpp:172-178 | a cylinder's stroke at crank angle c is cylinder 0's stroke at c plus that cylinder's offset |
| `Strokes.ReferenceCylinderStroke` | src/engine_sim.cpp:173-189 | for a crank angle in [0, 720), cylinder 0 reports the range that the crank angle itself lies in |
| `Strokes.StrokeAdvances` | src/engine_sim.cpp:178-189 | for any non-negative crank angle, 180 more degrees moves every cylinder to the next stroke, in the cycle intake, compression, power, exhaust, intake |
| `Strokes.StrokePeriodic` | src/engine_sim.cpp:178-189 | for any non-negative crank angle, every cylinder's stroke repeats after 720 degrees |
| `Strokes.OneCylinderPerStroke` | src/engine_sim.cpp:166-189 | at any non-negative crank angle the four cylinders are in four pairwise-different strokes, and together they cover all four strokes |
| `Strokes.EveryStrokeOnce` | src/engine_sim.cpp:166-189 | at a non-negative crank angle, the four cylinders' strokes, listed in cylinder order, are pairwise different and include every stroke |
| `Strokes.StrokesAtCrankZero` | src/engine_sim.cpp:166-189 | at crank angle 0, cylinders 0, 1, 2 and 3 report intake, exhaust, compression and power |
| `Strokes.PowerStrokeOrder` | src/engine_sim.cpp:161-176 | at crank angles 0, 180, 360 and 540, the cylinder with index 3, 2, 0 and 1 respectively (cylinders 4-3-1-2) is at effective angle 360, the start of its power stroke |
| `Strokes.NegativeEffectiveAngleIsExhaust` | src/engine_sim.cpp:178-189 | if crank angle plus offset lies in (-720, 0), `fmod` leaves it unchanged and the stroke is EXHAUST |
| `Strokes.NoForwardWrap` | src/engine_sim.cpp:178-189 | a crank angle of -500 gives EXHAUST, while the same angle one cycle later (220) gives COMPRESSION |
| `Engine.DegreesPerSecond` | src/engine_sim.cpp:90 | the speed in degrees per second is the speed in revolutions per minute times 360 degrees over 60 seconds; it is non-negative for a non-negative speed |
| `Engine.FrameAdvance` | src/engine_sim.cpp:90-93 | the crank degrees of one frame are the revolutions turned in `dt` seconds times 360; non-negative for non-negative speed and time, and 0 when either is 0 |
| `Engine.TickedAngle` | src/engine_sim.cpp:88-98 | while paused the angle is unchanged; while running it is the angle plus rpm·6·dt, or that sum less 720, the latter exactly when the sum has reached 720; for a non-negative angle and advance, the result is in [0, 720) exactly when the sum is below 1440 |
| `Engine.TickIdle` | src/engine_sim.cpp:88-93 | for an angle below 720: while paused, at 0 rpm, or with dt = 0, a tick leaves the angle unchanged |
| `Engine.TickStaysInCycle` | src/engine_sim.cpp:93-98 | if the angle is in [0, 720) and the frame's advance rpm·6·dt is in [0, 720), the angle after the tick is in [0, 720) and equals `fmod` of the unwrapped sum |
| `Engine.TickAdditive` | src/engine_sim.cpp:90-98 | at a constant speed, for a start angle in [0, 720) and non-negative advances, ticks of dt1 and then dt2 give the same angle as one tick of dt1 + dt2, as long as the total advance is less than a cycle |
| `Engine.TickHalfCycle` | src/engine_sim.cpp:90-98 | at 600 rpm a 0.1 s tick from 0 gives 360 (no wrap), and cylinder 0 is then in its power stroke |
| `Engine.LongFrameLeavesCycle` | src/engine_sim.cpp:95-98 | at the default 1000 rpm a 0.24 s frame from 0 leaves the angle at 720, outside the cycle |
| `Engine.EngineState.constructor` | src/engine_sim.cpp:20-22 | the initial state is angle 0, 1000 rpm and paused; it tracks the travelled angle, which is 0 |
| `Engine.EngineState.Tick` | src/engine_sim.cpp:88-99 | while running, the new angle is old angle + rpm·6·dt, minus 720 if that sum reached 720; while paused, the angle is unchanged; rpm and the run flag never change; the angle keeps tracking the travelled angle modulo 720 when the advance is in [0, 720) |
| `Engine.EngineState.Toggle` | src/engine_sim.cpp:126-127 | the run flag flips; the angle, rpm and travelled angle are unchanged |
| `Engine.EngineState.Reset` | src/engine_sim.cpp:128-131 | angle 0, paused, rpm unchanged, travelled angle back to 0 |
| `Engine.EngineState.ProcessInput` | src/engine_sim.cpp:121-132 | Space toggles, then R resets: with R held the result is angle 0 and paused whatever Space did; otherwise the run flag flips exactly when Space is held; rpm is unchanged |
| `Engine.EngineState.Frame` | src/engine_sim.cpp:78-99 | one loop pass (input, then tick): the new angle is the tick applied to the post-input state, a frame with R held ends at angle 0, the travelled angle is reset by R and then grows by the advance while running, and `Tracks()` holds after the frame if it held before or R was held, as long as the advance is in [0, 720) |
| `Engine.EngineState.CylinderStrokes` | src/engine_sim.cpp:298-308 | yields the four cylinders' strokes in cylinder order; for a non-negative angle they are pairwise different and include every stroke |

## Left out

- `get_piston_position` (src/engine_sim.cpp:140-156) and the connecting-rod angle (src/engine_sim.cpp:207-216) are not modelled. They use `sin`, `cos`, `sqrt`, `asin` and `pow` on floats, which cannot be modelled faithfully with exact reals.
- Drawing code is not modelled, because it only issues graphics calls and picks colours: `draw_piston_assembly` (src/engine_sim.cpp:195-277), `render_scene` (src/engine_sim.cpp:282-314) and `draw_ui_controls` (src/engine_sim.cpp:320-331). The one exception is its per-cylinder stroke query, modelled by `CylinderStrokes`. Every piston is drawn at the unshifted crank angle (src/engine_sim.cpp:202); that is also not modelled, because it only affects rendering.
- Window and context setup, buffer swapping, event polling and the framebuffer callback (src/engine_sim.cpp:46-119) are not modelled; they are I/O plumbing.
- Frame timing through `glfwGetTime` (src/engine_sim.cpp:80-82) is an external clock. The frame length `dt` is a parameter of `Tick` and `Frame`.
- Keyboard polling (src/engine_sim.cpp:122-131) is not modelled. Keys reach the model as two booleans saying whether Space and R are held during the frame. The Escape key only closes the window and is not modelled.
- `float` rounding is not modelled. Angles, speeds and times are exact reals; the logic uses only additions, two multiplications, C's truncating `fmod` and comparisons.
- `show_labels` and the geometry constants are not modelled, because only drawing reads them.

