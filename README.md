# Cover-flow motion controller and layout fields

This project models the core of a small openFrameworks cover-flow demo and
proves properties of that model:

- A row of `kSlideN = 15` slides is drawn around a continuous controller
  position `x`.
- The arrow keys move an integer selection `toX`, which is clamped to the row.
- Every frame, `ofApp::update` moves the controller state `(x, v)` toward
  `toX`. It runs ten equal Euler sub-steps of a clamped proportional
  controller:
  - a proportional term;
  - a near-target impulse boost whose sign follows the proportional term;
  - a clamp of the velocity to `[-vMax, vMax]`;
  - a rate limit that applies only while the controller speeds up.
- Three closed-form fields of a slide's offset `z = i - x` give each slide its
  lateral position, its rotation and its depth.

Modules:

- `MathLib` (mathlib.dfy) holds the abstract transcendental functions and
  small real helpers. `exp` and `erf` are function-valued parameters, and
  `sqrt(pi)` is a value. The facts the proofs use about them are
  hypotheses: `ExpLaws` (exp(0) = 1, exp > 0, exp <= 1 on non-positive
  arguments) and `ErfLaws` (erf is odd).
- `Selection` (selection.dfy) holds the arrow-key selection clamp as a
  function.
- `Motion` (motion.dfy) specifies one sub-step (`SubStep`) and one frame of
  ten sub-steps (`Advance`) as functions on values, with the lemmas about
  them.
- `Fields` (fields.dfy) holds the position, rotation and zoom fields and the
  placement of one slide.
- `CoverFlow` (app.dfy) holds `class App`: the application object with its
  tunables, its controller state and its selection, all as fields. Its
  methods are the following:
  - the constructor sets the initial values;
  - `Update` runs the ten-iteration loop that rewrites `x` and `v` in place;
  - `KeyPressed` rewrites `toX`;
  - `Layout` computes the placement of every slide.

  Each method is proved against the functions in `Motion`, `Selection` and
  `Fields`. The arithmetic of one sub-step runs in three value-level methods
  (`DesiredSpeed`, `RateLimited`, `SubStepVelocity`), in the order the
  controller uses. The class method writes their result back to the fields.

The model follows the code on these points, which are easy to misread:

- The impulse width is the constant 0.5 (src/ofApp.cpp:48), not the
  approach-width tunable. `_approachWide` is initialised but never read by the
  controller.
- The frame time is clamped to 1/30 s inside `update` (src/ofApp.cpp:28). It
  is not assumed to be clamped by the caller.
- The approach boost is negated only when the proportional term is strictly
  negative (src/ofApp.cpp:49). So when that term is zero, the boost keeps its
  positive sign. That happens when kP = 0 and the error is non-zero.
- The velocity bound holds after every sub-step, not only after a frame.
- The rotation field takes the negated branch at z = 0 (strict `0.0 < z`,
  src/ofApp.cpp:99). The value there is still 0 once exp(0) = 1.

## Model

| member | source | states |
|---|---|---|
| Selection.AfterKey | src/ofApp.cpp:204-214 | The selection after a key is always in [0, kSlideN-1]. From inside the row, RIGHT adds exactly 1 and LEFT subtracts exactly 1, and any other key keeps an in-range selection. At the ends, RIGHT or LEFT saturates at the bound. From an in-range selection one key press moves it by at most one. |
| Selection.KeyRoundTrip | src/ofApp.cpp:204-214 | RIGHT then LEFT, or LEFT then RIGHT, returns to the starting slide when the first key does not hit an end. |
| Motion.FrameDelta | src/ofApp.cpp:28 | The frame delta is min(frameTime, 1/30): at most 1/30 s, at most the frame time, equal to one of the two, and non-negative for a non-negative frame time. |
| Motion.ImpulseShape | src/ofApp.cpp:30-33 | The impulse (x/a)·exp(1 - x/a) is 0 at x = 0 for any exp. It is 1 at x = a when exp(0) = 1. It is non-negative for a > 0 and x >= 0 when exp satisfies ExpLaws. |
| Motion.ApproachVelocitySign | src/ofApp.cpp:48-51 | The boost is 0 on the target, for any exp. When exp satisfies ExpLaws and approach >= 0, it is non-negative when pv >= 0 and non-positive when pv < 0. |
| Motion.ClampSpeedRange | src/ofApp.cpp:56-57 | For vMax >= 0 the clamped velocity is in [-vMax, vMax]. It equals the input when the input is in range, and equals the bound the input exceeds otherwise. |
| Motion.LimitAccelerationShape | src/ofApp.cpp:60-66 | When not speeding up, the desired velocity is taken unchanged. When speeding up with aMax >= 0 and delta >= 0, the change is at most aMax·delta, the new velocity lies between the old and the desired one, and it is no faster than the desired one. It equals the desired one when that is within aMax·delta. |
| Motion.EulerStepBound | src/ofApp.cpp:68-69 | An Euler step of length delta >= 0 at a speed within vMax moves the position by at most vMax·delta. |
| Motion.DesiredBounded | src/ofApp.cpp:45-57 | For vMax >= 0 the clamped desired velocity is within [-vMax, vMax]. |
| Motion.SubStepSpeed | src/ofApp.cpp:56-68 | When vMax >= 0, aMax >= 0 and delta >= 0, the velocity after a sub-step is within [-vMax, vMax], whatever the incoming velocity. |
| Motion.SubStepDisplacement | src/ofApp.cpp:56-69 | When vMax >= 0, aMax >= 0 and delta >= 0, a sub-step moves the position by at most vMax·delta. |
| Motion.SubStepAcceleration | src/ofApp.cpp:60-68 | For aMax >= 0 and delta >= 0: while speeding up, the velocity changes by at most aMax·delta and lands between the old velocity and the clamped desired one. Otherwise it is set to the clamped desired velocity directly, so slowing down is never rate-limited. |
| Motion.SubStepAtRest | src/ofApp.cpp:42-69 | For vMax >= 0, resting on the target (x = toX, v = 0) is a fixed point of a sub-step, for any exp. |
| Motion.IterateDisplacement | src/ofApp.cpp:40-70 | If every step moves the position by at most k, then n steps move it by at most n·k. |
| Motion.IterateFixedPoint | src/ofApp.cpp:40-70 | A state that one step keeps is kept by any number of steps. |
| Motion.SubDeltaSplit | src/ofApp.cpp:38-39 | The sub-step length d/10 is non-negative, and ten of them make up the clamped frame time. |
| Motion.FrameTravel | src/ofApp.cpp:38-40 | A step bounded by vMax·(d/10) moves the position by at most vMax·d over the ten sub-steps of a frame. |
| Motion.StepTravel | src/ofApp.cpp:40-69 | When vMax >= 0, aMax >= 0 and delta >= 0, every sub-step, from any state, moves the position by at most vMax·delta. |
| Motion.AdvanceSpeedBounded | src/ofApp.cpp:28-70 | When vMax >= 0, aMax >= 0 and frameTime >= 0, the velocity after a frame is within [-vMax, vMax], whatever the incoming velocity. |
| Motion.AdvanceDisplacement | src/ofApp.cpp:28-70 | When vMax >= 0, aMax >= 0 and frameTime >= 0, a frame moves the position by at most vMax·min(frameTime, 1/30). |
| Motion.AdvanceAtRest | src/ofApp.cpp:27-72 | For vMax >= 0, resting on the target is a fixed point of a whole frame. |
| Motion.AdvanceGuarantees | src/ofApp.cpp:27-72 | The speed bound, the displacement bound and the rest fixed point of a frame, each under its own hypotheses. |
| Fields.ZoomFieldShape | src/ofApp.cpp:103-105 | zoom_field is even for any exp. When exp satisfies ExpLaws it equals 1 at z = 0 and lies in (0, 1]. |
| Fields.RotationFieldShape | src/ofApp.cpp:97-100 | rotation_field is odd for z ≠ 0 for any exp. When exp satisfies ExpLaws it is 0 at z = 0 and odd everywhere, and it lies in (-1, 0] for z > 0 and in [0, 1) for z < 0. |
| Fields.PositionFieldShape | src/ofApp.cpp:92-94 | position_field is 0 at z = 0 and odd in z when erf is odd. |
| Fields.PlaceCentered | src/ofApp.cpp:120-129 | With non-zero widths and exp and erf satisfying their laws, the slide under the controller is placed at lateral offset 0, unrotated, at depth zoom. |
| Fields.PlaceMirrored | src/ofApp.cpp:120-129 | With non-zero widths and exp and erf satisfying their laws, slides at mirrored offsets from the controller get opposite lateral offsets, opposite angles and equal depths. |
| CoverFlow.DesiredSpeed | src/ofApp.cpp:42-57 | The proportional term plus the signed boost, clamped from above and then from below, is the desired velocity of the sub-step specification. |
| CoverFlow.RateLimited | src/ofApp.cpp:60-66 | The in-place acceleration limit computes the specified rate-limited velocity. |
| CoverFlow.SubStepVelocity | src/ofApp.cpp:42-66 | The velocity computed by the controller's lines makes the specified sub-step its Euler step. |
| CoverFlow.App.constructor | src/ofApp.h:31-51 | The initial state is at rest on slide 0 with the selection in range. The tunables are kP = 5, vMax = 15, aMax = 40 and approach = 1, so the clamp hypotheses hold. The field widths are non-zero, and the approach width is 0.5. |
| CoverFlow.App.SubStepInPlace | src/ofApp.cpp:41-69 | One loop iteration rewrites (x, v) to the specified sub-step of the old state. |
| CoverFlow.App.Update | src/ofApp.cpp:27-72 | The ten in-place sub-steps leave (x, v) equal to the specified frame `Advance`. Afterwards the velocity is within vMax. Resting on the target leaves x and v unchanged. |
| CoverFlow.App.KeyPressed | src/ofApp.cpp:204-214 | The selection becomes AfterKey of the old one, so it stays in [0, kSlideN-1]. |
| CoverFlow.App.Layout | src/ofApp.cpp:116-129 | One placement for each of the 15 slides, in order. Slide i gets the position, rotation and zoom fields of its offset i·1.0 - x, scaled as in the draw loop. |

## Left out

- Rendering is not modelled, as it does not affect the state. This covers the camera setup, the grid and axis, the matrix push/pop, the translate and rotate calls, and the rectangles.
- `setup`, the ImGui panel, `imgui_draw_tree_node`, the empty event handlers, the unused `near_more` lambda and the commented-out `zf` are not modelled.
- `exp`, `erf`, `sqrt` and `pi` are abstract. `exp` and `erf` are parameters with only the laws above, and `sqrt(pi)` is a value, so nothing depends on their numerics. As a result, convergence and the absence of overshoot are not proved, since both depend on the actual `exp`.
- Floating point is not modelled. The `float` tunables, their casts to `double` and all rounding are exact reals here.
- `ofGetLastFrameTime()` is a clock. It is the `frameTime` parameter of `Update`, required to be non-negative like the clock.
- The arrow-key codes 356 and 358 are openFrameworks' `OF_KEY_LEFT` and `OF_KEY_RIGHT`. They come from ofConstants.h, which is not part of this model.
- `kSlideN` is a mutable static in the header. No code changes it, so it is a constant here.
- `_to_x` is an unbounded integer. In the source, `+= 1` never overflows either, because every path keeps `_to_x` in [0, 14].
- The GUI sliders can set a field width to 0, which would divide by zero. `Layout` and `Place` instead require the three widths to be non-zero, and the initial values satisfy that.
- CoverFlow.App.Update: the per-frame displacement bound |Δx| <= vMax·min(frameTime, 1/30) is not restated on the fields. It is proved about `Advance` in `Motion.AdvanceDisplacement`, and Update's first ensures clause equates the new state with `Advance`.
- CoverFlow.App.SubStepInPlace: the arithmetic of the sub-step runs on a value snapshot of the fields in `DesiredSpeed`, `RateLimited` and `SubStepVelocity`. The class method then writes `v` and `x` back (`v := vel; x := x + v * delta`). The order of the source's statements is kept.
