# Game-core model: collision test, physics step, scaling transform, keyboard lookup

A Dafny model of the sequential core of a small SDL-based 2D platformer engine:

- **Collision** (`collision.dfy`): the axis-aligned bounding-box test
  `aabbIntersect`, strict on both axes, over rectangles `{x, y, w, h}`
  (`Geometry.Rect`, the engine's `SDL_FRect`).
- **Physics** (`physics.dfy`): the `Body` record (`vx`, `vy`,
  `affectedByGravity`) and the integrator `Physics::step`, a semi-implicit Euler
  step that converts a millisecond delta to seconds, adds `gravity * dt` to `vy`
  when the body is affected, then moves the position by the updated velocity.
  The process-wide gravity constant (initially 1200) is a field of a `Physics`
  object, set by `SetGravity` and read by `Gravity`. `Step` is specified by the
  pure function `Advance` over a `Kinematics` value (position plus body fields);
  `Simulate` iterates it with a constant delta, as a fixed-rate frame loop does,
  and the lemmas give its closed forms.
- **Scaling** (`scaling.dfy`): the process-wide `ScaleMode` (initially `Pixel`)
  as a field of a `Scaling` object, and `Compute`, which returns the logical
  rectangle unchanged in `Pixel` mode and multiplies only its width and height by
  the window size in `Proportional` mode.
- **Input** (`input.dfy`): the keyboard snapshot (`None` standing for the null
  pointer, with length 0, until the first `Poll`) and `IsKeyPressed`, a
  bounds-guarded read that is false without a snapshot or past its length.

The source's static members become fields of Dafny classes, so each setter's
effect is stated with `modifies`/`ensures`; the `float&` position parameters of
`step` become an input value and an output value each; the `Body` is a class
updated in place. C++ `float` is modelled as `real`.

Two points of the code worth stating outright:

- `Proportional` mode treats `w` and `h` as fractions of the window ("scales w,h
  as percentages of the window size", include/scaling.h:13): they are multiplied
  by the window size. `x` and `y` stay in pixels; scaling them too is mentioned
  in src/scaling.cpp:17-19 as an option the code does not take. With a
  `{0, 0, 100, 100}` rectangle and a 960 x 540 window the result is
  `{0, 0, 96000, 54000}`.
- `step` takes its delta in milliseconds and converts it to seconds itself
  (src/physics.cpp:9).

## Model

| member | source | states |
|---|---|---|
| Collision.Intersects | include/collision.h:4-7 | `aabbIntersect`: strict overlap on both axes; an overlap implies a positive combined extent `a.w + b.w > 0` and `a.h + b.h > 0` |
| Collision.IntersectsSymmetric | include/collision.h:4-7 | swapping the two rectangles never changes the answer |
| Collision.TouchingEdgesDoNotIntersect | include/collision.h:5-6 | rectangles sharing a vertical edge (`a.x + a.w == b.x` or the mirror case) do not intersect, whatever their y values |
| Collision.SeparatedDoNotIntersect | include/collision.h:5-6 | rectangles separated (or only touching) on either axis never intersect |
| Collision.IntersectingAreNotSeparated | include/collision.h:5-6 | conversely, intersecting rectangles overlap strictly on both axes |
| Collision.TranslationInvariant | include/collision.h:5-6 | shifting both rectangles by the same `(dx, dy)` leaves the answer unchanged |
| Collision.SelfIntersectsIffPositiveSize | include/collision.h:5-6 | a rectangle intersects itself exactly when `w > 0` and `h > 0` |
| Collision.DegenerateWidthsNeverIntersect | include/collision.h:5-6 | two rectangles of non-positive width never intersect |
| Collision.IntersectsIffCommonInteriorPoint | include/collision.h:4-7 | for rectangles of positive size, the test holds exactly when some point lies strictly inside both |
| Physics.Body.constructor | include/physics.h:4-7 | a new body is at rest and not affected by gravity |
| Physics.Physics.constructor | src/physics.cpp:3 | the gravity constant starts at 1200 |
| Physics.Physics.SetGravity | src/physics.cpp:5 | afterwards the gravity constant is `g` |
| Physics.Physics.Gravity | src/physics.cpp:6 | returns the current gravity constant and changes nothing |
| Physics.Seconds | src/physics.cpp:9 | the millisecond delta becomes seconds: a thousandth of it (the result times 1000 is the delta), non-negative for a non-negative delta |
| Physics.Advance | src/physics.cpp:9-14 | one step: `vx` and the flag are unchanged, `vy` is unchanged without gravity, and both coordinates move by the step's final velocity times `dt` (semi-implicit) |
| Physics.Physics.Step | src/physics.cpp:8-15 | the new position and body are one `Advance` of the old ones under the current gravity; `vx`, the flag and the gravity constant are untouched |
| Physics.StepWithoutGravity | src/physics.cpp:9-14 | an unaffected body keeps its velocity and moves by `v * dtMs * 0.001` on each axis |
| Physics.StepWithGravity | src/physics.cpp:10-14 | an affected body gains `g * dt` of vertical velocity and moves vertically by the updated velocity, a full `g * dt * dt` term |
| Physics.StepVelocityNeverDecreases | src/physics.cpp:11 | with `g >= 0` and `dtMs >= 0`, `vy` never decreases across a step |
| Physics.ZeroDeltaIsIdentity | src/physics.cpp:9-14 | a zero delta leaves position and body unchanged |
| Physics.SimulateVelocity | src/physics.cpp:10-12 | after `n` steps `vx` and the flag are unchanged and `vy` has gained `n * g * dt` exactly when the body is affected |
| Physics.SimulateHorizontal | src/physics.cpp:13 | after `n` steps `x` has moved by `n * vx * dt` |
| Physics.SimulateVertical | src/physics.cpp:10-14 | after `n` steps `y` has moved by `n * vy * dt` plus, with gravity, `g * dt * dt * (1 + ... + n)`, where `Triangle` guarantees `1 + ... + n == n * (n + 1) / 2`: the semi-implicit sum |
| Physics.SimulateVelocityMonotone | src/physics.cpp:11 | with `g >= 0` and `dtMs >= 0`, `vy` is non-decreasing tick over tick |
| Physics.SetThenReadGravity | src/physics.cpp:5-6 | `gravity()` after `setGravity(g)` returns `g` |
| Scaling.Scaling.constructor | src/scaling.cpp:3 | the mode starts as `Pixel` |
| Scaling.Scaling.SetMode | src/scaling.cpp:5 | afterwards the mode is `m` |
| Scaling.Scaling.Mode | src/scaling.cpp:6 | returns the current mode and changes nothing |
| Scaling.Scaling.Compute | src/scaling.cpp:8-21 | `Pixel`: the logical rectangle unchanged; `Proportional`: same `x`, `y`, with `w * ww` and `h * wh`; reads the mode and never changes it |
| Scaling.PixelIgnoresWindow | src/scaling.cpp:9 | in `Pixel` mode the result is the logical rectangle for every window size |
| Scaling.ZeroWindowCollapses | src/scaling.cpp:11-16 | in `Proportional` mode a zero window width (height) gives a zero output width (height) |
| Scaling.ProportionalFractions | src/scaling.cpp:14-16 | in `Proportional` mode a fraction of 1 spans the whole window dimension, and non-negative fractions of a non-negative window stay non-negative |
| Scaling.ComputeInjective | src/scaling.cpp:8-21 | over a window of non-zero size, two logical rectangles with the same result are equal, in either mode |
| Scaling.PixelPreservesOverlap | src/scaling.cpp:9 | in `Pixel` mode destination rectangles overlap exactly when the logical ones do |
| Scaling.SetThenReadMode | src/scaling.cpp:5-6 | `mode()` after `setMode(m)` returns `m` |
| Input.Input.constructor | src/input.cpp:3-4 | no snapshot and length 0 before any poll |
| Input.Input.Poll | src/input.cpp:6-8 | the snapshot and its length are replaced together by the new key array and its length |
| Input.Input.IsKeyPressed | src/input.cpp:10-12 | false without a snapshot or for `sc >= len` (never indexing past it); otherwise exactly `state[sc] != 0`; the same as membership in the set of pressed scancodes; reads the snapshot and never changes it |
| Input.NothingPressedBeforePoll | src/input.cpp:3-11 | with the initial null snapshot every scancode reads as not pressed |
| Input.LookupAfterPoll | src/input.cpp:6-11 | after a poll the pressed scancodes are exactly those whose byte is non-zero, and every lookup past the new length is false |

## Left out

- src/main.cpp is not part of this model: window and renderer creation, the
  event loop, texture handling and drawing are calls into SDL, and the animation
  advance is unimplemented there.
- include/entity.h and src/entity.cpp are not part of this model: the header and
  the implementation declare different members, and what remains is a position
  setter and an SDL draw call.
- `SDL_GetWindowSize` (src/scaling.cpp:12) and `SDL_GetKeyboardState`
  (src/input.cpp:7) are foreign calls; the window size is the `(ww, wh)`
  parameter of `Compute` and the key array is the parameter of `Poll`.
- Input.Input.Poll: the model stores the key array as a value frozen at the poll.
  SDL's array is owned by the library and may change as events are pumped, so
  aliasing between polls is not modelled; `s_len` is an `int`, and a length past
  its range is not modelled.
- Floating point: every `float` is a `real`, so rounding (for instance of
  `0.001f` and of the products in `step` and `compute`) is not modelled, and the
  closed forms of `Simulate` are exact only in this idealisation. NaN and the
  infinities cannot be represented either: with a NaN coordinate every comparison
  in `aabbIntersect` is false, so in float `aabbIntersect(r, r)` is false for a
  NaN `r.x` even when `w, h > 0`, which `SelfIntersectsIffPositiveSize` does not
  capture.
- Process-wide statics: each static member is a field of one object, so nothing
  forbids two `Physics`, `Scaling` or `Input` objects, where the source has one of
  each.
