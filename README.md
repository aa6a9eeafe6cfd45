# Pineapple timer and 2D camera, modelled in Dafny

This project models the two pieces of the Pineapple application framework
that have logic of their own:

- **`Timer`** (`Pineapple/Components/Timer.cs`) is a frame-driven countdown. It
  adds each frame's `delta` to `TimeLeft`. Despite its name, `TimeLeft` counts
  elapsed time upwards. When the total reaches `WaitTime`, the timer resets
  `TimeLeft` to 0 and raises `OnTimeout`. A oneshot timer then pauses itself. A
  new timer starts paused. `Start` and `Stop` toggle `Paused`.
- **`Camera2D`** (`Pineapple/Components/Camera2D.cs`) holds a position, a
  rotation in degrees and a zoom factor. From these and the viewport size it
  derives three values: the screen `Origin` (the viewport centre), the
  world-space `BoundingRectangle`, and the `ViewMatrix`. The view matrix is a
  five-step chain of post-concatenated affine transforms.

Files:

- `timer.dfy`, module `TimerModel`. `Timer` is a class with the source's
  mutable fields: `waitTime`, `oneshot`, `timeLeft`, `paused`, plus a counter
  `timeouts` that stands for the `OnTimeout` event. The pure function
  `Step` describes one `Update` call on a `TimerState` value. `Run` folds
  `Step` over a sequence of deltas, and the lemmas about several calls are
  stated on `Run`. `Timer.Update` is proved to be exactly `Step` on the
  object's fields.
- `matrix.dfy`, module `Matrix`. This is the affine part of a 2D transform
  matrix: points, translation, scale and rotation matrices, and the matrix
  product. `PostConcat(a, b)` is the product `b * a`, so it applies `a`
  first and then `b`.
- `camera.dfy`, module `Camera`. `Camera2D` is a value. `Origin`,
  `BoundingRectangle` and `ViewMatrix` are functions of the camera and of an
  explicit viewport size.

Modelling choices:

- `float` is modelled as `real`, so there is no rounding, infinity or NaN.
- The viewport size, which the source reads from the global `Window.Size`, is
  a parameter.
- The camera's rotation reaches the view matrix as a `Rotation(cos, sin)`
  pair. The caller supplies this pair as the cosine and sine of
  `rotation` degrees. `NoRotation` is `(1, 0)`, the pair for 0 degrees.
- The camera's public fields can be assigned in the source. Here an
  assignment is a datatype update such as `cam.(zoom := z)`.
- A rotation matrix sends `(x, y)` to `(c x - s y, s x + c y)`. These are the
  coefficients a rotation matrix has in the row-major layout
  `scaleX skewX transX / skewY scaleY transY`.
- `OnTimeout` is modelled by what it observably does: it fires or does not.
  A firing increments `timeouts`, and `Update` returns `fired`. The source
  skips the call when no handler is subscribed. That case is the same firing
  with nobody listening.
- The source does not validate `WaitTime` in the constructor, so the model
  accepts any wait time. The bound `0 <= TimeLeft < WaitTime` is proved
  under `WaitTime > 0` and non-negative deltas.
- `BoundingRectangle` divides by the zoom, so it requires `zoom != 0`. The
  view matrix has no division and needs no guard.
- A camera at the viewport centre with zoom `z` sees a box whose corner is
  `Origin * (1 - 1/z)`. That corner is `(0, 0)` only at zoom 1. For example, a
  camera at `(400, 300)` with zoom 2 over an 800 x 600 viewport sees
  `(200, 150, 400, 300)`. `CentredUnitCameraSeesViewport` and
  `ZoomedViewportScenario` state this.

## Model

| member | source | states |
|---|---|---|
| `TimerModel.NewState` | Pineapple/Components/Timer.cs:18-34 | a new timer has the given wait time and mode, `TimeLeft` 0 and `Paused` true |
| `TimerModel.Timer.constructor` | Pineapple/Components/Timer.cs:30-34 | the object's fields are those of `NewState`, no timeout has fired yet, and the timer is within its bound when the wait time is positive |
| `TimerModel.Timer.Start` | Pineapple/Components/Timer.cs:39-42 | `Paused` becomes false and nothing else changes (so a second call changes nothing more) |
| `TimerModel.Timer.Stop` | Pineapple/Components/Timer.cs:47-50 | `Paused` becomes true and nothing else changes, in particular `TimeLeft` is not reset |
| `TimerModel.Step` | Pineapple/Components/Timer.cs:56-77 | one update keeps `WaitTime` and `Oneshot`; it fires exactly when the timer is running and `TimeLeft + delta >= WaitTime`; a paused timer is unchanged; below the threshold `TimeLeft` grows by `delta` and the timer keeps running; on firing `TimeLeft` is 0 and the timer is paused exactly when it is oneshot |
| `TimerModel.Timer.Update` | Pineapple/Components/Timer.cs:56-77 | the new fields are exactly `Step` of the old ones; `fired` is whether `OnTimeout` was raised, and the counter grows by at most one; `WaitTime` and `Oneshot` are untouched; the bound `0 <= TimeLeft < WaitTime` is preserved for non-negative deltas |
| `TimerModel.StepKeepsBound` | Pineapple/Components/Timer.cs:60-65 | one update with a non-negative delta keeps `0 <= TimeLeft < WaitTime` |
| `TimerModel.Run` | Pineapple/Components/Timer.cs:56-77 | a sequence of `n` updates fires at most `n` times, one per call at most, and never changes the configuration |
| `TimerModel.RunSnoc` | Pineapple/Components/Timer.cs:56-77 | running a sequence and then one more update is the same as stepping after the sequence |
| `TimerModel.PausedRunIsNoop` | Pineapple/Components/Timer.cs:58 | any number of updates on a paused timer fire nothing and leave every field unchanged |
| `TimerModel.RunKeepsBound` | Pineapple/Components/Timer.cs:60-65 | with a positive wait time and non-negative deltas, `0 <= TimeLeft < WaitTime` holds after every sequence of updates |
| `TimerModel.RepeatingFiresEveryCall` | Pineapple/Components/Timer.cs:60-74 | a repeating timer fed at least `WaitTime` per call fires on every call, even for deltas many times the wait time, ends with `TimeLeft` 0 and stays running |
| `TimerModel.OneshotFiresAtMostOnce` | Pineapple/Components/Timer.cs:71-74 | a oneshot timer, left alone, fires at most once over any sequence of updates, and is paused once it has fired |
| `TimerModel.AccumulatesBelowThreshold` | Pineapple/Components/Timer.cs:60-62 | while the running total stays below `WaitTime`, updates with non-negative deltas fire nothing and `TimeLeft` grows by their sum |
| `TimerModel.FiresOnceWhenThresholdFirstReached` | Pineapple/Components/Timer.cs:60-74 | when the last of a sequence of non-negative deltas first brings the total to `WaitTime`, the timer fires exactly once, resets to 0, and is paused exactly when it is oneshot |
| `TimerModel.SumNonNegative` | Pineapple/Components/Timer.cs:60 | a sum of non-negative deltas is non-negative |
| `Camera.NewCamera` | Pineapple/Components/Camera2D.cs:69-74 | the constructor stores `position`, `rotation` and `zoom` unchanged |
| `Camera.Origin` | Pineapple/Components/Camera2D.cs:27 | the origin is half the viewport size: twice the origin is the viewport size |
| `Camera.BoundingRectangle` | Pineapple/Components/Camera2D.cs:43-48 | for a non-zero zoom, the rectangle's width and height times the zoom are the viewport size, and the rectangle is centred on the camera position |
| `Camera.BoundingRectangleIgnoresRotation` | Pineapple/Components/Camera2D.cs:43-48 | the bounding rectangle does not depend on the rotation |
| `Camera.CentredUnitCameraSeesViewport` | Pineapple/Components/Camera2D.cs:27-48 | a camera at the origin with zoom 1 sees the rectangle `(0, 0, width, height)` |
| `Camera.ZoomedViewportScenario` | Pineapple/Components/Camera2D.cs:27-48 | over an 800 x 600 viewport, a camera at `(400, 300)` with zoom 2 has origin `(400, 300)` and sees `(200, 150, 400, 300)` |
| `Matrix.Translation` | Pineapple/Components/Camera2D.cs:61-65 | `CreateTranslation(dx, dy)` sends `(0, 0)` to `(dx, dy)` and each unit point to itself moved by `(dx, dy)`, which fixes the affine map |
| `Matrix.Scale` | Pineapple/Components/Camera2D.cs:64 | `CreateScale(sx, sy)` keeps `(0, 0)` and sends `(1, 0)` to `(sx, 0)` and `(0, 1)` to `(0, sy)` |
| `Matrix.RotationMatrix` | Pineapple/Components/Camera2D.cs:63 | `CreateRotationDegrees`, given the angle's cosine and sine, keeps `(0, 0)` and sends `(1, 0)` to `(cos, sin)` and `(0, 1)` to `(-sin, cos)` |
| `Matrix.PostConcat` | Pineapple/Components/Camera2D.cs:61-65 | `a.PostConcat(b)` is the product `b * a`; post-concatenating the identity, or onto it, changes nothing (its meaning on points is `PostConcatApplies`) |
| `Matrix.ConcatApplies` | Pineapple/Components/Camera2D.cs:61-65 | the matrix product applies its right factor first, then the left |
| `Matrix.PostConcatApplies` | Pineapple/Components/Camera2D.cs:61-65 | `a.PostConcat(b)` applies `a`, then `b` |
| `Matrix.PostConcatChainApplies` | Pineapple/Components/Camera2D.cs:61-65 | a chain of four post-concatenations applies its five factors from left to right |
| `Camera.ViewMatrix` | Pineapple/Components/Camera2D.cs:55-67 | the getter's five steps post-concatenated in the source's order; its linear part is the rotation pair scaled by the zoom (its action on points is `ViewMatrixComposes`) |
| `Camera.ViewMatrixComposes` | Pineapple/Components/Camera2D.cs:59-65 | the view matrix sends every point through exactly these steps, in this order: translate by `-(position - Origin)`, translate by `-Origin`, rotate, scale by `(zoom, zoom)`, translate by `+Origin` |
| `Camera.FiveStepsMapPoint` | Pineapple/Components/Camera2D.cs:59-65 | the five steps send a point to the origin plus its offset from the position, rotated and then zoomed |
| `Camera.ViewMatrixMapsPoint` | Pineapple/Components/Camera2D.cs:59-65 | the view matrix sends `p` to `Origin + zoom * R(p - position)` for the rotation `R` |
| `Camera.ViewMatrixCentresPosition` | Pineapple/Components/Camera2D.cs:59-65 | for every rotation and zoom, the view matrix sends the camera position to the origin |
| `Camera.UnitViewMatrixTranslates` | Pineapple/Components/Camera2D.cs:59-65 | with rotation 0 and zoom 1, the view matrix sends `p` to `p - position + Origin` |
| `Camera.BoundingRectangleFillsViewport` | Pineapple/Components/Camera2D.cs:43-65 | with rotation 0 and a non-zero zoom, the view matrix sends the bounding rectangle's corners to `(0, 0)` and to the viewport size |

## Left out

- Floating-point rounding, infinities and NaN are not modelled, because the arithmetic is over `real`.
- `zoom == 0` is not modelled for `BoundingRectangle`: the source divides by zero there, and the model requires a non-zero zoom.
- Converting degrees to a cosine and sine (`SKMatrix.CreateRotationDegrees`) is not modelled. The rotation is an abstract `(cos, sin)` pair.
- The view matrix does not read the `rotation` field. The caller supplies its (cos, sin) pair, and `NoRotation` is the pair for 0 degrees.
- The perspective row of the 3x3 matrix is not modelled. It is `(0, 0, 1)` for every matrix the camera builds.
- `OnTimeout` handlers are not modelled as individual callbacks. Their invocation order, the handlers being added and removed, and the exceptions they may throw are all left out: the model records only that the event fired once.
- The viewport size is not read from the global window. It is a parameter, because the window is a native library object.
- The window, input, monitor, application frame loop, audio, scene lifecycle and demo application are left out. They forward calls to native libraries and have no logic of their own.
- TimerModel.Timer.Update: assumes the `OnTimeout` handlers do not call into the timer or assign its properties while they run. The source runs the handlers and only then reads `Oneshot`, so a handler that calls `Stop()` or changes `Oneshot` changes the outcome of that update. The model does not capture this.
- The idempotence of the derived accessors is not stated as a lemma. `Origin`, `BoundingRectangle` and `ViewMatrix` are Dafny functions, so equal arguments always give equal results.
