# Orbit camera state machine

A Dafny model of `OrbitCamera` (`orbitCamera.h`, `orbitCamera.cpp`). This is an interactive
orbit-camera controller. Each frame, `update` takes the pointer position, the two mouse
buttons and a camera-local translation delta, and it advances:

- two button latches;
- a pointer baseline;
- the live orbit pivot, which it resets to the origin;
- an orbit distance;
- a 3x4 orbit-rotation matrix.

From these, the target orbit pivot and the pan vector (both only read by `update`) it
composes a 3x4 row-major view matrix. The remaining operations are
`setViewMatrix`, `resetTrafos`, `addPanDelta` and the setters. They seed, reset or configure
that state.

The model has three modules:

- `VecMath` (`vec_math.dfy`) has the fixed-size vector and matrix types and the component-wise
  `*`, `+`, `-` and `dot` helpers of the implementation file. It also has `loadIdentityMatrix`
  and the `rowVec3_t` views that the source takes of a matrix row (`Axis`, `SetAxis`,
  `SetTranslation`).
- `LinAlg` (`lin_alg.dfy`) stands for the external `linAlg` library and for `cosf`, `sinf` and
  `sqrtf`. Their code is not part of this model. They are a record of uninterpreted function
  values (`Geometry`), passed to the operations that call them.
- `OrbitCameras` (`orbit_camera.dfy`) holds the camera.
  - `CameraState` is a value snapshot of every field.
  - Specification functions on snapshots: `Advanced` for `update`, `Reset`, `Seeded` and
    `Panned`. `Advanced` is built from one function per phase of the frame.
  - The class `OrbitCamera` has the source's fields. Its methods update the fields in place.
    Each method that models an operation of the source promises that its new `Snapshot()`
    is the matching specification function of the old one. The helper methods for the
    phases of `update` and `setViewMatrix` either do the same or state each field they
    change under a `modifies` frame that names only those fields. `GetViewMatrix` and
    `StrafedCameraPosition` change nothing.
  - The properties are the contracts of those functions and the lemmas about them.

Floats are `real`. A ghost field `pivotSet` records whether the live pivot `mOrbitPivotWS` has
ever been assigned: the constructor and `resetTrafos` never assign it, so until the first
`update` its value is indeterminate. The class invariant `Valid` says that once assigned, the
pivot is the origin.

`update` and `setViewMatrix` follow the code as written, including the two places listed
under Findings. For each of those, the corrected behaviour is defined beside it with its
intended property proved, but the camera's operations do not use it.

## Model

| member | source | states |
|---|---|---|
| VecMath.Scale | orbitCamera.cpp:30-37 | `vec * scalar` keeps the vector's length |
| VecMath.ScaleAt | orbitCamera.cpp:30-37 | component `i` of `vec * k` is `vec[i] * k`, for every `i` |
| VecMath.Add | orbitCamera.cpp:39-46 | `vecL + vecR` keeps the length |
| VecMath.AddAt | orbitCamera.cpp:39-46 | component `i` of `vecL + vecR` is `vecL[i] + vecR[i]` |
| VecMath.Sub | orbitCamera.cpp:48-55 | `vecL - vecR` keeps the length |
| VecMath.SubAt | orbitCamera.cpp:48-55 | component `i` of `vecL - vecR` is `vecL[i] - vecR[i]` |
| VecMath.SubZero | orbitCamera.cpp:48-55 | subtracting the zero vector is the identity, so `camPosWS - mOrbitPivotWS` is `camPosWS` once the pivot is the origin |
| VecMath.AddAssociative | orbitCamera.cpp:39-46 | adding two deltas one after the other is adding their sum, in either order |
| VecMath.Dot | orbitCamera.cpp:57-64 | a vector's dot product with itself is never negative |
| VecMath.Dot3 | orbitCamera.cpp:57-64 | for 3-vectors the accumulator loop yields `a0*b0 + a1*b1 + a2*b2` |
| VecMath.DotOfNegation | orbitCamera.cpp:57-64 | negating every component leaves the squared length unchanged |
| VecMath.DotSymmetric | orbitCamera.cpp:57-64 | `dot(a, b) == dot(b, a)` |
| VecMath.DotWithCombination | orbitCamera.cpp:57-64 | `dot` is linear in its second argument: `dot(w, x*c + y*s) == c*dot(w, x) + s*dot(w, y)` |
| VecMath.Axis | orbitCamera.cpp:126-128 | the `rowVec3_t` view of row `i`: entry `j` of the view is entry `j` of the row |
| VecMath.SetAxis | orbitCamera.cpp:126-128 | a write through the `rowVec3_t` view of row `i` sets that row's first three entries, keeps its translation entry and leaves the other two rows unchanged |
| VecMath.SetTranslation | orbitCamera.cpp:191-193 | writing `mat[i][3]` sets the translation entry, keeps the row's axis part and leaves the other two rows unchanged |
| VecMath.IdentityRows | orbitCamera.cpp:17-21 | `loadIdentityMatrix` gives entry `(i, j)` equal to 1 on the diagonal and 0 elsewhere, so the translation column is zero |
| OrbitCameras.Latch | orbitCamera.cpp:101-117 | the two edge-detecting `if`s leave the latch equal to the button level, from either previous state |
| OrbitCameras.PointerDelta | orbitCamera.cpp:98-99 | the scaled pointer delta is zero exactly when the pointer has not moved or the sensitivity is zero |
| OrbitCameras.OrbitPosition | orbitCamera.cpp:130 | coordinate `i` of the orbit position is `pivot[i] + zAxis[i] * dist` |
| OrbitCameras.Strafed | orbitCamera.cpp:165-166 | coordinate `i` of the strafed position is `pos[i] + xAxis[i] * lr + yAxis[i] * ud` |
| OrbitCameras.StrafeLR | orbitCamera.cpp:133-166 | the lateral strafe is `translationDelta[0]`, plus the pointer delta exactly when the left button is latched |
| OrbitCameras.StrafeUD | orbitCamera.cpp:133-166 | the vertical strafe is `translationDelta[1]`, minus the pointer delta exactly when the left button is latched (screen y grows downwards) |
| OrbitCameras.RotatedInPlace | orbitCamera.cpp:173-174 | the turn as written: the new y axis is computed from the already turned x axis; z and the x/y translation entries are kept |
| OrbitCameras.InPlaceQuarterTurnCollapses | orbitCamera.cpp:173-174 | as written, a quarter turn (cos 0, sin 1) of the orthonormal identity pair makes y equal to minus x, with `dot(x, y) == -1` |
| OrbitCameras.InPlaceQuarterTurnX | orbitCamera.cpp:173 | after a quarter turn of the identity frame, the x axis is the old y axis |
| OrbitCameras.InPlaceQuarterTurnY | orbitCamera.cpp:174 | after a quarter turn of the identity frame as written, the y axis is `(0, -1, 0)` |
| OrbitCameras.IdentityPairOrthonormal | orbitCamera.cpp:17-21 | the identity frame's x and y axes are an orthonormal pair |
| OrbitCameras.Rotated | orbitCamera.cpp:168-175 | the corrected turn: both new axes are combinations of the old pair; z and the x/y translation entries are kept |
| OrbitCameras.CoordinatesInPair | orbitCamera.cpp:173-174 | against an orthonormal pair, `x*c + y*s` has coordinates `c` and `s` |
| OrbitCameras.UnitCombination | orbitCamera.cpp:173-174 | `x*c + y*s` of an orthonormal pair has unit length when `c^2 + s^2 == 1` |
| OrbitCameras.PerpendicularCombinations | orbitCamera.cpp:173-174 | `x*c + y*s` and `x*(-s) + y*c` of an orthonormal pair are perpendicular |
| OrbitCameras.TurnedPairOrthonormal | orbitCamera.cpp:173-174 | the two turned combinations of an orthonormal pair are orthonormal when `c^2 + s^2 == 1` |
| OrbitCameras.RotationKeepsPairOrthonormal | orbitCamera.cpp:168-175 | the corrected turn keeps an orthonormal x/y pair orthonormal when `c^2 + s^2 == 1` |
| OrbitCameras.InPlaceTurnSkew | orbitCamera.cpp:173-174 | for an orthonormal pair and `c^2 + s^2 == 1`, the turn as written gives a unit new x whose dot product with the new y is `s * (c - 1)` |
| OrbitCameras.RotationInPlaceSkew | orbitCamera.cpp:173-174 | the turn as written keeps the new x unit length, and the new pair is perpendicular if and only if `s == 0` or `c == 1` |
| OrbitCameras.Steered | orbitCamera.cpp:168-175 | the RMB turn as the code performs it: without the right button the frame is unchanged; with it, the z axis is never touched |
| OrbitCameras.SteeredPairSkew | orbitCamera.cpp:168-175 | if `cosf` and `sinf` satisfy `cos^2 + sin^2 == 1`, an orthonormal pair stays orthonormal without the right button; with it, the turned pair's dot product is `sin * (cos - 1)` of the angle, zero if and only if that sine is 0 or that cosine is 1 |
| OrbitCameras.Reorthonormalized | orbitCamera.cpp:179-184 | z becomes `normalizeRet(dir)`, then x becomes `normalize(cross(old y, new z))`, then y becomes `normalize(cross(new z, new x))`; the translation column is kept |
| OrbitCameras.WithOrbitTranslation | orbitCamera.cpp:189-193 | row `i`'s translation entry becomes `-dot(axis_i, pos)`; the axes are kept |
| OrbitCameras.OrbitFrame | orbitCamera.cpp:178-193 | after mapping back to the orbit, z points from the pivot at the strafed position and each translation entry is minus its axis dotted with the position at distance `dist` along the new z |
| OrbitCameras.ComposedView | orbitCamera.cpp:198-215 | the view is `pan * (target * (rotation * t))`, where `t` translates by the component-wise negated target pivot |
| OrbitCameras.Pointed | orbitCamera.cpp:96-117 | the pointer is recorded and both latches equal the buttons passed in; nothing else changes |
| OrbitCameras.Recentered | orbitCamera.cpp:121-123 | the live pivot becomes the origin (so it is known), the distance grows by `translationDelta[2]`, and nothing else changes |
| OrbitCameras.Composed | orbitCamera.cpp:198-215 | the pivot-offset matrix ends as the translation by the target pivot, the view matrix is `ComposedView`, and nothing else changes |
| OrbitCameras.Stepped | orbitCamera.cpp:96-221 | an active frame: latches equal the buttons; the baseline is the new pointer, so a pointer that stays put gives zero delta next frame; the live pivot is the origin; the distance grows by exactly `translationDelta[2]`; the offset and view matrices are the composed products; target, pan, configuration, sensitivity and active flag are only read |
| OrbitCameras.SteppedRotation | orbitCamera.cpp:121-193 | the new orbit rotation is the frame rebuilt around the origin, from the rotation turned as written (`Steered`), towards the strafed position, at the advanced distance |
| OrbitCameras.SteppedViewDirection | orbitCamera.cpp:121-179 | after a frame, z is the normalised strafed camera position (measured from the origin pivot) |
| OrbitCameras.SteppedOrbitTranslation | orbitCamera.cpp:121-193 | after a frame, each translation entry is minus its new axis dotted with the camera's new orbit position |
| OrbitCameras.Advanced | orbitCamera.cpp:86-222 | an inactive camera changes nothing, not even the pointer baseline; an active one latches the buttons and rebases the pointer; the active flag is kept, and so is the invariant that a set pivot is the origin |
| OrbitCameras.Reset | orbitCamera.cpp:273-290 | the three matrices become the identity, target pivot and pan become zero, the distance 10 and the four pointer coordinates 0; latches, active flag, sensitivity, configuration and live pivot are kept |
| OrbitCameras.ResetIdempotent | orbitCamera.cpp:273-290 | resetting twice is resetting once |
| OrbitCameras.CameraPositionOf | orbitCamera.cpp:229-233 | coordinate `i` of the implied camera position is entry `(i, 3)` of the inverse of the homogeneous view matrix |
| OrbitCameras.Seeded | orbitCamera.cpp:224-247 | the reset state, with `m` as both view and orbit-rotation matrix, and the distance `sqrtf(dot(d, d))` for `d = pivot - camera position implied by inverse(m)`; the argument is never negative, the distance is non-negative if `sqrtf` is, and with an origin pivot it is the length of the camera position |
| OrbitCameras.SeededAfterReset | orbitCamera.cpp:224-225 | `setViewMatrix` discards the previous transforms, baseline and pan: seeding a reset camera gives the same state as seeding the camera itself |
| OrbitCameras.SeededFromOwnView | orbitCamera.cpp:224-230 | `setViewMatrix(getViewMatrix())` as written equals seeding from the identity |
| OrbitCameras.SelfSeedingDiscardsView | orbitCamera.cpp:224-230 | after seeding a camera from its own view matrix, view and orbit rotation are the identity, so a non-identity view is lost |
| OrbitCameras.ReseedingFromOwnViewIsNoOp | orbitCamera.cpp:224-247 | seeding from a copy taken before the reset: re-seeding a seeded camera from its own view matrix leaves it exactly as it was |
| OrbitCameras.Panned | orbitCamera.cpp:253-255 | the pan vector grows by `delta` component by component, and nothing else changes |
| OrbitCameras.PanDeltasAccumulate | orbitCamera.cpp:253-255 | two pan deltas, in either order, equal one pan by their sum |
| OrbitCameras.PanAccumulationInView | orbitCamera.cpp:212-215 | two accumulated pans and one summed pan give the same state after the next `update` |
| OrbitCameras.OrbitCamera.constructor | orbitCamera.cpp:68-84 | latches released, active, canonical transforms, `invertY` set, sensitivity 0.23, zero pointer baseline; the live pivot is not assigned |
| OrbitCameras.OrbitCamera.GetViewMatrix | orbitCamera.h:34 | returns the stored view matrix and changes nothing |
| OrbitCameras.OrbitCamera.SetOrbitDist | orbitCamera.h:37 | its body is empty: no field changes |
| OrbitCameras.OrbitCamera.SetOrbitPivotWS | orbitCamera.cpp:249-251 | sets the target pivot only; the live pivot used in `update` is untouched |
| OrbitCameras.OrbitCamera.SetControlConfig | orbitCamera.h:40 | sets the control configuration and nothing else |
| OrbitCameras.OrbitCamera.SetMouseSensitivity | orbitCamera.h:42 | sets the sensitivity and nothing else |
| OrbitCameras.OrbitCamera.SetActive | orbitCamera.h:43 | sets the active flag and nothing else |
| OrbitCameras.OrbitCamera.AddPanDelta | orbitCamera.cpp:253-255 | the new state is `Panned` of the old |
| OrbitCameras.OrbitCamera.ResetTrafos | orbitCamera.cpp:273-290 | the new state is `Reset` of the old; only the ten fields it assigns may change |
| OrbitCameras.OrbitCamera.LoadIdentityMatrices | orbitCamera.cpp:275-277 | the three matrices become the identity; nothing else changes |
| OrbitCameras.OrbitCamera.ValidIsPivotKnown | orbitCamera.cpp:121 | the class invariant `Valid` holds exactly when `PivotKnown` holds of the snapshot: once assigned, the live pivot is the origin |
| OrbitCameras.OrbitCamera.SetViewMatrix | orbitCamera.cpp:224-247 | for an argument that is not the camera's own field, the new state is `Seeded` of the old; the pivot invariant is kept, and once the pivot is set the distance is the length of the implied camera position |
| OrbitCameras.OrbitCamera.SetViewMatrixToOwnView | orbitCamera.cpp:224-247 | `setViewMatrix(getViewMatrix())`: the new state is `SeededFromOwnView` of the old |
| OrbitCameras.OrbitCamera.AdoptViewMatrix | orbitCamera.cpp:227-246 | view and orbit rotation become the argument, the target pivot zero, and the distance `sqrtf(dot(d, d))` for `d` the live pivot minus the implied camera position |
| OrbitCameras.OrbitCamera.Update | orbitCamera.cpp:86-222 | always returns `Status_t::OK`; the new state is `Advanced` of the old; the pivot invariant is kept |
| OrbitCameras.OrbitCamera.TrackPointer | orbitCamera.cpp:96-117 | records the pointer and latches the buttons (`Pointed`); returns the sensitivity-scaled deltas against the old baseline |
| OrbitCameras.OrbitCamera.LatchButtons | orbitCamera.cpp:101-117 | each latch becomes `Latch(old latch, button)` |
| OrbitCameras.OrbitCamera.Recenter | orbitCamera.cpp:119-123 | the live pivot becomes the origin and the distance grows by `translationDelta[2]` |
| OrbitCameras.OrbitCamera.StrafedCameraPosition | orbitCamera.cpp:130-166 | returns the orbit position moved by the lateral and vertical strafe along the current x and y axes |
| OrbitCameras.OrbitCamera.TurnAxes | orbitCamera.cpp:168-175 | the x row is written first and the new y is computed from it; the orbit rotation becomes `Steered` of the old one |
| OrbitCameras.OrbitCamera.MapBackToOrbit | orbitCamera.cpp:178-193 | the orbit rotation becomes `OrbitFrame` around the live pivot |
| OrbitCameras.OrbitCamera.Reorthonormalize | orbitCamera.cpp:179-184 | the orbit rotation becomes `Reorthonormalized` of the old one |
| OrbitCameras.OrbitCamera.PlaceOnOrbit | orbitCamera.cpp:189-193 | the translation column is recomputed from the current axes and the orbit position |
| OrbitCameras.OrbitCamera.ComposeViewMatrix | orbitCamera.cpp:198-215 | the offset matrix is the translation by the target pivot; the view matrix is `pan * (target * (rotation * (-target)))` |
| OrbitCameras.OrbitCamera.Rebase | orbitCamera.cpp:218-219 | the baseline becomes the current pointer |

## Left out

- Single-precision rounding. Floats are reals, so `0.23f` is 0.23 and `pi` as a float is its exact single-precision value. No claim holds up to float error.
- `linAlg`, `cosf`, `sinf` and `sqrtf` are uninterpreted.
  - The model does not prove that the frame is orthonormal after `update`. That depends on what `normalize`, `normalizeRet` and `cross` compute.
  - The only assumptions are the ones a lemma or a contract states as a hypothesis: `SqrtNonNegative` (in `Seeded`'s contract) and `PythagoreanTrig`.
- `inverse` of a singular matrix is whatever the library returns. `setViewMatrix` has no error path, and neither does the model.
- The `printf` edge notifications in `update` are I/O and are not modelled.
- The `timeDelta` and `screenH` parameters, the local `damping`, `startCamPosWS` and `practicallyZero` are never read, so they have no effect in the model.
- `ControlConfig.invertY` is stored but never read.
- Update: requires `screenW != 0` when the camera is active and the right button is pressed. The source divides by `screenW` there, and a float division by zero has no value in the model.
- `screenW` and `screenH` are unbounded `int`s, not 32-bit integers. Only `screenW as real` is used.
- `Dot` adds the products in the source's order. Over reals the order does not matter.
- The header does not declare `mViewOrbitRotMat`, `mViewPivotOffsetMat` or `mPanVector`, though the implementation file uses them. It also does not declare `addPanDelta`. The class has all of them.
- The live pivot is indeterminate until the first `update`. It is an arbitrary value, and the ghost `pivotSet` tracks it. `setViewMatrix` on a camera that has never been updated reads that arbitrary value, as the source does.
- Matrix products and translation matrices are opaque `Geometry` functions. The model records which products are formed, in which order, but not their entries.
- `update`'s body is split into helper methods. Each one is a phase of the frame, and together they run the source's statements in order.
- Commented-out code in both files (damping, `setPosition`, `mPosWS`, the LMB rotation block) is not modelled.
- References are modelled only where they alias a field: `SetViewMatrix` takes its matrix by value, which is the source's behaviour for any argument other than the camera's own view matrix; that one aliased call is `SetViewMatrixToOwnView`. `getViewMatrix` returns the matrix by value; a caller that keeps the returned reference and reads it after a later call sees the later value, which the model does not capture.

## Findings

| source | as written | input that shows it | evidently intended | confidence | as-written member | corrected member |
|---|---|---|---|---|---|---|
| orbitCamera.cpp:173-174 | the y-axis assignment reads the x axis through the row view after the x-axis assignment just above has overwritten it | identity frame, right button held, `cosAngle = 0`, `sinAngle = 1` (a quarter turn): new x is `(0,1,0)`, new y is `(0,-1,0)`, and `dot(x, y) == -1` | both axes computed from the old pair, which is the plane rotation the earlier, commented-out version at orbitCamera.cpp:141-144 computes through saved copies; it keeps an orthonormal pair orthonormal | medium, not executed | OrbitCameras.InPlaceQuarterTurnCollapses | OrbitCameras.RotationKeepsPairOrthonormal |
| orbitCamera.cpp:224-230 | `setViewMatrix` takes its matrix by const reference and reads it only after `resetTrafos()`; `getViewMatrix` (orbitCamera.h:34) returns a reference to `mViewMat`, which that reset overwrites | `cam.setViewMatrix(cam.getViewMatrix())` on a camera whose view matrix is not the identity: the camera is seeded from the identity instead | the matrix read before the reset, so that re-seeding a camera from its own view matrix changes nothing | low, not executed | OrbitCameras.SelfSeedingDiscardsView | OrbitCameras.ReseedingFromOwnViewIsNoOp |
