# Previewer camera, modelled and verified in Dafny

The previewer's `Camera` (`previewer/libs/core/Camera.cpp`) is a mutable
object. Its fields are:

- the camera position and the target point;
- an orthonormal-by-intent basis (look-at, up and right vectors);
- a field of view, a view matrix and a projection matrix;
- a simple motion model: acceleration clamped from above by `maxAcceleration`,
  speed clamped by `maxSpeed`, a velocity in world space, and a focus flag.

Its methods aim the camera (`SetLookAt`, `SetTarget`, `Create`), frame a
bounding box from one of six faces (`LookAtBox`), turn the basis (`Rotate*`),
orbit (`RotateAroundTarget`, `RotateTargetAround`), translate (`Move*`,
`MoveCamAndTarget*`, `MoveTarget*`), integrate motion (`Accel*`,
`UpdateSpeed`, `UpdateVelocity`, `UpdatePosition`), set projections, and fill
the view matrix entry by entry (`ConstructViewMatrix`).

The model has five modules:

- `Geometry` (`geometry.dfy`): `Vec3` over reals and its arithmetic, the 4x4
  `Matrix4`, and `MathLib`. `MathLib` is a record of the library functions the
  camera calls without their code being part of this model: `Normalize`,
  `crossprod`, the tangent of an angle in degrees, the default `Matrix4`,
  `Matrix4::rotate`, vector times matrix, matrix times matrix, `perspective`
  and `orthographic`. Every result holds for any choice of these functions.
- `CameraSpec` (`camera_spec.dfy`): the camera's fields as one `CameraState`
  value, and one function per operation giving the state that operation
  leaves.
- `Previewer` (`camera.dfy`): class `Camera` with the source's fields, updated
  in place as the source does (component by component in `LookAtBox`, entry by
  entry in `ConstructViewMatrix`). Each method is proved to leave exactly the
  state its `CameraSpec` function describes.
- `CameraProperties` (`camera_properties.dfy`): what one call of each
  operation does, stated over `CameraSpec`.
- `CameraRuns` (`camera_runs.dfy`): arbitrary sequences of calls, and the
  invariants they keep.

Behaviour of the code as written that the model keeps and states:

- `MoveCamAndTargetUpward` and `MoveCamAndTargetRight` move only the target.
- `LookAtBox` with an unknown face still retargets to the box centre.
- `Rotate` reuses one rotation matrix for all three angles.
- The orbits ignore their roll argument.
- `ActionMoveCameraLookAt` aims along the negation of its argument.
- The Back, Right and Bottom framings negate the Front, Left and Top standoff.
  They mirror the camera through the world origin, not through the box. With
  `d` the front standoff, the back view stands at y = -d. That is as far beyond
  the minY face as the front view is beyond the maxY face only when
  minY + maxY = 0. It is beyond the maxY face, on the front view's side, when
  2 maxY + (d - maxY) < 0 (`CameraProperties.BackViewMirrorsOnlyCentredBoxes`,
  `CameraProperties.BackViewOfOffCentreBox`).

## Model

| member | source | states |
|---|---|---|
| `Previewer.Camera.SetLookAt` | previewer/libs/core/Camera.cpp:42-58 | look := normalize(target - position), right := normalize(up x look), up := normalize(look x right), then the view matrix is rebuilt without re-orthogonalising |
| `Previewer.Camera.SetFieldOfView` | previewer/libs/core/Camera.cpp:60-64 | only the field of view changes, to `fov` |
| `Previewer.Camera.SetMaxAcceleration` | previewer/libs/core/Camera.cpp:66-69 | only `maxAcceleration` changes |
| `Previewer.Camera.SetMaxSpeed` | previewer/libs/core/Camera.cpp:71-74 | only `maxSpeed` changes |
| `Previewer.Camera.CreateFromBox` | previewer/libs/core/Camera.cpp:77-82 | the state is that of framing the box from the front |
| `Previewer.Camera.CreateFacing` | previewer/libs/core/Camera.cpp:84-89 | the state is that of `Create` with up (0, 0, 1) |
| `Previewer.Camera.Create` | previewer/libs/core/Camera.cpp:91-101 | position and up set, velocity zeroed, then retargeted at `lookAt` |
| `Previewer.Camera.LookAtBoxFront` | previewer/libs/core/Camera.cpp:103-108 | the state is that of framing from the front |
| `Previewer.Camera.LookAtBox` | previewer/libs/core/Camera.cpp:110-210 | the face's switch arm sets position and up, then the target is set to the box centre, for every face including unknown ones |
| `Previewer.Camera.PlaceForFace` | previewer/libs/core/Camera.cpp:114-205 | only position and up change, component by component, as `CameraSpec.Framed` describes; an unknown face changes nothing |
| `Previewer.Camera.SetTarget` | previewer/libs/core/Camera.cpp:212-216 | target := the point, then `SetLookAt` towards it |
| `Previewer.Camera.RotateBy` | previewer/libs/core/Camera.cpp:218-223 | `Rotate` with yaw, pitch and roll taken from x, y and z |
| `Previewer.Camera.Rotate` | previewer/libs/core/Camera.cpp:224-260 | each non-zero angle turns two basis vectors by one shared rotation matrix, in the order yaw, pitch, roll |
| `Previewer.Camera.RotateYaw` | previewer/libs/core/Camera.cpp:261-277 | a non-zero yaw turns right and look about up |
| `Previewer.Camera.RotatePitch` | previewer/libs/core/Camera.cpp:278-294 | a non-zero pitch turns up and look about right |
| `Previewer.Camera.RotateRoll` | previewer/libs/core/Camera.cpp:295-311 | a non-zero roll turns up and right about look |
| `Previewer.Camera.RotateAroundTarget` | previewer/libs/core/Camera.cpp:313-340 | the camera-from-target vector is turned by fresh yaw and pitch matrices, the camera is put at target plus that vector, and it re-aims at the target |
| `Previewer.Camera.RotateTargetAround` | previewer/libs/core/Camera.cpp:342-369 | the target-from-camera vector is turned, the target is put at position plus that vector, and the camera re-aims |
| `Previewer.Camera.Move` | previewer/libs/core/Camera.cpp:371-376 | position += movement |
| `Previewer.Camera.MoveXYZ` | previewer/libs/core/Camera.cpp:377-384 | position += (x, y, z) |
| `Previewer.Camera.MoveForward` | previewer/libs/core/Camera.cpp:385-390 | position += look * distance |
| `Previewer.Camera.MoveUpward` | previewer/libs/core/Camera.cpp:391-396 | position += up * distance |
| `Previewer.Camera.MoveRight` | previewer/libs/core/Camera.cpp:397-402 | position += right * distance |
| `Previewer.Camera.MoveCamAndTargetForward` | previewer/libs/core/Camera.cpp:404-410 | position and target both += look * distance |
| `Previewer.Camera.MoveCamAndTargetUpward` | previewer/libs/core/Camera.cpp:411-416 | only the target += up * distance |
| `Previewer.Camera.MoveCamAndTargetRight` | previewer/libs/core/Camera.cpp:417-422 | only the target += right * distance |
| `Previewer.Camera.MoveTargetForward` | previewer/libs/core/Camera.cpp:424-429 | target += look * distance |
| `Previewer.Camera.MoveTargetUpward` | previewer/libs/core/Camera.cpp:430-435 | target += up * distance |
| `Previewer.Camera.MoveTargetRight` | previewer/libs/core/Camera.cpp:436-441 | target += right * distance |
| `Previewer.Camera.AccelForward` | previewer/libs/core/Camera.cpp:443-450 | acceleration.z += amount, then clamped from above by maxAcceleration.z |
| `Previewer.Camera.AccelUpward` | previewer/libs/core/Camera.cpp:452-459 | acceleration.y += amount, then clamped from above |
| `Previewer.Camera.DecelForward` | previewer/libs/core/Camera.cpp:461-464 | the state is unchanged |
| `Previewer.Camera.DecelUpward` | previewer/libs/core/Camera.cpp:466-469 | the state is unchanged |
| `Previewer.Camera.DecelRight` | previewer/libs/core/Camera.cpp:471-474 | the state is unchanged |
| `Previewer.Camera.AccelRight` | previewer/libs/core/Camera.cpp:476-483 | acceleration.x += amount, then clamped from above |
| `Previewer.Camera.UpdateSpeed` | previewer/libs/core/Camera.cpp:485-491 | speed += acceleration, then each axis clamped from above by maxSpeed |
| `Previewer.Camera.UpdateVelocity` | previewer/libs/core/Camera.cpp:493-496 | velocity := look * speed.z + up * speed.y + right * speed.x |
| `Previewer.Camera.UpdatePosition` | previewer/libs/core/Camera.cpp:498-501 | position += velocity |
| `Previewer.Camera.SetFocusState` | previewer/libs/core/Camera.cpp:503-506 | only the focus flag changes |
| `Previewer.Camera.SetPerspectiveProjection` | previewer/libs/core/Camera.cpp:508-513 | field of view := fov and projection := perspective(fov, aspect, near, far) |
| `Previewer.Camera.SetOrthographicProjection` | previewer/libs/core/Camera.cpp:515-519 | projection := orthographic(...) |
| `Previewer.Camera.GetMVPMatrix` | previewer/libs/core/Camera.cpp:521-529 | the view matrix is rebuilt with re-orthogonalisation; the result is the new view matrix times the projection |
| `Previewer.Camera.GetViewMatrix` | previewer/libs/core/Camera.cpp:531-537 | the view matrix is rebuilt with re-orthogonalisation and returned |
| `Previewer.Camera.ConstructViewMatrix` | previewer/libs/core/Camera.cpp:545-620 | the basis is re-derived when asked, then the view matrix is filled from basis and position |
| `Previewer.FillViewMatrix` | previewer/libs/core/Camera.cpp:581-599 | the sixteen entry writes produce `ViewMatrix(right, up, look, position)`, whatever the matrix held before |
| `Previewer.Camera.ActionMoveCameraPosition` | previewer/libs/core/Camera.cpp:622-638 | the chosen coordinate of the position is replaced; an unknown axis changes nothing |
| `Previewer.Camera.ActionMoveCameraLookAt` | previewer/libs/core/Camera.cpp:640-643 | `SetLookAt(position - v)` |
| `CameraSpec.ClampAbove` | previewer/libs/core/Camera.cpp:446-447 | the result is at most the bound, equals the value when the value is within it, and equals the bound otherwise |
| `CameraSpec.StandoffDistance` | previewer/libs/core/Camera.cpp:118-121 | the distance is at least both the width-based and the height-based standoff, and equals one of them |
| `CameraProperties.AccelForwardClamps` | previewer/libs/core/Camera.cpp:443-450 | acceleration.z ends at most at maxAcceleration.z; below the cap the amount is added in full, whatever its sign; x, y and every other field are unchanged |
| `CameraProperties.AccelUpwardClamps` | previewer/libs/core/Camera.cpp:452-459 | the same for the y axis |
| `CameraProperties.AccelRightClamps` | previewer/libs/core/Camera.cpp:476-483 | the same for the x axis |
| `CameraProperties.UpdateSpeedClamps` | previewer/libs/core/Camera.cpp:485-491 | each speed axis is min(speed + acceleration, maxSpeed), with no lower bound; nothing but speed changes |
| `CameraProperties.UpdateVelocityProjectsSpeed` | previewer/libs/core/Camera.cpp:493-496 | only the velocity changes; over an orthonormal basis its components along look, up and right are speed.z, speed.y and speed.x |
| `CameraProperties.UpdatePositionAddsVelocity` | previewer/libs/core/Camera.cpp:498-501 | the position moves by exactly the velocity; nothing else changes |
| `CameraProperties.PositionMovesChangeOnlyPosition` | previewer/libs/core/Camera.cpp:371-402 | each position move shifts the position by its offset (movement, (x, y, z), look/up/right times d) and changes nothing else |
| `CameraProperties.MoveThereAndBack` | previewer/libs/core/Camera.cpp:385-402 | moving by d and then by -d along the same local axis restores the whole state |
| `CameraProperties.MoveCamAndTargetForwardKeepsOffset` | previewer/libs/core/Camera.cpp:404-410 | target - position is preserved; both move by look * d; nothing else changes |
| `CameraProperties.MoveCamAndTargetSidewaysMovesOnlyTarget` | previewer/libs/core/Camera.cpp:411-441 | the upward and right "camera and target" moves equal the target-only moves and keep the position |
| `CameraProperties.TargetMovesChangeOnlyTarget` | previewer/libs/core/Camera.cpp:424-441 | each target move shifts the target by its offset and changes nothing else |
| `CameraProperties.RotateZeroIsNoOp` | previewer/libs/core/Camera.cpp:224-311 | rotating by zero angles changes nothing, for all four rotations |
| `CameraProperties.StepsTouchOnlyTheirVectors` | previewer/libs/core/Camera.cpp:229-257 | the yaw block keeps up, the pitch block keeps right, the roll block keeps look, and none touches anything outside the basis |
| `CameraProperties.RotationsTouchOnlyTheBasis` | previewer/libs/core/Camera.cpp:224-311 | no rotation changes position, target, matrices or motion; yaw keeps up, pitch keeps right, roll keeps look |
| `CameraProperties.RotateOneAngle` | previewer/libs/core/Camera.cpp:224-311 | with one non-zero angle, `Rotate` equals the single-axis rotation |
| `CameraProperties.RotateIsSequentialWhenRotateOverwrites` | previewer/libs/core/Camera.cpp:224-260 | if `Matrix4::rotate` overwrites rather than composes, the shared matrix is harmless: `Rotate` is yaw then pitch then roll |
| `CameraProperties.RotateAroundTargetKeepsTarget` | previewer/libs/core/Camera.cpp:313-340 | the target stays, the new position is the target plus the turned focus vector, the camera faces the target, and the roll has no effect |
| `CameraProperties.RotateTargetAroundKeepsPosition` | previewer/libs/core/Camera.cpp:342-369 | the position stays, the new target is the position plus the turned focus vector, and the roll has no effect |
| `CameraProperties.OrbitWithoutAnglesOnlyReaims` | previewer/libs/core/Camera.cpp:313-369 | with yaw and pitch zero, both orbits are `SetLookAt(target)` |
| `CameraProperties.OrbitsKeepDistance` | previewer/libs/core/Camera.cpp:313-369 | if the library's rotations keep lengths, both orbits keep the camera-target distance |
| `CameraProperties.OrbitFocusKeepsLength` | previewer/libs/core/Camera.cpp:317-330 | under the same assumption, turning the focus vector keeps its length |
| `CameraProperties.LookAtBoxPlacesCamera` | previewer/libs/core/Camera.cpp:110-210 | for each face two position coordinates are box midpoints and the third is plus or minus the larger standoff; the right vector is derived from up (0, 0, 1) or (0, 1, 0); the target is the box centre; an unknown face keeps the position |
| `CameraProperties.OppositeFacesMirror` | previewer/libs/core/Camera.cpp:146-204 | the Back, Right and Bottom positions are the Front, Left and Top positions with the one coordinate negated |
| `CameraProperties.BackViewOfOffCentreBox` | previewer/libs/core/Camera.cpp:161-174 | for a box with y in [-12, -10] and tan(fov / 2) = 1 the back view stands at y = 9, beyond the box's maxY face |
| `CameraProperties.BackViewMirrorsOnlyCentredBoxes` | previewer/libs/core/Camera.cpp:116-174 | the back view stands at y = -d for the front standoff d; it is the mirror of the front view through the box exactly when minY + maxY = 0, beyond the minY face exactly when minY + maxY + (d - maxY) > 0, and beyond the maxY face exactly when 2 maxY + (d - maxY) < 0 |
| `CameraProperties.FrontViewOfUnitCube` | previewer/libs/core/Camera.cpp:116-129 | a unit cube at the origin with tan(fov / 2) = 1 is viewed from (0, 1, 0), aiming at the origin |
| `CameraProperties.ViewMatrixLayout` | previewer/libs/core/Camera.cpp:581-599 | column 3 is (0, 0, 0, 1), rows 0-2 hold the right, up and look components, and row 3 holds the negated dot products with the position |
| `CameraProperties.ViewMatrixMeasuresFromCamera` | previewer/libs/core/Camera.cpp:581-599 | a world point times the view matrix is its offset from the camera measured along right, up and look |
| `CameraProperties.ViewMatrixSendsCameraToOrigin` | previewer/libs/core/Camera.cpp:581-599 | the camera position maps to (0, 0, 0, 1) |
| `CameraProperties.ConstructViewMatrixTouchesOnlyView` | previewer/libs/core/Camera.cpp:545-620 | position, target, projection and motion are kept; the view matrix is the layout of the resulting basis; without re-orthogonalisation only the view matrix changes |
| `CameraProperties.SetLookAtIsRebuildTowards` | previewer/libs/core/Camera.cpp:42-58 | `SetLookAt(t)` equals the re-orthogonalising rebuild with look set to t - position; position and target are kept |
| `CameraProperties.SetTargetTwiceSameLook` | previewer/libs/core/Camera.cpp:212-216 | setting the same target twice gives the same target, position and look direction |
| `CameraProperties.SetTargetIsIdempotent` | previewer/libs/core/Camera.cpp:42-58 | if re-deriving right from the derived up gives right back, setting the same target a second time leaves the whole state as the first call left it |
| `CameraProperties.CreateAimsAtPoint` | previewer/libs/core/Camera.cpp:84-101 | `Create` sets position and target, zeroes only the velocity, aims at the point and derives right from the given up; the two-argument form uses up (0, 0, 1) |
| `CameraProperties.ProjectionSettersStore` | previewer/libs/core/Camera.cpp:508-519 | the perspective setter stores fov and the perspective matrix, the orthographic setter only the orthographic matrix |
| `CameraProperties.MVPIsViewTimesProjection` | previewer/libs/core/Camera.cpp:521-529 | the result is the re-orthogonalised view matrix times the unchanged projection |
| `CameraProperties.ActionMoveCameraPositionOneAxis` | previewer/libs/core/Camera.cpp:622-638 | only the chosen coordinate changes, to the new one; an unknown axis changes nothing |
| `CameraProperties.ActionMoveCameraLookAtFacesAway` | previewer/libs/core/Camera.cpp:640-643 | the camera looks along normalize(-v); position and target stay |
| `CameraRuns.StepKeepsLimits` | previewer/libs/core/Camera.cpp:443-491 | one call that does not reset a maximum keeps acceleration and speed within their maxima |
| `CameraRuns.RunKeepsLimits` | previewer/libs/core/Camera.cpp:443-491 | any sequence of such calls keeps acceleration and speed within their maxima |
| `CameraRuns.RunKeepsBasis` | previewer/libs/core/Camera.cpp:371-519 | moves, pans, acceleration, integration and setters never change the look, up and right vectors |
| `CameraRuns.RunOfRotationsKeepsPlace` | previewer/libs/core/Camera.cpp:224-311 | any sequence of rotations changes nothing outside the basis |
| `CameraRuns.ForwardMovesAdd` | previewer/libs/core/Camera.cpp:385-390 | a sequence of `MoveForward(d_i)` moves the camera by look times the sum of the d_i and changes nothing else |
| `CameraRuns.PanningKeepsOffset` | previewer/libs/core/Camera.cpp:224-410 | forward pans and rotations in any order keep target - position |
| `CameraRuns.AxisTicksClosedForm` | previewer/libs/core/Camera.cpp:485-491 | n speed updates on one axis starting within the cap give min(v + n accelerations, cap) |
| `CameraRuns.SpeedAfterTicks` | previewer/libs/core/Camera.cpp:485-491 | after n `UpdateSpeed` calls with constant acceleration, starting with each axis within its cap, each axis is min(speed + n * acceleration, maxSpeed) and nothing else changed |

## Left out

- Floating point: `float` is modelled as `real`, so rounding, overflow and the
  `0.0f` comparisons' float semantics are not modelled. `MoveThereAndBack` and
  the other exact identities hold over reals only.
- `Normalize`, `crossprod`, `tan`/`degreesToRadians`, the `Matrix4` default
  constructor, `Matrix4::rotate`, vector times matrix, matrix times matrix,
  `perspective` and `orthographic` are fields of `MathLib`, whose code is not
  part of this model. Their formulas are therefore left out.
- CameraProperties.UpdateVelocityProjectsSpeed: orthonormality of the basis
  is a hypothesis, not proved, because it depends on `Normalize` and
  `crossprod`.
- CameraProperties.OrbitsKeepDistance: exact distance preservation is the
  hypothesis `RotationsKeepLength`, because it depends on the unseen
  `Matrix4::rotate`. The hypothesis is only about rotating a fresh identity
  matrix, which is how the orbits call it.
- CameraProperties.OrbitFocusKeepsLength: rests on the same hypothesis
  `RotationsKeepLength`, for the same reason.
- CameraProperties.SetTargetIsIdempotent: that re-deriving right from the
  derived up gives right back is the hypothesis `RederivedRightIsStable`,
  because it depends on `Normalize` and `crossprod`.
- CameraProperties.RotateIsSequentialWhenRotateOverwrites: whether
  `Matrix4::rotate` composes with or overwrites the matrix is left open; this
  lemma states what follows from overwriting.
- Normalising a zero vector (a target equal to the position) is whatever
  `MathLib.normalize` returns. It is not a precondition.
- Previewer.Camera.LookAtBox: requires tan(fov / 2) != 0 for the six known
  faces. There the source divides by zero and gets an infinite or NaN
  position, which reals cannot represent.
- Previewer.Camera.CreateFromBox: requires tan(fov / 2) != 0, for the same
  reason.
- Previewer.Camera.LookAtBoxFront: requires tan(fov / 2) != 0, for the same
  reason.
- Previewer.Camera.PlaceForFace: requires tan(fov / 2) != 0 for the six known
  faces, for the same reason.
- CameraSpec.StandoffDistance: requires a non-zero tangent, for the same
  reason.
- `SetMainCameraStatus` (previewer/libs/core/Camera.cpp:661-671) only calls
  external message-subscription hooks.
- `previewer/libs/core/Texture.h` is not part of this model. It wraps OpenGL
  texture handles.
- The trivial getters read one field each: `GetCameraPosition`, `GetLookAt`,
  `GetUpVector`, `GetTarget` (previewer/libs/core/Camera.cpp:26-41),
  `GetProjectionMatrix` (539-542) and the `ActionGet*` accessors (645-658).
- The commented-out debug output in `ConstructViewMatrix` is left out.
- `Camera.h` is not part of this model, so:
  - the default constructor's initial values are unknown, and
    `Previewer.Camera.constructor` takes the initial state as an argument;
  - the integer values of the `FRONT`…`BOTTOM` and `XCOORD`…`ZCOORD` constants
    are unknown, so faces and axes are datatypes with an `Other(code)` case
    for an integer no `case` label matches.
