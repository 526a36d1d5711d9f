/** The camera's state as a value, and every operation of `Camera` as a function
    from the state before the call to the state after it. These functions are the
    specification the methods of `Previewer.Camera` are proved against. */
module CameraSpec {
  import opened Geometry

  /** Every field of the camera. */
  datatype CameraState = CameraState(
    position: Vec3,
    target: Vec3,
    lookAt: Vec3,
    upVector: Vec3,
    rightVector: Vec3,
    fieldOfView: real,
    viewMatrix: Matrix4,
    projectionMatrix: Matrix4,
    velocity: Vec3,
    speed: Vec3,
    acceleration: Vec3,
    maxSpeed: Vec3,
    maxAcceleration: Vec3,
    hasFocus: bool)

  /** An axis-aligned box with its own stored centre point. */
  datatype BoundingBox = BoundingBox(
    minX: real, maxX: real,
    minY: real, maxY: real,
    minZ: real, maxZ: real,
    centerPoint: Vec3)

  /** The face `LookAtBox` looks from; `Other` is any integer no `case` matches. */
  datatype Face = Front | Left | Right | Back | Top | Bottom | Other(code: int)

  /** The coordinate `ActionMoveCameraPosition` copies; `Other` matches no `case`. */
  datatype Axis = XCoord | YCoord | ZCoord | Other(code: int)

  const UpZ: Vec3 := Vec3(0.0, 0.0, 1.0)
  const UpY: Vec3 := Vec3(0.0, 1.0, 0.0)

  /** `if (v > hi) v = hi;` — an upper bound only. */
  function ClampAbove(v: real, hi: real): (r: real)
    ensures r <= hi
    ensures v <= hi ==> r == v
    ensures v > hi ==> r == hi
  {
    if v > hi then hi else v
  }

  /** The larger of the width- and height-based standoff distances, each the half
      extent over the tangent of half the field of view plus `offset`. */
  function StandoffDistance(width: real, height: real, offset: real, tanHalfFov: real): (r: real)
    requires tanHalfFov != 0.0
    ensures r >= (width / 2.0) / tanHalfFov + offset
    ensures r >= (height / 2.0) / tanHalfFov + offset
    ensures r == (width / 2.0) / tanHalfFov + offset || r == (height / 2.0) / tanHalfFov + offset
  {
    var distanceWidth := (width / 2.0) / tanHalfFov + offset;
    var distanceHeight := (height / 2.0) / tanHalfFov + offset;
    if distanceWidth > distanceHeight then distanceWidth else distanceHeight
  }

  // ---------------------------------------------------------------- view matrix

  /** The view matrix `ConstructViewMatrix` writes entry by entry. */
  function ViewMatrix(right: Vec3, up: Vec3, look: Vec3, position: Vec3): (r: Matrix4) {
    [[right.x, up.x, look.x, 0.0],
     [right.y, up.y, look.y, 0.0],
     [right.z, up.z, look.z, 0.0],
     [-Dot(right, position), -Dot(up, position), -Dot(look, position), 1.0]]
  }

  /** The basis re-derivation: normalise the look direction, then right from the
      old up and the new look, then up from look and right. */
  function Orthogonalized(lib: MathLib, s: CameraState): (r: CameraState) {
    var look := lib.normalize(s.lookAt);
    var right := lib.normalize(lib.cross(s.upVector, look));
    var up := lib.normalize(lib.cross(look, right));
    s.(lookAt := look, rightVector := right, upVector := up)
  }

  function ConstructViewMatrix(lib: MathLib, s: CameraState, orthogonalizeAxes: bool): (r: CameraState) {
    var b := if orthogonalizeAxes then Orthogonalized(lib, s) else s;
    b.(viewMatrix := ViewMatrix(b.rightVector, b.upVector, b.lookAt, b.position))
  }

  /** `GetMVPMatrix`: the state after the rebuild, and the product it returns. */
  function MVPMatrix(lib: MathLib, s: CameraState): (r: (CameraState, Matrix4)) {
    var s' := ConstructViewMatrix(lib, s, true);
    (s', lib.multiply(s'.viewMatrix, s'.projectionMatrix))
  }

  // ---------------------------------------------------------- orientation, creation

  function SetLookAt(lib: MathLib, s: CameraState, target: Vec3): (r: CameraState) {
    var look := lib.normalize(Sub(target, s.position));
    var right := lib.normalize(lib.cross(s.upVector, look));
    var up := lib.normalize(lib.cross(look, right));
    ConstructViewMatrix(lib, s.(lookAt := look, rightVector := right, upVector := up), false)
  }

  function SetTarget(lib: MathLib, s: CameraState, inTarget: Vec3): (r: CameraState) {
    SetLookAt(lib, s.(target := inTarget), inTarget)
  }

  function SetFieldOfView(s: CameraState, fov: real): (r: CameraState) {
    s.(fieldOfView := fov)
  }

  function SetMaxAcceleration(s: CameraState, ma: Vec3): (r: CameraState) {
    s.(maxAcceleration := ma)
  }

  function SetMaxSpeed(s: CameraState, ms: Vec3): (r: CameraState) {
    s.(maxSpeed := ms)
  }

  function SetFocusState(s: CameraState, newFocus: bool): (r: CameraState) {
    s.(hasFocus := newFocus)
  }

  function Create(lib: MathLib, s: CameraState, position: Vec3, lookAt: Vec3, up: Vec3): (r: CameraState) {
    SetTarget(lib, s.(position := position, upVector := up, velocity := Origin), lookAt)
  }

  /** The two-argument `Create`, whose up vector is (0, 0, 1). */
  function CreateFacing(lib: MathLib, s: CameraState, position: Vec3, lookAt: Vec3): (r: CameraState) {
    Create(lib, s, position, lookAt, UpZ)
  }

  /** `LookAtBox` divides by the tangent of half the field of view in every
      face it knows. */
  predicate CanFrame(lib: MathLib, s: CameraState, face: Face) {
    face.Other? || lib.tanOfDegrees(s.fieldOfView / 2.0) != 0.0
  }

  /** The position and up vector the `switch` of `LookAtBox` leaves. */
  function Framed(lib: MathLib, s: CameraState, box: BoundingBox, face: Face): (r: CameraState)
    requires CanFrame(lib, s, face)
  {
    var t := lib.tanOfDegrees(s.fieldOfView / 2.0);
    var midX := (box.maxX + box.minX) / 2.0;
    var midY := (box.maxY + box.minY) / 2.0;
    var midZ := (box.maxZ + box.minZ) / 2.0;
    match face
    case Front =>
      var d := StandoffDistance(box.maxX - box.minX, box.maxZ - box.minZ, box.maxY, t);
      s.(position := Vec3(midX, d, midZ), upVector := UpZ)
    case Left =>
      var d := StandoffDistance(box.maxY - box.minY, box.maxZ - box.minZ, box.maxX, t);
      s.(position := Vec3(d, midY, midZ), upVector := UpZ)
    case Right =>
      var d := StandoffDistance(box.maxY - box.minY, box.maxZ - box.minZ, box.maxX, t);
      s.(position := Vec3(-d, midY, midZ), upVector := UpZ)
    case Back =>
      var d := StandoffDistance(box.maxX - box.minX, box.maxZ - box.minZ, box.maxY, t);
      s.(position := Vec3(midX, -d, midZ), upVector := UpZ)
    case Top =>
      var d := StandoffDistance(box.maxX - box.minX, box.maxY - box.minY, box.maxZ, t);
      s.(position := Vec3(midX, midY, d), upVector := UpY)
    case Bottom =>
      var d := StandoffDistance(box.maxX - box.minX, box.maxY - box.minY, box.maxZ, t);
      s.(position := Vec3(midX, midY, -d), upVector := UpY)
    case Other(_) => s
  }

  function LookAtBox(lib: MathLib, s: CameraState, box: BoundingBox, face: Face): (r: CameraState)
    requires CanFrame(lib, s, face)
  {
    SetTarget(lib, Framed(lib, s, box, face), box.centerPoint)
  }

  // ------------------------------------------------------------------- rotation

  /** A rotation step: the matrix `rotationMatrix` holds afterwards, and the state. */
  datatype RotationStep = RotationStep(matrix: Matrix4, state: CameraState)

  /** The yaw block of `Rotate`: right and look turned about up. */
  function YawStep(lib: MathLib, r: RotationStep, yaw: real): (next: RotationStep) {
    if yaw != 0.0 then
      var m := lib.rotate(r.matrix, r.state.upVector, yaw);
      RotationStep(m, r.state.(rightVector := lib.transform(r.state.rightVector, m),
                               lookAt := lib.transform(r.state.lookAt, m)))
    else r
  }

  /** The pitch block of `Rotate`: up and look turned about right. */
  function PitchStep(lib: MathLib, r: RotationStep, pitch: real): (next: RotationStep) {
    if pitch != 0.0 then
      var m := lib.rotate(r.matrix, r.state.rightVector, pitch);
      RotationStep(m, r.state.(upVector := lib.transform(r.state.upVector, m),
                               lookAt := lib.transform(r.state.lookAt, m)))
    else r
  }

  /** The roll block of `Rotate`: up and right turned about look. */
  function RollStep(lib: MathLib, r: RotationStep, roll: real): (next: RotationStep) {
    if roll != 0.0 then
      var m := lib.rotate(r.matrix, r.state.lookAt, roll);
      RotationStep(m, r.state.(upVector := lib.transform(r.state.upVector, m),
                               rightVector := lib.transform(r.state.rightVector, m)))
    else r
  }

  /** One `rotationMatrix` is threaded through all three blocks. */
  function Rotate(lib: MathLib, s: CameraState, yaw: real, pitch: real, roll: real): (r: CameraState) {
    var r0 := RotationStep(lib.initialMatrix, s);
    RollStep(lib, PitchStep(lib, YawStep(lib, r0, yaw), pitch), roll).state
  }

  function RotateYaw(lib: MathLib, s: CameraState, yaw: real): (r: CameraState) {
    YawStep(lib, RotationStep(lib.initialMatrix, s), yaw).state
  }

  function RotatePitch(lib: MathLib, s: CameraState, pitch: real): (r: CameraState) {
    PitchStep(lib, RotationStep(lib.initialMatrix, s), pitch).state
  }

  function RotateRoll(lib: MathLib, s: CameraState, roll: real): (r: CameraState) {
    RollStep(lib, RotationStep(lib.initialMatrix, s), roll).state
  }

  /** The focus vector after the yaw (about up) and pitch (about right) of the
      orbit operations, each with a matrix of its own; roll is never used. */
  function OrbitFocus(lib: MathLib, s: CameraState, focus: Vec3, yaw: real, pitch: real): (r: Vec3) {
    var afterYaw := if yaw != 0.0 then lib.transform(focus, lib.rotate(lib.initialMatrix, s.upVector, yaw)) else focus;
    if pitch != 0.0 then lib.transform(afterYaw, lib.rotate(lib.initialMatrix, s.rightVector, pitch)) else afterYaw
  }

  function RotateAroundTarget(lib: MathLib, s: CameraState, yaw: real, pitch: real, roll: real): (r: CameraState) {
    var focus := OrbitFocus(lib, s, Sub(s.position, s.target), yaw, pitch);
    SetLookAt(lib, s.(position := Add(focus, s.target)), s.target)
  }

  function RotateTargetAround(lib: MathLib, s: CameraState, yaw: real, pitch: real, roll: real): (r: CameraState) {
    var focus := OrbitFocus(lib, s, Sub(s.target, s.position), yaw, pitch);
    var s' := s.(target := Add(focus, s.position));
    SetLookAt(lib, s', s'.target)
  }

  // ---------------------------------------------------------------------- moves

  function Move(s: CameraState, movement: Vec3): (r: CameraState) {
    s.(position := Add(s.position, movement))
  }

  /** `Move(x, y, z)`, one coordinate at a time. */
  function MoveXYZ(s: CameraState, x: real, y: real, z: real): (r: CameraState) {
    s.(position := Vec3(s.position.x + x, s.position.y + y, s.position.z + z))
  }

  function MoveForward(s: CameraState, distance: real): (r: CameraState) {
    s.(position := Add(s.position, Scale(s.lookAt, distance)))
  }

  function MoveUpward(s: CameraState, distance: real): (r: CameraState) {
    s.(position := Add(s.position, Scale(s.upVector, distance)))
  }

  function MoveRight(s: CameraState, distance: real): (r: CameraState) {
    s.(position := Add(s.position, Scale(s.rightVector, distance)))
  }

  function MoveCamAndTargetForward(s: CameraState, distance: real): (r: CameraState) {
    s.(position := Add(s.position, Scale(s.lookAt, distance)),
       target := Add(s.target, Scale(s.lookAt, distance)))
  }

  /** Despite its name, moves only the target. */
  function MoveCamAndTargetUpward(s: CameraState, distance: real): (r: CameraState) {
    s.(target := Add(s.target, Scale(s.upVector, distance)))
  }

  /** Despite its name, moves only the target. */
  function MoveCamAndTargetRight(s: CameraState, distance: real): (r: CameraState) {
    s.(target := Add(s.target, Scale(s.rightVector, distance)))
  }

  function MoveTargetForward(s: CameraState, distance: real): (r: CameraState) {
    s.(target := Add(s.target, Scale(s.lookAt, distance)))
  }

  function MoveTargetUpward(s: CameraState, distance: real): (r: CameraState) {
    s.(target := Add(s.target, Scale(s.upVector, distance)))
  }

  function MoveTargetRight(s: CameraState, distance: real): (r: CameraState) {
    s.(target := Add(s.target, Scale(s.rightVector, distance)))
  }

  // ------------------------------------------------------------------- physics

  function AccelForward(s: CameraState, amount: real): (r: CameraState) {
    s.(acceleration := s.acceleration.(z := ClampAbove(s.acceleration.z + amount, s.maxAcceleration.z)))
  }

  function AccelUpward(s: CameraState, amount: real): (r: CameraState) {
    s.(acceleration := s.acceleration.(y := ClampAbove(s.acceleration.y + amount, s.maxAcceleration.y)))
  }

  function AccelRight(s: CameraState, amount: real): (r: CameraState) {
    s.(acceleration := s.acceleration.(x := ClampAbove(s.acceleration.x + amount, s.maxAcceleration.x)))
  }

  function UpdateSpeed(s: CameraState): (r: CameraState) {
    var v := Add(s.speed, s.acceleration);
    s.(speed := Vec3(ClampAbove(v.x, s.maxSpeed.x), ClampAbove(v.y, s.maxSpeed.y), ClampAbove(v.z, s.maxSpeed.z)))
  }

  /** Local-axis speed (x right, y up, z forward) expressed in world space. */
  function WorldVelocity(look: Vec3, up: Vec3, right: Vec3, speed: Vec3): (r: Vec3) {
    Add(Add(Scale(look, speed.z), Scale(up, speed.y)), Scale(right, speed.x))
  }

  function UpdateVelocity(s: CameraState): (r: CameraState) {
    s.(velocity := WorldVelocity(s.lookAt, s.upVector, s.rightVector, s.speed))
  }

  function UpdatePosition(s: CameraState): (r: CameraState) {
    s.(position := Add(s.position, s.velocity))
  }

  // ---------------------------------------------------------------- projections

  function SetPerspectiveProjection(lib: MathLib, s: CameraState, fov: real, aspectRatio: real,
                                    nearClip: real, farClip: real): (r: CameraState) {
    SetFieldOfView(s, fov).(projectionMatrix := lib.perspective(fov, aspectRatio, nearClip, farClip))
  }

  function SetOrthographicProjection(lib: MathLib, s: CameraState, left: real, right: real,
                                     bottom: real, top: real, near: real, far: real): (r: CameraState) {
    s.(projectionMatrix := lib.orthographic(left, right, bottom, top, near, far))
  }

  // -------------------------------------------------------------------- actions

  function ActionMoveCameraPosition(s: CameraState, newPosition: Vec3, axis: Axis): (r: CameraState) {
    match axis
    case XCoord => s.(position := s.position.(x := newPosition.x))
    case YCoord => s.(position := s.position.(y := newPosition.y))
    case ZCoord => s.(position := s.position.(z := newPosition.z))
    case Other(_) => s
  }

  function ActionMoveCameraLookAt(lib: MathLib, s: CameraState, newLookAt: Vec3): (r: CameraState) {
    SetLookAt(lib, s, Sub(s.position, newLookAt))
  }
}
