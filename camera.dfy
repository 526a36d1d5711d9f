/** The `Camera` class of the previewer: its fields are updated in place by every
    method, and each method is proved to leave exactly the state the matching
    function of `CameraSpec` describes. */
module Previewer {
  import opened Geometry
  import opened CameraSpec

  /** Writes column j of m entry by entry, top to bottom. */
  method SetColumn(m: Matrix4, j: nat, c0: real, c1: real, c2: real, c3: real) returns (r: Matrix4)
    requires j < 4
    ensures r[0][j] == c0 && r[1][j] == c1 && r[2][j] == c2 && r[3][j] == c3
    ensures forall a, b | 0 <= a < 4 && 0 <= b < 4 && b != j :: r[a][b] == m[a][b]
  {
    r := WithEntry(m, 0, j, c0);
    r := WithEntry(r, 1, j, c1);
    r := WithEntry(r, 2, j, c2);
    r := WithEntry(r, 3, j, c3);
  }

  /** The sixteen writes of `ConstructViewMatrix`, column by column: whatever m
      held before, the result is the view matrix of the basis and position. */
  method FillViewMatrix(m: Matrix4, right: Vec3, up: Vec3, look: Vec3, position: Vec3) returns (r: Matrix4)
    ensures r == ViewMatrix(right, up, look, position)
  {
    r := SetColumn(m, 0, right.x, right.y, right.z, -Dot(right, position));
    r := SetColumn(r, 1, up.x, up.y, up.z, -Dot(up, position));
    r := SetColumn(r, 2, look.x, look.y, look.z, -Dot(look, position));
    r := SetColumn(r, 3, 0.0, 0.0, 0.0, 1.0);
    SameEntriesSameMatrix(r, ViewMatrix(right, up, look, position));
  }

  class Camera {
    /** The maths library the camera calls. */
    const lib: MathLib

    var cameraPosition: Vec3
    var cameraTarget: Vec3
    var cameraLookAt: Vec3
    var cameraUpVector: Vec3
    var cameraRightVector: Vec3
    var cameraFieldOfView: real
    var cameraViewMatrix: Matrix4
    var cameraProjectionMatrix: Matrix4
    var velocity: Vec3
    var speed: Vec3
    var acceleration: Vec3
    var maxSpeed: Vec3
    var maxAcceleration: Vec3
    var hasFocus: bool

    /** All fields, as one value. */
    ghost function State(): CameraState
      reads this
    {
      CameraState(cameraPosition, cameraTarget, cameraLookAt, cameraUpVector, cameraRightVector,
                  cameraFieldOfView, cameraViewMatrix, cameraProjectionMatrix,
                  velocity, speed, acceleration, maxSpeed, maxAcceleration, hasFocus)
    }

    /** The default constructor's initial values are not part of this model, so
        the caller supplies them. */
    constructor (lib: MathLib, initial: CameraState)
      ensures this.lib == lib && State() == initial
    {
      this.lib := lib;
      cameraPosition := initial.position;
      cameraTarget := initial.target;
      cameraLookAt := initial.lookAt;
      cameraUpVector := initial.upVector;
      cameraRightVector := initial.rightVector;
      cameraFieldOfView := initial.fieldOfView;
      cameraViewMatrix := initial.viewMatrix;
      cameraProjectionMatrix := initial.projectionMatrix;
      velocity := initial.velocity;
      speed := initial.speed;
      acceleration := initial.acceleration;
      maxSpeed := initial.maxSpeed;
      maxAcceleration := initial.maxAcceleration;
      hasFocus := initial.hasFocus;
    }

    // ------------------------------------------------------ orientation, creation

    method SetLookAt(target: Vec3)
      modifies this
      ensures State() == CameraSpec.SetLookAt(lib, old(State()), target)
    {
      cameraLookAt := lib.normalize(Sub(target, cameraPosition));
      cameraRightVector := lib.normalize(lib.cross(cameraUpVector, cameraLookAt));
      cameraUpVector := lib.normalize(lib.cross(cameraLookAt, cameraRightVector));
      ConstructViewMatrix(false);
    }

    method SetFieldOfView(fov: real)
      modifies this
      ensures State() == CameraSpec.SetFieldOfView(old(State()), fov)
    {
      cameraFieldOfView := fov;
    }

    method SetMaxAcceleration(ma: Vec3)
      modifies this
      ensures State() == CameraSpec.SetMaxAcceleration(old(State()), ma)
    {
      maxAcceleration := ma;
    }

    method SetMaxSpeed(ms: Vec3)
      modifies this
      ensures State() == CameraSpec.SetMaxSpeed(old(State()), ms)
    {
      maxSpeed := ms;
    }

    /** `Create(BoundingBox)`: frame the box from the front. */
    method CreateFromBox(box: BoundingBox)
      requires CanFrame(lib, State(), Front)
      modifies this
      ensures State() == CameraSpec.LookAtBox(lib, old(State()), box, Front)
    {
      LookAtBox(box, Front);
    }

    /** `Create(position, lookAt)`. */
    method CreateFacing(position: Vec3, lookAt: Vec3)
      modifies this
      ensures State() == CameraSpec.CreateFacing(lib, old(State()), position, lookAt)
    {
      Create(position, lookAt, Vec3(0.0, 0.0, 1.0));
    }

    method Create(position: Vec3, lookAt: Vec3, up: Vec3)
      modifies this
      ensures State() == CameraSpec.Create(lib, old(State()), position, lookAt, up)
    {
      cameraPosition := position;
      cameraUpVector := up;
      velocity := Vec3(0.0, 0.0, 0.0);
      SetTarget(lookAt);
    }

    /** The one-argument `LookAtBox`, which frames the box from the front. */
    method LookAtBoxFront(box: BoundingBox)
      requires CanFrame(lib, State(), Front)
      modifies this
      ensures State() == CameraSpec.LookAtBox(lib, old(State()), box, Front)
    {
      LookAtBox(box, Front);
    }

    method LookAtBox(box: BoundingBox, face: Face)
      requires CanFrame(lib, State(), face)
      modifies this
      ensures State() == CameraSpec.LookAtBox(lib, old(State()), box, face)
    {
      PlaceForFace(box, face);
      SetTarget(box.centerPoint);
    }

    /** The `switch` of `LookAtBox`: it sets position and up for a known face. */
    method PlaceForFace(box: BoundingBox, face: Face)
      requires CanFrame(lib, State(), face)
      modifies this`cameraPosition, this`cameraUpVector
      ensures State() == Framed(lib, old(State()), box, face)
    {
      var tanHalfFov := lib.tanOfDegrees(cameraFieldOfView / 2.0);
      match face {
        case Front =>
          var distanceFromBox := StandoffDistance(box.maxX - box.minX, box.maxZ - box.minZ, box.maxY, tanHalfFov);
          cameraPosition := cameraPosition.(x := (box.maxX + box.minX) / 2.0);
          cameraPosition := cameraPosition.(y := distanceFromBox);
          cameraPosition := cameraPosition.(z := (box.maxZ + box.minZ) / 2.0);
          cameraUpVector := Vec3(0.0, 0.0, 1.0);
        case Left =>
          var distanceFromBox := StandoffDistance(box.maxY - box.minY, box.maxZ - box.minZ, box.maxX, tanHalfFov);
          cameraPosition := cameraPosition.(x := distanceFromBox);
          cameraPosition := cameraPosition.(y := (box.maxY + box.minY) / 2.0);
          cameraPosition := cameraPosition.(z := (box.maxZ + box.minZ) / 2.0);
          cameraUpVector := Vec3(0.0, 0.0, 1.0);
        case Right =>
          var distanceFromBox := StandoffDistance(box.maxY - box.minY, box.maxZ - box.minZ, box.maxX, tanHalfFov);
          cameraPosition := cameraPosition.(x := -distanceFromBox);
          cameraPosition := cameraPosition.(y := (box.maxY + box.minY) / 2.0);
          cameraPosition := cameraPosition.(z := (box.maxZ + box.minZ) / 2.0);
          cameraUpVector := Vec3(0.0, 0.0, 1.0);
        case Back =>
          var distanceFromBox := StandoffDistance(box.maxX - box.minX, box.maxZ - box.minZ, box.maxY, tanHalfFov);
          cameraPosition := cameraPosition.(x := (box.maxX + box.minX) / 2.0);
          cameraPosition := cameraPosition.(y := -distanceFromBox);
          cameraPosition := cameraPosition.(z := (box.maxZ + box.minZ) / 2.0);
          cameraUpVector := Vec3(0.0, 0.0, 1.0);
        case Top =>
          var distanceFromBox := StandoffDistance(box.maxX - box.minX, box.maxY - box.minY, box.maxZ, tanHalfFov);
          cameraPosition := cameraPosition.(x := (box.maxX + box.minX) / 2.0);
          cameraPosition := cameraPosition.(y := (box.maxY + box.minY) / 2.0);
          cameraPosition := cameraPosition.(z := distanceFromBox);
          cameraUpVector := Vec3(0.0, 1.0, 0.0);
        case Bottom =>
          var distanceFromBox := StandoffDistance(box.maxX - box.minX, box.maxY - box.minY, box.maxZ, tanHalfFov);
          cameraPosition := cameraPosition.(x := (box.maxX + box.minX) / 2.0);
          cameraPosition := cameraPosition.(y := (box.maxY + box.minY) / 2.0);
          cameraPosition := cameraPosition.(z := -distanceFromBox);
          cameraUpVector := Vec3(0.0, 1.0, 0.0);
        case Other(_) =>
      }
    }

    method SetTarget(inTarget: Vec3)
      modifies this
      ensures State() == CameraSpec.SetTarget(lib, old(State()), inTarget)
    {
      cameraTarget := inTarget;
      SetLookAt(cameraTarget);
    }

    // ------------------------------------------------------------------ rotation

    /** `Rotate(vec3f)`: yaw, pitch and roll taken from x, y and z. */
    method RotateBy(rotation: Vec3)
      modifies this
      ensures State() == CameraSpec.Rotate(lib, old(State()), rotation.x, rotation.y, rotation.z)
    {
      Rotate(rotation.x, rotation.y, rotation.z);
    }

    method Rotate(yaw: real, pitch: real, roll: real)
      modifies this
      ensures State() == CameraSpec.Rotate(lib, old(State()), yaw, pitch, roll)
    {
      var rotationMatrix := lib.initialMatrix;
      if yaw != 0.0 {
        rotationMatrix := lib.rotate(rotationMatrix, cameraUpVector, yaw);
        cameraRightVector := lib.transform(cameraRightVector, rotationMatrix);
        cameraLookAt := lib.transform(cameraLookAt, rotationMatrix);
      }
      if pitch != 0.0 {
        rotationMatrix := lib.rotate(rotationMatrix, cameraRightVector, pitch);
        cameraUpVector := lib.transform(cameraUpVector, rotationMatrix);
        cameraLookAt := lib.transform(cameraLookAt, rotationMatrix);
      }
      if roll != 0.0 {
        rotationMatrix := lib.rotate(rotationMatrix, cameraLookAt, roll);
        cameraUpVector := lib.transform(cameraUpVector, rotationMatrix);
        cameraRightVector := lib.transform(cameraRightVector, rotationMatrix);
      }
    }

    method RotateYaw(yaw: real)
      modifies this
      ensures State() == CameraSpec.RotateYaw(lib, old(State()), yaw)
    {
      var rotationMatrix := lib.initialMatrix;
      if yaw != 0.0 {
        rotationMatrix := lib.rotate(rotationMatrix, cameraUpVector, yaw);
        cameraRightVector := lib.transform(cameraRightVector, rotationMatrix);
        cameraLookAt := lib.transform(cameraLookAt, rotationMatrix);
      }
    }

    method RotatePitch(pitch: real)
      modifies this
      ensures State() == CameraSpec.RotatePitch(lib, old(State()), pitch)
    {
      var rotationMatrix := lib.initialMatrix;
      if pitch != 0.0 {
        rotationMatrix := lib.rotate(rotationMatrix, cameraRightVector, pitch);
        cameraUpVector := lib.transform(cameraUpVector, rotationMatrix);
        cameraLookAt := lib.transform(cameraLookAt, rotationMatrix);
      }
    }

    method RotateRoll(roll: real)
      modifies this
      ensures State() == CameraSpec.RotateRoll(lib, old(State()), roll)
    {
      var rotationMatrix := lib.initialMatrix;
      if roll != 0.0 {
        rotationMatrix := lib.rotate(rotationMatrix, cameraLookAt, roll);
        cameraUpVector := lib.transform(cameraUpVector, rotationMatrix);
        cameraRightVector := lib.transform(cameraRightVector, rotationMatrix);
      }
    }

    method RotateAroundTarget(yaw: real, pitch: real, roll: real)
      modifies this
      ensures State() == CameraSpec.RotateAroundTarget(lib, old(State()), yaw, pitch, roll)
    {
      var rotationMtxH := lib.initialMatrix;
      var rotationMtxP := lib.initialMatrix;
      var focusVector := Sub(cameraPosition, cameraTarget);
      if yaw != 0.0 {
        rotationMtxH := lib.rotate(rotationMtxH, cameraUpVector, yaw);
        focusVector := lib.transform(focusVector, rotationMtxH);
      }
      if pitch != 0.0 {
        rotationMtxP := lib.rotate(rotationMtxP, cameraRightVector, pitch);
        focusVector := lib.transform(focusVector, rotationMtxP);
      }
      // roll is accepted and ignored
      cameraPosition := Add(focusVector, cameraTarget);
      SetLookAt(cameraTarget);
    }

    method RotateTargetAround(yaw: real, pitch: real, roll: real)
      modifies this
      ensures State() == CameraSpec.RotateTargetAround(lib, old(State()), yaw, pitch, roll)
    {
      var rotationMtxH := lib.initialMatrix;
      var rotationMtxP := lib.initialMatrix;
      var focusVector := Sub(cameraTarget, cameraPosition);
      if yaw != 0.0 {
        rotationMtxH := lib.rotate(rotationMtxH, cameraUpVector, yaw);
        focusVector := lib.transform(focusVector, rotationMtxH);
      }
      if pitch != 0.0 {
        rotationMtxP := lib.rotate(rotationMtxP, cameraRightVector, pitch);
        focusVector := lib.transform(focusVector, rotationMtxP);
      }
      // roll is accepted and ignored
      cameraTarget := Add(focusVector, cameraPosition);
      SetLookAt(cameraTarget);
    }

    // --------------------------------------------------------------------- moves

    method Move(movement: Vec3)
      modifies this
      ensures State() == CameraSpec.Move(old(State()), movement)
    {
      cameraPosition := Add(cameraPosition, movement);
    }

    /** `Move(x, y, z)`. */
    method MoveXYZ(x: real, y: real, z: real)
      modifies this
      ensures State() == CameraSpec.MoveXYZ(old(State()), x, y, z)
    {
      cameraPosition := cameraPosition.(x := cameraPosition.x + x);
      cameraPosition := cameraPosition.(y := cameraPosition.y + y);
      cameraPosition := cameraPosition.(z := cameraPosition.z + z);
    }

    method MoveForward(distance: real)
      modifies this
      ensures State() == CameraSpec.MoveForward(old(State()), distance)
    {
      cameraPosition := Add(cameraPosition, Scale(cameraLookAt, distance));
    }

    method MoveUpward(distance: real)
      modifies this
      ensures State() == CameraSpec.MoveUpward(old(State()), distance)
    {
      cameraPosition := Add(cameraPosition, Scale(cameraUpVector, distance));
    }

    method MoveRight(distance: real)
      modifies this
      ensures State() == CameraSpec.MoveRight(old(State()), distance)
    {
      cameraPosition := Add(cameraPosition, Scale(cameraRightVector, distance));
    }

    method MoveCamAndTargetForward(distance: real)
      modifies this
      ensures State() == CameraSpec.MoveCamAndTargetForward(old(State()), distance)
    {
      cameraPosition := Add(cameraPosition, Scale(cameraLookAt, distance));
      cameraTarget := Add(cameraTarget, Scale(cameraLookAt, distance));
    }

    method MoveCamAndTargetUpward(distance: real)
      modifies this
      ensures State() == CameraSpec.MoveCamAndTargetUpward(old(State()), distance)
    {
      cameraTarget := Add(cameraTarget, Scale(cameraUpVector, distance));
    }

    method MoveCamAndTargetRight(distance: real)
      modifies this
      ensures State() == CameraSpec.MoveCamAndTargetRight(old(State()), distance)
    {
      cameraTarget := Add(cameraTarget, Scale(cameraRightVector, distance));
    }

    method MoveTargetForward(distance: real)
      modifies this
      ensures State() == CameraSpec.MoveTargetForward(old(State()), distance)
    {
      cameraTarget := Add(cameraTarget, Scale(cameraLookAt, distance));
    }

    method MoveTargetUpward(distance: real)
      modifies this
      ensures State() == CameraSpec.MoveTargetUpward(old(State()), distance)
    {
      cameraTarget := Add(cameraTarget, Scale(cameraUpVector, distance));
    }

    method MoveTargetRight(distance: real)
      modifies this
      ensures State() == CameraSpec.MoveTargetRight(old(State()), distance)
    {
      cameraTarget := Add(cameraTarget, Scale(cameraRightVector, distance));
    }

    // ------------------------------------------------------------------- physics

    method AccelForward(amount: real)
      modifies this
      ensures State() == CameraSpec.AccelForward(old(State()), amount)
    {
      acceleration := acceleration.(z := acceleration.z + amount);
      if acceleration.z > maxAcceleration.z {
        acceleration := acceleration.(z := maxAcceleration.z);
      }
    }

    method AccelUpward(amount: real)
      modifies this
      ensures State() == CameraSpec.AccelUpward(old(State()), amount)
    {
      acceleration := acceleration.(y := acceleration.y + amount);
      if acceleration.y > maxAcceleration.y {
        acceleration := acceleration.(y := maxAcceleration.y);
      }
    }

    /** Declared and left empty: it may change nothing, having no `modifies`. */
    method DecelForward(amount: real)
      ensures State() == old(State())
    {
    }

    /** Declared and left empty. */
    method DecelUpward(amount: real)
      ensures State() == old(State())
    {
    }

    /** Declared and left empty. */
    method DecelRight(amount: real)
      ensures State() == old(State())
    {
    }

    method AccelRight(amount: real)
      modifies this
      ensures State() == CameraSpec.AccelRight(old(State()), amount)
    {
      acceleration := acceleration.(x := acceleration.x + amount);
      if acceleration.x > maxAcceleration.x {
        acceleration := acceleration.(x := maxAcceleration.x);
      }
    }

    method UpdateSpeed()
      modifies this
      ensures State() == CameraSpec.UpdateSpeed(old(State()))
    {
      speed := Add(speed, acceleration);
      if speed.x > maxSpeed.x { speed := speed.(x := maxSpeed.x); }
      if speed.y > maxSpeed.y { speed := speed.(y := maxSpeed.y); }
      if speed.z > maxSpeed.z { speed := speed.(z := maxSpeed.z); }
    }

    method UpdateVelocity()
      modifies this
      ensures State() == CameraSpec.UpdateVelocity(old(State()))
    {
      velocity := Add(Add(Scale(cameraLookAt, speed.z), Scale(cameraUpVector, speed.y)),
                      Scale(cameraRightVector, speed.x));
    }

    method UpdatePosition()
      modifies this
      ensures State() == CameraSpec.UpdatePosition(old(State()))
    {
      cameraPosition := Add(cameraPosition, velocity);
    }

    method SetFocusState(newFocus: bool)
      modifies this
      ensures State() == CameraSpec.SetFocusState(old(State()), newFocus)
    {
      hasFocus := newFocus;
    }

    // --------------------------------------------------------------- projections

    method SetPerspectiveProjection(fov: real, aspectRatio: real, nearClip: real, farClip: real)
      modifies this
      ensures State() == CameraSpec.SetPerspectiveProjection(lib, old(State()), fov, aspectRatio, nearClip, farClip)
    {
      SetFieldOfView(fov);
      cameraProjectionMatrix := lib.perspective(fov, aspectRatio, nearClip, farClip);
    }

    method SetOrthographicProjection(left: real, right: real, bottom: real, top: real, near: real, far: real)
      modifies this
      ensures State() == CameraSpec.SetOrthographicProjection(lib, old(State()), left, right, bottom, top, near, far)
    {
      cameraProjectionMatrix := lib.orthographic(left, right, bottom, top, near, far);
    }

    /** Rebuilds the view matrix and returns it multiplied by the projection. */
    method GetMVPMatrix() returns (mvp: Matrix4)
      modifies this
      ensures (State(), mvp) == MVPMatrix(lib, old(State()))
      ensures mvp == lib.multiply(cameraViewMatrix, cameraProjectionMatrix)
    {
      ConstructViewMatrix(true);
      mvp := lib.multiply(cameraViewMatrix, cameraProjectionMatrix);
    }

    /** Rebuilds the view matrix and returns it. */
    method GetViewMatrix() returns (view: Matrix4)
      modifies this
      ensures State() == CameraSpec.ConstructViewMatrix(lib, old(State()), true)
      ensures view == cameraViewMatrix
    {
      ConstructViewMatrix(true);
      view := cameraViewMatrix;
    }

    method ConstructViewMatrix(orthogonalizeAxes: bool)
      modifies this
      ensures State() == CameraSpec.ConstructViewMatrix(lib, old(State()), orthogonalizeAxes)
    {
      if orthogonalizeAxes {
        cameraLookAt := lib.normalize(cameraLookAt);
        cameraRightVector := lib.normalize(lib.cross(cameraUpVector, cameraLookAt));
        cameraUpVector := lib.normalize(lib.cross(cameraLookAt, cameraRightVector));
      }
      var m := FillViewMatrix(cameraViewMatrix, cameraRightVector, cameraUpVector, cameraLookAt, cameraPosition);
      cameraViewMatrix := m;
    }

    // ------------------------------------------------------------------- actions

    method ActionMoveCameraPosition(newPosition: Vec3, axis: Axis)
      modifies this
      ensures State() == CameraSpec.ActionMoveCameraPosition(old(State()), newPosition, axis)
    {
      match axis {
        case XCoord => cameraPosition := cameraPosition.(x := newPosition.x);
        case YCoord => cameraPosition := cameraPosition.(y := newPosition.y);
        case ZCoord => cameraPosition := cameraPosition.(z := newPosition.z);
        case Other(_) =>
      }
    }

    method ActionMoveCameraLookAt(newLookAt: Vec3)
      modifies this
      ensures State() == CameraSpec.ActionMoveCameraLookAt(lib, old(State()), newLookAt)
    {
      SetLookAt(Sub(cameraPosition, newLookAt));
    }
  }
}
