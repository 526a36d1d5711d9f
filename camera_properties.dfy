/** What one call of each camera operation does, stated over `CameraSpec`. */
module CameraProperties {
  import opened Geometry
  import opened CameraSpec

  // ------------------------------------------------------------------- clamping

  /** The touched acceleration axis ends at most at its maximum; below the
      maximum the amount is added in full, whatever its sign; nothing else moves. */
  lemma AccelForwardClamps(s: CameraState, amount: real)
    ensures var r := AccelForward(s, amount);
      && r.acceleration.z <= s.maxAcceleration.z
      && (s.acceleration.z + amount <= s.maxAcceleration.z ==> r.acceleration.z == s.acceleration.z + amount)
      && (s.acceleration.z + amount > s.maxAcceleration.z ==> r.acceleration.z == s.maxAcceleration.z)
      && r.acceleration.x == s.acceleration.x && r.acceleration.y == s.acceleration.y
      && r.(acceleration := s.acceleration) == s
  {
  }

  lemma AccelUpwardClamps(s: CameraState, amount: real)
    ensures var r := AccelUpward(s, amount);
      && r.acceleration.y <= s.maxAcceleration.y
      && (s.acceleration.y + amount <= s.maxAcceleration.y ==> r.acceleration.y == s.acceleration.y + amount)
      && (s.acceleration.y + amount > s.maxAcceleration.y ==> r.acceleration.y == s.maxAcceleration.y)
      && r.acceleration.x == s.acceleration.x && r.acceleration.z == s.acceleration.z
      && r.(acceleration := s.acceleration) == s
  {
  }

  lemma AccelRightClamps(s: CameraState, amount: real)
    ensures var r := AccelRight(s, amount);
      && r.acceleration.x <= s.maxAcceleration.x
      && (s.acceleration.x + amount <= s.maxAcceleration.x ==> r.acceleration.x == s.acceleration.x + amount)
      && (s.acceleration.x + amount > s.maxAcceleration.x ==> r.acceleration.x == s.maxAcceleration.x)
      && r.acceleration.y == s.acceleration.y && r.acceleration.z == s.acceleration.z
      && r.(acceleration := s.acceleration) == s
  {
  }

  /** Each speed axis becomes min(speed + acceleration, maxSpeed); no lower
      bound is applied; only the speed changes. */
  lemma UpdateSpeedClamps(s: CameraState)
    ensures var r := UpdateSpeed(s);
      && r.speed.x == ClampAbove(s.speed.x + s.acceleration.x, s.maxSpeed.x)
      && r.speed.y == ClampAbove(s.speed.y + s.acceleration.y, s.maxSpeed.y)
      && r.speed.z == ClampAbove(s.speed.z + s.acceleration.z, s.maxSpeed.z)
      && r.speed.x <= s.maxSpeed.x && r.speed.y <= s.maxSpeed.y && r.speed.z <= s.maxSpeed.z
      && r.(speed := s.speed) == s
  {
  }

  // ---------------------------------------------------- velocity and position

  /** The camera's basis is orthonormal: what the source keeps re-deriving. */
  ghost predicate Orthonormal(look: Vec3, up: Vec3, right: Vec3) {
    && Dot(look, look) == 1.0 && Dot(up, up) == 1.0 && Dot(right, right) == 1.0
    && Dot(look, up) == 0.0 && Dot(look, right) == 0.0 && Dot(up, right) == 0.0
  }

  lemma DotOfCombination(a: Vec3, b: Vec3, c: Vec3, p: real, q: real, t: real, d: Vec3)
    ensures Dot(Add(Add(Scale(a, p), Scale(b, q)), Scale(c, t)), d)
         == p * Dot(a, d) + q * Dot(b, d) + t * Dot(c, d)
  {
  }

  /** `UpdateVelocity` changes only the velocity, and over an orthonormal basis
      the velocity's components along forward, up and right are exactly the
      z, y and x speeds. */
  lemma UpdateVelocityProjectsSpeed(s: CameraState)
    ensures UpdateVelocity(s).(velocity := s.velocity) == s
    ensures Orthonormal(s.lookAt, s.upVector, s.rightVector) ==>
      var v := UpdateVelocity(s).velocity;
      && Dot(v, s.lookAt) == s.speed.z
      && Dot(v, s.upVector) == s.speed.y
      && Dot(v, s.rightVector) == s.speed.x
  {
    var a, b, c := s.lookAt, s.upVector, s.rightVector;
    var v := UpdateVelocity(s).velocity;
    DotOfCombination(a, b, c, s.speed.z, s.speed.y, s.speed.x, a);
    DotOfCombination(a, b, c, s.speed.z, s.speed.y, s.speed.x, b);
    DotOfCombination(a, b, c, s.speed.z, s.speed.y, s.speed.x, c);
    if Orthonormal(a, b, c) {
      assert Dot(b, a) == 0.0 && Dot(c, a) == 0.0 && Dot(c, b) == 0.0;
    }
  }

  /** `UpdatePosition` adds the velocity to the position and changes nothing else. */
  lemma UpdatePositionAddsVelocity(s: CameraState)
    ensures Sub(UpdatePosition(s).position, s.position) == s.velocity
    ensures UpdatePosition(s).(position := s.position) == s
  {
  }

  // --------------------------------------------------------------------- moves

  /** Every position move changes the position by its offset and nothing else. */
  lemma PositionMovesChangeOnlyPosition(s: CameraState, movement: Vec3, x: real, y: real, z: real, d: real)
    ensures Sub(Move(s, movement).position, s.position) == movement
    ensures Move(s, movement).(position := s.position) == s
    ensures MoveXYZ(s, x, y, z) == Move(s, Vec3(x, y, z))
    ensures Sub(MoveForward(s, d).position, s.position) == Scale(s.lookAt, d)
    ensures MoveForward(s, d).(position := s.position) == s
    ensures Sub(MoveUpward(s, d).position, s.position) == Scale(s.upVector, d)
    ensures MoveUpward(s, d).(position := s.position) == s
    ensures Sub(MoveRight(s, d).position, s.position) == Scale(s.rightVector, d)
    ensures MoveRight(s, d).(position := s.position) == s
  {
  }

  /** Moving by `d` and then by `-d` along the same local axis restores the
      whole state, exactly over reals. */
  lemma MoveThereAndBack(s: CameraState, d: real)
    ensures MoveForward(MoveForward(s, d), -d) == s
    ensures MoveUpward(MoveUpward(s, d), -d) == s
    ensures MoveRight(MoveRight(s, d), -d) == s
  {
  }

  /** `MoveCamAndTargetForward` shifts position and target by the same vector,
      so the offset from camera to target is preserved. */
  lemma MoveCamAndTargetForwardKeepsOffset(s: CameraState, d: real)
    ensures var r := MoveCamAndTargetForward(s, d);
      && Sub(r.target, r.position) == Sub(s.target, s.position)
      && Sub(r.position, s.position) == Scale(s.lookAt, d)
      && r.(position := s.position, target := s.target) == s
  {
  }

  /** The upward and right "camera and target" moves leave the camera where it
      is: they are the target-only moves under another name. */
  lemma MoveCamAndTargetSidewaysMovesOnlyTarget(s: CameraState, d: real)
    ensures MoveCamAndTargetUpward(s, d) == MoveTargetUpward(s, d)
    ensures MoveCamAndTargetRight(s, d) == MoveTargetRight(s, d)
    ensures MoveCamAndTargetUpward(s, d).position == s.position
    ensures MoveCamAndTargetRight(s, d).position == s.position
  {
  }

  /** The target moves change the target by their offset and nothing else. */
  lemma TargetMovesChangeOnlyTarget(s: CameraState, d: real)
    ensures Sub(MoveTargetForward(s, d).target, s.target) == Scale(s.lookAt, d)
    ensures MoveTargetForward(s, d).(target := s.target) == s
    ensures Sub(MoveTargetUpward(s, d).target, s.target) == Scale(s.upVector, d)
    ensures MoveTargetUpward(s, d).(target := s.target) == s
    ensures Sub(MoveTargetRight(s, d).target, s.target) == Scale(s.rightVector, d)
    ensures MoveTargetRight(s, d).(target := s.target) == s
  {
  }

  // ------------------------------------------------------------------ rotations

  /** All three angles zero: nothing changes. */
  lemma RotateZeroIsNoOp(lib: MathLib, s: CameraState)
    ensures Rotate(lib, s, 0.0, 0.0, 0.0) == s
    ensures RotateYaw(lib, s, 0.0) == s
    ensures RotatePitch(lib, s, 0.0) == s
    ensures RotateRoll(lib, s, 0.0) == s
  {
  }

  /** The state apart from the three basis vectors. */
  function WithoutBasis(s: CameraState): CameraState {
    s.(lookAt := Origin, upVector := Origin, rightVector := Origin)
  }

  /** Each rotation block changes only the basis vectors it turns. */
  lemma StepsTouchOnlyTheirVectors(lib: MathLib, r: RotationStep, a: real)
    ensures WithoutBasis(YawStep(lib, r, a).state) == WithoutBasis(r.state)
    ensures YawStep(lib, r, a).state.upVector == r.state.upVector
    ensures WithoutBasis(PitchStep(lib, r, a).state) == WithoutBasis(r.state)
    ensures PitchStep(lib, r, a).state.rightVector == r.state.rightVector
    ensures WithoutBasis(RollStep(lib, r, a).state) == WithoutBasis(r.state)
    ensures RollStep(lib, r, a).state.lookAt == r.state.lookAt
  {
  }

  /** No rotation moves the position or the target, or rebuilds the view matrix;
      yaw keeps up, pitch keeps right, roll keeps look. */
  lemma RotationsTouchOnlyTheBasis(lib: MathLib, s: CameraState, yaw: real, pitch: real, roll: real)
    ensures WithoutBasis(Rotate(lib, s, yaw, pitch, roll)) == WithoutBasis(s)
    ensures WithoutBasis(RotateYaw(lib, s, yaw)) == WithoutBasis(s)
    ensures WithoutBasis(RotatePitch(lib, s, pitch)) == WithoutBasis(s)
    ensures WithoutBasis(RotateRoll(lib, s, roll)) == WithoutBasis(s)
    ensures RotateYaw(lib, s, yaw).upVector == s.upVector
    ensures RotatePitch(lib, s, pitch).rightVector == s.rightVector
    ensures RotateRoll(lib, s, roll).lookAt == s.lookAt
  {
    var r0 := RotationStep(lib.initialMatrix, s);
    StepsTouchOnlyTheirVectors(lib, r0, yaw);
    StepsTouchOnlyTheirVectors(lib, r0, pitch);
    StepsTouchOnlyTheirVectors(lib, r0, roll);
    var r1 := YawStep(lib, r0, yaw);
    StepsTouchOnlyTheirVectors(lib, r1, pitch);
    StepsTouchOnlyTheirVectors(lib, PitchStep(lib, r1, pitch), roll);
  }

  /** With a single non-zero angle, `Rotate` is the matching single-axis rotation. */
  lemma RotateOneAngle(lib: MathLib, s: CameraState, a: real)
    ensures Rotate(lib, s, a, 0.0, 0.0) == RotateYaw(lib, s, a)
    ensures Rotate(lib, s, 0.0, a, 0.0) == RotatePitch(lib, s, a)
    ensures Rotate(lib, s, 0.0, 0.0, a) == RotateRoll(lib, s, a)
  {
  }

  /** If `rotate` overwrites the matrix instead of composing with it, reusing one
      matrix makes no difference: `Rotate` is yaw, then pitch, then roll, each
      turning the basis the previous one left. */
  lemma RotateIsSequentialWhenRotateOverwrites(lib: MathLib, s: CameraState, yaw: real, pitch: real, roll: real)
    requires RotateOverwrites(lib)
    ensures Rotate(lib, s, yaw, pitch, roll)
         == RotateRoll(lib, RotatePitch(lib, RotateYaw(lib, s, yaw), pitch), roll)
  {
    var r1 := YawStep(lib, RotationStep(lib.initialMatrix, s), yaw);
    var r2 := PitchStep(lib, r1, pitch);
    var q2 := PitchStep(lib, RotationStep(lib.initialMatrix, r1.state), pitch);
    assert r2.state == q2.state by {
      if pitch != 0.0 {
        assert lib.rotate(r1.matrix, r1.state.rightVector, pitch)
            == lib.rotate(lib.initialMatrix, r1.state.rightVector, pitch);
      }
    }
    if roll != 0.0 {
      assert lib.rotate(r2.matrix, r2.state.lookAt, roll)
          == lib.rotate(lib.initialMatrix, r2.state.lookAt, roll);
    }
  }

  // ------------------------------------------------------------------ orbiting

  /** Orbiting the camera about the target: the target stays, the position is
      the target plus the turned focus vector, and the roll has no effect. */
  lemma RotateAroundTargetKeepsTarget(lib: MathLib, s: CameraState, yaw: real, pitch: real, roll: real)
    ensures var r := RotateAroundTarget(lib, s, yaw, pitch, roll);
      && r.target == s.target
      && Sub(r.position, s.target) == OrbitFocus(lib, s, Sub(s.position, s.target), yaw, pitch)
      && r.lookAt == lib.normalize(Sub(s.target, r.position))
      && r == RotateAroundTarget(lib, s, yaw, pitch, 0.0)
  {
    AddSubCancel(OrbitFocus(lib, s, Sub(s.position, s.target), yaw, pitch), s.target);
  }

  /** Turning the target about the camera: the position stays, the target is the
      position plus the turned focus vector, and the roll has no effect. */
  lemma RotateTargetAroundKeepsPosition(lib: MathLib, s: CameraState, yaw: real, pitch: real, roll: real)
    ensures var r := RotateTargetAround(lib, s, yaw, pitch, roll);
      && r.position == s.position
      && Sub(r.target, s.position) == OrbitFocus(lib, s, Sub(s.target, s.position), yaw, pitch)
      && r.lookAt == lib.normalize(Sub(r.target, s.position))
      && r == RotateTargetAround(lib, s, yaw, pitch, 0.0)
  {
    AddSubCancel(OrbitFocus(lib, s, Sub(s.target, s.position), yaw, pitch), s.position);
  }

  /** With both yaw and pitch zero, the orbits only re-aim at the unchanged target. */
  lemma OrbitWithoutAnglesOnlyReaims(lib: MathLib, s: CameraState, roll: real)
    ensures RotateAroundTarget(lib, s, 0.0, 0.0, roll) == SetLookAt(lib, s, s.target)
    ensures RotateTargetAround(lib, s, 0.0, 0.0, roll) == SetLookAt(lib, s, s.target)
  {
    AddSubCancel(s.position, s.target);
    AddSubCancel(s.target, s.position);
  }

  /** If the library's rotations keep lengths, both orbits keep the distance
      between camera and target. */
  lemma OrbitsKeepDistance(lib: MathLib, s: CameraState, yaw: real, pitch: real, roll: real)
    requires RotationsKeepLength(lib)
    ensures var r := RotateAroundTarget(lib, s, yaw, pitch, roll);
      LengthSquared(Sub(r.position, r.target)) == LengthSquared(Sub(s.position, s.target))
    ensures var r := RotateTargetAround(lib, s, yaw, pitch, roll);
      LengthSquared(Sub(r.target, r.position)) == LengthSquared(Sub(s.target, s.position))
  {
    RotateAroundTargetKeepsTarget(lib, s, yaw, pitch, roll);
    RotateTargetAroundKeepsPosition(lib, s, yaw, pitch, roll);
    OrbitFocusKeepsLength(lib, s, Sub(s.position, s.target), yaw, pitch);
    OrbitFocusKeepsLength(lib, s, Sub(s.target, s.position), yaw, pitch);
  }

  lemma OrbitFocusKeepsLength(lib: MathLib, s: CameraState, focus: Vec3, yaw: real, pitch: real)
    requires RotationsKeepLength(lib)
    ensures LengthSquared(OrbitFocus(lib, s, focus, yaw, pitch)) == LengthSquared(focus)
  {
    var afterYaw := if yaw != 0.0 then lib.transform(focus, lib.rotate(lib.initialMatrix, s.upVector, yaw)) else focus;
    assert LengthSquared(afterYaw) == LengthSquared(focus);
  }

  // ------------------------------------------------------------------- framing

  /** For each face, two coordinates of the position are the box's midpoints and
      the third is plus or minus the standoff distance; up is (0, 0, 1) or
      (0, 1, 0) when the right vector is re-derived; the target is always the
      box's centre point; an unknown face leaves the position where it was. */
  lemma LookAtBoxPlacesCamera(lib: MathLib, s: CameraState, box: BoundingBox, face: Face)
    requires CanFrame(lib, s, face)
    ensures var r := LookAtBox(lib, s, box, face);
      && r.target == box.centerPoint
      && r.lookAt == lib.normalize(Sub(box.centerPoint, r.position))
    ensures var r := LookAtBox(lib, s, box, face);
      var t := lib.tanOfDegrees(s.fieldOfView / 2.0);
      var midX, midY, midZ := (box.maxX + box.minX) / 2.0, (box.maxY + box.minY) / 2.0, (box.maxZ + box.minZ) / 2.0;
      && (face == Front ==> (r.position.x == midX && r.position.z == midZ
            && r.position.y == StandoffDistance(box.maxX - box.minX, box.maxZ - box.minZ, box.maxY, t)))
      && (face == Back ==> (r.position.x == midX && r.position.z == midZ
            && -r.position.y == StandoffDistance(box.maxX - box.minX, box.maxZ - box.minZ, box.maxY, t)))
      && (face == Left ==> (r.position.y == midY && r.position.z == midZ
            && r.position.x == StandoffDistance(box.maxY - box.minY, box.maxZ - box.minZ, box.maxX, t)))
      && (face == Right ==> (r.position.y == midY && r.position.z == midZ
            && -r.position.x == StandoffDistance(box.maxY - box.minY, box.maxZ - box.minZ, box.maxX, t)))
      && (face == Top ==> (r.position.x == midX && r.position.y == midY
            && r.position.z == StandoffDistance(box.maxX - box.minX, box.maxY - box.minY, box.maxZ, t)))
      && (face == Bottom ==> (r.position.x == midX && r.position.y == midY
            && -r.position.z == StandoffDistance(box.maxX - box.minX, box.maxY - box.minY, box.maxZ, t)))
    ensures var r := LookAtBox(lib, s, box, face);
      && (face in {Front, Back, Left, Right} ==> r.rightVector == lib.normalize(lib.cross(UpZ, r.lookAt)))
      && (face in {Top, Bottom} ==> r.rightVector == lib.normalize(lib.cross(UpY, r.lookAt)))
      && (face.Other? ==> (r.position == s.position
            && r.rightVector == lib.normalize(lib.cross(s.upVector, r.lookAt))))
  {
  }

  /** Back, Right and Bottom negate the standoff that Front, Left and Top use:
      each opposite view is the mirror image of its partner through the plane
      through the world origin, not through the box. */
  lemma OppositeFacesMirror(lib: MathLib, s: CameraState, box: BoundingBox)
    requires lib.tanOfDegrees(s.fieldOfView / 2.0) != 0.0
    ensures var front, back := Framed(lib, s, box, Front).position, Framed(lib, s, box, Back).position;
      back == Vec3(front.x, -front.y, front.z)
    ensures var left, right := Framed(lib, s, box, Left).position, Framed(lib, s, box, Right).position;
      right == Vec3(-left.x, left.y, left.z)
    ensures var top, bottom := Framed(lib, s, box, Top).position, Framed(lib, s, box, Bottom).position;
      bottom == Vec3(top.x, top.y, -top.z)
  {
  }

  /** With `d` the front standoff, the back view stands at y = -d. It stands
      as far beyond the minY face as the front view stands beyond the maxY face
      exactly when the box is centred on y = 0 (minY + maxY == 0); it is beyond
      the minY face at all exactly when minY + maxY + (d - maxY) > 0, and beyond
      the maxY face, on the front view's side, exactly when 2 maxY + (d - maxY) < 0. */
  lemma BackViewMirrorsOnlyCentredBoxes(lib: MathLib, s: CameraState, box: BoundingBox)
    requires lib.tanOfDegrees(s.fieldOfView / 2.0) != 0.0
    ensures var d := StandoffDistance(box.maxX - box.minX, box.maxZ - box.minZ, box.maxY,
                                      lib.tanOfDegrees(s.fieldOfView / 2.0));
      var y := Framed(lib, s, box, Back).position.y;
      && y == -d
      && (y == box.minY - (d - box.maxY) <==> box.minY + box.maxY == 0.0)
      && (y < box.minY <==> box.minY + box.maxY + (d - box.maxY) > 0.0)
      && (y > box.maxY <==> 2.0 * box.maxY + (d - box.maxY) < 0.0)
  {
  }

  /** A box below the origin: with y in [-12, -10], a 2 x 2 cross-section and
      tan(fov / 2) = 1, the back view stands at y = 9, above the box's maxY
      face, which is the side the front view looks from (at y = -9). */
  lemma BackViewOfOffCentreBox(lib: MathLib, s: CameraState, box: BoundingBox)
    requires lib.tanOfDegrees(s.fieldOfView / 2.0) == 1.0
    requires box == BoundingBox(-1.0, 1.0, -12.0, -10.0, -1.0, 1.0, Vec3(0.0, -11.0, 0.0))
    ensures LookAtBox(lib, s, box, Back).position == Vec3(0.0, 9.0, 0.0)
    ensures LookAtBox(lib, s, box, Back).position.y > box.maxY
  {
    assert StandoffDistance(2.0, 2.0, -10.0, 1.0) == -9.0;
    var back := Framed(lib, s, box, Back);
    assert back.position == Vec3(0.0, 9.0, 0.0);
    assert LookAtBox(lib, s, box, Back) == SetTarget(lib, back, box.centerPoint);
  }

  /** A unit cube about the origin and a field of view whose half has tangent 1
      (90 degrees): the front view puts the camera at (0, 1, 0) looking at the
      origin. */
  lemma FrontViewOfUnitCube(lib: MathLib, s: CameraState, cube: BoundingBox)
    requires lib.tanOfDegrees(s.fieldOfView / 2.0) == 1.0
    requires cube == BoundingBox(-0.5, 0.5, -0.5, 0.5, -0.5, 0.5, Origin)
    ensures LookAtBox(lib, s, cube, Front).position == Vec3(0.0, 1.0, 0.0)
    ensures LookAtBox(lib, s, cube, Front).target == Origin
  {
    var framed := Framed(lib, s, cube, Front);
    assert framed.position == Vec3(0.0, 1.0, 0.0);
    assert LookAtBox(lib, s, cube, Front) == SetTarget(lib, framed, Origin);
  }

  // --------------------------------------------------------------- view matrix

  /** The layout of the view matrix: rows 0 to 2 hold the x, y and z components
      of right, up and look; row 3 holds the negated dot products with the
      position; column 3 is (0, 0, 0, 1). */
  lemma ViewMatrixLayout(right: Vec3, up: Vec3, look: Vec3, p: Vec3)
    ensures var m := ViewMatrix(right, up, look, p);
      && m[0][3] == 0.0 && m[1][3] == 0.0 && m[2][3] == 0.0 && m[3][3] == 1.0
      && m[0][0] == right.x && m[1][0] == right.y && m[2][0] == right.z
      && m[0][1] == up.x && m[1][1] == up.y && m[2][1] == up.z
      && m[0][2] == look.x && m[1][2] == look.y && m[2][2] == look.z
      && m[3][0] == -Dot(right, p) && m[3][1] == -Dot(up, p) && m[3][2] == -Dot(look, p)
  {
  }

  /** A point as a row vector with w = 1, times a matrix. */
  function PointTimes(q: Vec3, m: Matrix4): seq<real> {
    [Column(q, m, 0), Column(q, m, 1), Column(q, m, 2), Column(q, m, 3)]
  }

  /** Entry j of that product. */
  function Column(q: Vec3, m: Matrix4, j: nat): real
    requires j < 4
  {
    q.x * m[0][j] + q.y * m[1][j] + q.z * m[2][j] + m[3][j]
  }

  /** One column of a point times a matrix whose column holds a, a.y, a.z and -a . p. */
  lemma ColumnMeasures(q: Vec3, a: Vec3, p: Vec3, c0: real, c1: real, c2: real, c3: real)
    requires c0 == a.x && c1 == a.y && c2 == a.z && c3 == -Dot(a, p)
    ensures q.x * c0 + q.y * c1 + q.z * c2 + c3 == Dot(a, Sub(q, p))
  {
    DotSub(a, p, q);
  }

  /** What the view matrix means: a world point q, as a row vector, comes out as
      its offset from the camera measured along right, up and look. */
  lemma ViewMatrixMeasuresFromCamera(right: Vec3, up: Vec3, look: Vec3, p: Vec3, q: Vec3)
    ensures PointTimes(q, ViewMatrix(right, up, look, p))
         == [Dot(right, Sub(q, p)), Dot(up, Sub(q, p)), Dot(look, Sub(q, p)), 1.0]
  {
    var m := ViewMatrix(right, up, look, p);
    ViewMatrixLayout(right, up, look, p);
    ColumnMeasures(q, right, p, m[0][0], m[1][0], m[2][0], m[3][0]);
    ColumnMeasures(q, up, p, m[0][1], m[1][1], m[2][1], m[3][1]);
    ColumnMeasures(q, look, p, m[0][2], m[1][2], m[2][2], m[3][2]);
    assert Column(q, m, 0) == Dot(right, Sub(q, p));
    assert Column(q, m, 1) == Dot(up, Sub(q, p));
    assert Column(q, m, 2) == Dot(look, Sub(q, p));
    assert Column(q, m, 3) == 1.0;
  }

  /** In particular the camera position itself maps to the origin. */
  lemma ViewMatrixSendsCameraToOrigin(right: Vec3, up: Vec3, look: Vec3, p: Vec3)
    ensures PointTimes(p, ViewMatrix(right, up, look, p)) == [0.0, 0.0, 0.0, 1.0]
  {
    ViewMatrixMeasuresFromCamera(right, up, look, p, p);
    assert Sub(p, p) == Origin;
  }

  /** Rebuilding the view matrix never moves the camera or the target and
      touches nothing but the basis and the view matrix; without
      re-orthogonalisation it keeps the basis too. */
  lemma ConstructViewMatrixTouchesOnlyView(lib: MathLib, s: CameraState, orthogonalizeAxes: bool)
    ensures var r := ConstructViewMatrix(lib, s, orthogonalizeAxes);
      && WithoutBasis(r).(viewMatrix := s.viewMatrix) == WithoutBasis(s)
      && r.viewMatrix == ViewMatrix(r.rightVector, r.upVector, r.lookAt, s.position)
      && (!orthogonalizeAxes ==> r == s.(viewMatrix := r.viewMatrix))
  {
  }

  /** `SetLookAt(t)` is the re-orthogonalising rebuild applied with look set to
      the raw direction t - position; it keeps position and target. */
  lemma SetLookAtIsRebuildTowards(lib: MathLib, s: CameraState, t: Vec3)
    ensures SetLookAt(lib, s, t) == ConstructViewMatrix(lib, s.(lookAt := Sub(t, s.position)), true)
    ensures SetLookAt(lib, s, t).position == s.position && SetLookAt(lib, s, t).target == s.target
  {
  }

  /** Setting the same target twice: the second call finds the same position and
      so the same look direction. */
  lemma SetTargetTwiceSameLook(lib: MathLib, s: CameraState, p: Vec3)
    ensures var r1 := SetTarget(lib, s, p);
      var r2 := SetTarget(lib, r1, p);
      && r1.target == p && r2.target == p
      && r2.position == r1.position == s.position
      && r2.lookAt == r1.lookAt == lib.normalize(Sub(p, s.position))
  {
  }

  /** If re-deriving right from the derived up gives right back, setting the
      same target a second time changes nothing at all: look, right, up and the
      view matrix are those the first call left. */
  lemma SetTargetIsIdempotent(lib: MathLib, s: CameraState, p: Vec3)
    requires RederivedRightIsStable(lib)
    ensures SetTarget(lib, SetTarget(lib, s, p), p) == SetTarget(lib, s, p)
  {
    var r1 := SetTarget(lib, s, p);
    var look := lib.normalize(Sub(p, s.position));
    assert r1.rightVector == lib.normalize(lib.cross(s.upVector, look));
    assert lib.normalize(lib.cross(r1.upVector, look)) == r1.rightVector;
  }

  /** `Create` places the camera, zeroes the velocity only, aims at the given
      point, and derives right from the given up vector. */
  lemma CreateAimsAtPoint(lib: MathLib, s: CameraState, position: Vec3, lookAt: Vec3, up: Vec3)
    ensures var r := Create(lib, s, position, lookAt, up);
      && r.position == position && r.target == lookAt && r.velocity == Origin
      && r.lookAt == lib.normalize(Sub(lookAt, position))
      && r.rightVector == lib.normalize(lib.cross(up, r.lookAt))
      && r.speed == s.speed && r.acceleration == s.acceleration
    ensures CreateFacing(lib, s, position, lookAt).rightVector
         == lib.normalize(lib.cross(UpZ, lib.normalize(Sub(lookAt, position))))
  {
  }

  // --------------------------------------------------------------- projections

  /** The perspective setter stores its field of view and the projection it
      builds; the orthographic setter keeps the field of view. */
  lemma ProjectionSettersStore(lib: MathLib, s: CameraState, fov: real, aspect: real, n: real, f: real,
                               l: real, r: real, b: real, t: real)
    ensures SetPerspectiveProjection(lib, s, fov, aspect, n, f).fieldOfView == fov
    ensures SetPerspectiveProjection(lib, s, fov, aspect, n, f).projectionMatrix == lib.perspective(fov, aspect, n, f)
    ensures SetPerspectiveProjection(lib, s, fov, aspect, n, f).(fieldOfView := s.fieldOfView, projectionMatrix := s.projectionMatrix) == s
    ensures SetOrthographicProjection(lib, s, l, r, b, t, n, f).projectionMatrix == lib.orthographic(l, r, b, t, n, f)
    ensures SetOrthographicProjection(lib, s, l, r, b, t, n, f).(projectionMatrix := s.projectionMatrix) == s
  {
  }

  /** The model-view-projection matrix is the freshly rebuilt view matrix times
      the stored projection matrix, and the rebuild keeps the projection. */
  lemma MVPIsViewTimesProjection(lib: MathLib, s: CameraState)
    ensures var (r, mvp) := MVPMatrix(lib, s);
      && r == ConstructViewMatrix(lib, s, true)
      && r.projectionMatrix == s.projectionMatrix
      && mvp == lib.multiply(r.viewMatrix, s.projectionMatrix)
  {
  }

  // ------------------------------------------------------------------- actions

  /** Only the chosen coordinate of the position changes; an unknown axis
      changes nothing. */
  lemma ActionMoveCameraPositionOneAxis(s: CameraState, v: Vec3, axis: Axis)
    ensures var r := ActionMoveCameraPosition(s, v, axis);
      && r.(position := s.position) == s
      && (axis == XCoord ==> r.position == Vec3(v.x, s.position.y, s.position.z))
      && (axis == YCoord ==> r.position == Vec3(s.position.x, v.y, s.position.z))
      && (axis == ZCoord ==> r.position == Vec3(s.position.x, s.position.y, v.z))
      && (axis.Other? ==> r == s)
  {
  }

  /** The argument of `ActionMoveCameraLookAt` is subtracted from the position
      before aiming, so the camera ends up looking along its negation; neither
      position nor target moves. */
  lemma ActionMoveCameraLookAtFacesAway(lib: MathLib, s: CameraState, v: Vec3)
    ensures var r := ActionMoveCameraLookAt(lib, s, v);
      && r.lookAt == lib.normalize(Neg(v))
      && r.position == s.position && r.target == s.target
  {
    assert Sub(Sub(s.position, v), s.position) == Neg(v);
  }
}
