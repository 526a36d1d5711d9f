/** Sequences of calls on one camera, as an application or input layer issues
    them tick after tick, and what every such sequence keeps. */
module CameraRuns {
  import opened Geometry
  import CameraSpec
  import opened CameraProperties

  type CameraState = CameraSpec.CameraState

  /** One call of a public `Camera` operation with its arguments. */
  datatype Command =
    | SetLookAt(point: Vec3)
    | SetTarget(point: Vec3)
    | SetFieldOfView(fov: real)
    | SetMaxAcceleration(limit: Vec3)
    | SetMaxSpeed(limit: Vec3)
    | Create(position: Vec3, lookAt: Vec3, up: Vec3)
    | CreateFacing(position: Vec3, lookAt: Vec3)
    | LookAtBox(box: CameraSpec.BoundingBox, face: CameraSpec.Face)
    | Rotate(yaw: real, pitch: real, roll: real)
    | RotateYaw(angle: real)
    | RotatePitch(angle: real)
    | RotateRoll(angle: real)
    | RotateAroundTarget(yaw: real, pitch: real, roll: real)
    | RotateTargetAround(yaw: real, pitch: real, roll: real)
    | Move(movement: Vec3)
    | MoveXYZ(x: real, y: real, z: real)
    | MoveForward(distance: real)
    | MoveUpward(distance: real)
    | MoveRight(distance: real)
    | MoveCamAndTargetForward(distance: real)
    | MoveCamAndTargetUpward(distance: real)
    | MoveCamAndTargetRight(distance: real)
    | MoveTargetForward(distance: real)
    | MoveTargetUpward(distance: real)
    | MoveTargetRight(distance: real)
    | AccelForward(amount: real)
    | AccelUpward(amount: real)
    | AccelRight(amount: real)
    | DecelForward(amount: real)
    | DecelUpward(amount: real)
    | DecelRight(amount: real)
    | UpdateSpeed
    | UpdateVelocity
    | UpdatePosition
    | SetFocusState(focus: bool)
    | SetPerspectiveProjection(fov: real, aspectRatio: real, nearClip: real, farClip: real)
    | SetOrthographicProjection(left: real, right: real, bottom: real, top: real, near: real, far: real)
    | ConstructViewMatrix(orthogonalizeAxes: bool)
    | ActionMoveCameraPosition(newPosition: Vec3, axis: CameraSpec.Axis)
    | ActionMoveCameraLookAt(newLookAt: Vec3)

  /** Only framing has a precondition: the tangent it divides by is not zero. */
  predicate CanStep(lib: MathLib, s: CameraState, c: Command) {
    c.LookAtBox? ==> CameraSpec.CanFrame(lib, s, c.face)
  }

  /** The state one command leaves. */
  function Step(lib: MathLib, s: CameraState, c: Command): CameraState
    requires CanStep(lib, s, c)
  {
    match c
    case SetLookAt(p) => CameraSpec.SetLookAt(lib, s, p)
    case SetTarget(p) => CameraSpec.SetTarget(lib, s, p)
    case SetFieldOfView(fov) => CameraSpec.SetFieldOfView(s, fov)
    case SetMaxAcceleration(ma) => CameraSpec.SetMaxAcceleration(s, ma)
    case SetMaxSpeed(ms) => CameraSpec.SetMaxSpeed(s, ms)
    case Create(p, l, u) => CameraSpec.Create(lib, s, p, l, u)
    case CreateFacing(p, l) => CameraSpec.CreateFacing(lib, s, p, l)
    case LookAtBox(box, face) => CameraSpec.LookAtBox(lib, s, box, face)
    case Rotate(y, p, r) => CameraSpec.Rotate(lib, s, y, p, r)
    case RotateYaw(a) => CameraSpec.RotateYaw(lib, s, a)
    case RotatePitch(a) => CameraSpec.RotatePitch(lib, s, a)
    case RotateRoll(a) => CameraSpec.RotateRoll(lib, s, a)
    case RotateAroundTarget(y, p, r) => CameraSpec.RotateAroundTarget(lib, s, y, p, r)
    case RotateTargetAround(y, p, r) => CameraSpec.RotateTargetAround(lib, s, y, p, r)
    case Move(v) => CameraSpec.Move(s, v)
    case MoveXYZ(x, y, z) => CameraSpec.MoveXYZ(s, x, y, z)
    case MoveForward(d) => CameraSpec.MoveForward(s, d)
    case MoveUpward(d) => CameraSpec.MoveUpward(s, d)
    case MoveRight(d) => CameraSpec.MoveRight(s, d)
    case MoveCamAndTargetForward(d) => CameraSpec.MoveCamAndTargetForward(s, d)
    case MoveCamAndTargetUpward(d) => CameraSpec.MoveCamAndTargetUpward(s, d)
    case MoveCamAndTargetRight(d) => CameraSpec.MoveCamAndTargetRight(s, d)
    case MoveTargetForward(d) => CameraSpec.MoveTargetForward(s, d)
    case MoveTargetUpward(d) => CameraSpec.MoveTargetUpward(s, d)
    case MoveTargetRight(d) => CameraSpec.MoveTargetRight(s, d)
    case AccelForward(a) => CameraSpec.AccelForward(s, a)
    case AccelUpward(a) => CameraSpec.AccelUpward(s, a)
    case AccelRight(a) => CameraSpec.AccelRight(s, a)
    case DecelForward(_) => s
    case DecelUpward(_) => s
    case DecelRight(_) => s
    case UpdateSpeed => CameraSpec.UpdateSpeed(s)
    case UpdateVelocity => CameraSpec.UpdateVelocity(s)
    case UpdatePosition => CameraSpec.UpdatePosition(s)
    case SetFocusState(f) => CameraSpec.SetFocusState(s, f)
    case SetPerspectiveProjection(fov, a, n, f) => CameraSpec.SetPerspectiveProjection(lib, s, fov, a, n, f)
    case SetOrthographicProjection(l, r, b, t, n, f) => CameraSpec.SetOrthographicProjection(lib, s, l, r, b, t, n, f)
    case ConstructViewMatrix(o) => CameraSpec.ConstructViewMatrix(lib, s, o)
    case ActionMoveCameraPosition(v, axis) => CameraSpec.ActionMoveCameraPosition(s, v, axis)
    case ActionMoveCameraLookAt(v) => CameraSpec.ActionMoveCameraLookAt(lib, s, v)
  }

  /** Every command of the sequence can run in the state the earlier ones leave. */
  predicate CanRun(lib: MathLib, s: CameraState, cs: seq<Command>)
    decreases |cs|
  {
    cs != [] ==> CanStep(lib, s, cs[0]) && CanRun(lib, Step(lib, s, cs[0]), cs[1..])
  }

  function Run(lib: MathLib, s: CameraState, cs: seq<Command>): CameraState
    requires CanRun(lib, s, cs)
    decreases |cs|
  {
    if cs == [] then s else Run(lib, Step(lib, s, cs[0]), cs[1..])
  }

  // -------------------------------------------------------- clamping invariant

  /** Acceleration and speed are at most their maxima, axis by axis. */
  predicate WithinLimits(s: CameraState) {
    && s.acceleration.x <= s.maxAcceleration.x
    && s.acceleration.y <= s.maxAcceleration.y
    && s.acceleration.z <= s.maxAcceleration.z
    && s.speed.x <= s.maxSpeed.x
    && s.speed.y <= s.maxSpeed.y
    && s.speed.z <= s.maxSpeed.z
  }

  /** The setters of the maxima are the only commands that can lower them. */
  predicate KeepsMaxima(c: Command) {
    !c.SetMaxAcceleration? && !c.SetMaxSpeed?
  }

  /** Acceleration, speed and their maxima are the same in both states. */
  predicate SameLimits(s: CameraState, t: CameraState) {
    && s.acceleration == t.acceleration && s.maxAcceleration == t.maxAcceleration
    && s.speed == t.speed && s.maxSpeed == t.maxSpeed
  }

  /** Commands that aim the camera at a point or turn it around one. */
  predicate IsAiming(c: Command) {
    || c.SetLookAt? || c.SetTarget? || c.Create? || c.CreateFacing?
    || c.RotateAroundTarget? || c.RotateTargetAround? || c.ActionMoveCameraLookAt?
  }

  /** Commands that set the lens, the focus flag or the view matrix. */
  predicate IsSetting(c: Command) {
    || c.SetFieldOfView? || c.SetFocusState?
    || c.SetPerspectiveProjection? || c.SetOrthographicProjection? || c.ConstructViewMatrix?
  }

  /** Commands that translate the camera. */
  predicate IsCameraMove(c: Command) {
    || c.Move? || c.MoveXYZ? || c.MoveForward? || c.MoveUpward? || c.MoveRight?
    || c.ActionMoveCameraPosition?
  }

  /** Commands that translate the target, alone or with the camera. */
  predicate IsTargetMove(c: Command) {
    || c.MoveCamAndTargetForward? || c.MoveCamAndTargetUpward? || c.MoveCamAndTargetRight?
    || c.MoveTargetForward? || c.MoveTargetUpward? || c.MoveTargetRight?
  }

  /** The no-op decelerations and the velocity and position updates. */
  predicate IsIntegration(c: Command) {
    || c.DecelForward? || c.DecelUpward? || c.DecelRight?
    || c.UpdateVelocity? || c.UpdatePosition?
  }

  lemma AimingKeepsLimits(lib: MathLib, s: CameraState, c: Command)
    requires IsAiming(c)
    ensures SameLimits(s, Step(lib, s, c))
  {
  }

  lemma SettingKeepsLimits(lib: MathLib, s: CameraState, c: Command)
    requires IsSetting(c)
    ensures SameLimits(s, Step(lib, s, c))
  {
  }

  lemma CameraMoveKeepsLimits(lib: MathLib, s: CameraState, c: Command)
    requires IsCameraMove(c)
    ensures SameLimits(s, Step(lib, s, c))
  {
  }

  lemma TargetMoveKeepsLimits(lib: MathLib, s: CameraState, c: Command)
    requires IsTargetMove(c)
    ensures SameLimits(s, Step(lib, s, c))
  {
  }

  lemma IntegrationKeepsLimits(lib: MathLib, s: CameraState, c: Command)
    requires IsIntegration(c)
    ensures SameLimits(s, Step(lib, s, c))
  {
  }

  lemma FramingKeepsLimits(lib: MathLib, s: CameraState, box: CameraSpec.BoundingBox, face: CameraSpec.Face)
    requires CameraSpec.CanFrame(lib, s, face)
    ensures SameLimits(s, Step(lib, s, LookAtBox(box, face)))
  {
    var f := CameraSpec.Framed(lib, s, box, face);
    assert SameLimits(s, f);
  }

  lemma StepKeepsLimits(lib: MathLib, s: CameraState, c: Command)
    requires CanStep(lib, s, c) && KeepsMaxima(c) && WithinLimits(s)
    ensures WithinLimits(Step(lib, s, c))
  {
    if IsAiming(c) {
      AimingKeepsLimits(lib, s, c);
    } else if IsSetting(c) {
      SettingKeepsLimits(lib, s, c);
    } else if IsCameraMove(c) {
      CameraMoveKeepsLimits(lib, s, c);
    } else if IsTargetMove(c) {
      TargetMoveKeepsLimits(lib, s, c);
    } else if IsIntegration(c) {
      IntegrationKeepsLimits(lib, s, c);
    } else if c.LookAtBox? {
      FramingKeepsLimits(lib, s, c.box, c.face);
    } else if IsRotation(c) {
      match c {
        case Rotate(y, p, r) => RotationsTouchOnlyTheBasis(lib, s, y, p, r);
        case RotateYaw(a) => RotationsTouchOnlyTheBasis(lib, s, a, a, a);
        case RotatePitch(a) => RotationsTouchOnlyTheBasis(lib, s, a, a, a);
        case RotateRoll(a) => RotationsTouchOnlyTheBasis(lib, s, a, a, a);
      }
    }
  }

  /** Once acceleration and speed are within their maxima, any sequence of calls
      that does not reset a maximum keeps them there: repeated `Accel*` and
      `UpdateSpeed` can never push an axis above its cap. */
  lemma {:induction false} RunKeepsLimits(lib: MathLib, s: CameraState, cs: seq<Command>)
    requires CanRun(lib, s, cs) && WithinLimits(s)
    requires forall i | 0 <= i < |cs| :: KeepsMaxima(cs[i])
    ensures WithinLimits(Run(lib, s, cs))
    decreases |cs|
  {
    if cs != [] {
      StepKeepsLimits(lib, s, cs[0]);
      RunKeepsLimits(lib, Step(lib, s, cs[0]), cs[1..]);
    }
  }

  // ----------------------------------------------------------- basis invariant

  /** Commands that translate or integrate motion without touching the basis. */
  predicate KeepsBasis(c: Command) {
    || c.Move? || c.MoveXYZ? || c.MoveForward? || c.MoveUpward? || c.MoveRight?
    || c.MoveCamAndTargetForward? || c.MoveCamAndTargetUpward? || c.MoveCamAndTargetRight?
    || c.MoveTargetForward? || c.MoveTargetUpward? || c.MoveTargetRight?
    || c.AccelForward? || c.AccelUpward? || c.AccelRight?
    || c.DecelForward? || c.DecelUpward? || c.DecelRight?
    || c.UpdateSpeed? || c.UpdateVelocity? || c.UpdatePosition?
    || c.ActionMoveCameraPosition? || c.SetFocusState?
    || c.SetFieldOfView? || c.SetMaxAcceleration? || c.SetMaxSpeed?
    || c.SetPerspectiveProjection? || c.SetOrthographicProjection?
    || (c.ConstructViewMatrix? && !c.orthogonalizeAxes)
  }

  /** Moving, panning, accelerating and integrating never turn the camera: the
      look, up and right vectors after any such sequence are the ones before. */
  lemma {:induction false} RunKeepsBasis(lib: MathLib, s: CameraState, cs: seq<Command>)
    requires forall i | 0 <= i < |cs| :: KeepsBasis(cs[i])
    ensures CanRun(lib, s, cs)
    ensures var r := Run(lib, s, cs);
      r.lookAt == s.lookAt && r.upVector == s.upVector && r.rightVector == s.rightVector
    decreases |cs|
  {
    if cs != [] {
      var s' := Step(lib, s, cs[0]);
      assert s'.lookAt == s.lookAt && s'.upVector == s.upVector && s'.rightVector == s.rightVector;
      RunKeepsBasis(lib, s', cs[1..]);
    }
  }

  // --------------------------------------------------------- rotation invariant

  predicate IsRotation(c: Command) {
    c.Rotate? || c.RotateYaw? || c.RotatePitch? || c.RotateRoll?
  }

  /** Any sequence of rotations changes only the basis: position, target, view
      matrix and motion state are as they were. */
  lemma {:induction false} RunOfRotationsKeepsPlace(lib: MathLib, s: CameraState, cs: seq<Command>)
    requires forall i | 0 <= i < |cs| :: IsRotation(cs[i])
    ensures CanRun(lib, s, cs)
    ensures WithoutBasis(Run(lib, s, cs)) == WithoutBasis(s)
    decreases |cs|
  {
    if cs != [] {
      var c := cs[0];
      match c {
        case Rotate(y, p, r) => RotationsTouchOnlyTheBasis(lib, s, y, p, r);
        case RotateYaw(a) => RotationsTouchOnlyTheBasis(lib, s, a, a, a);
        case RotatePitch(a) => RotationsTouchOnlyTheBasis(lib, s, a, a, a);
        case RotateRoll(a) => RotationsTouchOnlyTheBasis(lib, s, a, a, a);
      }
      RunOfRotationsKeepsPlace(lib, Step(lib, s, c), cs[1..]);
    }
  }

  // --------------------------------------------------------------- forward moves

  function Sum(ds: seq<real>): real {
    if ds == [] then 0.0 else ds[0] + Sum(ds[1..])
  }

  function ForwardMoves(ds: seq<real>): (cs: seq<Command>)
    ensures |cs| == |ds| && forall i | 0 <= i < |ds| :: cs[i] == MoveForward(ds[i])
  {
    if ds == [] then [] else [MoveForward(ds[0])] + ForwardMoves(ds[1..])
  }

  /** A sequence of `MoveForward` calls moves the camera along the look vector
      by the sum of the distances, and nothing else changes. */
  lemma {:induction false} ForwardMovesAdd(lib: MathLib, s: CameraState, ds: seq<real>)
    ensures CanRun(lib, s, ForwardMoves(ds))
    ensures var r := Run(lib, s, ForwardMoves(ds));
      r.position == Add(s.position, Scale(s.lookAt, Sum(ds))) && r.(position := s.position) == s
    decreases |ds|
  {
    var cs := ForwardMoves(ds);
    if ds != [] {
      assert cs[1..] == ForwardMoves(ds[1..]);
      var s' := CameraSpec.MoveForward(s, ds[0]);
      ForwardMovesAdd(lib, s', ds[1..]);
      ScaleAddsUp(s.position, s.lookAt, ds[0], Sum(ds[1..]));
    }
  }

  // ---------------------------------------------------------------- panning

  /** Commands that move camera and target together, or turn in place. */
  predicate KeepsOffset(c: Command) {
    c.MoveCamAndTargetForward? || IsRotation(c)
  }

  /** Panning forward and turning in place, in any order, keep the vector from
      the camera to the target. */
  lemma {:induction false} PanningKeepsOffset(lib: MathLib, s: CameraState, cs: seq<Command>)
    requires forall i | 0 <= i < |cs| :: KeepsOffset(cs[i])
    ensures CanRun(lib, s, cs)
    ensures var r := Run(lib, s, cs); Sub(r.target, r.position) == Sub(s.target, s.position)
    decreases |cs|
  {
    if cs != [] {
      var c := cs[0];
      match c {
        case MoveCamAndTargetForward(d) => MoveCamAndTargetForwardKeepsOffset(s, d);
        case Rotate(y, p, r) => RotationsTouchOnlyTheBasis(lib, s, y, p, r);
        case RotateYaw(a) => RotationsTouchOnlyTheBasis(lib, s, a, a, a);
        case RotatePitch(a) => RotationsTouchOnlyTheBasis(lib, s, a, a, a);
        case RotateRoll(a) => RotationsTouchOnlyTheBasis(lib, s, a, a, a);
      }
      PanningKeepsOffset(lib, Step(lib, s, c), cs[1..]);
    }
  }

  // ------------------------------------------------------------ speed over time

  /** The state after `n` calls of `UpdateSpeed`. */
  function SpeedTicks(s: CameraState, n: nat): CameraState {
    if n == 0 then s else CameraSpec.UpdateSpeed(SpeedTicks(s, n - 1))
  }

  /** One axis: clamping after each added step equals clamping the total once,
      provided the axis started within its cap and a negative acceleration has
      only lowered it so far. */
  lemma ClampStep(v: real, a: real, m: real, sofar: real)
    requires v <= m && (a < 0.0 ==> sofar <= 0.0)
    ensures CameraSpec.ClampAbove(CameraSpec.ClampAbove(v + sofar, m) + a, m) == CameraSpec.ClampAbove(v + sofar + a, m)
  {
  }

  /** `n` steps of `a`, added one at a time. */
  function Steps(n: nat, a: real): real {
    if n == 0 then 0.0 else Steps(n - 1, a) + a
  }

  lemma {:induction false} StepsIsProduct(n: nat, a: real)
    ensures Steps(n, a) == n as real * a
  {
    if n > 0 {
      StepsIsProduct(n - 1, a);
      assert n as real * a == (n - 1) as real * a + a;
    }
  }

  lemma {:induction false} NegativeStepsLower(n: nat, a: real)
    requires a < 0.0
    ensures Steps(n, a) <= 0.0
  {
    if n > 0 {
      NegativeStepsLower(n - 1, a);
    }
  }

  /** One speed axis after `n` ticks: add the acceleration, clamp from above. */
  function AxisTicks(v: real, a: real, m: real, n: nat): real {
    if n == 0 then v else CameraSpec.ClampAbove(AxisTicks(v, a, m, n - 1) + a, m)
  }

  lemma {:induction false} AxisTicksClosedForm(v: real, a: real, m: real, n: nat)
    requires v <= m
    ensures AxisTicks(v, a, m, n) == CameraSpec.ClampAbove(v + Steps(n, a), m)
  {
    if n > 0 {
      AxisTicksClosedForm(v, a, m, n - 1);
      if a < 0.0 {
        NegativeStepsLower(n - 1, a);
      }
      ClampStep(v, a, m, Steps(n - 1, a));
    }
  }

  /** Linear growth by `a` per tick for `n` ticks, capped at `m`. */
  function Ramp(v: real, a: real, m: real, n: nat): real {
    CameraSpec.ClampAbove(v + n as real * a, m)
  }

  /** The closed form in terms of `Ramp`. */
  lemma AxisTicksRamp(v: real, a: real, m: real, n: nat)
    requires v <= m
    ensures AxisTicks(v, a, m, n) == Ramp(v, a, m, n)
  {
    AxisTicksClosedForm(v, a, m, n);
    StepsIsProduct(n, a);
  }

  /** Speed ticks treat the three axes separately and change nothing but the speed. */
  lemma {:induction false} SpeedTicksPerAxis(s: CameraState, n: nat)
    ensures var r := SpeedTicks(s, n);
      && r.speed == Vec3(AxisTicks(s.speed.x, s.acceleration.x, s.maxSpeed.x, n),
                         AxisTicks(s.speed.y, s.acceleration.y, s.maxSpeed.y, n),
                         AxisTicks(s.speed.z, s.acceleration.z, s.maxSpeed.z, n))
      && r.(speed := s.speed) == s
  {
    if n > 0 {
      SpeedTicksPerAxis(s, n - 1);
    }
  }

  /** With a constant acceleration and a speed within its cap, `n` ticks of
      `UpdateSpeed` give, on each axis, min(speed + n * acceleration, maxSpeed):
      the speed grows linearly until it reaches its cap and then stays there. */
  lemma SpeedAfterTicks(s: CameraState, n: nat)
    requires s.speed.x <= s.maxSpeed.x && s.speed.y <= s.maxSpeed.y && s.speed.z <= s.maxSpeed.z
    ensures SpeedTicks(s, n).speed == Vec3(Ramp(s.speed.x, s.acceleration.x, s.maxSpeed.x, n),
                                           Ramp(s.speed.y, s.acceleration.y, s.maxSpeed.y, n),
                                           Ramp(s.speed.z, s.acceleration.z, s.maxSpeed.z, n))
    ensures SpeedTicks(s, n).(speed := s.speed) == s
  {
    SpeedTicksPerAxis(s, n);
    AxisTicksRamp(s.speed.x, s.acceleration.x, s.maxSpeed.x, n);
    AxisTicksRamp(s.speed.y, s.acceleration.y, s.maxSpeed.y, n);
    AxisTicksRamp(s.speed.z, s.acceleration.z, s.maxSpeed.z, n);
  }


}
