/** Vectors, 4x4 matrices and the maths library the camera relies on.

    The vector arithmetic the camera uses (`+`, `-`, scaling, `dotprod`) has its
    textbook definition here. Everything else the camera calls but whose code is
    not part of this model (normalisation, the cross product, the tangent of an
    angle in degrees, the default `Matrix4`, `Matrix4::rotate`, vector times
    matrix, matrix times matrix, and the perspective and orthographic builders)
    is a field of `MathLib`: an arbitrary function that every lemma holds for. */
module Geometry {

  /** `vec3f`: three reals stand for three floats. */
  datatype Vec3 = Vec3(x: real, y: real, z: real)

  const Origin: Vec3 := Vec3(0.0, 0.0, 0.0)

  function Add(a: Vec3, b: Vec3): (r: Vec3) {
    Vec3(a.x + b.x, a.y + b.y, a.z + b.z)
  }

  function Sub(a: Vec3, b: Vec3): (r: Vec3) {
    Vec3(a.x - b.x, a.y - b.y, a.z - b.z)
  }

  function Neg(a: Vec3): (r: Vec3) {
    Vec3(-a.x, -a.y, -a.z)
  }

  /** `v * k`, a vector times a scalar. */
  function Scale(v: Vec3, k: real): (r: Vec3) {
    Vec3(v.x * k, v.y * k, v.z * k)
  }

  /** `dotprod`. */
  function Dot(a: Vec3, b: Vec3): (r: real) {
    a.x * b.x + a.y * b.y + a.z * b.z
  }

  /** Squared length, so that lengths can be compared without a square root. */
  function LengthSquared(v: Vec3): (r: real) {
    Dot(v, v)
  }

  /** Subtracting what was added gives back the starting point, exactly over reals. */
  lemma AddSubCancel(a: Vec3, b: Vec3)
    ensures Sub(Add(a, b), b) == a
    ensures Add(Sub(a, b), b) == a
  {
  }

  /** Two moves along the same direction add up to one move by the sum. */
  lemma ScaleAddsUp(p: Vec3, d: Vec3, a: real, b: real)
    ensures Add(Add(p, Scale(d, a)), Scale(d, b)) == Add(p, Scale(d, a + b))
  {
    assert d.x * (a + b) == d.x * a + d.x * b;
    assert d.y * (a + b) == d.y * a + d.y * b;
    assert d.z * (a + b) == d.z * a + d.z * b;
  }

  /** `dotprod` distributes over a difference in its second argument. */
  lemma DotSub(a: Vec3, p: Vec3, q: Vec3)
    ensures Dot(a, Sub(q, p)) == Dot(a, q) - Dot(a, p)
  {
  }

  /** `Matrix4`: four rows of four reals, indexed `m[row][column]` as the source does. */
  type Matrix4 = m: seq<seq<real>> | |m| == 4 && forall i | 0 <= i < 4 :: |m[i]| == 4
    witness [[0.0, 0.0, 0.0, 0.0], [0.0, 0.0, 0.0, 0.0], [0.0, 0.0, 0.0, 0.0], [0.0, 0.0, 0.0, 0.0]]

  /** `m[i][j] = v`: the matrix with one entry replaced. */
  function WithEntry(m: Matrix4, i: nat, j: nat, v: real): (r: Matrix4)
    requires i < 4 && j < 4
    ensures r[i][j] == v
    ensures forall a, b | 0 <= a < 4 && 0 <= b < 4 && (a != i || b != j) :: r[a][b] == m[a][b]
  {
    m[i := m[i][j := v]]
  }

  /** Two matrices that agree on all sixteen entries are the same matrix. */
  lemma SameEntriesSameMatrix(m: Matrix4, n: Matrix4)
    requires forall i, j | 0 <= i < 4 && 0 <= j < 4 :: m[i][j] == n[i][j]
    ensures m == n
  {
    forall i | 0 <= i < 4 ensures m[i] == n[i] {
      assert |m[i]| == |n[i]| == 4;
    }
  }

  /** The library functions the camera calls without their code being part of
      this model. `initialMatrix` is what a default-constructed `Matrix4` holds;
      `rotate(m, axis, angle)` is the value `m.rotate(axis, angle)` leaves in `m`,
      so whether it composes with or overwrites the old contents is left open. */
  datatype MathLib = MathLib(
    normalize: Vec3 -> Vec3,
    cross: (Vec3, Vec3) -> Vec3,
    tanOfDegrees: real -> real,
    initialMatrix: Matrix4,
    rotate: (Matrix4, Vec3, real) -> Matrix4,
    transform: (Vec3, Matrix4) -> Vec3,
    multiply: (Matrix4, Matrix4) -> Matrix4,
    perspective: (real, real, real, real) -> Matrix4,
    orthographic: (real, real, real, real, real, real) -> Matrix4)

  /** The library's `rotate` builds a fresh rotation each time, ignoring what
      the matrix held before. */
  ghost predicate RotateOverwrites(lib: MathLib) {
    forall m: Matrix4, axis: Vec3, angle: real ::
      lib.rotate(m, axis, angle) == lib.rotate(lib.initialMatrix, axis, angle)
  }

  /** Transforming by a rotation built on a default matrix keeps a vector's
      length. Only that form is assumed, so a `rotate` that composes with the
      matrix it is given is not excluded. */
  ghost predicate RotationsKeepLength(lib: MathLib) {
    forall v: Vec3, axis: Vec3, angle: real ::
      LengthSquared(lib.transform(v, lib.rotate(lib.initialMatrix, axis, angle))) == LengthSquared(v)
  }

  /** Re-deriving the right vector from an up vector that was itself derived
      from that right vector gives the right vector back: what `Normalize` and
      `crossprod` achieve for any up vector not parallel to look. */
  ghost predicate RederivedRightIsStable(lib: MathLib) {
    forall u: Vec3, l: Vec3 ::
      var r := lib.normalize(lib.cross(u, l));
      lib.normalize(lib.cross(lib.normalize(lib.cross(l, r)), l)) == r
  }
}
