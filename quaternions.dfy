/** Vectors, quaternions and 4x4 matrices over the reals, with the componentwise
    operations the estimator uses (RTVector3, RTQuaternion and RTMatrix4x4 with
    their standard meaning). Normalisation, Euler conversion and the quaternion
    product used by the estimator are not defined here: they are opaque. */
module Quaternions {

  /** A 3-vector: a sensor reading, or roll, pitch and yaw in radians. */
  datatype Vec3 = Vec3(x: real, y: real, z: real)

  /** The default-constructed vector. */
  const ZeroVec3: Vec3 := Vec3(0.0, 0.0, 0.0)

  /** A quaternion: scalar part w, vector part (x, y, z). */
  datatype Quat = Quat(w: real, x: real, y: real, z: real)

  /** The default-constructed quaternion. */
  const ZeroQuat: Quat := Quat(0.0, 0.0, 0.0, 0.0)

  /** Componentwise sum (operator + and +=). */
  function Add(p: Quat, q: Quat): Quat {
    Quat(p.w + q.w, p.x + q.x, p.y + q.y, p.z + q.z)
  }

  /** Componentwise difference (operator -). */
  function Sub(p: Quat, q: Quat): Quat {
    Quat(p.w - q.w, p.x - q.x, p.y - q.y, p.z - q.z)
  }

  /** Multiplication by a scalar (operator * and *= with a real). */
  function Scale(q: Quat, k: real): Quat {
    Quat(q.w * k, q.x * k, q.y * k, q.z * k)
  }

  /** Euclidean inner product of two quaternions seen as 4-vectors. */
  function Dot(p: Quat, q: Quat): real {
    p.w * q.w + p.x * q.x + p.y * q.y + p.z * q.z
  }

  /** Squared Euclidean norm. */
  function NormSq(q: Quat): (n: real)
    ensures n >= 0.0
  {
    SquareNonNegative(q.w);
    SquareNonNegative(q.x);
    SquareNonNegative(q.y);
    SquareNonNegative(q.z);
    Dot(q, q)
  }

  lemma SquareNonNegative(a: real)
    ensures a * a >= 0.0
  {
    if a < 0.0 {
      var b := -a;
      assert b * b > 0.0 * b;
      assert a * a == b * b;
    }
  }

  /** The pure quaternion (0, v). */
  function PureQuat(v: Vec3): Quat {
    Quat(0.0, v.x, v.y, v.z)
  }

  /** The Hamilton product, written out. It is a reference definition for the
      kinematics of the predict step only; the estimator's own quaternion
      product stays opaque. */
  function Hamilton(p: Quat, q: Quat): Quat {
    Quat(p.w * q.w - p.x * q.x - p.y * q.y - p.z * q.z,
         p.w * q.x + p.x * q.w + p.y * q.z - p.z * q.y,
         p.w * q.y - p.x * q.z + p.y * q.w + p.z * q.x,
         p.w * q.z + p.x * q.y - p.y * q.x + p.z * q.w)
  }

  /** A 4x4 real matrix (RTMatrix4x4), entry mij in row i and column j. */
  datatype Mat4 = Mat4(m00: real, m01: real, m02: real, m03: real,
                       m10: real, m11: real, m12: real, m13: real,
                       m20: real, m21: real, m22: real, m23: real,
                       m30: real, m31: real, m32: real, m33: real)

  /** The matrix every entry of which is zero (RTMatrix4x4::fill(0)). */
  const ZeroMat4: Mat4 := Mat4(0.0, 0.0, 0.0, 0.0, 0.0, 0.0, 0.0, 0.0,
                               0.0, 0.0, 0.0, 0.0, 0.0, 0.0, 0.0, 0.0)

  /** Entry (i, j), for indices in 0..3. */
  function Entry(m: Mat4, i: int, j: int): real
    requires 0 <= i < 4 && 0 <= j < 4
  {
    if i == 0 then (if j == 0 then m.m00 else if j == 1 then m.m01 else if j == 2 then m.m02 else m.m03)
    else if i == 1 then (if j == 0 then m.m10 else if j == 1 then m.m11 else if j == 2 then m.m12 else m.m13)
    else if i == 2 then (if j == 0 then m.m20 else if j == 1 then m.m21 else if j == 2 then m.m22 else m.m23)
    else (if j == 0 then m.m30 else if j == 1 then m.m31 else if j == 2 then m.m32 else m.m33)
  }

  ghost predicate ZeroDiagonal(m: Mat4) {
    m.m00 == 0.0 && m.m11 == 0.0 && m.m22 == 0.0 && m.m33 == 0.0
  }

  /** Zero diagonal, and each entry the negation of its mirror image. */
  ghost predicate Antisymmetric(m: Mat4) {
    ZeroDiagonal(m)
    && m.m01 == -m.m10 && m.m02 == -m.m20 && m.m03 == -m.m30
    && m.m12 == -m.m21 && m.m13 == -m.m31 && m.m23 == -m.m32
  }

  /** Antisymmetric says exactly that Entry(m, i, j) == -Entry(m, j, i) for
      all indices. */
  lemma AntisymmetricByEntries(m: Mat4)
    ensures Antisymmetric(m) <==>
      forall i, j :: 0 <= i < 4 && 0 <= j < 4 ==> Entry(m, i, j) == -Entry(m, j, i)
  {
    if forall i, j :: 0 <= i < 4 && 0 <= j < 4 ==> Entry(m, i, j) == -Entry(m, j, i) {
      assert Entry(m, 0, 0) == -Entry(m, 0, 0);
      assert Entry(m, 1, 1) == -Entry(m, 1, 1);
      assert Entry(m, 2, 2) == -Entry(m, 2, 2);
      assert Entry(m, 3, 3) == -Entry(m, 3, 3);
      assert Entry(m, 0, 1) == -Entry(m, 1, 0);
      assert Entry(m, 0, 2) == -Entry(m, 2, 0);
      assert Entry(m, 0, 3) == -Entry(m, 3, 0);
      assert Entry(m, 1, 2) == -Entry(m, 2, 1);
      assert Entry(m, 1, 3) == -Entry(m, 3, 1);
      assert Entry(m, 2, 3) == -Entry(m, 3, 2);
    }
  }

  /** Matrix-times-quaternion (RTMatrix4x4 operator * with an RTQuaternion):
      row i times the quaternion read as (w, x, y, z). */
  function Mul(m: Mat4, q: Quat): Quat {
    Quat(m.m00 * q.w + m.m01 * q.x + m.m02 * q.y + m.m03 * q.z,
         m.m10 * q.w + m.m11 * q.x + m.m12 * q.y + m.m13 * q.z,
         m.m20 * q.w + m.m21 * q.x + m.m22 * q.y + m.m23 * q.z,
         m.m30 * q.w + m.m31 * q.x + m.m32 * q.y + m.m33 * q.z)
  }

  /** The zero matrix is antisymmetric and sends every quaternion to zero. */
  lemma ZeroMat4Facts(q: Quat)
    ensures Antisymmetric(ZeroMat4)
    ensures Mul(ZeroMat4, q) == ZeroQuat
  {
  }

  /** An antisymmetric matrix moves a quaternion orthogonally to itself. */
  lemma MulOrthogonal(m: Mat4, q: Quat)
    requires Antisymmetric(m)
    ensures Dot(q, Mul(m, q)) == 0.0
  {
    var a, b, c, d, e, f := m.m01, m.m02, m.m03, m.m12, m.m13, m.m23;
    var w, x, y, z := q.w, q.x, q.y, q.z;
    assert Mul(m, q) == Quat(a * x + b * y + c * z,
                             -a * w + d * y + e * z,
                             -b * w - d * x + f * z,
                             -c * w - e * x - f * y);
    calc {
      Dot(q, Mul(m, q));
      w * (a * x + b * y + c * z)
        + x * (-a * w + d * y + e * z)
        + y * (-b * w - d * x + f * z)
        + z * (-c * w - e * x - f * y);
      0.0;
    }
  }

  /** Expansion of |q + dt f|^2. */
  lemma NormSqAddScaled(q: Quat, f: Quat, dt: real)
    ensures NormSq(Add(q, Scale(f, dt))) == NormSq(q) + 2.0 * dt * Dot(q, f) + dt * dt * NormSq(f)
  {
    var r := Add(q, Scale(f, dt));
    assert r.w * r.w == q.w * q.w + 2.0 * dt * (q.w * f.w) + dt * dt * (f.w * f.w);
    assert r.x * r.x == q.x * q.x + 2.0 * dt * (q.x * f.x) + dt * dt * (f.x * f.x);
    assert r.y * r.y == q.y * q.y + 2.0 * dt * (q.y * f.y) + dt * dt * (f.y * f.y);
    assert r.z * r.z == q.z * q.z + 2.0 * dt * (q.z * f.z) + dt * dt * (f.z * f.z);
  }
}
