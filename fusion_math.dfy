/** The arithmetic of one RTQF cycle as pure functions: the time delta, the
    state-transition matrix and the predicted state, the linear-gain blend,
    the SLERP correction built from opaque library routines, and the
    construction-time fusion modes with their default constants. */
module FusionMath {
  import opened Quaternions

  /** Library routines whose internals are not part of this model, handed to
      the estimator as total functions about which nothing is assumed. */
  datatype Numerics = Numerics(
    normalize: Quat -> Quat,              // RTQuaternion::normalize
    normalizeVector: Vec3 -> Vec3,        // RTVector3::normalize
    fromEuler: Vec3 -> Quat,              // RTQuaternion::fromEuler
    toEuler: Quat -> Vec3,                // RTQuaternion::toEuler
    product: (Quat, Quat) -> Quat,        // RTQuaternion operator * and *=
    conjugate: Quat -> Quat,              // RTQuaternion::conjugate
    acos: real -> real,
    sin: real -> real,
    cos: real -> real,
    calculatePose: PoseContext -> MeasuredPose)  // RTFusion::calculatePose

  /** The library routines as functions of the library; nothing about their
      results is assumed. */
  function Normalize(lib: Numerics, q: Quat): Quat { lib.normalize(q) }
  function NormalizeVector(lib: Numerics, v: Vec3): Vec3 { lib.normalizeVector(v) }
  function FromEuler(lib: Numerics, v: Vec3): Quat { lib.fromEuler(v) }
  function ToEuler(lib: Numerics, q: Quat): Vec3 { lib.toEuler(q) }
  function Product(lib: Numerics, p: Quat, q: Quat): Quat { lib.product(p, q) }
  function Conjugate(lib: Numerics, q: Quat): Quat { lib.conjugate(q) }
  function Acos(lib: Numerics, a: real): real { lib.acos(a) }
  function Sin(lib: Numerics, a: real): real { lib.sin(a) }
  function Cos(lib: Numerics, a: real): real { lib.cos(a) }
  function CalculatePose(lib: Numerics, ctx: PoseContext): MeasuredPose { lib.calculatePose(ctx) }

  /** What the base class's pose derivation may depend on: the readings it is
      passed, the declination, and the estimator state it can see. */
  datatype PoseContext = PoseContext(
    accel: Vec3, compass: Vec3, declination: real,
    compassValid: bool, fusionPose: Vec3, fusionQPose: Quat,
    enableAccel: bool, enableCompass: bool)

  /** The measured pose and its quaternion form, as the base class sets them. */
  datatype MeasuredPose = MeasuredPose(pose: Vec3, qPose: Quat)

  /** Microseconds per second: timestamps are in microseconds. */
  const MicrosPerSecond: real := 1000000.0

  /** Seconds elapsed from `last` to `timestamp`, both in microseconds. */
  function TimeDelta(timestamp: int, last: int): (dt: real)
    ensures dt * MicrosPerSecond == (timestamp - last) as real
    ensures dt <= 0.0 <==> timestamp <= last
    ensures timestamp == last ==> dt == 0.0
  {
    (timestamp - last) as real / MicrosPerSecond
  }

  /** The state-transition matrix for a gyro reading: half the rates, placed
      in the pattern of the quaternion kinematic equation. Its diagonal is the
      zero the matrix was filled with; the other twelve entries are set. */
  function Transition(gyro: Vec3): Mat4 {
    Mat4(0.0,          -gyro.x / 2.0, -gyro.y / 2.0, -gyro.z / 2.0,
         gyro.x / 2.0,  0.0,           gyro.z / 2.0, -gyro.y / 2.0,
         gyro.y / 2.0, -gyro.z / 2.0,  0.0,           gyro.x / 2.0,
         gyro.z / 2.0,  gyro.y / 2.0, -gyro.x / 2.0,  0.0)
  }

  /** The transition matrix is antisymmetric, and its first column and lower
      triangle are the half rates. */
  lemma TransitionShape(gyro: Vec3)
    ensures Antisymmetric(Transition(gyro))
    ensures var f := Transition(gyro);
      && f.m10 == gyro.x / 2.0 && f.m20 == gyro.y / 2.0 && f.m30 == gyro.z / 2.0
      && f.m21 == -gyro.z / 2.0 && f.m31 == gyro.y / 2.0 && f.m32 == -gyro.x / 2.0
  {
  }

  /** A zero gyro reading gives the zero matrix. */
  lemma TransitionZeroGyro()
    ensures Transition(ZeroVec3) == ZeroMat4
  {
  }

  /** Entry (i, j) of the transition matrix is the negation of entry (j, i). */
  lemma TransitionEntries(gyro: Vec3, f: Mat4)
    requires f == Transition(gyro)
    ensures forall i, j :: 0 <= i < 4 && 0 <= j < 4 ==> Entry(f, i, j) == -Entry(f, j, i)
  {
    TransitionShape(gyro);
    AntisymmetricByEntries(f);
  }

  /** The state after the predict step: q + dt * (F * q), not normalised. */
  function Predicted(q: Quat, gyro: Vec3, dt: real): Quat {
    Add(q, Scale(Mul(Transition(gyro), q), dt))
  }

  /** F * q is half the Hamilton product of q with the pure quaternion of the
      rates, so the predict step is one Euler step of dq/dt = q (0, w) / 2. */
  lemma TransitionIsHalfRate(gyro: Vec3, q: Quat)
    ensures Mul(Transition(gyro), q) == Scale(Hamilton(q, PureQuat(gyro)), 0.5)
  {
  }

  /** The predict step is a first-order integration of the kinematic equation. */
  lemma PredictedIsEulerStep(q: Quat, gyro: Vec3, dt: real)
    ensures Predicted(q, gyro, dt) == Add(q, Scale(Hamilton(q, PureQuat(gyro)), dt / 2.0))
  {
    TransitionIsHalfRate(gyro, q);
    var h := Hamilton(q, PureQuat(gyro));
    HalfThenScale(h, dt);
  }

  lemma HalfThenScale(h: Quat, dt: real)
    ensures Scale(Scale(h, 0.5), dt) == Scale(h, dt / 2.0)
  {
    assert h.w * 0.5 * dt == h.w * (dt / 2.0);
    assert h.x * 0.5 * dt == h.x * (dt / 2.0);
    assert h.y * 0.5 * dt == h.y * (dt / 2.0);
    assert h.z * 0.5 * dt == h.z * (dt / 2.0);
  }

  /** The predicted state gains exactly dt^2 |F q|^2 in squared norm, since
      F q is orthogonal to q; it never loses norm. */
  lemma PredictedNormSq(q: Quat, gyro: Vec3, dt: real)
    ensures NormSq(Predicted(q, gyro, dt))
            == NormSq(q) + dt * dt * NormSq(Mul(Transition(gyro), q))
    ensures NormSq(Predicted(q, gyro, dt)) >= NormSq(q)
  {
    var f := Mul(Transition(gyro), q);
    TransitionShape(gyro);
    MulOrthogonal(Transition(gyro), q);
    NormSqAddScaled(q, f, dt);
    SquareNonNegative(dt);
    assert dt * dt * NormSq(f) >= 0.0;
  }

  /** With no rotation rate the predict step carries the state forward. */
  lemma PredictedZeroGyro(q: Quat, dt: real)
    ensures Predicted(q, ZeroVec3, dt) == q
  {
    calc {
      Predicted(q, ZeroVec3, dt);
      Add(q, Scale(Mul(Transition(ZeroVec3), q), dt));
      { assert Transition(ZeroVec3) == ZeroMat4; ZeroMat4Facts(q); }
      Add(q, Scale(ZeroQuat, dt));
      { assert 0.0 * dt == 0.0; }
      Add(q, ZeroQuat);
      q;
    }
  }

  /** The blend fraction qt / (qt + R) with qt = Q dt. */
  function Gain(qValue: real, rValue: real, dt: real): real
    requires qValue * dt + rValue != 0.0
  {
    qValue * dt / (qValue * dt + rValue)
  }

  /** The gain k solves k (Q dt + R) = Q dt, and with positive Q, R and dt it
      lies strictly between 0 and 1. */
  lemma GainInUnitInterval(qValue: real, rValue: real, dt: real)
    requires qValue * dt + rValue != 0.0
    ensures Gain(qValue, rValue, dt) * (qValue * dt + rValue) == qValue * dt
    ensures qValue > 0.0 && rValue > 0.0 && dt > 0.0 ==> 0.0 < Gain(qValue, rValue, dt) < 1.0
  {
    if qValue > 0.0 && rValue > 0.0 && dt > 0.0 {
      var qt := qValue * dt;
      assert qt > 0.0 by { assert qValue * dt > 0.0 * dt; }
      var k := qt / (qt + rValue);
      assert k * (qt + rValue) == qt;
    }
  }

  /** Q = 0 (no trust in the gyros' drift model) gives no correction weight. */
  lemma GainZeroQ(rValue: real, dt: real)
    requires rValue != 0.0
    ensures Gain(0.0, rValue, dt) == 0.0
  {
  }

  /** R = 0 (a noiseless measurement) gives full correction weight. */
  lemma GainZeroR(qValue: real, dt: real)
    requires qValue * dt != 0.0
    ensures Gain(qValue, 0.0, dt) == 1.0
  {
    var qt := qValue * dt;
    assert qt + 0.0 == qt;
    assert qt / qt == 1.0;
  }

  /** A longer time delta gives a larger correction weight. */
  lemma GainGrowsWithTime(qValue: real, rValue: real, dt1: real, dt2: real)
    requires qValue > 0.0 && rValue > 0.0 && 0.0 < dt1 <= dt2
    ensures Gain(qValue, rValue, dt1) <= Gain(qValue, rValue, dt2)
  {
    var a, b := qValue * dt1, qValue * dt2;
    assert 0.0 < a <= b by {
      assert qValue * dt1 > 0.0 * dt1;
      assert qValue * dt2 - qValue * dt1 == qValue * (dt2 - dt1);
      assert qValue * (dt2 - dt1) >= 0.0 * (dt2 - dt1);
    }
    var k1, k2 := Gain(qValue, rValue, dt1), Gain(qValue, rValue, dt2);
    assert k1 == a / (a + rValue) && k2 == b / (b + rValue);
    assert a * (b + rValue) <= b * (a + rValue) by {
      assert a * rValue <= b * rValue;
    }
    DivMonotone(a, a + rValue, b, b + rValue);
  }

  /** A larger measurement noise R gives a smaller correction weight. */
  lemma GainShrinksWithNoise(qValue: real, rValue1: real, rValue2: real, dt: real)
    requires qValue > 0.0 && dt > 0.0 && 0.0 < rValue1 <= rValue2
    ensures Gain(qValue, rValue2, dt) <= Gain(qValue, rValue1, dt)
  {
    var qt := qValue * dt;
    assert qt > 0.0 by { assert qValue * dt > 0.0 * dt; }
    assert qt * (qt + rValue1) <= qt * (qt + rValue2);
    DivMonotone(qt, qt + rValue2, qt, qt + rValue1);
  }

  /** a / b <= c / d for positive denominators with a d <= c b. */
  lemma DivMonotone(a: real, b: real, c: real, d: real)
    requires b > 0.0 && d > 0.0 && a * d <= c * b
    ensures a / b <= c / d
  {
    var p, q := a / b, c / d;
    assert p * b == a && q * d == c;
    assert p * b * d <= q * d * b;
    assert (p - q) * (b * d) <= 0.0;
    assert b * d > 0.0 by { assert b * d > 0.0 * d; }
  }

  /** The linear-gain error term: measured minus predicted, or zero when
      neither the accelerometers nor the compass contribute. */
  function LinearError(correcting: bool, s: Quat, m: Quat): Quat {
    if correcting then Sub(m, s) else ZeroQuat
  }

  /** The linear-gain state before normalisation: s + error * Gain. */
  function LinearCorrected(qValue: real, rValue: real, dt: real, correcting: bool, s: Quat, m: Quat): Quat
    requires qValue * dt + rValue != 0.0
  {
    Add(s, Scale(LinearError(correcting, s, m), Gain(qValue, rValue, dt)))
  }

  /** Adding k times the error is the blend (1 - k) s + k m; with no
      contributing sensor the state is unchanged. */
  lemma LinearCorrectedBlend(qValue: real, rValue: real, dt: real, correcting: bool, s: Quat, m: Quat)
    requires qValue * dt + rValue != 0.0
    ensures var k := Gain(qValue, rValue, dt);
      correcting ==> LinearCorrected(qValue, rValue, dt, correcting, s, m) == Add(Scale(s, 1.0 - k), Scale(m, k))
    ensures !correcting ==> LinearCorrected(qValue, rValue, dt, correcting, s, m) == s
  {
    var k := Gain(qValue, rValue, dt);
    if correcting {
      var e := Sub(m, s);
      assert s.w + e.w * k == s.w * (1.0 - k) + m.w * k;
      assert s.x + e.x * k == s.x * (1.0 - k) + m.x * k;
      assert s.y + e.y * k == s.y * (1.0 - k) + m.y * k;
      assert s.z + e.z * k == s.z * (1.0 - k) + m.z * k;
    } else {
      assert Scale(ZeroQuat, k) == ZeroQuat;
    }
  }

  /** b lies in the closed interval between a and c. */
  ghost predicate Between(a: real, b: real, c: real) {
    (a <= b <= c) || (c <= b <= a)
  }

  lemma BlendBetween(a: real, b: real, c: real, k: real)
    requires 0.0 <= k <= 1.0 && b == a * (1.0 - k) + c * k
    ensures Between(a, b, c)
  {
    if a <= c {
      assert b - a == (c - a) * k;
      assert c - b == (c - a) * (1.0 - k);
      ProductNonNegative(c - a, k);
      ProductNonNegative(c - a, 1.0 - k);
    } else {
      assert a - b == (a - c) * k;
      assert b - c == (a - c) * (1.0 - k);
      ProductNonNegative(a - c, k);
      ProductNonNegative(a - c, 1.0 - k);
    }
  }

  lemma ProductNonNegative(x: real, y: real)
    requires x >= 0.0 && y >= 0.0
    ensures x * y >= 0.0
  {
    assert x * y >= 0.0 * y;
  }

  /** Each component of (1 - k) s + k m lies between those of s and m. */
  lemma BlendBetweenQuat(s: Quat, m: Quat, k: real)
    requires 0.0 <= k <= 1.0
    ensures var b := Add(Scale(s, 1.0 - k), Scale(m, k));
      Between(s.w, b.w, m.w) && Between(s.x, b.x, m.x) && Between(s.y, b.y, m.y) && Between(s.z, b.z, m.z)
  {
    var b := Add(Scale(s, 1.0 - k), Scale(m, k));
    BlendBetween(s.w, b.w, m.w, k);
    BlendBetween(s.x, b.x, m.x, k);
    BlendBetween(s.y, b.y, m.y, k);
    BlendBetween(s.z, b.z, m.z, k);
  }

  /** With positive Q, R and dt the linear-gain correction is a convex blend:
      every component lies between the predicted and the measured one. */
  lemma LinearCorrectedIsConvex(qValue: real, rValue: real, dt: real, s: Quat, m: Quat)
    requires qValue > 0.0 && rValue > 0.0 && dt > 0.0
    ensures qValue * dt + rValue != 0.0
    ensures var r := LinearCorrected(qValue, rValue, dt, true, s, m);
      Between(s.w, r.w, m.w) && Between(s.x, r.x, m.x) && Between(s.y, r.y, m.y) && Between(s.z, r.z, m.z)
  {
    assert qValue * dt > 0.0 * dt;
    GainInUnitInterval(qValue, rValue, dt);
    LinearCorrectedBlend(qValue, rValue, dt, true, s, m);
    BlendBetweenQuat(s, m, Gain(qValue, rValue, dt));
  }

  /** With R = 0 the linear-gain correction snaps to the measurement. */
  lemma LinearCorrectedSnaps(qValue: real, dt: real, s: Quat, m: Quat)
    requires qValue * dt != 0.0
    ensures LinearCorrected(qValue, 0.0, dt, true, s, m) == m
  {
    GainZeroR(qValue, dt);
  }

  /** The SLERP rotation delta: conj(s) * m, normalised. */
  function RotationDelta(lib: Numerics, s: Quat, m: Quat): Quat {
    Normalize(lib, Product(lib, Conjugate(lib, s), m))
  }

  /** The normalised vector part of the rotation delta: the rotation axis. */
  function RotationUnitVector(lib: Numerics, delta: Quat): Vec3 {
    NormalizeVector(lib, Vec3(delta.x, delta.y, delta.z))
  }

  /** The rotation delta taken to the power p: angle p * acos(w) about the
      same axis, normalised. No clamp is applied to the argument of acos. */
  function RotationPower(lib: Numerics, p: real, delta: Quat): Quat {
    var theta := Acos(lib, delta.w);
    var sinPowerTheta := Sin(lib, theta * p);
    var cosPowerTheta := Cos(lib, theta * p);
    var u := RotationUnitVector(lib, delta);
    Normalize(lib, Quat(cosPowerTheta, sinPowerTheta * u.x, sinPowerTheta * u.y, sinPowerTheta * u.z))
  }

  /** The SLERP state before normalisation: the predicted state multiplied on
      the right by the fractional rotation, or unchanged when neither the
      accelerometers nor the compass contribute. */
  function SlerpCorrected(lib: Numerics, p: real, correcting: bool, s: Quat, m: Quat): Quat {
    if correcting then Product(lib, s, RotationPower(lib, p, RotationDelta(lib, s, m))) else s
  }

  /** The compile-time choice of correction, with its constants. */
  datatype FusionMode = Slerp(slerpPower: real) | LinearGain(qValue: real, rValue: real)

  /** Constants the source uses: the slerp power, Q and R. */
  const SlerpPowerDefault: real := 0.02
  const QValueDefault: real := 0.001
  const RValueDefault: real := 0.0005

  /** A mode whose gain is defined for every positive time delta. */
  ghost predicate ModeOk(mode: FusionMode) {
    match mode
    case Slerp(p) => 0.0 <= p <= 1.0
    case LinearGain(qValue, rValue) => qValue > 0.0 && rValue > 0.0
  }

  /** The mode the constructor sets up for each build variant. */
  function DefaultMode(useSlerp: bool): (mode: FusionMode)
    ensures ModeOk(mode)
    ensures mode.Slerp? <==> useSlerp
  {
    if useSlerp then Slerp(SlerpPowerDefault) else LinearGain(QValueDefault, RValueDefault)
  }

  /** The corrected state before the single normalisation of the cycle. */
  function Corrected(mode: FusionMode, lib: Numerics, correcting: bool, s: Quat, m: Quat, dt: real): Quat
    requires ModeOk(mode) && dt > 0.0
  {
    match mode
    case Slerp(p) => SlerpCorrected(lib, p, correcting, s, m)
    case LinearGain(qValue, rValue) =>
      assert qValue * dt > 0.0 * dt;
      LinearCorrected(qValue, rValue, dt, correcting, s, m)
  }

  /** What each correction does: nothing without a contributing sensor; a
      convex blend with weight strictly between 0 and 1 in the linear-gain
      variant; a right multiplication by the fractional rotation in the SLERP
      variant. */
  lemma CorrectedCases(mode: FusionMode, lib: Numerics, correcting: bool, s: Quat, m: Quat, dt: real)
    requires ModeOk(mode) && dt > 0.0
    ensures !correcting ==> Corrected(mode, lib, correcting, s, m, dt) == s
    ensures mode.LinearGain? ==> mode.qValue * dt + mode.rValue != 0.0
    ensures mode.LinearGain? && correcting ==>
      var k := Gain(mode.qValue, mode.rValue, dt);
      0.0 < k < 1.0 && Corrected(mode, lib, correcting, s, m, dt) == Add(Scale(s, 1.0 - k), Scale(m, k))
    ensures mode.Slerp? && correcting ==>
      Corrected(mode, lib, correcting, s, m, dt)
        == Product(lib, s, RotationPower(lib, mode.slerpPower, RotationDelta(lib, s, m)))
  {
    match mode
    case Slerp(_) =>
    case LinearGain(qValue, rValue) =>
      assert qValue * dt > 0.0 * dt;
      GainInUnitInterval(qValue, rValue, dt);
      LinearCorrectedBlend(qValue, rValue, dt, correcting, s, m);
  }

  /** Zero rates and no measurement contribution: the whole cycle before
      normalisation leaves the state where it was, for every time delta. */
  lemma ZeroRateCycle(mode: FusionMode, lib: Numerics, q: Quat, m: Quat, dt: real)
    requires ModeOk(mode) && dt > 0.0
    ensures Corrected(mode, lib, false, Predicted(q, ZeroVec3, dt), m, dt) == q
  {
    PredictedZeroGyro(q, dt);
    CorrectedCases(mode, lib, false, q, m, dt);
  }
}
