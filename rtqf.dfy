/** The RTQF fusion estimator (RTFusionRTQF) as a class whose fields the
    sample-intake cycle updates in place, and the caller's sample record
    (RTIMU_DATA) that each cycle reads and writes back. */
module RTQF {
  import opened Quaternions
  import opened FusionMath

  /** One raw sample as delivered by the sensor layer, with the fused result
      written back into it. */
  class ImuData {
    var timestamp: int          // microseconds
    var gyro: Vec3
    var accel: Vec3
    var compass: Vec3
    var compassValid: bool
    var fusionPose: Vec3
    var fusionQPose: Quat
    var fusionPoseValid: bool
    var fusionQPoseValid: bool

    /** A fresh sample whose fused fields are not yet valid. */
    constructor (timestamp: int, gyro: Vec3, accel: Vec3, compass: Vec3, compassValid: bool)
      ensures this.timestamp == timestamp && this.gyro == gyro && this.accel == accel
      ensures this.compass == compass && this.compassValid == compassValid
      ensures !fusionPoseValid && !fusionQPoseValid
    {
      this.timestamp := timestamp;
      this.gyro := gyro;
      this.accel := accel;
      this.compass := compass;
      this.compassValid := compassValid;
      fusionPose := ZeroVec3;
      fusionQPose := ZeroQuat;
      fusionPoseValid := false;
      fusionQPoseValid := false;
    }
  }

  class FusionRTQF {
    /** Library routines, the correction variant and the feature toggles,
        fixed for the estimator's lifetime. */
    const lib: Numerics
    const mode: FusionMode
    const enableGyro: bool
    const enableAccel: bool
    const enableCompass: bool

    var firstTime: bool
    var lastFusionTime: int
    var timeDelta: real
    var sampleNumber: int
    var gyro: Vec3
    var accel: Vec3
    var compass: Vec3
    var compassValid: bool
    /** The state-transition matrix m_Fk, a value member written entry by entry. */
    var fk: Mat4
    var stateQ: Quat
    var stateQError: Quat
    var fusionPose: Vec3
    var fusionQPose: Quat
    var measuredPose: Vec3
    var measuredQPose: Quat
    var rotationDelta: Quat
    var rotationUnitVector: Vec3
    var rotationPower: Quat

    /** The estimator invariant between calls: the gains are usable and, once
        the first sample has been taken, the diagonal of the transition matrix
        is zero (the fill zeroed it and the predict step never writes it) and
        the published quaternion is the running state. */
    ghost predicate Valid()
      reads this
    {
      ModeOk(mode) &&
      (!firstTime ==> ZeroDiagonal(fk) && fusionQPose == stateQ)
    }

    /** Construction with the build variant's default gains, then reset. */
    constructor (useSlerp: bool, lib: Numerics, enableGyro: bool, enableAccel: bool, enableCompass: bool)
      ensures Valid()
      ensures this.lib == lib && mode == DefaultMode(useSlerp)
      ensures this.enableGyro == enableGyro && this.enableAccel == enableAccel
      ensures this.enableCompass == enableCompass
      ensures firstTime && sampleNumber == 0
      ensures fusionPose == ZeroVec3 && fusionQPose == FromEuler(lib, ZeroVec3)
      ensures gyro == ZeroVec3 && accel == ZeroVec3 && compass == ZeroVec3
      ensures measuredPose == ZeroVec3 && measuredQPose == FromEuler(lib, ZeroVec3)
    {
      this.lib := lib;
      mode := DefaultMode(useSlerp);
      this.enableGyro := enableGyro;
      this.enableAccel := enableAccel;
      this.enableCompass := enableCompass;
      new;
      Reset();
    }

    /** Back to the "first sample" state: zero vectors, zero poses, sample
        count zero. The running quaternion, the timestamps, the matrix and the
        correction scratch fields are outside the frame, so they keep their
        values. */
    method Reset()
      requires ModeOk(mode)
      modifies this`firstTime, this`sampleNumber, this`fusionPose, this`fusionQPose
      modifies this`gyro, this`accel, this`compass, this`measuredPose, this`measuredQPose
      ensures Valid()
      ensures firstTime && sampleNumber == 0
      ensures fusionPose == ZeroVec3 && fusionQPose == FromEuler(lib, ZeroVec3)
      ensures gyro == ZeroVec3 && accel == ZeroVec3 && compass == ZeroVec3
      ensures measuredPose == ZeroVec3 && measuredQPose == FromEuler(lib, ZeroVec3)
    {
      firstTime := true;
      fusionPose := ZeroVec3;
      fusionQPose := FromEuler(lib, fusionPose);
      gyro := ZeroVec3;
      accel := ZeroVec3;
      compass := ZeroVec3;
      measuredPose := ZeroVec3;
      measuredQPose := FromEuler(lib, measuredPose);
      sampleNumber := 0;
    }

    /** The pose-derivation context the base class sees for these readings. */
    function PoseInput(a: Vec3, c: Vec3, declination: real): PoseContext
      reads this
    {
      PoseContext(a, c, declination, compassValid, fusionPose, fusionQPose, enableAccel, enableCompass)
    }

    /** RTFusion::calculatePose: sets the measured pose and its quaternion. */
    method DerivePose(a: Vec3, c: Vec3, declination: real)
      modifies this`measuredPose, this`measuredQPose
      ensures var mp := CalculatePose(lib, PoseInput(a, c, declination));
        measuredPose == mp.pose && measuredQPose == mp.qPose
    {
      var mp := CalculatePose(lib, PoseInput(a, c, declination));
      measuredPose := mp.pose;
      measuredQPose := mp.qPose;
    }

    /** The predict step: writes the twelve off-diagonal entries of m_Fk from
        half the gyro rates, then adds dt * (F * q) to the state without
        normalising. The diagonal must already be zero. */
    method Predict()
      requires ZeroDiagonal(fk)
      modifies this`fk, this`stateQ
      ensures fk == Transition(gyro)
      ensures stateQ == Predicted(old(stateQ), gyro, timeDelta)
    {
      var x2 := gyro.x / 2.0;
      var y2 := gyro.y / 2.0;
      var z2 := gyro.z / 2.0;

      fk := fk.(m01 := -x2);
      fk := fk.(m02 := -y2);
      fk := fk.(m03 := -z2);

      fk := fk.(m10 := x2);
      fk := fk.(m12 := z2);
      fk := fk.(m13 := -y2);

      fk := fk.(m20 := y2);
      fk := fk.(m21 := -z2);
      fk := fk.(m23 := x2);

      fk := fk.(m30 := z2);
      fk := fk.(m31 := y2);
      fk := fk.(m32 := -x2);

      var tQuat := Mul(fk, stateQ);
      tQuat := Scale(tQuat, timeDelta);
      stateQ := Add(stateQ, tQuat);
    }

    /** The update step: pull the state toward the measured quaternion by the
        configured correction, then normalise once. */
    method Update()
      requires ModeOk(mode) && timeDelta > 0.0
      modifies this`stateQ, this`stateQError, this`rotationDelta, this`rotationUnitVector, this`rotationPower
      ensures stateQ == Normalize(lib, Corrected(mode, lib, enableCompass || enableAccel,
                                                old(stateQ), measuredQPose, timeDelta))
      ensures mode.LinearGain? ==>
        stateQError == LinearError(enableCompass || enableAccel, old(stateQ), measuredQPose)
        && rotationDelta == old(rotationDelta) && rotationUnitVector == old(rotationUnitVector)
        && rotationPower == old(rotationPower)
      ensures mode.Slerp? ==> stateQError == old(stateQError)
      ensures mode.Slerp? && (enableCompass || enableAccel) ==>
        rotationDelta == RotationDelta(lib, old(stateQ), measuredQPose)
        && rotationUnitVector == RotationUnitVector(lib, rotationDelta)
        && rotationPower == RotationPower(lib, mode.slerpPower, rotationDelta)
      ensures mode.Slerp? && !(enableCompass || enableAccel) ==>
        rotationDelta == old(rotationDelta) && rotationUnitVector == old(rotationUnitVector)
        && rotationPower == old(rotationPower)
    {
      var correcting := enableCompass || enableAccel;
      match mode {
        case Slerp(slerpPower) =>
          if correcting {
            rotationDelta := RotationDelta(lib, stateQ, measuredQPose);
            rotationUnitVector := RotationUnitVector(lib, rotationDelta);
            rotationPower := RotationPower(lib, slerpPower, rotationDelta);
            stateQ := Product(lib, stateQ, rotationPower);
          }
        case LinearGain(qValue, rValue) =>
          stateQError := LinearError(correcting, stateQ, measuredQPose);
          assert qValue * timeDelta > 0.0 by { assert qValue * timeDelta > 0.0 * timeDelta; }
          stateQ := Add(stateQ, Scale(stateQError, Gain(qValue, rValue, timeDelta)));
      }
      CorrectedCases(mode, lib, correcting, old(stateQ), measuredQPose, timeDelta);
      stateQ := Normalize(lib, stateQ);
    }

    /** The fused outputs are valid in the record and equal the estimator's. */
    ghost predicate Published(data: ImuData)
      reads this, data
    {
      data.fusionPoseValid && data.fusionQPoseValid
      && data.fusionPose == fusionPose && data.fusionQPose == fusionQPose
    }

    /** The result of the first-sample path for the pose context ctx: the
        measured pose is adopted as the state, the matrix is zero. */
    ghost predicate Bootstrapped(ctx: PoseContext)
      reads this
    {
      var mp := CalculatePose(lib, ctx);
      && measuredPose == mp.pose && measuredQPose == mp.qPose
      && fk == ZeroMat4
      && stateQ == FromEuler(lib, measuredPose)
      && fusionQPose == stateQ && fusionPose == measuredPose
    }

    /** The result of a full cycle from the running quaternion q0 and the pose
        context ctx: measured pose derived, matrix set from the gyro, state
        predicted, corrected and normalised, fused poses refreshed. */
    ghost predicate Cycled(q0: Quat, ctx: PoseContext)
      reads this
    {
      var mp := CalculatePose(lib, ctx);
      && ModeOk(mode) && timeDelta > 0.0
      && measuredPose == mp.pose && measuredQPose == mp.qPose
      && fk == Transition(gyro)
      && stateQ == Normalize(lib, Corrected(mode, lib, enableCompass || enableAccel,
                                           Predicted(q0, gyro, timeDelta), measuredQPose, timeDelta))
      && fusionPose == ToEuler(lib, stateQ) && fusionQPose == stateQ
    }

    /** The error quaternion and the SLERP scratch fields after a full cycle
        from state q0, as the update step leaves them: the linear-gain variant
        records the error of the predicted state, the SLERP variant the
        rotation delta, its axis and its power when a sensor contributes. */
    twostate predicate ScratchAfterCycle(q0: Quat)
      reads this
    {
      var correcting := enableCompass || enableAccel;
      var s := Predicted(q0, gyro, timeDelta);
      && (mode.LinearGain? ==>
            stateQError == LinearError(correcting, s, measuredQPose) && RotationKept())
      && (mode.Slerp? ==> stateQError == old(stateQError))
      && (mode.Slerp? && correcting ==>
            && rotationDelta == RotationDelta(lib, s, measuredQPose)
            && rotationUnitVector == RotationUnitVector(lib, rotationDelta)
            && rotationPower == RotationPower(lib, mode.slerpPower, rotationDelta))
      && (mode.Slerp? && !correcting ==> RotationKept())
    }

    /** The sample has been counted and its readings copied in, the gyro
        reading only when the gyros are enabled. */
    twostate predicate TookInputs(data: ImuData)
      reads this, data
    {
      && sampleNumber == old(sampleNumber) + 1
      && gyro == (if enableGyro then data.gyro else ZeroVec3)
      && accel == data.accel && compass == data.compass && compassValid == data.compassValid
    }

    /** A skipped sample leaves the filter state as it was. */
    twostate predicate Kept()
      reads this
    {
      && stateQ == old(stateQ) && fusionPose == old(fusionPose) && fusionQPose == old(fusionQPose)
      && measuredPose == old(measuredPose) && measuredQPose == old(measuredQPose)
      && stateQError == old(stateQError) && fk == old(fk)
      && RotationKept()
    }

    /** The SLERP scratch fields are written only by a full cycle. */
    twostate predicate RotationKept()
      reads this
    {
      && rotationDelta == old(rotationDelta) && rotationUnitVector == old(rotationUnitVector)
      && rotationPower == old(rotationPower)
    }

    /** ... and leaves the record's fused fields and flags as they were. */
    twostate predicate RecordKept(data: ImuData)
      reads data
    {
      && data.fusionPose == old(data.fusionPose) && data.fusionQPose == old(data.fusionQPose)
      && data.fusionPoseValid == old(data.fusionPoseValid)
      && data.fusionQPoseValid == old(data.fusionQPoseValid)
    }

    /** The first-sample path: remember the timestamp, derive the measured
        pose, zero the transition matrix and adopt the measured pose as the
        state, with no predict or update. */
    method Bootstrap(timestamp: int, declination: real)
      requires ModeOk(mode) && firstTime
      modifies this`lastFusionTime, this`measuredPose, this`measuredQPose, this`fk
      modifies this`stateQ, this`fusionQPose, this`fusionPose, this`firstTime
      ensures Valid() && !firstTime
      ensures lastFusionTime == timestamp
      ensures Bootstrapped(old(PoseInput(accel, compass, declination)))
    {
      lastFusionTime := timestamp;
      DerivePose(accel, compass, declination);
      fk := ZeroMat4;

      stateQ := FromEuler(lib, measuredPose);
      fusionQPose := stateQ;
      fusionPose := measuredPose;
      firstTime := false;
      assert ModeOk(mode) && ZeroDiagonal(fk) && fusionQPose == stateQ;
    }

    /** The first sample as a whole: take the inputs, bootstrap, then publish
        the adopted pose. */
    method FirstSample(data: ImuData, declination: real)
      requires ModeOk(mode) && firstTime
      modifies this`sampleNumber, this`gyro, this`accel, this`compass, this`compassValid
      modifies this`lastFusionTime, this`measuredPose, this`measuredQPose, this`fk
      modifies this`stateQ, this`fusionQPose, this`fusionPose, this`firstTime
      modifies data`fusionPose, data`fusionQPose, data`fusionPoseValid, data`fusionQPoseValid
      ensures Valid() && !firstTime
      ensures TookInputs(data)
      ensures lastFusionTime == data.timestamp
      ensures Bootstrapped(PoseContext(data.accel, data.compass, declination, data.compassValid,
                                       old(fusionPose), old(fusionQPose), enableAccel, enableCompass))
      ensures Published(data)
    {
      ghost var ctx := PoseContext(data.accel, data.compass, declination, data.compassValid,
                                   fusionPose, fusionQPose, enableAccel, enableCompass);
      TakeInputs(data);
      assert PoseInput(accel, compass, declination) == ctx;
      Bootstrap(data.timestamp, declination);
      Publish(data);
    }

    /** The fused poses after an update: the Euler angles of the state and
        the state itself. */
    method RefreshPoses()
      modifies this`fusionPose, this`fusionQPose
      ensures fusionPose == ToEuler(lib, stateQ) && fusionQPose == stateQ
    {
      fusionPose := ToEuler(lib, stateQ);
      fusionQPose := stateQ;
    }

    /** One full cycle once the time delta is known to be positive: derive the
        measured pose, predict, update and refresh the fused poses. */
    method Advance(a: Vec3, c: Vec3, declination: real)
      requires Valid() && !firstTime && timeDelta > 0.0
      modifies this`measuredPose, this`measuredQPose, this`fk
      modifies this`stateQ, this`stateQError, this`rotationDelta, this`rotationUnitVector
      modifies this`rotationPower, this`fusionPose, this`fusionQPose
      ensures Valid()
      ensures Cycled(old(stateQ), old(PoseInput(a, c, declination)))
      ensures ScratchAfterCycle(old(stateQ))
    {
      DerivePose(a, c, declination);

      Predict();
      Update();
      RefreshPoses();
    }

    /** A later sample: compute the time delta and advance the timestamp;
        when the delta is not positive stop there, otherwise derive the
        measured pose, predict, update and refresh the fused poses. */
    method Cycle(timestamp: int, a: Vec3, c: Vec3, declination: real) returns (advanced: bool)
      requires Valid() && !firstTime
      modifies this`timeDelta, this`lastFusionTime, this`measuredPose, this`measuredQPose, this`fk
      modifies this`stateQ, this`stateQError, this`rotationDelta, this`rotationUnitVector
      modifies this`rotationPower, this`fusionPose, this`fusionQPose
      ensures Valid()
      ensures timeDelta == TimeDelta(timestamp, old(lastFusionTime))
      ensures lastFusionTime == timestamp
      ensures advanced <==> timeDelta > 0.0
      ensures !advanced ==> Kept()
      ensures advanced ==> Cycled(old(stateQ), old(PoseInput(a, c, declination)))
      ensures advanced ==> ScratchAfterCycle(old(stateQ))
    {
      timeDelta := (timestamp - lastFusionTime) as real / MicrosPerSecond;
      lastFusionTime := timestamp;
      if timeDelta <= 0.0 {
        return false;
      }

      Advance(a, c, declination);
      return true;
    }

    /** A later sample as a whole: take the inputs, run the cycle, and
        publish unless the sample was skipped. */
    method LaterSample(data: ImuData, declination: real)
      requires Valid() && !firstTime
      modifies this`sampleNumber, this`gyro, this`accel, this`compass, this`compassValid
      modifies this`timeDelta, this`lastFusionTime, this`measuredPose, this`measuredQPose, this`fk
      modifies this`stateQ, this`stateQError, this`rotationDelta, this`rotationUnitVector
      modifies this`rotationPower, this`fusionPose, this`fusionQPose
      modifies data`fusionPose, data`fusionQPose, data`fusionPoseValid, data`fusionQPoseValid
      ensures Valid()
      ensures TookInputs(data)
      ensures timeDelta == TimeDelta(data.timestamp, old(lastFusionTime))
      ensures lastFusionTime == data.timestamp
      ensures timeDelta <= 0.0 ==> Kept() && RecordKept(data)
      ensures timeDelta > 0.0 ==>
        && Cycled(old(stateQ), PoseContext(data.accel, data.compass, declination, data.compassValid,
                                           old(fusionPose), old(fusionQPose), enableAccel, enableCompass))
        && Published(data)
      ensures timeDelta > 0.0 ==> ScratchAfterCycle(old(stateQ))
    {
      ghost var ctx := PoseContext(data.accel, data.compass, declination, data.compassValid,
                                   fusionPose, fusionQPose, enableAccel, enableCompass);
      TakeInputs(data);
      assert PoseInput(data.accel, data.compass, declination) == ctx;
      var advanced := Cycle(data.timestamp, data.accel, data.compass, declination);
      if advanced {
        Publish(data);
      }
    }

    /** Count the sample and copy its readings into the estimator; the gyro
        reading is replaced by zero when the gyros are disabled. */
    method TakeInputs(data: ImuData)
      modifies this`sampleNumber, this`gyro, this`accel, this`compass, this`compassValid
      ensures sampleNumber == old(sampleNumber) + 1
      ensures gyro == (if enableGyro then data.gyro else ZeroVec3)
      ensures accel == data.accel && compass == data.compass && compassValid == data.compassValid
    {
      sampleNumber := sampleNumber + 1;
      if enableGyro {
        gyro := data.gyro;
      } else {
        gyro := ZeroVec3;
      }
      accel := data.accel;
      compass := data.compass;
      compassValid := data.compassValid;
    }

    /** Write the fused poses into the record and mark both valid. */
    method Publish(data: ImuData)
      modifies data`fusionPose, data`fusionQPose, data`fusionPoseValid, data`fusionQPoseValid
      ensures Published(data)
    {
      data.fusionPoseValid := true;
      data.fusionQPoseValid := true;
      data.fusionPose := fusionPose;
      data.fusionQPose := fusionQPose;
    }

    /** Take one sample (newIMUData): copy the inputs (the gyro only when
        enabled), then bootstrap on the first sample, skip a sample whose time
        delta is not positive, or run a full cycle; write the fused result and
        the validity flags into the record except on a skipped sample. The
        record's inputs are outside the frame: they are read, never written. */
    method NewIMUData(data: ImuData, declination: real)
      requires Valid()
      modifies this, data`fusionPose, data`fusionQPose, data`fusionPoseValid, data`fusionQPoseValid
      ensures Valid() && !firstTime
      ensures sampleNumber == old(sampleNumber) + 1
      // input copying, on every call
      ensures gyro == (if enableGyro then data.gyro else ZeroVec3)
      ensures accel == data.accel && compass == data.compass && compassValid == data.compassValid
      ensures lastFusionTime == data.timestamp
      // first sample: adopt the measured pose, no predict or update
      ensures old(firstTime) ==>
        && timeDelta == old(timeDelta) && stateQError == old(stateQError)
        && Bootstrapped(PoseContext(data.accel, data.compass, declination, data.compassValid,
                                    old(fusionPose), old(fusionQPose), enableAccel, enableCompass))
        && Published(data)
      ensures old(firstTime) ==> RotationKept()
      // every later sample: the time delta, then skip or a full cycle
      ensures !old(firstTime) ==> timeDelta == TimeDelta(data.timestamp, old(lastFusionTime))
      ensures !old(firstTime) && timeDelta <= 0.0 ==> Kept() && RecordKept(data)
      ensures !old(firstTime) && timeDelta > 0.0 ==>
        && Cycled(old(stateQ), PoseContext(data.accel, data.compass, declination, data.compassValid,
                                           old(fusionPose), old(fusionQPose), enableAccel, enableCompass))
        && Published(data)
      ensures !old(firstTime) && timeDelta > 0.0 ==> ScratchAfterCycle(old(stateQ))
    {
      if firstTime {
        FirstSample(data, declination);
      } else {
        LaterSample(data, declination);
      }
    }
  }
}
