/** Scenarios built from the estimator's operations: two-sample runs of a
    freshly constructed estimator, and the single-sample steps they are made
    of, which apply to any running estimator. */
module Scenarios {
  import opened Quaternions
  import opened FusionMath
  import opened RTQF

  /** The pose context of a first sample taken right after construction. */
  function FirstContext(lib: Numerics, accel: Vec3, compass: Vec3, compassValid: bool,
                        declination: real, enableAccel: bool, enableCompass: bool): PoseContext
  {
    PoseContext(accel, compass, declination, compassValid, ZeroVec3, FromEuler(lib, ZeroVec3),
                enableAccel, enableCompass)
  }

  /** A sample whose timestamp is the last one taken is dropped: the
      estimator's pose is unchanged and the fresh record is never marked
      valid. */
  method Resample(fusion: FusionRTQF, gyro: Vec3, accel: Vec3, compass: Vec3, compassValid: bool,
                  declination: real)
    returns (pose: Vec3, valid: bool)
    requires fusion.Valid() && !fusion.firstTime
    modifies fusion
    ensures pose == old(fusion.fusionPose) && !valid
  {
    var d := new ImuData(fusion.lastFusionTime, gyro, accel, compass, compassValid);
    fusion.NewIMUData(d, declination);
    pose, valid := fusion.fusionPose, d.fusionPoseValid;
  }

  /** Two samples with the same timestamp: the first is published as the
      measured pose, the second is dropped, so the estimator's pose stays the
      first one and the second record is never marked valid. */
  method RepeatedTimestamp(useSlerp: bool, lib: Numerics, enableGyro: bool, enableAccel: bool,
                           enableCompass: bool, timestamp: int, gyro: Vec3, accel: Vec3,
                           compass: Vec3, compassValid: bool, declination: real)
    returns (first: Vec3, firstValid: bool, second: Vec3, secondValid: bool)
    ensures first == CalculatePose(lib, FirstContext(lib, accel, compass, compassValid, declination,
                                                     enableAccel, enableCompass)).pose
    ensures firstValid
    ensures second == first
    ensures !secondValid
  {
    var fusion := new FusionRTQF(useSlerp, lib, enableGyro, enableAccel, enableCompass);
    var d1 := new ImuData(timestamp, gyro, accel, compass, compassValid);
    fusion.NewIMUData(d1, declination);
    first, firstValid := d1.fusionPose, d1.fusionPoseValid;
    second, secondValid := Resample(fusion, gyro, accel, compass, compassValid, declination);
  }

  /** A record handed back with a timestamp no later than the last one
      taken is skipped (timestamps read as signed integers): whatever it
      held, its fused fields and validity flags are left as they were. */
  method Resubmit(fusion: FusionRTQF, d: ImuData, declination: real)
    requires fusion.Valid() && !fusion.firstTime && d.timestamp <= fusion.lastFusionTime
    modifies fusion, d
    ensures d.fusionPose == old(d.fusionPose) && d.fusionQPose == old(d.fusionQPose)
    ensures d.fusionPoseValid == old(d.fusionPoseValid)
    ensures d.fusionQPoseValid == old(d.fusionQPoseValid)
  {
    fusion.NewIMUData(d, declination);
  }

  /** One record used for two samples with the same timestamp: the first
      publishes the measured pose as valid, and the skipped second leaves the
      record valid and holding that pose. */
  method ReusedRecord(useSlerp: bool, lib: Numerics, enableGyro: bool, enableAccel: bool,
                      enableCompass: bool, timestamp: int, gyro: Vec3, accel: Vec3,
                      compass: Vec3, compassValid: bool, declination: real)
    returns (pose: Vec3, valid: bool)
    ensures pose == CalculatePose(lib, FirstContext(lib, accel, compass, compassValid, declination,
                                                    enableAccel, enableCompass)).pose
    ensures valid
  {
    var fusion := new FusionRTQF(useSlerp, lib, enableGyro, enableAccel, enableCompass);
    var d := new ImuData(timestamp, gyro, accel, compass, compassValid);
    fusion.NewIMUData(d, declination);
    Resubmit(fusion, d, declination);
    pose, valid := d.fusionPose, d.fusionPoseValid;
  }

  /** A later sample to an estimator whose gyros, accelerometers and compass
      are all disabled: the published quaternion is the normalised previous
      one, whatever the sensors read. */
  method ZeroRateSample(fusion: FusionRTQF, timestamp: int, gyro: Vec3, accel: Vec3, compass: Vec3,
                        compassValid: bool, declination: real)
    returns (q: Quat)
    requires fusion.Valid() && !fusion.firstTime && fusion.lastFusionTime < timestamp
    requires !fusion.enableGyro && !fusion.enableAccel && !fusion.enableCompass
    modifies fusion
    ensures q == Normalize(fusion.lib, old(fusion.fusionQPose))
  {
    ghost var q0 := fusion.stateQ;
    var d := new ImuData(timestamp, gyro, accel, compass, compassValid);
    fusion.NewIMUData(d, declination);
    ZeroRateCycle(fusion.mode, fusion.lib, q0, fusion.measuredQPose, fusion.timeDelta);
    q := d.fusionQPose;
  }

  /** With the gyros, the accelerometers and the compass all disabled, a
      later sample only renormalises: the second published quaternion is the
      normalised first one, whatever the sensors read. */
  method DisabledSensors(useSlerp: bool, lib: Numerics, t1: int, t2: int, gyro: Vec3,
                         accel: Vec3, compass: Vec3, compassValid: bool, declination: real)
    returns (first: Quat, second: Quat)
    requires t1 < t2
    ensures first == FromEuler(lib, CalculatePose(lib, FirstContext(lib, accel, compass, compassValid,
                                                                    declination, false, false)).pose)
    ensures second == Normalize(lib, first)
  {
    var fusion := new FusionRTQF(useSlerp, lib, false, false, false);
    var d1 := new ImuData(t1, gyro, accel, compass, compassValid);
    fusion.NewIMUData(d1, declination);
    first := d1.fusionQPose;
    second := ZeroRateSample(fusion, t2, gyro, accel, compass, compassValid, declination);
  }
}
