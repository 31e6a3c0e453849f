# RTQF orientation fusion, in Dafny

This project models `RTFusionRTQF`, the quaternion fusion estimator of RTIMULib, and proves
properties of the model. The estimator takes one IMU sample at a time. A sample holds gyro,
accelerometer and compass readings, a compass-valid flag and a timestamp in microseconds.
The estimator:

- integrates the gyro rates into a running quaternion (the predict step);
- pulls that quaternion toward the pose measured from the accelerometers and compass (the
  update step);
- normalises it;
- writes the fused quaternion and its Euler angles back into the caller's sample record.

The files:

- `quaternions.dfy` (module `Quaternions`): vectors, quaternions and 4x4 matrices over the
  reals, with the componentwise operations and the matrix-times-quaternion product the
  estimator uses, in their standard meaning.
- `fusion_math.dfy` (module `FusionMath`): the arithmetic of one cycle as pure functions, with
  lemmas about them. It covers:
  - the time delta;
  - the transition matrix and the predicted state;
  - the linear-gain blend and its gain;
  - the SLERP correction skeleton;
  - the two correction variants as a `FusionMode` chosen at construction, with the source's
    constants (slerp power 0.02, Q = 0.001, R = 0.0005).
- `rtqf.dfy` (module `RTQF`): the estimator as a class whose fields mirror the C++ members
  (`m_firstTime`, `m_lastFusionTime`, `m_timeDelta`, `m_stateQ`, `m_Fk`, ...), plus the sample
  record `ImuData`.
  - Each method updates the fields in place, as the C++ does.
  - Its `ensures` tie the new state to the pure functions of `FusionMath`.
  - `newIMUData` is split into its stages: input copying, the first-sample path, the later-sample
    path, and writing the record. Each stage is a method with its own contract.
- `scenarios.dfy` (module `Scenarios`): two-sample runs of a freshly constructed estimator,
  and the single-sample steps they are built from. The steps (`Resample`, `Resubmit`,
  `ZeroRateSample`) apply to any running estimator and modify it; `Resubmit` also modifies
  the record it is given.
  - A repeated timestamp is dropped, whether it arrives in a fresh record or a reused one.
  - With every sensor disabled, a later sample only renormalises.

The library routines have no definitions here: `normalize`, `fromEuler`, `toEuler`, the
quaternion product, `conjugate`, `acos`, `sin`, `cos`, vector `normalize`, and the base
class's `calculatePose`. They are the fields of a `Numerics` value, handed to the constructor
as total functions about which nothing is assumed.

The two correction variants are a compile-time switch (`USE_SLERP`) in the source. Here they
are a mode fixed at construction.

Two facts about the code are worth stating on their own:

- On a skipped sample (time delta not positive), `newIMUData` returns before it writes the
  record (RTIMULib/RTFusionRTQF.cpp:189-190 against 207-210), so the validity flags are not
  re-asserted. The record's fused fields and validity flags keep whatever they held.
  - A freshly built record therefore keeps its flags false (`Scenarios.RepeatedTimestamp`).
  - A reused record that was published earlier stays valid and keeps its pose
    (`Scenarios.ReusedRecord`).
- The argument of `acos` is not clamped to [-1, 1] (line 121). `FusionMath.RotationPower`
  passes the normalised delta's scalar part straight through.

## Model

| member | source | states |
|---|---|---|
| RTQF.FusionRTQF.constructor | RTIMULib/RTFusionRTQF.cpp:46-55 | the variant's default mode (slerp power 0.02, or Q = 0.001 and R = 0.0005), the sensor toggles as given, then the reset state; the invariant holds |
| FusionMath.DefaultMode | RTIMULib/RTFusionRTQF.cpp:28-53 | the SLERP build gets the slerp mode and the other build the linear-gain mode; either mode's constants are usable (power in [0, 1], Q > 0, R > 0) |
| RTQF.FusionRTQF.Reset | RTIMULib/RTFusionRTQF.cpp:61-72 | firstTime is true and the sample count is 0; gyro, accel, compass, fusion pose and measured pose are zero vectors; both quaternion poses are fromEuler of zero; no other field is in the frame |
| RTQF.FusionRTQF.NewIMUData | RTIMULib/RTFusionRTQF.cpp:159-211 | the count goes up by one and the inputs are copied (the gyro only when enabled); the timestamp is recorded; a first sample bootstraps and publishes, leaving the time delta, the error quaternion and the SLERP scratch fields as they were; a later sample sets timeDelta = (t - last)/10^6; when that is not positive, the filter state, the SLERP scratch fields and the record's fused fields and flags are untouched; otherwise it runs a full cycle, sets the error quaternion or the SLERP scratch fields as the update step does, and publishes; the invariant is kept and the record's inputs are never written |
| RTQF.FusionRTQF.TakeInputs | RTIMULib/RTFusionRTQF.cpp:165-173 | the sample count goes up by one; gyro is the sample's gyro if the gyros are enabled and zero otherwise; accel, compass and compassValid are copied verbatim |
| RTQF.FusionRTQF.Bootstrap | RTIMULib/RTFusionRTQF.cpp:175-185 | lastFusionTime is the timestamp; the measured pose comes from calculatePose; the matrix is zero; stateQ is fromEuler(measuredPose); fusionQPose is stateQ and fusionPose is measuredPose; firstTime becomes false; there is no predict or update |
| RTQF.FusionRTQF.FirstSample | RTIMULib/RTFusionRTQF.cpp:165-185 | a first sample takes the inputs as in TakeInputs, bootstraps as in Bootstrap, then publishes the adopted pose into the record as valid (lines 207-210) |
| RTQF.FusionRTQF.LaterSample | RTIMULib/RTFusionRTQF.cpp:165-210 | a later sample takes the inputs, then sets the time delta and timestamp; when the delta is not positive, the filter state, the SLERP scratch fields and the record are all unchanged; otherwise it runs a full cycle (the new state, the error quaternion or the SLERP scratch fields as the update step sets them) and publishes |
| RTQF.FusionRTQF.Cycle | RTIMULib/RTFusionRTQF.cpp:186-197 | timeDelta is the elapsed time and lastFusionTime advances before the skip test; the sample advances iff timeDelta > 0; when it does not, the filter state and the SLERP scratch fields are unchanged; when it does, the result is that of Advance |
| RTQF.FusionRTQF.Advance | RTIMULib/RTFusionRTQF.cpp:192-197 | calculatePose, then predict, then update, then toEuler: stateQ = normalize(correct(predict(old stateQ), measured)), the fused poses are refreshed from it, and the error quaternion (linear gain) or the rotation delta, axis and power (SLERP, when a sensor contributes) are those of the predicted state; the invariant is kept |
| RTQF.FusionRTQF.DerivePose | RTIMULib/RTFusionRTQF.cpp:192 | the measured pose and its quaternion are what calculatePose gives for the readings, the declination and the estimator state it sees |
| RTQF.FusionRTQF.Predict | RTIMULib/RTFusionRTQF.cpp:74-106 | after writing the twelve off-diagonal entries onto a zero diagonal, m_Fk equals Transition(gyro) and stateQ = q + dt (F q), not normalised |
| RTQF.FusionRTQF.Update | RTIMULib/RTFusionRTQF.cpp:109-157 | stateQ is the configured correction of the old state, normalised once; linear gain: the error is m - q, or zero when neither accel nor compass is enabled, and the rotation fields are untouched; SLERP: the error is untouched, and the rotation delta, its unit vector and its power are set only when accel or compass is enabled |
| RTQF.FusionRTQF.RefreshPoses | RTIMULib/RTFusionRTQF.cpp:196-197 | fusionPose is toEuler of the state and fusionQPose is the state |
| RTQF.FusionRTQF.Publish | RTIMULib/RTFusionRTQF.cpp:207-210 | both validity flags of the record are true and its fused fields equal the estimator's |
| FusionMath.Transition | RTIMULib/RTFusionRTQF.cpp:81-99 | the matrix m_Fk after predict's twelve setVal calls: 0 on the diagonal, plus or minus half of each body rate off it, in the source's index pattern (properties in TransitionShape and TransitionEntries) |
| FusionMath.Predicted | RTIMULib/RTFusionRTQF.cpp:103-105 | the state after predict: q + dt (F q), not normalised (properties in PredictedIsEulerStep, PredictedNormSq and PredictedZeroGyro) |
| FusionMath.TimeDelta | RTIMULib/RTFusionRTQF.cpp:187 | dt * 10^6 is the timestamp difference; dt <= 0 exactly when the timestamp is not after the last one (signed timestamps); an equal timestamp gives dt = 0 |
| FusionMath.TransitionShape | RTIMULib/RTFusionRTQF.cpp:81-99 | the transition matrix is antisymmetric with a zero diagonal, and its entries are the half rates in the kinematic pattern |
| FusionMath.TransitionEntries | RTIMULib/RTFusionRTQF.cpp:85-99 | entry (i, j) of the transition matrix is minus entry (j, i), for all indices |
| FusionMath.TransitionZeroGyro | RTIMULib/RTFusionRTQF.cpp:81-99 | a zero gyro reading gives the zero matrix |
| Quaternions.AntisymmetricByEntries | RTIMULib/RTFusionRTQF.cpp:85-99 | the fieldwise antisymmetry predicate holds iff F[i][j] = -F[j][i] for all i, j |
| Quaternions.MulOrthogonal | RTIMULib/RTFusionRTQF.cpp:103 | an antisymmetric matrix sends q to a vector orthogonal to q |
| Quaternions.NormSqAddScaled | RTIMULib/RTFusionRTQF.cpp:103-105 | the squared norm of q + dt f expands to \|q\|^2 + 2 dt (q . f) + dt^2 \|f\|^2 |
| FusionMath.TransitionIsHalfRate | RTIMULib/RTFusionRTQF.cpp:103 | F q is half the Hamilton product of q with the pure quaternion of the rates |
| FusionMath.PredictedIsEulerStep | RTIMULib/RTFusionRTQF.cpp:103-105 | the predict step is one first-order step of dq/dt = q (0, w) / 2 |
| FusionMath.PredictedNormSq | RTIMULib/RTFusionRTQF.cpp:103-105 | the predicted squared norm is the old one plus dt^2 \|F q\|^2, so the predict step never decreases the norm |
| FusionMath.PredictedZeroGyro | RTIMULib/RTFusionRTQF.cpp:103-105 | with a zero gyro reading the predict step leaves the state unchanged |
| FusionMath.GainInUnitInterval | RTIMULib/RTFusionRTQF.cpp:151-153 | k = Q dt / (Q dt + R) solves k (Q dt + R) = Q dt, and 0 < k < 1 when Q, R and dt are positive |
| FusionMath.GainZeroQ | RTIMULib/RTFusionRTQF.cpp:151-153 | Q = 0 gives zero correction weight |
| FusionMath.GainZeroR | RTIMULib/RTFusionRTQF.cpp:151-153 | R = 0 gives full correction weight |
| FusionMath.GainGrowsWithTime | RTIMULib/RTFusionRTQF.cpp:151-153 | a longer time delta gives a weight at least as large |
| FusionMath.GainShrinksWithNoise | RTIMULib/RTFusionRTQF.cpp:40-43 | a larger R gives a weight at most as large (the more sluggish response the source's comment describes) |
| FusionMath.Gain | RTIMULib/RTFusionRTQF.cpp:151-153 | the linear-gain weight Q dt / (Q dt + R), defined when the denominator is non-zero (properties in GainInUnitInterval and the Gain lemmas) |
| FusionMath.LinearError | RTIMULib/RTFusionRTQF.cpp:143-147 | m_stateQError: the measured minus the predicted quaternion when accelerometer or compass is enabled, otherwise the zero quaternion |
| FusionMath.LinearCorrected | RTIMULib/RTFusionRTQF.cpp:143-153 | the linear-gain state before normalisation: the predicted state plus the error times the gain (properties in LinearCorrectedBlend, LinearCorrectedIsConvex and LinearCorrectedSnaps) |
| FusionMath.LinearCorrectedBlend | RTIMULib/RTFusionRTQF.cpp:143-153 | q + k (m - q) is the blend (1 - k) q + k m; with neither accel nor compass enabled the state is unchanged |
| FusionMath.LinearCorrectedIsConvex | RTIMULib/RTFusionRTQF.cpp:143-153 | with positive Q, R and dt, each component of the corrected state lies between the predicted and the measured component |
| FusionMath.LinearCorrectedSnaps | RTIMULib/RTFusionRTQF.cpp:151-153 | R = 0 makes the corrected state equal to the measurement |
| FusionMath.RotationDelta | RTIMULib/RTFusionRTQF.cpp:116-117 | the normalised product of the conjugate of the predicted state with the measured quaternion |
| FusionMath.RotationUnitVector | RTIMULib/RTFusionRTQF.cpp:126-129 | the normalised vector part of the rotation delta |
| FusionMath.RotationPower | RTIMULib/RTFusionRTQF.cpp:121-135 | theta = acos of the delta's scalar part, with no clamp; the result is the normalised quaternion (cos(p theta), sin(p theta) u) |
| FusionMath.SlerpCorrected | RTIMULib/RTFusionRTQF.cpp:112-140 | the SLERP state before normalisation: the predicted state times the rotation power when accelerometer or compass is enabled, otherwise the predicted state unchanged |
| FusionMath.Corrected | RTIMULib/RTFusionRTQF.cpp:111-154 | the compile-time choice between SlerpCorrected and LinearCorrected, as the mode selects it (properties in CorrectedCases) |
| FusionMath.CorrectedCases | RTIMULib/RTFusionRTQF.cpp:111-154 | no contributing sensor: no change in either variant; linear gain: a blend with weight strictly in (0, 1); SLERP: the state times the power of conj(q) m normalised |
| FusionMath.ZeroRateCycle | RTIMULib/RTFusionRTQF.cpp:103-105 | with zero rates and no contributing sensor, predict and correct together return the state unchanged |
| Scenarios.Resample | RTIMULib/RTFusionRTQF.cpp:186-190 | a sample carrying the last timestamp leaves the estimator's pose as it was and its record stays invalid |
| Scenarios.RepeatedTimestamp | RTIMULib/RTFusionRTQF.cpp:175-190 | after construction, the first sample publishes the measured pose as valid; a second sample with the same timestamp keeps that pose and its record is not marked valid |
| Scenarios.Resubmit | RTIMULib/RTFusionRTQF.cpp:186-190 | a record whose timestamp is not after the last one (signed timestamps) keeps its fused fields and both validity flags, whatever they held |
| Scenarios.ReusedRecord | RTIMULib/RTFusionRTQF.cpp:175-190 | one record used for two samples with the same timestamp: after the skipped second sample it is still valid and holds the first sample's measured pose |
| Scenarios.ZeroRateSample | RTIMULib/RTFusionRTQF.cpp:166-197 | with gyros, accelerometers and compass all disabled, a later sample publishes the normalised previous quaternion |
| Scenarios.DisabledSensors | RTIMULib/RTFusionRTQF.cpp:166-197 | with everything disabled, the first sample publishes fromEuler of the measured pose and a later one its normalisation |

## Left out

- Floating point: all arithmetic is over `real`, so rounding, NaN propagation and the `float`
  width of the 0.001f and 0.0005f literals are not modelled.
- Library routines: `normalize`, `fromEuler`, `toEuler`, the quaternion product, `conjugate`,
  `acos`, `sin`, `cos` and vector `normalize` live in RTMath, which is not part of this model.
  They are opaque functions with no properties. In particular, nothing claims that a
  normalised quaternion has norm 1.
- `calculatePose` belongs to the base class RTFusion, which is not part of this model. It is
  opaque too. The model assumes its result depends only on:
  - the readings and the declination passed to it;
  - the compass-valid flag;
  - the current fused poses;
  - the accel and compass toggles.
- The settings object: only the declination it supplies is modelled, as the `declination`
  parameter.
- Debug logging (lines 161-164 and 199-205) is output only and is left out. With debugging on,
  line 163 increments the sample count a second time; the model increments it once per call
  (line 165).
- Timestamps are signed `int`s. The declarations of `data.timestamp` and `m_lastFusionTime` are
  not part of this model. If they are unsigned, a timestamp older than the last one wraps and
  is not skipped. `FusionMath.TimeDelta`'s claim that an out-of-order sample gives dt <= 0
  holds only under the signed reading, and so does `Scenarios.Resubmit` for a record older than
  the last sample. An equal timestamp gives dt = 0 either way.
- The enable toggles (`m_enableGyro`, `m_enableAccel`, `m_enableCompass`) are members of the
  base class and have setters there. Here they are constants fixed at construction;
  changing them between samples is not modelled.
- `m_Fk` is a value member of type RTMatrix4x4. It is modelled as a `Mat4` field, and each
  `setVal` becomes an update of one entry. Its contents before the first sample depend on
  the RTMatrix4x4 constructor, which is not part of this model, so they are arbitrary.
  `fill(0)` is modelled as assigning the zero matrix.
- RTQF.FusionRTQF.Valid records the zero diagonal of `m_Fk`, which is what the predict step
  relies on, and not the matrix's full antisymmetry. Antisymmetry is proved of
  `Transition(gyro)` (`FusionMath.TransitionShape`), and `Predict`'s contract ties the matrix
  to that function.
- SLERP: the variant with power 0 or 1 is not claimed to ignore, or fully adopt, the
  measurement. Those facts depend on properties of `acos`, `sin`, `cos` and the quaternion
  product that are opaque here.
- The destructor, and the accessors declared in the header, are not modelled.
