/**
 * Pitch and yaw-rate estimation (the Imu namespace of the main
 * firmware). Each update takes one IMU reading: the accelerometer gives
 * an absolute but noisy pitch (atan2 of the y and z accelerations), the
 * gyro a pitch rate. The first update adopts the accelerometer pitch;
 * later ones predict the pitch from the gyro over one control period
 * and fuse that prediction with the accelerometer estimate. The yaw
 * rate is the gyro's y/z rates rotated by the estimated pitch.
 *
 * The MPU-6050 driver is not part of this model: a reading arrives as a
 * parameter. The calibration constants and variances of the robot are
 * constructor parameters.
 */
module Imu {
  import MathLib
  import G = GaussianBelief

  /** One IMU sample: accelerations [m/s^2] and angular rates [rad/s]. */
  datatype Reading = Reading(accY: real, accZ: real, velX: real, velY: real, velZ: real)

  /** The accelerometer pitch needs a nonzero y/z acceleration vector. */
  predicate AccDefined(r: Reading) {
    G.NormSq(r.accZ, r.accY) > 0.0
  }

  /** Accelerometer pitch estimate: atan2 of the y and z accelerations, both with variance accVar. */
  function AccPitch(r: Reading, accVar: real, atan2f: (real, real) -> real): (p: G.Gaussian)
    requires AccDefined(r)
    ensures p.mean == atan2f(r.accY, r.accZ)
    ensures p.variance == accVar / G.NormSq(r.accZ, r.accY)
    ensures accVar > 0.0 ==> p.variance > 0.0
  {
    G.Atan2EqualVariance(G.Gaussian(r.accY, accVar), G.Gaussian(r.accZ, accVar), atan2f);
    G.Atan2(G.Gaussian(r.accY, accVar), G.Gaussian(r.accZ, accVar), atan2f)
  }

  /** Gyro prediction: the previous pitch advanced by the rate over one period. */
  function Predict(pitch: G.Gaussian, pitchVel: G.Gaussian, tCtrl: real): (p: G.Gaussian)
    ensures p.mean == pitch.mean + pitchVel.mean * tCtrl
    ensures p.variance == pitch.variance + pitchVel.variance * tCtrl * tCtrl
    ensures G.Valid(pitch) && G.Valid(pitchVel) ==> G.Valid(p)
  {
    G.ScaleProperties(pitchVel, tCtrl, 1.0);
    G.Add(pitch, G.MulScalar(pitchVel, tCtrl))
  }

  class Estimator {
    /** Accelerometer and gyro variances, control period, math routines. */
    const accVar: real
    const velVar: real
    const tCtrl: real
    const trig: MathLib.Trig
    var firstFrame: bool
    var pitch: G.Gaussian
    var pitchVel: G.Gaussian
    var yawVel: real

    ghost predicate Valid()
      reads this
    {
      accVar > 0.0 && velVar >= 0.0 && G.Valid(pitch) && G.Valid(pitchVel)
    }

    /** Start-up state: first frame pending, null beliefs, zero yaw rate. */
    constructor (accVar: real, velVar: real, tCtrl: real, trig: MathLib.Trig)
      requires accVar > 0.0 && velVar >= 0.0
      ensures Valid()
      ensures this.accVar == accVar && this.velVar == velVar && this.tCtrl == tCtrl && this.trig == trig
      ensures firstFrame && pitch == G.Null && pitchVel == G.Null && yawVel == 0.0
    {
      this.accVar := accVar;
      this.velVar := velVar;
      this.tCtrl := tCtrl;
      this.trig := trig;
      firstFrame := true;
      pitch := G.Null;
      pitchVel := G.Null;
      yawVel := 0.0;
    }

    /** Takes one reading and updates the pitch, pitch-rate and yaw-rate estimates. */
    method Update(r: Reading)
      requires Valid() && AccDefined(r)
      modifies this`firstFrame, this`pitch, this`pitchVel, this`yawVel
      ensures Valid() && !firstFrame
      ensures pitchVel == G.Gaussian(r.velX, velVar)
      ensures old(firstFrame) ==> pitch == AccPitch(r, accVar, trig.atan2)
      ensures !old(firstFrame) ==>
        pitch == G.Fuse(Predict(old(pitch), pitchVel, tCtrl), AccPitch(r, accVar, trig.atan2))
      ensures !old(firstFrame) ==>
        pitch.variance <= AccPitch(r, accVar, trig.atan2).variance &&
        G.Between(pitch.mean, Predict(old(pitch), pitchVel, tCtrl).mean, AccPitch(r, accVar, trig.atan2).mean)
      ensures yawVel == r.velZ * trig.cos(pitch.mean) + r.velY * trig.sin(pitch.mean)
    {
      var pitchAcc := AccPitch(r, accVar, trig.atan2);
      pitchVel := G.Gaussian(r.velX, velVar);
      if firstFrame {
        firstFrame := false;
        pitch := pitchAcc;
      } else {
        var pitchGyr := Predict(pitch, pitchVel, tCtrl);
        pitch := G.Fuse(pitchGyr, pitchAcc);
      }
      yawVel := r.velZ * trig.cos(pitch.mean) + r.velY * trig.sin(pitch.mean);
    }

    method GetPitch() returns (p: real)
      ensures p == pitch.mean
    {
      p := pitch.mean;
    }

    method GetPitchVel() returns (v: real)
      ensures v == pitchVel.mean
    {
      v := pitchVel.mean;
    }

    method GetYawVel() returns (v: real)
      ensures v == yawVel
    {
      v := yawVel;
    }
  }
}
