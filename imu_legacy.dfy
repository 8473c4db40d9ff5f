/**
 * The older pitch estimator kept in the library tree (lib/Imu). It
 * differs from the main one in three ways: the accelerometer pitch is
 * the negated arc-tangent, the gyro rate is negated and only sampled
 * after the first frame, and the yaw rate subtracts the y-rate term.
 */
module ImuLegacy {
  import MathLib
  import G = GaussianBelief
  import Imu

  /** Accelerometer pitch estimate of this variant: the negated arc-tangent. */
  function AccPitch(r: Imu.Reading, accVar: real, atan2f: (real, real) -> real): (p: G.Gaussian)
    requires Imu.AccDefined(r)
    ensures p.mean == -atan2f(r.accY, r.accZ)
    ensures accVar > 0.0 ==> p.variance > 0.0
  {
    G.Neg(G.Atan2(G.Gaussian(r.accY, accVar), G.Gaussian(r.accZ, accVar), atan2f))
  }

  /** The two variants' accelerometer estimates mirror each other: opposite means, equal variances. */
  lemma AccPitchMirrors(r: Imu.Reading, accVar: real, atan2f: (real, real) -> real)
    requires Imu.AccDefined(r)
    ensures AccPitch(r, accVar, atan2f) == G.Neg(Imu.AccPitch(r, accVar, atan2f))
    ensures AccPitch(r, accVar, atan2f).variance == Imu.AccPitch(r, accVar, atan2f).variance
  {
  }

  class Estimator {
    const accVar: real
    const velVar: real
    const tCtrl: real
    const trig: MathLib.Trig
    var firstFrame: bool
    var pitch: G.Gaussian
    var pitchVel: G.Gaussian
    var yawVel: real

    ghost predicate Valid()
      reads this
    {
      accVar > 0.0 && velVar >= 0.0 && G.Valid(pitch) && G.Valid(pitchVel)
    }

    constructor (accVar: real, velVar: real, tCtrl: real, trig: MathLib.Trig)
      requires accVar > 0.0 && velVar >= 0.0
      ensures Valid()
      ensures this.accVar == accVar && this.velVar == velVar && this.tCtrl == tCtrl && this.trig == trig
      ensures firstFrame && pitch == G.Null && pitchVel == G.Null && yawVel == 0.0
    {
      this.accVar := accVar;
      this.velVar := velVar;
      this.tCtrl := tCtrl;
      this.trig := trig;
      firstFrame := true;
      pitch := G.Null;
      pitchVel := G.Null;
      yawVel := 0.0;
    }

    /** Takes one reading; the gyro rate is only used (and stored) after the first frame. */
    method Update(r: Imu.Reading)
      requires Valid() && Imu.AccDefined(r)
      modifies this`firstFrame, this`pitch, this`pitchVel, this`yawVel
      ensures Valid() && !firstFrame
      ensures old(firstFrame) ==> pitch == AccPitch(r, accVar, trig.atan2) && pitchVel == old(pitchVel)
      ensures !old(firstFrame) ==> pitchVel == G.Gaussian(-r.velX, velVar)
      ensures !old(firstFrame) ==>
        pitch == G.Fuse(Imu.Predict(old(pitch), pitchVel, tCtrl), AccPitch(r, accVar, trig.atan2))
      ensures !old(firstFrame) ==> pitch.variance <= AccPitch(r, accVar, trig.atan2).variance
      ensures yawVel == r.velZ * trig.cos(pitch.mean) - r.velY * trig.sin(pitch.mean)
    {
      var pitchAcc := AccPitch(r, accVar, trig.atan2);
      if firstFrame {
        firstFrame := false;
        pitch := pitchAcc;
      } else {
        pitchVel := G.Gaussian(-r.velX, velVar);
        var pitchGyr := Imu.Predict(pitch, pitchVel, tCtrl);
        pitch := G.Fuse(pitchGyr, pitchAcc);
      }
      yawVel := r.velZ * trig.cos(pitch.mean) - r.velY * trig.sin(pitch.mean);
    }

    method GetPitch() returns (p: real)
      ensures p == pitch.mean
    {
      p := pitch.mean;
    }

    method GetPitchVel() returns (v: real)
      ensures v == pitchVel.mean
    {
      v := pitchVel.mean;
    }

    method GetYawVel() returns (v: real)
      ensures v == yawVel
    {
      v := yawVel;
    }
  }
}
