/**
 * The balance controller of the sub-project firmware. It runs the same
 * pitch/velocity state-space law and yaw PID as the main controller, but:
 *  - its command limits live in limiter objects whose bounds the
 *    `Set...Max` methods change at run time;
 *  - both motor commands pass through a fixed [-Vb, Vb] clamp limiter;
 *  - it tips over at 0.8 rad;
 *  - it owns the start-up of its subsystems behind an `init` guard.
 * The subsystems themselves are not part of this model; `subsystemInits`
 * counts how often their start-up has run.
 */
module SubController {
  import CppUtil
  import MathLib
  import L = Limiters
  import C = Controller

  const FCtrl: real := 100.0      // control frequency [Hz]
  const PitchMax: real := 0.8     // tip-over angle [rad]
  const LinVelMax: real := 0.4    // default linear-velocity limit
  const LinAccMax: real := 0.2    // default linear-acceleration limit
  const YawVelMax: real := 0.8    // default yaw-rate limit

  class Controller {
    const motor: C.Motor
    const gains: C.Gains
    const yawPid: L.Pid
    const linVelLimiter: L.ClampLimiter
    const linAccLimiter: L.SlewLimiter
    const yawVelLimiter: L.ClampLimiter
    const voltLimiter: L.ClampLimiter
    var linVel: real
    var linVelCmd: real
    var yawVelCmd: real
    var vCmdL: real
    var vCmdR: real
    var initComplete: bool
    /** How many times the subsystems' start-up has run. */
    ghost var subsystemInits: nat

    ghost predicate Valid()
      reads this, voltLimiter
    {
      motor.vb >= 0.0 && linAccLimiter.freq > 0.0 &&
      yawPid.outMin == -motor.vb && yawPid.outMax == motor.vb &&
      voltLimiter.min == -motor.vb && voltLimiter.max == motor.vb &&
      linVelLimiter != voltLimiter && yawVelLimiter != voltLimiter && linVelLimiter != yawVelLimiter &&
      subsystemInits == (if initComplete then 1 else 0)
    }

    /** The controller at power-up: default limits, zero state, subsystems not started. */
    constructor (motor: C.Motor, yawLaw: seq<L.PidInput> -> real)
      requires motor.vb >= 0.0 && motor.r != 0.0 && motor.kt != 0.0
      ensures Valid() && !initComplete
      ensures this.motor == motor && gains == C.DeriveGains(motor)
      ensures yawPid.history == [] && yawPid.law == yawLaw
      ensures linVelLimiter.min == -LinVelMax && linVelLimiter.max == LinVelMax
      ensures linAccLimiter.rateMin == -LinAccMax && linAccLimiter.rateMax == LinAccMax
      ensures linAccLimiter.freq == FCtrl && linAccLimiter.last == 0.0
      ensures yawVelLimiter.min == -YawVelMax && yawVelLimiter.max == YawVelMax
      ensures linVel == 0.0 && linVelCmd == 0.0 && yawVelCmd == 0.0 && vCmdL == 0.0 && vCmdR == 0.0
    {
      this.motor := motor;
      gains := C.DeriveGains(motor);
      yawPid := new L.Pid(-motor.vb, motor.vb, yawLaw);
      linVelLimiter := new L.ClampLimiter(LinVelMax);
      linAccLimiter := new L.SlewLimiter(LinAccMax, FCtrl);
      yawVelLimiter := new L.ClampLimiter(YawVelMax);
      voltLimiter := new L.ClampLimiter(motor.vb);
      linVel := 0.0;
      linVelCmd := 0.0;
      yawVelCmd := 0.0;
      vCmdL := 0.0;
      vCmdR := 0.0;
      initComplete := false;
      subsystemInits := 0;
    }

    /** Starts the subsystems on the first call only; later calls change nothing. */
    method Init()
      requires Valid()
      modifies this`initComplete, this`subsystemInits
      ensures Valid() && initComplete && subsystemInits == 1
      ensures old(initComplete) ==> subsystemInits == old(subsystemInits)
    {
      if !initComplete {
        subsystemInits := subsystemInits + 1;
        initComplete := true;
      }
    }

    /** The yaw PID input for one period: the yaw-rate error and the back-EMF feed-forward. */
    function YawInput(yawVelCmd: real, yawVel: real): L.PidInput {
      L.PidInput(yawVelCmd - yawVel, gains.gw * yawVelCmd)
    }

    /** Runs one control period. */
    method Update(u: C.Inputs)
      requires Valid()
      modifies this`linVel, this`linVelCmd, this`yawVelCmd, this`vCmdL, this`vCmdR, yawPid`history, linAccLimiter`last
      ensures Valid()
      ensures linAccLimiter.last == L.Slew(old(linAccLimiter.last), u.velCmd,
        linAccLimiter.rateMin / linAccLimiter.freq, linAccLimiter.rateMax / linAccLimiter.freq)
      ensures linVelCmd == CppUtil.ClampLimit(linAccLimiter.last, linVelLimiter.min, linVelLimiter.max)
      ensures linVelLimiter.min <= linVelLimiter.max ==> linVelLimiter.min <= linVelCmd <= linVelLimiter.max
      ensures yawVelCmd == CppUtil.ClampLimit(u.yawCmd, yawVelLimiter.min, yawVelLimiter.max)
      ensures yawVelLimiter.min <= yawVelLimiter.max ==> yawVelLimiter.min <= yawVelCmd <= yawVelLimiter.max
      ensures linVel == C.DrDiv2 * (u.velL + u.velR)
      ensures var mixed := C.Mix(C.AvgVoltage(gains, motor.vb, linVelCmd, linVel, u.pitch, u.pitchVel),
                                 yawPid.Output(old(yawPid.history) + [YawInput(yawVelCmd, u.yawVel)]), motor.vb);
        C.Commands(vCmdL, vCmdR) == C.Cutoff(mixed, u.pitch, PitchMax)
      ensures yawPid.history ==
        if C.TippedOver(u.pitch, PitchMax) then [] else old(yawPid.history) + [YawInput(yawVelCmd, u.yawVel)]
      ensures -motor.vb <= vCmdL <= motor.vb && -motor.vb <= vCmdR <= motor.vb
      ensures C.TippedOver(u.pitch, PitchMax) ==> vCmdL == 0.0 && vCmdR == 0.0
    {
      // Process teleoperation commands
      linVelCmd := linAccLimiter.Update(u.velCmd);
      linVelCmd := linVelLimiter.Update(linVelCmd);
      yawVelCmd := yawVelLimiter.Update(u.yawCmd);
      // Estimate state variables
      linVel := C.DrDiv2 * (u.velL + u.velR);
      // Pitch-velocity state-space control
      var vAvg := C.AvgVoltage(gains, motor.vb, linVelCmd, linVel, u.pitch, u.pitchVel);
      // Yaw-rate control
      assert L.PidInput(yawVelCmd - u.yawVel, gains.gw * yawVelCmd) == YawInput(yawVelCmd, u.yawVel);
      var vDiff := yawPid.Update(yawVelCmd - u.yawVel, gains.gw * yawVelCmd);
      // Motor voltage commands, cut off when tipped over
      Command(vAvg, vDiff, u.pitch);
    }

    /**
     * Sets the motor commands from the average and differential voltages:
     * each side through the [-Vb, Vb] voltage limiter, both forced to 0
     * (and the yaw PID reset) when the robot has tipped over.
     */
    method Command(vAvg: real, vDiff: real, pitch: real)
      requires Valid()
      modifies this`vCmdL, this`vCmdR, yawPid`history
      ensures C.Commands(vCmdL, vCmdR) == C.Cutoff(C.Mix(vAvg, vDiff, motor.vb), pitch, PitchMax)
      ensures yawPid.history == if C.TippedOver(pitch, PitchMax) then [] else old(yawPid.history)
    {
      vCmdL := voltLimiter.Update(vAvg - vDiff);
      vCmdR := voltLimiter.Update(vAvg + vDiff);
      if MathLib.Fabs(pitch) > PitchMax {
        yawPid.Reset();
        vCmdL := 0.0;
        vCmdR := 0.0;
      }
    }

    /** Sets the linear-velocity command limits to [-x, x]. */
    method SetLinVelMax(x: real)
      requires Valid()
      modifies linVelLimiter
      ensures Valid()
      ensures linVelLimiter.min == -x && linVelLimiter.max == x
    {
      linVelLimiter.SetMin(-x);
      linVelLimiter.SetMax(x);
    }

    /** Sets the linear-acceleration command limits to [-x, x]. */
    method SetLinAccMax(x: real)
      requires Valid()
      modifies linAccLimiter
      ensures Valid()
      ensures linAccLimiter.rateMin == -x && linAccLimiter.rateMax == x
      ensures linAccLimiter.last == old(linAccLimiter.last)
    {
      linAccLimiter.SetMin(-x);
      linAccLimiter.SetMax(x);
    }

    /** Sets the yaw-rate command limits to [-x, x]. */
    method SetYawVelMax(x: real)
      requires Valid()
      modifies yawVelLimiter
      ensures Valid()
      ensures yawVelLimiter.min == -x && yawVelLimiter.max == x
    {
      yawVelLimiter.SetMin(-x);
      yawVelLimiter.SetMax(x);
    }

    method GetLinVel() returns (v: real)
      ensures v == linVel
    {
      v := linVel;
    }

    method GetMotorLCmd() returns (v: real)
      ensures v == vCmdL
    {
      v := vCmdL;
    }

    method GetMotorRCmd() returns (v: real)
      ensures v == vCmdR
    {
      v := vCmdR;
    }
  }
}
