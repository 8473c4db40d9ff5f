/**
 * The balance controller of the main firmware (Controller namespace).
 * One control period:
 *  - shapes the teleoperation commands (slew- and clamp-limited linear
 *    velocity, clamped yaw rate);
 *  - estimates the linear velocity from the two wheel velocities;
 *  - computes the average motor voltage with a pitch/velocity
 *    state-space law, clamped to the battery voltage;
 *  - computes the differential voltage with the yaw-rate PID;
 *  - mixes the two into left/right voltages, clamped to the battery
 *    voltage, and forces both to 0 (resetting the yaw PID) when the
 *    robot has tipped over.
 * The other subsystems (teleoperation link, motors, IMU) are not part
 * of this model: their readings arrive as an `Inputs` record.
 */
module Controller {
  import CppUtil
  import MathLib
  import L = Limiters

  // Robot physical constants
  const Ix: real := 0.00215     // pitch inertia [kg m^2]
  const Iz: real := 0.00110     // yaw inertia [kg m^2]
  const Mass: real := 0.955     // robot mass [kg]
  const Grav: real := 9.81      // gravity [m/s^2]
  const Dg: real := 0.062       // centre-of-gravity height [m]
  const Dw: real := 0.085       // wheel to centre-of-gravity z-axis [m]
  const Dr: real := 0.034       // wheel radius [m]

  // Derived physical constants
  const Mx: real := Ix * Dr / Dg      // generalised x-mass [kg m^2]
  const My: real := Mass * Dr         // generalised y-mass [kg m]
  const Mz: real := Iz * Dr / Dw      // generalised z-mass [kg m^2]
  const Tg: real := Mass * Grav * Dr  // gravitational torque [N m]

  // Controller constants
  const PitchMax: real := 0.5   // tip-over angle [rad]
  const YawMax: real := 1.6     // yaw-rate command limit [rad/s]
  const VelMax: real := 0.8     // linear-velocity command limit [m/s]
  const AccMax: real := 0.8     // linear-acceleration command limit [m/s^2]
  const Px: real := 20.0        // pitch-velocity pole [1/s]
  const DrDiv2: real := Dr / 2.0

  /** The motor constants: battery voltage Vb, back-EMF Kv, torque constant Kt, resistance R. */
  datatype Motor = Motor(vb: real, kv: real, kt: real, r: real)

  /** Physically meaningful motor constants: all positive. */
  predicate MotorValid(mo: Motor) {
    mo.vb > 0.0 && mo.kv > 0.0 && mo.kt > 0.0 && mo.r > 0.0
  }

  /** State-space gains K1..K3 and the back-EMF gains Gv (linear) and Gw (yaw). */
  datatype Gains = Gains(k1: real, k2: real, k3: real, gv: real, gw: real)

  /** Torque-voltage gain Gt = 2 Kt / R of the two motors. */
  function TorqueGain(mo: Motor): real
    requires mo.r != 0.0
  {
    2.0 * mo.kt / mo.r
  }

  lemma PositiveQuotient(n: real, d: real)
    requires n > 0.0 && d > 0.0
    ensures n / d > 0.0
  {
  }

  /**
   * The gains placed by the pole at -Px. For positive motor constants
   * all gains are positive except K3, which lies below -Gv; K2 exceeds
   * Tg / Gt, the gain that just balances gravity.
   */
  function DeriveGains(mo: Motor): (k: Gains)
    requires mo.r != 0.0 && mo.kt != 0.0
    ensures k.gv == mo.kv / Dr && k.gw == mo.kv * Dw / Dr
    ensures MotorValid(mo) ==> k.k1 > 0.0 && k.k2 > Tg / TorqueGain(mo) > 0.0 && k.k3 < -k.gv < 0.0 && k.gw > 0.0
  {
    var gt := TorqueGain(mo);
    var gv := mo.kv / Dr;
    var k := Gains(
      Mx * Mx / (gt * Tg) * Px * Px * Px + 3.0 * Mx / gt * Px,
      3.0 * Mx / gt * Px * Px + Tg / gt,
      -Mx * My / (gt * Tg) * Px * Px * Px - gv,
      gv,
      mo.kv * Dw / Dr);
    if MotorValid(mo) then
      PositiveQuotient(2.0 * mo.kt, mo.r);
      PositiveQuotient(Mx * Mx, gt * Tg);
      PositiveQuotient(3.0 * Mx, gt);
      PositiveQuotient(Tg, gt);
      PositiveQuotient(Mx * My, gt * Tg);
      PositiveQuotient(mo.kv, Dr);
      k
    else
      k
  }

  /** The readings one period consumes: commands, wheel velocities and IMU estimates. */
  datatype Inputs = Inputs(
    velCmd: real, yawCmd: real,      // teleoperation commands [m/s], [rad/s]
    velL: real, velR: real,          // wheel velocities [rad/s]
    pitch: real, pitchVel: real,     // pitch [rad] and pitch rate [rad/s]
    yawVel: real)                    // yaw rate [rad/s]

  /** The unclamped state-space law for the average voltage. */
  function BalanceLaw(k: Gains, velCmd: real, linVel: real, pitch: real, pitchVel: real): real {
    k.gv * velCmd + k.k1 * (0.0 - pitchVel) + k.k2 * (0.0 - pitch) + k.k3 * (velCmd - linVel)
  }

  /** The average motor voltage: the state-space law clamped to [-vb, vb]. */
  function AvgVoltage(k: Gains, vb: real, velCmd: real, linVel: real, pitch: real, pitchVel: real): (v: real)
    ensures vb >= 0.0 ==> -vb <= v <= vb
    ensures -vb <= BalanceLaw(k, velCmd, linVel, pitch, pitchVel) <= vb ==> v == BalanceLaw(k, velCmd, linVel, pitch, pitchVel)
  {
    CppUtil.ClampLimit(BalanceLaw(k, velCmd, linVel, pitch, pitchVel), -vb, vb)
  }

  /** Upright, at rest and commanded to stay there, the robot gets no voltage. */
  lemma BalancedAtRest(k: Gains, vb: real)
    requires vb >= 0.0
    ensures AvgVoltage(k, vb, 0.0, 0.0, 0.0, 0.0) == 0.0
  {
  }

  /** The law is odd: mirroring every state and command mirrors the voltage. */
  lemma BalanceOdd(k: Gains, vb: real, velCmd: real, linVel: real, pitch: real, pitchVel: real)
    requires vb >= 0.0
    ensures AvgVoltage(k, vb, -velCmd, -linVel, -pitch, -pitchVel) == -AvgVoltage(k, vb, velCmd, linVel, pitch, pitchVel)
  {
    var e := BalanceLaw(k, velCmd, linVel, pitch, pitchVel);
    assert k.gv * -velCmd == -(k.gv * velCmd);
    assert k.k1 * (0.0 - -pitchVel) == -(k.k1 * (0.0 - pitchVel));
    assert k.k2 * (0.0 - -pitch) == -(k.k2 * (0.0 - pitch));
    assert k.k3 * (-velCmd - -linVel) == -(k.k3 * (velCmd - linVel));
    assert BalanceLaw(k, -velCmd, -linVel, -pitch, -pitchVel) == -e;
    CppUtil.ClampSymmetric(e, vb);
  }

  lemma MulPositive(a: real, b: real)
    requires a > 0.0 && b > 0.0
    ensures a * b > 0.0
  {
  }

  /** A lean alone (no rate, no motion, no command) is met with a voltage of the opposite sign. */
  lemma Restoring(k: Gains, vb: real, pitch: real)
    requires vb > 0.0 && k.k2 > 0.0 && pitch != 0.0
    ensures pitch > 0.0 ==> AvgVoltage(k, vb, 0.0, 0.0, pitch, 0.0) < 0.0
    ensures pitch < 0.0 ==> AvgVoltage(k, vb, 0.0, 0.0, pitch, 0.0) > 0.0
  {
    if pitch > 0.0 {
      MulPositive(k.k2, pitch);
    } else {
      MulPositive(k.k2, -pitch);
    }
  }

  /** Left and right motor voltages [V]. */
  datatype Commands = Commands(left: real, right: real)

  /** Mixes average and differential voltage, each side clamped to [-vb, vb]. */
  function Mix(vAvg: real, vDiff: real, vb: real): (c: Commands)
    ensures vb >= 0.0 ==> -vb <= c.left <= vb && -vb <= c.right <= vb
    ensures -vb <= vAvg - vDiff <= vb && -vb <= vAvg + vDiff <= vb ==>
      c.left + c.right == 2.0 * vAvg && c.right - c.left == 2.0 * vDiff
  {
    Commands(CppUtil.ClampLimit(vAvg - vDiff, -vb, vb), CppUtil.ClampLimit(vAvg + vDiff, -vb, vb))
  }

  /** Reversing the differential voltage swaps the two sides. */
  lemma MixMirror(vAvg: real, vDiff: real, vb: real)
    ensures Mix(vAvg, -vDiff, vb) == Commands(Mix(vAvg, vDiff, vb).right, Mix(vAvg, vDiff, vb).left)
  {
  }

  /** With no differential voltage both sides get the same command. */
  lemma MixStraight(vAvg: real, vb: real)
    ensures Mix(vAvg, 0.0, vb).left == Mix(vAvg, 0.0, vb).right
  {
  }

  /** The robot has tipped over once |pitch| exceeds the limit. */
  predicate TippedOver(pitch: real, pitchMax: real) {
    MathLib.Fabs(pitch) > pitchMax
  }

  /** The commands actually sent: zero when tipped over, the mixed commands otherwise. */
  function Cutoff(c: Commands, pitch: real, pitchMax: real): (r: Commands)
    ensures TippedOver(pitch, pitchMax) ==> r.left == 0.0 && r.right == 0.0
    ensures !TippedOver(pitch, pitchMax) ==> r == c
  {
    if TippedOver(pitch, pitchMax) then Commands(0.0, 0.0) else c
  }

  /** The cutoff only ever lowers the magnitude of a command and depends on the current pitch alone. */
  lemma CutoffShrinks(c: Commands, pitch: real, pitchMax: real)
    ensures MathLib.Fabs(Cutoff(c, pitch, pitchMax).left) <= MathLib.Fabs(c.left)
    ensures MathLib.Fabs(Cutoff(c, pitch, pitchMax).right) <= MathLib.Fabs(c.right)
  {
  }

  class BalanceController {
    const motor: Motor
    const gains: Gains
    const yawPid: L.Pid
    const velSlew: L.SlewLimiter
    var linVel: real
    var velCmd: real
    var yawCmd: real
    var vCmdL: real
    var vCmdR: real

    ghost predicate Valid()
      reads this
    {
      motor.vb >= 0.0 && velSlew.freq > 0.0 &&
      yawPid.outMin == -motor.vb && yawPid.outMax == motor.vb
    }

    /**
     * Builds the controller for the given motor constants and control
     * frequency; `yawLaw` is the yaw PID's law (gains Kp 0, Ki 5, Kd 0).
     */
    constructor (motor: Motor, fCtrl: real, yawLaw: seq<L.PidInput> -> real)
      requires motor.vb >= 0.0 && motor.r != 0.0 && motor.kt != 0.0 && fCtrl > 0.0
      ensures Valid() && fresh(yawPid) && fresh(velSlew)
      ensures this.motor == motor && gains == DeriveGains(motor)
      ensures yawPid.history == [] && yawPid.law == yawLaw
      ensures velSlew.last == 0.0 && velSlew.rateMin == -AccMax && velSlew.rateMax == AccMax
      ensures linVel == 0.0 && velCmd == 0.0 && yawCmd == 0.0 && vCmdL == 0.0 && vCmdR == 0.0
    {
      this.motor := motor;
      gains := DeriveGains(motor);
      yawPid := new L.Pid(-motor.vb, motor.vb, yawLaw);
      velSlew := new L.SlewLimiter(AccMax, fCtrl);
      linVel := 0.0;
      velCmd := 0.0;
      yawCmd := 0.0;
      vCmdL := 0.0;
      vCmdR := 0.0;
    }

    /** The yaw PID input for one period: the yaw-rate error and the back-EMF feed-forward. */
    function YawInput(yawCmd: real, yawVel: real): L.PidInput {
      L.PidInput(yawCmd - yawVel, gains.gw * yawCmd)
    }

    /** Runs one control period. */
    method Update(u: Inputs)
      requires Valid()
      modifies this`linVel, this`velCmd, this`yawCmd, this`vCmdL, this`vCmdR, yawPid`history, velSlew`last
      ensures Valid()
      ensures velSlew.last == L.Slew(old(velSlew.last), u.velCmd, velSlew.rateMin / velSlew.freq, velSlew.rateMax / velSlew.freq)
      ensures velCmd == CppUtil.ClampLimit(velSlew.last, -VelMax, VelMax) && -VelMax <= velCmd <= VelMax
      ensures yawCmd == CppUtil.ClampLimit(u.yawCmd, -YawMax, YawMax) && -YawMax <= yawCmd <= YawMax
      ensures linVel == DrDiv2 * (u.velL + u.velR)
      ensures var mixed := Mix(AvgVoltage(gains, motor.vb, velCmd, linVel, u.pitch, u.pitchVel),
                               yawPid.Output(old(yawPid.history) + [YawInput(yawCmd, u.yawVel)]), motor.vb);
        Commands(vCmdL, vCmdR) == Cutoff(mixed, u.pitch, PitchMax)
      ensures yawPid.history ==
        if TippedOver(u.pitch, PitchMax) then [] else old(yawPid.history) + [YawInput(yawCmd, u.yawVel)]
      ensures -motor.vb <= vCmdL <= motor.vb && -motor.vb <= vCmdR <= motor.vb
      ensures TippedOver(u.pitch, PitchMax) ==> vCmdL == 0.0 && vCmdR == 0.0
    {
      // Process teleoperation commands
      velCmd := velSlew.Update(u.velCmd);
      velCmd := CppUtil.ClampLimit(velCmd, -VelMax, VelMax);
      yawCmd := CppUtil.ClampLimit(u.yawCmd, -YawMax, YawMax);
      // Estimate state variables
      linVel := DrDiv2 * (u.velL + u.velR);
      // Pitch-velocity state-space control
      var vAvg := AvgVoltage(gains, motor.vb, velCmd, linVel, u.pitch, u.pitchVel);
      // Yaw-rate control
      assert L.PidInput(yawCmd - u.yawVel, gains.gw * yawCmd) == YawInput(yawCmd, u.yawVel);
      var vDiff := yawPid.Update(yawCmd - u.yawVel, gains.gw * yawCmd);
      // Motor voltage commands, cut off when tipped over
      Command(vAvg, vDiff, u.pitch);
    }

    /**
     * Sets the motor commands from the average and differential voltages:
     * each side clamped to [-Vb, Vb], both forced to 0 (and the yaw PID
     * reset) when the robot has tipped over.
     */
    method Command(vAvg: real, vDiff: real, pitch: real)
      requires Valid()
      modifies this`vCmdL, this`vCmdR, yawPid`history
      ensures Commands(vCmdL, vCmdR) == Cutoff(Mix(vAvg, vDiff, motor.vb), pitch, PitchMax)
      ensures yawPid.history == if TippedOver(pitch, PitchMax) then [] else old(yawPid.history)
    {
      vCmdL := CppUtil.ClampLimit(vAvg - vDiff, -motor.vb, motor.vb);
      vCmdR := CppUtil.ClampLimit(vAvg + vDiff, -motor.vb, motor.vb);
      if MathLib.Fabs(pitch) > PitchMax {
        yawPid.Reset();
        vCmdL := 0.0;
        vCmdR := 0.0;
      }
    }

    method GetLinVel() returns (v: real)
      ensures v == linVel
    {
      v := linVel;
    }

    method GetMotorLCmd() returns (v: real)
      ensures v == vCmdL
    {
      v := vCmdL;
    }

    method GetMotorRCmd() returns (v: real)
      ensures v == vCmdR
    {
      v := vCmdR;
    }
  }
}
