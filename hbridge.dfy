/**
 * H-bridge motor driver. The driver has three output pins: a PWM pin
 * setting the speed and forward/reverse enable pins setting the
 * direction. Both enable pins high brakes the motor, both low (with no
 * PWM) lets it coast. The model keeps the last level written to each
 * pin; writing to a pin is an assignment to that level.
 */
module HBridge {
  import CppUtil
  import MathLib

  /** Full-scale PWM value of the 8-bit DAC. */
  const PwmMax: int := 255

  /** The last levels written to the PWM, forward and reverse pins. */
  datatype Levels = Levels(pwm: int, fwd: int, rev: int)

  /** Both enable pins high, no PWM. */
  const Braking: Levels := Levels(0, 1, 1)

  /** Every pin low. */
  const Coasting: Levels := Levels(0, 0, 0)

  /** The enable pins are never both high while the PWM pin drives the motor. */
  predicate Safe(p: Levels) {
    0 <= p.pwm <= PwmMax && 0 <= p.fwd <= 1 && 0 <= p.rev <= 1 &&
    (p.fwd == 1 && p.rev == 1 ==> p.pwm == 0)
  }

  /**
   * A magnitude between 0 and the supply voltage on the DAC's scale,
   * truncated to an integer by the conversion to the DAC's integer
   * argument.
   */
  function Scaled(a: real, vSupply: real): int
    requires vSupply != 0.0
  {
    (a * (PwmMax as real / vSupply)).Floor
  }

  /** The scale maps [0, vSupply] into [0, PwmMax], monotonically. */
  lemma ScaledBounds(a: real, b: real, vSupply: real)
    requires vSupply > 0.0 && 0.0 <= a <= b <= vSupply
    ensures 0 <= Scaled(a, vSupply) <= Scaled(b, vSupply) <= PwmMax
  {
    var k := PwmMax as real / vSupply;
    assert k * vSupply == PwmMax as real;
    assert a * k <= b * k <= vSupply * k;
  }

  /**
   * The PWM duty written for a command: the magnitude of the command,
   * clamped to the supply voltage, scaled so that the supply voltage is
   * full scale.
   */
  function Duty(v: real, vSupply: real): (d: int)
    requires vSupply != 0.0
    ensures vSupply > 0.0 ==> 0 <= d <= PwmMax
  {
    var c := CppUtil.ClampLimit(v, -vSupply, vSupply);
    if vSupply > 0.0 then
      ScaledBounds(MathLib.Fabs(c), MathLib.Fabs(c), vSupply);
      Scaled(MathLib.Fabs(c), vSupply)
    else
      Scaled(MathLib.Fabs(c), vSupply)
  }

  /** A command at or beyond the supply voltage drives at full scale. */
  lemma DutySaturates(v: real, vSupply: real)
    requires vSupply > 0.0 && MathLib.Fabs(v) >= vSupply
    ensures Duty(v, vSupply) == PwmMax
  {
    var c := CppUtil.ClampLimit(v, -vSupply, vSupply);
    assert MathLib.Fabs(c) == vSupply;
    assert vSupply * (PwmMax as real / vSupply) == PwmMax as real;
  }

  /** The duty depends on the magnitude of the command only. */
  lemma DutySymmetric(v: real, vSupply: real)
    requires vSupply > 0.0
    ensures Duty(-v, vSupply) == Duty(v, vSupply)
  {
    CppUtil.ClampSymmetric(v, vSupply);
  }

  /** A larger command magnitude never gives a smaller duty. */
  lemma DutyMonotone(v: real, w: real, vSupply: real)
    requires vSupply > 0.0 && MathLib.Fabs(v) <= MathLib.Fabs(w)
    ensures Duty(v, vSupply) <= Duty(w, vSupply)
  {
    var cv := CppUtil.ClampLimit(v, -vSupply, vSupply);
    var cw := CppUtil.ClampLimit(w, -vSupply, vSupply);
    assert MathLib.Fabs(cv) <= MathLib.Fabs(cw);
    ScaledBounds(MathLib.Fabs(cv), MathLib.Fabs(cw), vSupply);
  }

  /**
   * The levels an enabled driver writes for a command: a zero command
   * brakes; otherwise the duty goes to the PWM pin and the sign of the
   * clamped command selects the direction.
   */
  function Drive(v: real, vSupply: real): (p: Levels)
    requires vSupply != 0.0
    ensures v == 0.0 ==> p == Braking
    ensures vSupply > 0.0 ==> Safe(p)
    ensures vSupply > 0.0 && v > 0.0 ==> p.fwd == 1 && p.rev == 0 && p.pwm == Duty(v, vSupply)
    ensures vSupply > 0.0 && v < 0.0 ==> p.fwd == 0 && p.rev == 1 && p.pwm == Duty(v, vSupply)
  {
    if v == 0.0 then Braking
    else
      var c := CppUtil.ClampLimit(v, -vSupply, vSupply);
      if c > 0.0 then Levels(Duty(v, vSupply), 1, 0) else Levels(Duty(v, vSupply), 0, 1)
  }

  /** Opposite commands drive with the same duty in opposite directions. */
  lemma DriveReverses(v: real, vSupply: real)
    requires vSupply > 0.0 && v != 0.0
    ensures Drive(-v, vSupply) == Levels(Drive(v, vSupply).pwm, Drive(v, vSupply).rev, Drive(v, vSupply).fwd)
  {
    DutySymmetric(v, vSupply);
  }

  class HBridgeMotor {
    const pinPwm: int
    const pinFwd: int
    const pinRev: int
    const vSupply: real
    const dacPerVolt: real
    var enabled: bool
    /** Whether the three pins have been configured as outputs. */
    var configured: bool
    var levels: Levels

    /** A disabled driver always coasts; an enabled one never shorts the supply. */
    ghost predicate Valid()
      reads this
    {
      vSupply > 0.0 && dacPerVolt == PwmMax as real / vSupply &&
      Safe(levels) && (!enabled ==> levels == Coasting)
    }

    /** A new driver is disabled; its pins are still at their reset level, low. */
    constructor (pinPwm: int, pinFwd: int, pinRev: int, vSupply: real)
      requires 0 <= pinPwm < 256 && 0 <= pinFwd < 256 && 0 <= pinRev < 256 && vSupply > 0.0
      ensures Valid()
      ensures this.pinPwm == pinPwm && this.pinFwd == pinFwd && this.pinRev == pinRev
      ensures this.vSupply == vSupply && dacPerVolt == PwmMax as real / vSupply
      ensures !enabled && !configured && levels == Coasting
    {
      this.pinPwm := pinPwm;
      this.pinFwd := pinFwd;
      this.pinRev := pinRev;
      this.vSupply := vSupply;
      dacPerVolt := PwmMax as real / vSupply;
      enabled := false;
      configured := false;
      levels := Coasting;
    }

    /** Configures the pins as outputs and disables the motor. */
    method Init()
      requires Valid()
      modifies this
      ensures Valid() && configured && !enabled && levels == Coasting
    {
      configured := true;
      Disable();
    }

    /** Enables and brakes the motor. */
    method Enable()
      requires Valid()
      modifies this`enabled, this`levels
      ensures Valid() && enabled && levels == Braking
    {
      enabled := true;
      Brake();
    }

    /** Writes every pin low and disables the motor, which then coasts. */
    method Disable()
      requires Safe(levels)
      modifies this`enabled, this`levels
      ensures !enabled && levels == Coasting
    {
      levels := levels.(pwm := 0);
      levels := levels.(fwd := 0);
      levels := levels.(rev := 0);
      enabled := false;
    }

    /** Brakes the motor when enabled; a disabled driver writes nothing. */
    method Brake()
      modifies this`levels
      ensures levels == if enabled then Braking else old(levels)
    {
      if enabled {
        levels := levels.(pwm := 0);
        levels := levels.(fwd := 1);
        levels := levels.(rev := 1);
      }
    }

    /** Drives the motor with a voltage command when enabled; a disabled driver writes nothing. */
    method SetVoltage(v: real)
      requires Valid()
      modifies this`levels
      ensures Valid()
      ensures levels == if enabled then Drive(v, vSupply) else old(levels)
    {
      if enabled {
        if v == 0.0 {
          Brake();
        } else {
          var c := CppUtil.ClampLimit(v, -vSupply, vSupply);
          var duty := (MathLib.Fabs(c) * dacPerVolt).Floor;
          assert duty == Duty(v, vSupply);
          levels := levels.(pwm := duty);
          if c > 0.0 {
            levels := levels.(fwd := 1);
            levels := levels.(rev := 0);
          } else {
            levels := levels.(fwd := 0);
            levels := levels.(rev := 1);
          }
        }
      }
    }
  }
}
