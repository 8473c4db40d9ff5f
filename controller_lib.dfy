/**
 * The older cascaded-PID controller kept in the library tree. Each period:
 *  - the velocity PID turns the linear-velocity error into a pitch
 *    setpoint limited to [-pitchMax, pitchMax];
 *  - the pitch PID turns the pitch error into the average voltage, with
 *    a back-EMF feed-forward proportional to the linear velocity;
 *  - the yaw PID turns the yaw-rate error into the differential voltage;
 *  - the two are mixed and clamped to [-Vb, Vb].
 * This variant has no tip-over cutoff. Its constants (wheel radius over
 * two, back-EMF over wheel radius, battery voltage, pitch limit) are
 * defined outside the files of this model and are constructor parameters.
 */
module LibController {
  import L = Limiters
  import C = Controller

  class Controller {
    const vb: real
    const pitchMax: real
    const rwDiv2: real
    const kvDivRw: real
    const pitchPid: L.Pid
    const yawPid: L.Pid
    const velPid: L.Pid
    var linVel: real
    var vCmdL: real
    var vCmdR: real

    ghost predicate Valid()
      reads this
    {
      vb >= 0.0 && pitchMax >= 0.0 &&
      pitchPid.outMin == -vb && pitchPid.outMax == vb &&
      yawPid.outMin == -vb && yawPid.outMax == vb &&
      velPid.outMin == -pitchMax && velPid.outMax == pitchMax &&
      pitchPid != yawPid && pitchPid != velPid && yawPid != velPid
    }

    /** Three fresh PIDs with the given laws; zero state. */
    constructor (vb: real, pitchMax: real, rwDiv2: real, kvDivRw: real,
                 pitchLaw: seq<L.PidInput> -> real, yawLaw: seq<L.PidInput> -> real, velLaw: seq<L.PidInput> -> real)
      requires vb >= 0.0 && pitchMax >= 0.0
      ensures Valid()
      ensures this.vb == vb && this.pitchMax == pitchMax && this.rwDiv2 == rwDiv2 && this.kvDivRw == kvDivRw
      ensures pitchPid.law == pitchLaw && yawPid.law == yawLaw && velPid.law == velLaw
      ensures pitchPid.history == [] && yawPid.history == [] && velPid.history == []
      ensures linVel == 0.0 && vCmdL == 0.0 && vCmdR == 0.0
    {
      this.vb := vb;
      this.pitchMax := pitchMax;
      this.rwDiv2 := rwDiv2;
      this.kvDivRw := kvDivRw;
      pitchPid := new L.Pid(-vb, vb, pitchLaw);
      yawPid := new L.Pid(-vb, vb, yawLaw);
      velPid := new L.Pid(-pitchMax, pitchMax, velLaw);
      linVel := 0.0;
      vCmdL := 0.0;
      vCmdR := 0.0;
    }

    /** The pitch PID input for one period: the pitch error and the back-EMF feed-forward. */
    function PitchInput(pitch: real, setpoint: real, linVel: real): L.PidInput {
      L.PidInput(pitch - setpoint, kvDivRw * linVel)
    }

    /**
     * Runs one control period: each PID receives exactly one new input,
     * the pitch setpoint stays within [-pitchMax, pitchMax] and both
     * motor commands within [-vb, vb], whatever the pitch.
     */
    method Update(u: C.Inputs)
      requires Valid()
      modifies this`linVel, this`vCmdL, this`vCmdR, pitchPid`history, yawPid`history, velPid`history
      ensures Valid()
      ensures linVel == rwDiv2 * (u.velL + u.velR)
      ensures velPid.history == old(velPid.history) + [L.PidInput(u.velCmd - linVel, 0.0)]
      ensures -pitchMax <= velPid.Output(velPid.history) <= pitchMax
      ensures pitchPid.history == old(pitchPid.history) + [PitchInput(u.pitch, velPid.Output(velPid.history), linVel)]
      ensures yawPid.history == old(yawPid.history) + [L.PidInput(u.yawCmd - u.yawVel, 0.0)]
      ensures C.Commands(vCmdL, vCmdR) ==
        C.Mix(pitchPid.Output(pitchPid.history), yawPid.Output(yawPid.history), vb)
      ensures -vb <= vCmdL <= vb && -vb <= vCmdR <= vb
    {
      // Estimate state variables
      linVel := rwDiv2 * (u.velL + u.velR);
      // Update controllers
      var velError := u.velCmd - linVel;
      var pitchSetpt := velPid.Update(velError, 0.0);
      var pitchError := u.pitch - pitchSetpt;
      var vAvgFf := kvDivRw * linVel;
      assert L.PidInput(pitchError, vAvgFf) == PitchInput(u.pitch, pitchSetpt, linVel);
      var vAvg := pitchPid.Update(pitchError, vAvgFf);
      var yawError := u.yawCmd - u.yawVel;
      var vDiff := yawPid.Update(yawError, 0.0);
      // Motor voltage commands
      var c := C.Mix(vAvg, vDiff, vb);
      vCmdL := c.left;
      vCmdR := c.right;
    }

    method GetLinVel() returns (v: real)
      ensures v == linVel
    {
      v := linVel;
    }

    method GetMotorLCmd() returns (v: real)
      ensures v == vCmdL
    {
      v := vCmdL;
    }

    method GetMotorRCmd() returns (v: real)
      ensures v == vCmdR
    {
      v := vCmdR;
    }
  }
}
