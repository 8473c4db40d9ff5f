/**
 * The controllers' stateful building blocks whose sources are not part
 * of this model (Pid/PID, SlewLimiter, ClampLimiter). Each is reduced to
 * the interface the controllers rely on:
 *  - a PID returns its unseen control law, evaluated on the inputs it
 *    has received since its last reset, clamped to [outMin, outMax];
 *    `Reset` forgets that history;
 *  - a slew limiter moves its last output toward the target by a step
 *    limited to [rateMin, rateMax] / freq;
 *  - a clamp limiter is clamp_limit with adjustable bounds.
 */
module Limiters {
  import CppUtil

  /** One PID call: the error and the feed-forward term. */
  datatype PidInput = PidInput(error: real, feedforward: real)

  class Pid {
    const outMin: real
    const outMax: real
    /** The unseen gain law, as a function of the inputs since the last reset. */
    const law: seq<PidInput> -> real
    /** The inputs received since construction or the last reset. */
    var history: seq<PidInput>

    constructor (outMin: real, outMax: real, law: seq<PidInput> -> real)
      ensures this.outMin == outMin && this.outMax == outMax && this.law == law
      ensures history == []
    {
      this.outMin := outMin;
      this.outMax := outMax;
      this.law := law;
      history := [];
    }

    /** Output of a PID with the given history: the law clamped to the output range. */
    function Output(h: seq<PidInput>): (u: real)
      ensures outMin <= outMax ==> outMin <= u <= outMax
    {
      CppUtil.ClampLimit(law(h), outMin, outMax)
    }

    method Update(error: real, feedforward: real) returns (u: real)
      modifies this`history
      ensures history == old(history) + [PidInput(error, feedforward)]
      ensures u == Output(history)
    {
      history := history + [PidInput(error, feedforward)];
      u := CppUtil.ClampLimit(law(history), outMin, outMax);
    }

    method Reset()
      modifies this`history
      ensures history == []
    {
      history := [];
    }
  }

  /**
   * The next output of a slew limiter at `last` asked for `target`: the
   * step is limited to [lo, hi].
   */
  function Slew(last: real, target: real, lo: real, hi: real): (out: real)
    ensures lo <= hi ==> lo <= out - last <= hi
    ensures lo <= target - last <= hi ==> out == target
  {
    last + CppUtil.ClampLimit(target - last, lo, hi)
  }

  /** With a band around zero, a slew step never overshoots: it lands between `last` and `target`. */
  lemma SlewNoOvershoot(last: real, target: real, lo: real, hi: real)
    requires lo <= 0.0 <= hi
    ensures last <= target ==> last <= Slew(last, target, lo, hi) <= target
    ensures target <= last ==> target <= Slew(last, target, lo, hi) <= last
  {
  }

  class SlewLimiter {
    var rateMin: real
    var rateMax: real
    const freq: real
    /** The last output. */
    var last: real

    constructor (rateMax: real, freq: real)
      requires freq > 0.0
      ensures this.rateMin == -rateMax && this.rateMax == rateMax && this.freq == freq
      ensures last == 0.0
    {
      this.rateMin := -rateMax;
      this.rateMax := rateMax;
      this.freq := freq;
      last := 0.0;
    }

    /** Moves the output toward `target` by at most one period's worth of rate. */
    method Update(target: real) returns (out: real)
      requires freq > 0.0
      modifies this`last
      ensures out == last
      ensures out == Slew(old(last), target, rateMin / freq, rateMax / freq)
    {
      var step := CppUtil.ClampLimit(target - last, rateMin / freq, rateMax / freq);
      last := last + step;
      out := last;
    }

    method SetMin(x: real)
      modifies this`rateMin
      ensures rateMin == x
    {
      rateMin := x;
    }

    method SetMax(x: real)
      modifies this`rateMax
      ensures rateMax == x
    {
      rateMax := x;
    }
  }

  class ClampLimiter {
    var min: real
    var max: real

    /** A symmetric limiter [-x, x]. */
    constructor (x: real)
      ensures min == -x && max == x
    {
      min := -x;
      max := x;
    }

    /** Limits `x` to [min, max]; changes nothing. */
    method Update(x: real) returns (y: real)
      ensures min <= max ==> min <= y <= max
      ensures y == CppUtil.ClampLimit(x, min, max)
    {
      y := CppUtil.ClampLimit(x, min, max);
    }

    method SetMin(x: real)
      modifies this`min
      ensures min == x
    {
      min := x;
    }

    method SetMax(x: real)
      modifies this`max
      ensures max == x
    {
      max := x;
    }
  }
}
