/**
 * Linear discrete-time filter (DiscreteFilter). The filter realises the
 * difference equation
 *
 *   a[0] y[n] + a[1] y[n-1] + ... + a[A-1] y[n-(A-1)]
 *     = b[0] x[n] + b[1] x[n-1] + ... + b[B-1] x[n-(B-1)]
 *
 * with x and y zero before time 0, and outputs 0 until B inputs have
 * been supplied. `Solves` states those two rules about a pair of input
 * and output sequences; `Out` computes the outputs, and the two are
 * proved to agree (exactly one output sequence solves the rules). The
 * class keeps the fixed-size coefficient and history arrays and is
 * proved to produce outputs that solve the rules for the inputs since
 * the last reset.
 */
module Filter {

  /** Build-time capacities (DISCRETE_FILTER_MAX_A / _MAX_B); any value >= 2 works. */
  const MaxA: nat := 4
  const MaxB: nat := 4

  /** s[i], or 0 outside the recorded history (before time 0). */
  function Past(s: seq<real>, i: int): real {
    if 0 <= i < |s| then s[i] else 0.0
  }

  /** c[0] s[n] + c[1] s[n-1] + ... + c[k-1] s[n-(k-1)]. */
  function Sum(c: seq<real>, s: seq<real>, n: int, k: nat): real
    requires k <= |c|
  {
    if k == 0 then 0.0 else Sum(c, s, n, k - 1) + c[k - 1] * Past(s, n - (k - 1))
  }

  /** Coefficients the filter accepts: at least one of each, and a[0] != 0. */
  predicate Coefficients(a: seq<real>, b: seq<real>) {
    1 <= |a| && 1 <= |b| && a[0] != 0.0
  }

  /**
   * `ys` are outputs of the filter for the inputs `xs`: one per input,
   * 0 during the warm-up (the first |b| - 1 inputs), and afterwards
   * satisfying the difference equation at every time step.
   */
  ghost predicate Solves(a: seq<real>, b: seq<real>, xs: seq<real>, ys: seq<real>)
    requires Coefficients(a, b)
  {
    |ys| == |xs| &&
    (forall n :: 0 <= n < |ys| && n < |b| - 1 ==> ys[n] == 0.0) &&
    (forall n :: |b| - 1 <= n < |xs| ==> Sum(a, ys, n, |a|) == Sum(b, xs, n, |b|))
  }

  /** The output y[n] for n = |prev|, given the inputs up to x[n] and the outputs before it. */
  function Next(a: seq<real>, b: seq<real>, xs: seq<real>, prev: seq<real>): real
    requires Coefficients(a, b)
  {
    var n := |prev|;
    if n < |b| - 1 then 0.0 else (Sum(b, xs, n, |b|) - Sum(a, prev, n, |a|)) / a[0]
  }

  /** The outputs for the inputs `xs`, one step at a time. */
  function Out(a: seq<real>, b: seq<real>, xs: seq<real>): (ys: seq<real>)
    requires Coefficients(a, b)
    ensures |ys| == |xs|
    decreases |xs|
  {
    if xs == [] then []
    else
      var n := |xs| - 1;
      var prev := Out(a, b, xs[..n]);
      prev + [Next(a, b, xs, prev)]
  }

  /** Appending y[n] to a history of length n adds exactly the a[0] y[n] term. */
  lemma {:induction false} SumAppend(c: seq<real>, s: seq<real>, v: real, k: nat)
    requires 1 <= k <= |c|
    ensures Sum(c, s + [v], |s|, k) == Sum(c, s, |s|, k) + c[0] * v
  {
    if k > 1 {
      SumAppend(c, s, v, k - 1);
      assert Past(s + [v], |s| - (k - 1)) == Past(s, |s| - (k - 1));
    }
  }

  /** The sum at time n looks no further than s[n]. */
  lemma {:induction false} SumPrefix(c: seq<real>, s: seq<real>, n: nat, k: nat)
    requires k <= |c| && n < |s|
    ensures Sum(c, s, n, k) == Sum(c, s[..n + 1], n, k)
  {
    if k > 0 {
      SumPrefix(c, s, n, k - 1);
      assert Past(s, n - (k - 1)) == Past(s[..n + 1], n - (k - 1));
    }
  }

  /** Sums at time n agree for two histories that agree up to time n. */
  lemma SumAgree(c: seq<real>, s: seq<real>, t: seq<real>, n: nat)
    requires n < |s| && n < |t| && s[..n + 1] == t[..n + 1]
    ensures Sum(c, s, n, |c|) == Sum(c, t, n, |c|)
  {
    SumPrefix(c, s, n, |c|);
    SumPrefix(c, t, n, |c|);
  }

  /** y = (sb - sa) / a0 solves sa + a0 y = sb. */
  lemma Solve(sa: real, sb: real, a0: real, y: real)
    requires a0 != 0.0 && y == (sb - sa) / a0
    ensures sa + a0 * y == sb
  {
  }

  /** A nonzero factor cancels. */
  lemma Cancel(a0: real, y1: real, y2: real)
    requires a0 != 0.0 && a0 * y1 == a0 * y2
    ensures y1 == y2
  {
    assert a0 * (y1 - y2) == 0.0;
  }

  /** Solutions extend one step: y is the next output when it obeys the rule for time |xs|. */
  lemma SolvesSnoc(a: seq<real>, b: seq<real>, xs: seq<real>, ys: seq<real>, x: real, y: real)
    requires Coefficients(a, b) && Solves(a, b, xs, ys)
    requires |xs| < |b| - 1 ==> y == 0.0
    requires |xs| >= |b| - 1 ==> Sum(a, ys, |xs|, |a|) + a[0] * y == Sum(b, xs + [x], |xs|, |b|)
    ensures Solves(a, b, xs + [x], ys + [y])
  {
    var xs', ys' := xs + [x], ys + [y];
    forall n | 0 <= n < |ys'| && n < |b| - 1
      ensures ys'[n] == 0.0
    {
      if n < |ys| {
        assert ys'[n] == ys[n];
      }
    }
    forall n | |b| - 1 <= n < |xs'|
      ensures Sum(a, ys', n, |a|) == Sum(b, xs', n, |b|)
    {
      SnocAt(a, b, xs, ys, x, y, n);
    }
  }

  /** The difference equation at time n for the extended histories. */
  lemma SnocAt(a: seq<real>, b: seq<real>, xs: seq<real>, ys: seq<real>, x: real, y: real, n: nat)
    requires 1 <= |a| && |xs| == |ys| && n <= |xs|
    requires n < |xs| ==> Sum(a, ys, n, |a|) == Sum(b, xs, n, |b|)
    requires n == |xs| ==> Sum(a, ys, |xs|, |a|) + a[0] * y == Sum(b, xs + [x], |xs|, |b|)
    ensures Sum(a, ys + [y], n, |a|) == Sum(b, xs + [x], n, |b|)
  {
    if n < |xs| {
      SumsKept(a, b, xs, ys, x, y, n);
    } else {
      SumAppend(a, ys, y, |a|);
    }
  }

  /** Appending a sample leaves the sums at earlier times unchanged. */
  lemma SumsKept(a: seq<real>, b: seq<real>, xs: seq<real>, ys: seq<real>, x: real, y: real, n: nat)
    requires n < |xs| && n < |ys|
    ensures Sum(a, ys + [y], n, |a|) == Sum(a, ys, n, |a|)
    ensures Sum(b, xs + [x], n, |b|) == Sum(b, xs, n, |b|)
  {
    assert (ys + [y])[..n + 1] == ys[..n + 1];
    assert (xs + [x])[..n + 1] == xs[..n + 1];
    SumAgree(a, ys + [y], ys, n);
    SumAgree(b, xs + [x], xs, n);
  }

  /** Solutions restrict to prefixes. */
  lemma SolvesPrefix(a: seq<real>, b: seq<real>, xs: seq<real>, ys: seq<real>, m: nat)
    requires Coefficients(a, b) && Solves(a, b, xs, ys) && m <= |xs|
    ensures Solves(a, b, xs[..m], ys[..m])
  {
    forall n | |b| - 1 <= n < m
      ensures Sum(a, ys[..m], n, |a|) == Sum(b, xs[..m], n, |b|)
    {
      assert ys[..m][..n + 1] == ys[..n + 1];
      assert xs[..m][..n + 1] == xs[..n + 1];
      SumAgree(a, ys[..m], ys, n);
      SumAgree(b, xs[..m], xs, n);
    }
  }

  /** The computed outputs solve the filter's rules. */
  lemma {:induction false} OutSolves(a: seq<real>, b: seq<real>, xs: seq<real>)
    requires Coefficients(a, b)
    ensures Solves(a, b, xs, Out(a, b, xs))
    decreases |xs|
  {
    if xs != [] {
      var n := |xs| - 1;
      var prev := Out(a, b, xs[..n]);
      var v := Next(a, b, xs, prev);
      OutSolves(a, b, xs[..n]);
      assert xs[..n] + [xs[n]] == xs;
      if n >= |b| - 1 {
        Solve(Sum(a, prev, n, |a|), Sum(b, xs, n, |b|), a[0], v);
      }
      SolvesSnoc(a, b, xs[..n], prev, xs[n], v);
    }
  }

  /** At most one output sequence solves the rules for given inputs. */
  lemma {:induction false} SolvesUnique(a: seq<real>, b: seq<real>, xs: seq<real>, ys: seq<real>, zs: seq<real>)
    requires Coefficients(a, b) && Solves(a, b, xs, ys) && Solves(a, b, xs, zs)
    ensures ys == zs
    decreases |xs|
  {
    if xs != [] {
      var n := |xs| - 1;
      SolvesPrefix(a, b, xs, ys, n);
      SolvesPrefix(a, b, xs, zs, n);
      SolvesUnique(a, b, xs[..n], ys[..n], zs[..n]);
      if n >= |b| - 1 {
        SumAppend(a, ys[..n], ys[n], |a|);
        SumAppend(a, zs[..n], zs[n], |a|);
        assert ys[..n] + [ys[n]] == ys;
        assert zs[..n] + [zs[n]] == zs;
        Cancel(a[0], ys[n], zs[n]);
      }
      assert ys == ys[..n] + [ys[n]];
      assert zs == zs[..n] + [zs[n]];
    }
  }

  /** The output is 0 until B inputs have been supplied. */
  lemma WarmUp(a: seq<real>, b: seq<real>, xs: seq<real>, n: nat)
    requires Coefficients(a, b) && n < |xs| && n < |b| - 1
    ensures Out(a, b, xs)[n] == 0.0
  {
    OutSolves(a, b, xs);
  }

  /** Once warm, every output satisfies the difference equation. */
  lemma DifferenceEquation(a: seq<real>, b: seq<real>, xs: seq<real>, n: nat)
    requires Coefficients(a, b) && |b| - 1 <= n < |xs|
    ensures Sum(a, Out(a, b, xs), n, |a|) == Sum(b, xs, n, |b|)
  {
    OutSolves(a, b, xs);
  }

  /** Any outputs obeying the warm-up rule and the difference equation are `Out`. */
  lemma OutUnique(a: seq<real>, b: seq<real>, xs: seq<real>, ys: seq<real>)
    requires Coefficients(a, b) && Solves(a, b, xs, ys)
    ensures ys == Out(a, b, xs)
  {
    OutSolves(a, b, xs);
    SolvesUnique(a, b, xs, ys, Out(a, b, xs));
  }

  /** The filter is causal: the first m outputs depend only on the first m inputs. */
  lemma OutPrefix(a: seq<real>, b: seq<real>, xs: seq<real>, m: nat)
    requires Coefficients(a, b) && m <= |xs|
    ensures Out(a, b, xs[..m]) == Out(a, b, xs)[..m]
  {
    OutSolves(a, b, xs);
    SolvesPrefix(a, b, xs, Out(a, b, xs), m);
    OutUnique(a, b, xs[..m], Out(a, b, xs)[..m]);
  }

  class DiscreteFilter {
    /** Number of a and b coefficients in use. */
    const A: nat
    const B: nat
    /** Coefficient storage, statically sized to the capacities. */
    const a: array<real>
    const b: array<real>
    /** y[k] holds y[n-k] and x[k] holds x[n-k] for the latest n. */
    const y: array<real>
    const x: array<real>
    /** Warm-up counter: updates since reset, saturating at B - 1 (uint8_t). */
    var frame: nat
    /** The inputs and outputs since construction or the last reset. */
    ghost var inputs: seq<real>
    ghost var outputs: seq<real>

    ghost function As(): seq<real>
      reads a
      requires A <= a.Length
    {
      a[..A]
    }

    ghost function Bs(): seq<real>
      reads b
      requires B <= b.Length
    {
      b[..B]
    }

    /** Array sizes, coefficient counts and the distinctness of the four arrays. */
    ghost predicate Shape() {
      a.Length == MaxA && y.Length == MaxA && b.Length == MaxB && x.Length == MaxB &&
      1 <= A <= MaxA && 1 <= B <= MaxB &&
      x != y && x != a && x != b && y != a && y != b
    }

    /** x[k] holds the input k steps back. */
    ghost predicate InputsStored()
      reads this, x
    {
      B <= x.Length && forall k :: 0 <= k < B ==> x[k] == Past(inputs, |inputs| - 1 - k)
    }

    /** y[k] holds the output k steps back. */
    ghost predicate OutputsStored()
      reads this, y
    {
      A <= y.Length && forall k :: 0 <= k < A ==> y[k] == Past(outputs, |outputs| - 1 - k)
    }

    ghost predicate Valid()
      reads this, a, b, x, y
    {
      Shape() && Coefficients(As(), Bs()) && Solves(As(), Bs(), inputs, outputs) &&
      frame == (if |inputs| < B - 1 then |inputs| else B - 1) && frame < 256 &&
      InputsStored() && OutputsStored()
    }

    /** The outputs so far are exactly those `Out` computes for the inputs so far. */
    lemma OutputsAreOut()
      requires Valid()
      ensures outputs == Out(As(), Bs(), inputs)
    {
      OutUnique(As(), Bs(), inputs, outputs);
    }

    /** A filter with coefficients `aCoef` and `bCoef` and no history. */
    constructor (aCoef: seq<real>, bCoef: seq<real>)
      requires Coefficients(aCoef, bCoef) && |aCoef| <= MaxA && |bCoef| <= MaxB
      ensures Valid() && fresh(a) && fresh(b) && fresh(x) && fresh(y)
      ensures A == |aCoef| && B == |bCoef| && As() == aCoef && Bs() == bCoef
      ensures inputs == [] && outputs == [] && frame == 0
    {
      A := |aCoef|;
      B := |bCoef|;
      a := new real[MaxA](i requires 0 <= i => if i < |aCoef| then aCoef[i] else 0.0);
      b := new real[MaxB](i requires 0 <= i => if i < |bCoef| then bCoef[i] else 0.0);
      y := new real[MaxA](_ => 0.0);
      x := new real[MaxB](_ => 0.0);
      frame := 0;
      inputs := [];
      outputs := [];
      new;
      assert As() == aCoef;
      assert Bs() == bCoef;
    }

    /** Clears the history: the filter then behaves as if freshly constructed. */
    method Reset()
      requires Valid()
      modifies this`frame, this`inputs, this`outputs, x, y
      ensures Valid() && inputs == [] && outputs == [] && frame == 0
    {
      frame := 0;
      inputs := [];
      outputs := [];
      var k := 0;
      while k < MaxB
        invariant 0 <= k <= MaxB
        invariant forall j :: 0 <= j < k ==> x[j] == 0.0
        invariant frame == 0 && inputs == [] && outputs == []
      {
        x[k] := 0.0;
        k := k + 1;
      }
      k := 0;
      while k < MaxA
        invariant 0 <= k <= MaxA
        invariant forall j :: 0 <= j < k ==> y[j] == 0.0
        invariant forall j :: 0 <= j < MaxB ==> x[j] == 0.0
        invariant frame == 0 && inputs == [] && outputs == []
      {
        y[k] := 0.0;
        k := k + 1;
      }
    }

    /**
     * Feeds the next input and returns the next output: 0 while warming
     * up, then the y[n] that solves the difference equation.
     */
    method Update(xn: real) returns (yn: real)
      requires Valid()
      modifies this`frame, this`inputs, this`outputs, x, y
      ensures Valid()
      ensures inputs == old(inputs) + [xn] && outputs == old(outputs) + [yn]
    {
      ghost var xs, ys := inputs, outputs;
      PushInput(xn);
      ShiftOutputs();
      yn := NextOutput();
      SolvesSnoc(As(), Bs(), xs, ys, xn, yn);
      RecordOutput(yn);
    }

    /**
     * The output for the input just pushed: 0 while warming up (counting
     * the frame up), then the y[n] that solves the difference equation.
     */
    method NextOutput() returns (yn: real)
      requires Shape() && Coefficients(As(), Bs()) && InputsStored()
      requires |outputs| + 1 == |inputs|
      requires forall k :: 1 <= k < A ==> y[k] == Past(outputs, |outputs| - k)
      requires frame == (if |outputs| < B - 1 then |outputs| else B - 1)
      modifies this`frame
      ensures frame == (if |inputs| < B - 1 then |inputs| else B - 1)
      ensures |outputs| < B - 1 ==> yn == 0.0
      ensures |outputs| >= B - 1 ==>
        Sum(As(), outputs, |outputs|, A) + As()[0] * yn == Sum(Bs(), inputs, |outputs|, B)
    {
      if frame < B - 1 {
        frame := frame + 1;
        yn := 0.0;
      } else {
        var sb := InputSum();
        var sa := OutputSum();
        yn := (sb - sa) / a[0];
        Solve(sa, sb, a[0], yn);
      }
    }

    /** Stores `yn` as y[0] after the output history has shifted. */
    method RecordOutput(yn: real)
      requires Shape()
      requires forall k :: 1 <= k < A ==> y[k] == Past(outputs, |outputs| - k)
      modifies this`outputs, y
      ensures OutputsStored() && outputs == old(outputs) + [yn]
    {
      y[0] := yn;
      outputs := outputs + [yn];
    }

    /** Shifts the input history one place toward the past and stores `xn` as x[0]. */
    method PushInput(xn: real)
      requires Shape() && InputsStored()
      modifies this`inputs, x
      ensures InputsStored() && inputs == old(inputs) + [xn]
    {
      ghost var n := |inputs|;
      var k := B - 1;
      while k > 0
        invariant 0 <= k <= B - 1
        invariant forall j :: k < j < B ==> x[j] == Past(inputs, n - j)
        invariant forall j :: 0 <= j <= k ==> x[j] == Past(inputs, n - 1 - j)
        invariant inputs == old(inputs)
      {
        x[k] := x[k - 1];
        k := k - 1;
      }
      x[0] := xn;
      inputs := inputs + [xn];
    }

    /** Shifts the output history one place toward the past, freeing y[0]. */
    method ShiftOutputs()
      requires Shape() && OutputsStored()
      modifies y
      ensures forall k :: 1 <= k < A ==> y[k] == Past(outputs, |outputs| - k)
    {
      var k := A - 1;
      while k > 0
        invariant 0 <= k <= A - 1
        invariant forall j :: k < j < A ==> y[j] == Past(outputs, |outputs| - j)
        invariant forall j :: 0 <= j <= k ==> y[j] == Past(outputs, |outputs| - 1 - j)
      {
        y[k] := y[k - 1];
        k := k - 1;
      }
    }

    /** b[0] x[n] + ... + b[B-1] x[n-(B-1)] for the latest input x[n]. */
    method InputSum() returns (sb: real)
      requires Shape() && InputsStored()
      ensures sb == Sum(Bs(), inputs, |inputs| - 1, B)
    {
      sb := 0.0;
      var k := 0;
      while k < B
        invariant 0 <= k <= B
        invariant sb == Sum(Bs(), inputs, |inputs| - 1, k)
      {
        assert Bs()[k] == b[k] && x[k] == Past(inputs, |inputs| - 1 - k);
        sb := sb + b[k] * x[k];
        k := k + 1;
      }
    }

    /**
     * a[0] y[n] + ... + a[A-1] y[n-(A-1)] with y[n] still unknown (so
     * counted as 0), for n = |outputs|, after the output history shifted.
     */
    method OutputSum() returns (sa: real)
      requires Shape()
      requires forall k :: 1 <= k < A ==> y[k] == Past(outputs, |outputs| - k)
      ensures sa == Sum(As(), outputs, |outputs|, A)
    {
      sa := 0.0;
      var k := 1;
      while k < A
        invariant 1 <= k <= A
        invariant sa == Sum(As(), outputs, |outputs|, k)
      {
        assert As()[k] == a[k] && y[k] == Past(outputs, |outputs| - k);
        sa := sa + a[k] * y[k];
        k := k + 1;
      }
    }
  }
}
