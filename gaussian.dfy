/**
 * One-dimensional Gaussian beliefs (Gaussian): a mean and a variance,
 * with the operator algebra the pitch estimator uses and the
 * precision-weighted (Kalman) fusion of two independent beliefs.
 * Every operation builds a new value; nothing is mutated.
 */
module GaussianBelief {

  datatype Gaussian = Gaussian(mean: real, variance: real)

  /** The "null" belief of the default constructor: zero mean and variance. */
  const Null: Gaussian := Gaussian(0.0, 0.0)

  /** A belief that makes sense: its variance is not negative. */
  predicate Valid(g: Gaussian) {
    g.variance >= 0.0
  }

  /** Negation: flips the mean and keeps the variance. */
  function Neg(g: Gaussian): Gaussian {
    Gaussian(-g.mean, g.variance)
  }

  /** Adding a known scalar shifts the mean only. */
  function AddScalar(g: Gaussian, n: real): Gaussian {
    Gaussian(g.mean + n, g.variance)
  }

  /** Subtracting a known scalar shifts the mean only. */
  function SubScalar(g: Gaussian, n: real): Gaussian {
    Gaussian(g.mean - n, g.variance)
  }

  /** Scaling by n scales the mean by n and the variance by n squared. */
  function MulScalar(g: Gaussian, n: real): Gaussian {
    Gaussian(g.mean * n, g.variance * n * n)
  }

  /** Division by n, computed through the reciprocal 1/n as the source does. */
  function DivScalar(g: Gaussian, n: real): Gaussian
    requires n != 0.0
  {
    var nInv := 1.0 / n;
    Gaussian(g.mean * nInv, g.variance * nInv * nInv)
  }

  /** Sum of two independent beliefs: means add and variances add. */
  function Add(g1: Gaussian, g2: Gaussian): Gaussian {
    Gaussian(g1.mean + g2.mean, g1.variance + g2.variance)
  }

  /** Difference of two independent beliefs: means subtract, variances add. */
  function Sub(g1: Gaussian, g2: Gaussian): Gaussian {
    Gaussian(g1.mean - g2.mean, g1.variance + g2.variance)
  }

  /**
   * First-order (linearised) arc-tangent of gy/gx. The mean is
   * atan2 of the means; the variance is propagated through the
   * Jacobian of atan2 at the means. Undefined at the origin.
   */
  function Atan2(gy: Gaussian, gx: Gaussian, atan2f: (real, real) -> real): (r: Gaussian)
    requires NormSq(gx.mean, gy.mean) > 0.0
    ensures r.mean == atan2f(gy.mean, gx.mean)
    ensures Valid(gy) && Valid(gx) ==> Valid(r)
  {
    var v := Atan2Variance(gx.mean, gy.mean, gx.variance, gy.variance);
    if Valid(gy) && Valid(gx) then
      SquareNonNeg(gx.mean);
      SquareNonNeg(gy.mean);
      MulNonNeg(gx.mean * gx.mean, gy.variance);
      MulNonNeg(gy.mean * gy.mean, gx.variance);
      NonNegQuotient(gx.mean * gx.mean * gy.variance + gy.mean * gy.mean * gx.variance, NormSq(gx.mean, gy.mean));
      NonNegQuotient((gx.mean * gx.mean * gy.variance + gy.mean * gy.mean * gx.variance) / NormSq(gx.mean, gy.mean),
                     NormSq(gx.mean, gy.mean));
      Gaussian(atan2f(gy.mean, gx.mean), v)
    else
      Gaussian(atan2f(gy.mean, gx.mean), v)
  }

  /**
   * The first-order variance of atan2(y, x) at the point (x, y):
   * (x^2 varY + y^2 varX) / (x^2 + y^2)^2, written as two divisions
   * by x^2 + y^2 (the same real number).
   */
  function Atan2Variance(x: real, y: real, varX: real, varY: real): real
    requires NormSq(x, y) > 0.0
  {
    (x * x * varY + y * y * varX) / NormSq(x, y) / NormSq(x, y)
  }

  /**
   * Kalman fusion of two independent beliefs about the same quantity:
   * the precision-weighted mean and the harmonic combination of the
   * variances. Needs a positive total variance.
   */
  function Fuse(g1: Gaussian, g2: Gaussian): (r: Gaussian)
    requires g1.variance + g2.variance > 0.0
    ensures Valid(g1) && Valid(g2) ==> Valid(r) && r.variance <= g1.variance && r.variance <= g2.variance
    ensures Valid(g1) && Valid(g2) ==> Between(r.mean, g1.mean, g2.mean)
  {
    var varSumInv := 1.0 / (g1.variance + g2.variance);
    var mean := (g1.mean * g2.variance + g2.mean * g1.variance) * varSumInv;
    var v := g1.variance * g2.variance * varSumInv;
    if Valid(g1) && Valid(g2) then
      FuseFacts(g1, g2, varSumInv);
      Gaussian(mean, v)
    else
      Gaussian(mean, v)
  }

  /** Squared length of the vector (x, y). */
  function NormSq(x: real, y: real): real {
    x * x + y * y
  }

  /** m lies (inclusively) between a and b, whichever is larger. */
  predicate Between(m: real, a: real, b: real) {
    (a <= m <= b) || (b <= m <= a)
  }

  lemma MulNonNeg(a: real, b: real)
    requires a >= 0.0 && b >= 0.0
    ensures a * b >= 0.0
  {
  }

  lemma SquareNonNeg(x: real)
    ensures x * x >= 0.0
  {
    if x < 0.0 {
      assert x * x == (-x) * (-x);
      MulNonNeg(-x, -x);
    } else {
      MulNonNeg(x, x);
    }
  }

  lemma NonNegQuotient(num: real, den: real)
    requires num >= 0.0 && den > 0.0
    ensures num / den >= 0.0
  {
  }

  /** The algebra behind Fuse's contract, with w = var1/(var1+var2). */
  lemma FuseFacts(g1: Gaussian, g2: Gaussian, s: real)
    requires g1.variance >= 0.0 && g2.variance >= 0.0 && g1.variance + g2.variance > 0.0
    requires s == 1.0 / (g1.variance + g2.variance)
    ensures g1.variance * g2.variance * s >= 0.0
    ensures g1.variance * g2.variance * s <= g1.variance && g1.variance * g2.variance * s <= g2.variance
    ensures Between((g1.mean * g2.variance + g2.mean * g1.variance) * s, g1.mean, g2.mean)
  {
    var t := g1.variance + g2.variance;
    assert s * t == 1.0;
    assert s > 0.0;
    var w := g1.variance * s;
    assert g2.variance * s == 1.0 - w;
    assert 0.0 <= w <= 1.0;
    calc {
      (g1.mean * g2.variance + g2.mean * g1.variance) * s;
      g1.mean * (g2.variance * s) + g2.mean * (g1.variance * s);
      g1.mean * (1.0 - w) + g2.mean * w;
      g1.mean + w * (g2.mean - g1.mean);
    }
    assert g1.variance * g2.variance * s == g1.variance * (1.0 - w);
    assert g1.variance * g2.variance * s == g2.variance * w;
    var d := g2.mean - g1.mean;
    if g1.mean <= g2.mean {
      MulNonNeg(w, d);
      MulNonNeg(1.0 - w, d);
      assert 0.0 <= w * d <= d;
    } else {
      MulNonNeg(w, -d);
      MulNonNeg(1.0 - w, -d);
      assert d <= w * d <= 0.0;
    }
  }

  // ---------------------------------------------------------------
  // Properties of the algebra
  // ---------------------------------------------------------------

  /** Negation keeps the variance and undoes itself. */
  lemma NegProperties(g: Gaussian)
    ensures Neg(g).mean == -g.mean && Neg(g).variance == g.variance
    ensures Neg(Neg(g)) == g
  {
  }

  /** Scalar shifts change the mean by exactly n and are undone by the opposite shift. */
  lemma ScalarShift(g: Gaussian, n: real)
    ensures AddScalar(g, n).variance == g.variance && SubScalar(g, n).variance == g.variance
    ensures AddScalar(g, n).mean - g.mean == n && g.mean - SubScalar(g, n).mean == n
    ensures SubScalar(AddScalar(g, n), n) == g && AddScalar(SubScalar(g, n), n) == g
    ensures SubScalar(g, n) == AddScalar(g, -n)
  {
  }

  /** Scaling keeps beliefs valid, and two scalings compose to one. */
  lemma ScaleProperties(g: Gaussian, n: real, k: real)
    ensures Valid(g) ==> Valid(MulScalar(g, n))
    ensures MulScalar(MulScalar(g, n), k) == MulScalar(g, n * k)
    ensures MulScalar(g, 1.0) == g
  {
    var nn := n * n;
    assert nn >= 0.0;
    if Valid(g) {
      assert g.variance * n * n == g.variance * nn;
    }
    calc {
      g.variance * n * n * k * k;
      g.variance * (n * k) * (n * k);
    }
  }

  /** Division by a nonzero n is scaling by 1/n, and undoes scaling by n. */
  lemma DivIsScaleByInverse(g: Gaussian, n: real)
    requires n != 0.0
    ensures DivScalar(g, n) == MulScalar(g, 1.0 / n)
    ensures DivScalar(MulScalar(g, n), n) == g
    ensures Valid(g) ==> Valid(DivScalar(g, n))
  {
    ScaleProperties(g, n, 1.0 / n);
    assert n * (1.0 / n) == 1.0;
    ScaleProperties(g, 1.0 / n, 1.0);
  }

  /**
   * Sum and difference both add the variances; the difference is the
   * sum with the negation; the sum is commutative; validity is kept.
   */
  lemma SumDifference(g1: Gaussian, g2: Gaussian)
    ensures Add(g1, g2).variance == g1.variance + g2.variance && Sub(g1, g2).variance == g1.variance + g2.variance
    ensures Sub(g1, g2) == Add(g1, Neg(g2))
    ensures Add(g1, g2) == Add(g2, g1)
    ensures Valid(g1) && Valid(g2) ==> Valid(Add(g1, g2)) && Valid(Sub(g1, g2))
  {
  }

  /** Fusion is commutative in both mean and variance. */
  lemma FuseCommutative(g1: Gaussian, g2: Gaussian)
    requires g1.variance + g2.variance > 0.0
    ensures Fuse(g1, g2) == Fuse(g2, g1)
  {
    assert g1.variance + g2.variance == g2.variance + g1.variance;
    assert g1.mean * g2.variance + g2.mean * g1.variance == g2.mean * g1.variance + g1.mean * g2.variance;
    assert g1.variance * g2.variance == g2.variance * g1.variance;
  }

  /** Fusing a belief with itself keeps the mean and halves the variance. */
  lemma FuseSelf(g: Gaussian)
    requires g.variance > 0.0
    ensures Fuse(g, g) == Gaussian(g.mean, g.variance / 2.0)
  {
    var s := 1.0 / (g.variance + g.variance);
    assert s * (g.variance + g.variance) == 1.0;
    calc {
      (g.mean * g.variance + g.mean * g.variance) * s;
      g.mean * ((g.variance + g.variance) * s);
      g.mean;
    }
    calc {
      g.variance * g.variance * s;
      g.variance * (g.variance * s);
      g.variance * (1.0 / 2.0);
    }
  }

  /**
   * With both variances positive the fused variance is positive and
   * at most the smaller input variance, and the fused mean lies
   * between the two input means.
   */
  lemma FuseBounds(g1: Gaussian, g2: Gaussian)
    requires g1.variance > 0.0 && g2.variance > 0.0
    ensures 0.0 < Fuse(g1, g2).variance
    ensures Fuse(g1, g2).variance <= g1.variance && Fuse(g1, g2).variance <= g2.variance
    ensures Between(Fuse(g1, g2).mean, g1.mean, g2.mean)
  {
    var s := 1.0 / (g1.variance + g2.variance);
    assert s > 0.0;
    var p := g1.variance * g2.variance;
    assert p > 0.0;
    assert p * s > 0.0;
  }

  /** A belief with zero variance (certainty) dominates the fusion. */
  lemma FuseCertain(g1: Gaussian, g2: Gaussian)
    requires g1.variance == 0.0 && g2.variance > 0.0
    ensures Fuse(g1, g2) == g1
  {
    var s := 1.0 / g2.variance;
    assert g2.variance * s == 1.0;
    assert (g1.mean * g2.variance + g2.mean * g1.variance) * s == g1.mean * (g2.variance * s);
  }

  /** x^2 v + y^2 v factors as v (x^2 + y^2). */
  lemma FactorNorm(x: real, y: real, v: real)
    ensures x * x * v + y * y * v == v * NormSq(x, y)
  {
  }

  /** (v n) / n == v for n != 0. */
  lemma CancelQuotient(v: real, n: real, p: real)
    requires n != 0.0 && p == v * n
    ensures p / n == v
  {
  }

  /**
   * With equal input variances v (the accelerometer case), the
   * arc-tangent's variance is v / (x^2 + y^2): positive when v is.
   */
  lemma Atan2EqualVariance(gy: Gaussian, gx: Gaussian, atan2f: (real, real) -> real)
    requires NormSq(gx.mean, gy.mean) > 0.0 && gx.variance == gy.variance
    ensures Atan2(gy, gx, atan2f).variance == gx.variance / NormSq(gx.mean, gy.mean)
    ensures gx.variance > 0.0 ==> Atan2(gy, gx, atan2f).variance > 0.0
  {
    var n := NormSq(gx.mean, gy.mean);
    var v := gx.variance;
    var num := gx.mean * gx.mean * v + gy.mean * gy.mean * v;
    Atan2VarianceEqual(gx.mean, gy.mean, v);
    FactorNorm(gx.mean, gy.mean, v);
    CancelQuotient(v, n, num);
  }

  lemma Atan2VarianceEqual(x: real, y: real, v: real)
    requires NormSq(x, y) > 0.0
    ensures Atan2Variance(x, y, v, v) == (x * x * v + y * y * v) / NormSq(x, y) / NormSq(x, y)
  {
  }
}
