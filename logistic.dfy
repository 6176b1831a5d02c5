/**
 * The logistic squashing function of the risk engine, 1 / (1 + exp(-x)).
 *
 * The exponential function is not computed. It is a parameter `exp` that is
 * assumed to satisfy the two laws that determine the real exponential uniquely:
 * it lies above its tangent line at 0 (exp(x) >= 1 + x) and it turns sums into
 * products (exp(x + y) == exp(x) * exp(y)). Every fact about exp used by the
 * model is derived from these two laws.
 */
module LogisticTransform {

  /** exp(x) is at least 1 + x: the tangent line at 0 lies below the curve. */
  ghost predicate AboveTangent(exp: real -> real, x: real)
  {
    exp(x) >= 1.0 + x
  }

  /** exp maps the sum x + y to the product of exp(x) and exp(y). */
  ghost predicate AddsToProduct(exp: real -> real, x: real, y: real)
  {
    exp(x + y) == exp(x) * exp(y)
  }

  /** The laws that characterise the exponential function. They are stated
      through the two named predicates so that they are only used where a proof
      names the instance it needs. */
  ghost predicate IsExp(exp: real -> real)
  {
    && (forall x :: AboveTangent(exp, x))
    && (forall x, y :: AddsToProduct(exp, x, y))
  }

  lemma ExpAtZero(exp: real -> real)
    requires IsExp(exp)
    ensures exp(0.0) == 1.0
  {
    assert AddsToProduct(exp, 0.0, 0.0);
    assert AboveTangent(exp, 0.0);
    var e := exp(0.0);
    assert e == e * e;
    assert e * (e - 1.0) == 0.0;
  }

  /** exp(x) * exp(-x) == 1 */
  lemma ExpReciprocal(exp: real -> real, x: real)
    requires IsExp(exp)
    ensures exp(x) * exp(-x) == 1.0
  {
    ExpAtZero(exp);
    assert AddsToProduct(exp, x, -x);
    assert x + -x == 0.0;
  }

  lemma ExpPositive(exp: real -> real, x: real)
    requires IsExp(exp)
    ensures exp(x) > 0.0
  {
    if x < 0.0 {
      assert AboveTangent(exp, -x);
      ExpReciprocal(exp, x);
    } else {
      assert AboveTangent(exp, x);
    }
  }

  lemma ExpStrictlyIncreasing(exp: real -> real, a: real, b: real)
    requires IsExp(exp)
    requires a < b
    ensures exp(a) < exp(b)
  {
    var d := b - a;
    assert AddsToProduct(exp, a, d);
    assert a + d == b;
    assert exp(b) == exp(a) * exp(d);
    assert AboveTangent(exp, d);
    ExpPositive(exp, a);
    var ea, ed := exp(a), exp(d);
    assert ea * ed - ea == ea * (ed - 1.0);
    assert ea * (ed - 1.0) > 0.0;
  }

  /** The two values of exp that decide the Low/Moderate boundary of the risk
      levels: 1 < exp(0.9) < 4 < exp(1.8). Both bounds come from
      exp(0.45) lying between 1.45 and 1 / 0.55. */
  lemma ExpBoundsAtCutPoints(exp: real -> real)
    requires IsExp(exp)
    ensures 1.0 < exp(0.9) < 4.0 < exp(1.8)
  {
    var h := exp(0.45);
    assert AboveTangent(exp, 0.45);
    assert AboveTangent(exp, -0.45);
    ExpReciprocal(exp, 0.45);
    assert h >= 1.45;
    assert h * exp(-0.45) == 1.0 && exp(-0.45) >= 0.55;
    assert h * 0.55 <= 1.0;
    assert AddsToProduct(exp, 0.45, 0.45);
    assert 0.45 + 0.45 == 0.9;
    var g := exp(0.9);
    assert g == h * h;
    assert h * h >= 1.45 * 1.45;
    assert h * h * 0.3025 <= 1.0;
    assert AddsToProduct(exp, 0.9, 0.9);
    assert 0.9 + 0.9 == 1.8;
    assert exp(1.8) == g * g;
    assert g * g >= 2.1025 * 2.1025;
  }

  /** The logistic function 1 / (1 + exp(-x)); its value is a probability
      strictly between 0 and 1. */
  function Logistic(exp: real -> real, x: real): (p: real)
    requires IsExp(exp)
    ensures 0.0 < p < 1.0
  {
    ExpPositive(exp, -x);
    1.0 / (1.0 + exp(-x))
  }

  lemma LogisticAtZero(exp: real -> real)
    requires IsExp(exp)
    ensures Logistic(exp, 0.0) == 0.5
  {
    ExpAtZero(exp);
    assert -0.0 == 0.0;
  }

  lemma LogisticStrictlyIncreasing(exp: real -> real, a: real, b: real)
    requires IsExp(exp)
    requires a < b
    ensures Logistic(exp, a) < Logistic(exp, b)
  {
    ExpStrictlyIncreasing(exp, -b, -a);
    ExpPositive(exp, -b);
    var da, db := 1.0 + exp(-a), 1.0 + exp(-b);
    ReciprocalDecreasing(db, da);
  }

  lemma ReciprocalDecreasing(u: real, v: real)
    requires 0.0 < u < v
    ensures 1.0 / v < 1.0 / u
  {
    var a, b := 1.0 / u, 1.0 / v;
    assert a * u == 1.0 && b * v == 1.0;
    assert a > 0.0 && b > 0.0;
    assert a * v - a * u == a * (v - u);
    assert a * (v - u) > 0.0;
    assert b * v < a * v;
    assert (a - b) * v > 0.0;
  }

  /** The probability is below one half exactly when its argument is negative. */
  lemma LogisticBelowHalf(exp: real -> real, x: real)
    requires IsExp(exp)
    ensures Logistic(exp, x) < 0.5 <==> x < 0.0
  {
    LogisticAtZero(exp);
    if x < 0.0 {
      LogisticStrictlyIncreasing(exp, x, 0.0);
    } else if x > 0.0 {
      LogisticStrictlyIncreasing(exp, 0.0, x);
    }
  }

  /** The probability is below 0.2 exactly when exp(-x) exceeds 4. */
  lemma LogisticBelowFifth(exp: real -> real, x: real)
    requires IsExp(exp)
    ensures Logistic(exp, x) < 0.2 <==> exp(-x) > 4.0
  {
    ExpPositive(exp, -x);
    var d := 1.0 + exp(-x);
    var p := Logistic(exp, x);
    assert p * d == 1.0;
    if d > 5.0 {
      assert p * d < 0.2 * d;
    } else {
      assert p * d >= 0.2 * d;
    }
  }
}
