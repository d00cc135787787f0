/** The activation functions of the predictor: ReLU with its derivative,
    and the max-shifted softmax.

    Dafny has no exponential on reals, so every softmax takes the
    exponential as a parameter `exp` constrained by `ExpLike`: strictly
    positive and strictly increasing, the two facts of the mathematical
    exponential the properties below depend on. */
module Activations {
  import opened LinAlg

  // ---------------------------------------------------------------------
  // ReLU

  /** `np.maximum(0, x)` on one entry. */
  function Relu(x: real): (r: real)
    ensures r >= 0.0
    ensures r >= x
    ensures r == x || r == 0.0
  {
    if x > 0.0 then x else 0.0
  }

  /** `(x > 0).astype(float)` on one entry: the slope of `Relu` at `x`,
      taking 0 at the kink. */
  function ReluDerivative(x: real): (d: real)
    ensures d == 1.0 <==> x > 0.0
    ensures d == 0.0 <==> x <= 0.0
    ensures Relu(x) == d * x
  {
    if x > 0.0 then 1.0 else 0.0
  }

  /** ReLU applied entrywise to a vector. */
  function ReluVec(v: Vector): (r: Vector)
    ensures |r| == |v|
    ensures forall i :: 0 <= i < |v| ==> r[i] == Relu(v[i])
  {
    seq(|v|, i requires 0 <= i < |v| => Relu(v[i]))
  }

  /** The derivative applied entrywise, as used by back-propagation. */
  function ReluDerivativeVec(v: Vector): (r: Vector)
    ensures |r| == |v|
    ensures forall i :: 0 <= i < |v| ==> r[i] == ReluDerivative(v[i])
  {
    seq(|v|, i requires 0 <= i < |v| => ReluDerivative(v[i]))
  }

  /** ReLU keeps exactly the non-negative part: it is the identity on
      x >= 0, zero on x < 0, and splits every x into Relu(x) - Relu(-x). */
  lemma ReluCharacterisation(x: real)
    ensures x >= 0.0 ==> Relu(x) == x
    ensures x < 0.0 ==> Relu(x) == 0.0
    ensures Relu(x) - Relu(-x) == x
    ensures Relu(Relu(x)) == Relu(x)
  {
  }

  // ---------------------------------------------------------------------
  // Softmax

  /** What the model needs of the exponential: positive everywhere and
      strictly increasing. */
  ghost predicate ExpLike(exp: real -> real) {
    && (forall t :: exp(t) > 0.0)
    && (forall s, t :: s < t ==> exp(s) < exp(t))
  }

  lemma ExpPositive(exp: real -> real, t: real)
    requires ExpLike(exp)
    ensures exp(t) > 0.0
  {
  }

  /** Every score minus `c`. */
  function ShiftBy(x: Vector, c: real): (s: Vector)
    ensures |s| == |x|
    ensures forall i :: 0 <= i < |x| ==> s[i] == x[i] - c
  {
    seq(|x|, i requires 0 <= i < |x| => x[i] - c)
  }

  /** The scores with their maximum subtracted, `x - np.max(x)`: none is
      positive and the maximal ones become exactly zero. */
  function Shifted(x: Vector): (s: Vector)
    requires |x| > 0
    ensures |s| == |x|
    ensures forall i :: 0 <= i < |x| ==> s[i] <= 0.0
    ensures exists i :: 0 <= i < |x| && s[i] == 0.0
    ensures forall i :: 0 <= i < |x| ==> (s[i] == 0.0 <==> x[i] == Max(x))
  {
    var s := ShiftBy(x, Max(x));
    assert Max(x) in x;
    s
  }

  /** `exp` applied entrywise. */
  function MapExp(exp: real -> real, v: Vector): (e: Vector)
    requires ExpLike(exp)
    ensures |e| == |v|
    ensures forall i :: 0 <= i < |v| ==> e[i] == exp(v[i]) && e[i] > 0.0
  {
    var e := seq(|v|, i requires 0 <= i < |v| => exp(v[i]));
    forall i | 0 <= i < |v|
      ensures e[i] == exp(v[i]) && e[i] > 0.0
    {
      ExpPositive(exp, v[i]);
    }
    e
  }

  /** Each entry divided by the total of a positive vector. */
  function Normalised(e: Vector): (p: Vector)
    requires |e| > 0
    requires forall i :: 0 <= i < |e| ==> e[i] > 0.0
    ensures |p| == |e|
    ensures forall i :: 0 <= i < |e| ==> 0.0 < p[i] <= 1.0
    ensures Sum(p) == 1.0
  {
    SumPositive(e);
    var total := Sum(e);
    var p := Scale(e, 1.0 / total);
    forall i | 0 <= i < |e|
      ensures 0.0 < p[i] <= 1.0
    {
      EntryAtMostSum(e, i);
      FractionOfTotal(e[i], total);
    }
    SumScaled(e, p, 1.0 / total);
    InverseCancels(total);
    p
  }

  lemma FractionOfTotal(a: real, s: real)
    requires 0.0 < a <= s
    ensures 0.0 < a * (1.0 / s) <= 1.0
  {
    assert a * (1.0 / s) == a / s;
  }

  lemma InverseCancels(t: real)
    requires t > 0.0
    ensures t * (1.0 / t) == 1.0
  {
  }

  /** A probability vector: entries in (0, 1] adding up to 1. */
  ghost predicate IsDistribution(p: Vector) {
    && (forall i :: 0 <= i < |p| ==> 0.0 < p[i] <= 1.0)
    && Sum(p) == 1.0
  }

  /** `exp(x - max(x)) / sum(exp(x - max(x)))` for one row of scores. */
  function Softmax(exp: real -> real, x: Vector): (p: Vector)
    requires ExpLike(exp)
    requires |x| > 0
    ensures |p| == |x|
    ensures IsDistribution(p)
  {
    Normalised(MapExp(exp, Shifted(x)))
  }

  /** The textbook softmax without the max shift. */
  function UnshiftedSoftmax(exp: real -> real, x: Vector): (p: Vector)
    requires ExpLike(exp)
    requires |x| > 0
    ensures |p| == |x|
  {
    Normalised(MapExp(exp, x))
  }

  /** The exponential law exp(x[i]) == exp(x[i] - c) * exp(c), needed only
      at the entries of `x`. */
  ghost predicate ShiftsOut(exp: real -> real, x: Vector, c: real) {
    forall i :: 0 <= i < |x| ==> exp(x[i]) == exp(x[i] - c) * exp(c)
  }

  /** Subtracting the maximum only guards against overflow: for an
      exponential obeying exp(a) == exp(a - c) * exp(c) the shifted and the
      textbook softmax agree exactly. */
  lemma SoftmaxShiftInvariant(exp: real -> real, x: Vector)
    requires ExpLike(exp)
    requires |x| > 0
    requires ShiftsOut(exp, x, Max(x))
    ensures Softmax(exp, x) == UnshiftedSoftmax(exp, x)
  {
    ShiftedNormalisation(exp, x, Max(x));
  }

  /** Normalising exp(x - c) or exp(x) gives the same vector whenever the
      law exp(x[i]) == exp(x[i] - c) * exp(c) holds. */
  lemma ShiftedNormalisation(exp: real -> real, x: Vector, c: real)
    requires ExpLike(exp)
    requires |x| > 0
    requires ShiftsOut(exp, x, c)
    ensures Normalised(MapExp(exp, ShiftBy(x, c))) == Normalised(MapExp(exp, x))
  {
    var k := exp(c);
    ExpPositive(exp, c);
    var e := MapExp(exp, ShiftBy(x, c));
    var big := MapExp(exp, x);
    forall i | 0 <= i < |x|
      ensures big[i] == Scale(e, k)[i]
    {
      assert ShiftBy(x, c)[i] == x[i] - c;
    }
    assert big == Scale(e, k);
    NormalisedScaled(e, k);
  }

  /** Normalisation ignores a common positive factor. */
  lemma NormalisedScaled(e: Vector, k: real)
    requires |e| > 0 && k > 0.0
    requires forall i :: 0 <= i < |e| ==> e[i] > 0.0
    ensures forall i :: 0 <= i < |e| ==> Scale(e, k)[i] > 0.0
    ensures Normalised(Scale(e, k)) == Normalised(e)
  {
    var big := Scale(e, k);
    forall i | 0 <= i < |e|
      ensures big[i] > 0.0
    {
      PositiveProduct(e[i], k);
    }
    SumScaled(e, big, k);
    SumPositive(e);
    var s, t := Sum(e), Sum(big);
    InverseOfScaled(s, k, t);
    ScaleTwice(e, k, 1.0 / t, 1.0 / s);
    assert Normalised(big) == Scale(big, 1.0 / t);
    assert Normalised(e) == Scale(e, 1.0 / s);
  }

  lemma InverseOfScaled(s: real, k: real, t: real)
    requires s > 0.0 && k > 0.0 && t == s * k
    ensures k * (1.0 / t) == 1.0 / s
  {
  }

  lemma PositiveProduct(a: real, b: real)
    requires a > 0.0 && b > 0.0
    ensures a * b > 0.0
  {
  }

  /** Softmax preserves the order of the scores both ways, so ties and
      strict differences survive the normalisation. */
  lemma {:induction false} SoftmaxOrder(exp: real -> real, x: Vector, i: nat, j: nat)
    requires ExpLike(exp)
    requires i < |x| && j < |x|
    ensures x[i] < x[j] <==> Softmax(exp, x)[i] < Softmax(exp, x)[j]
    ensures x[i] == x[j] <==> Softmax(exp, x)[i] == Softmax(exp, x)[j]
  {
    var s := ShiftBy(x, Max(x));
    var e := MapExp(exp, s);
    ExpOrder(exp, s[i], s[j]);
    NormalisedOrder(e, i, j);
  }

  /** A strictly increasing exponential preserves and reflects order. */
  lemma ExpOrder(exp: real -> real, u: real, v: real)
    requires ExpLike(exp)
    ensures u < v <==> exp(u) < exp(v)
    ensures u == v <==> exp(u) == exp(v)
  {
  }

  /** Normalisation preserves and reflects the order of the entries. */
  lemma NormalisedOrder(e: Vector, i: nat, j: nat)
    requires |e| > 0
    requires forall k :: 0 <= k < |e| ==> e[k] > 0.0
    requires i < |e| && j < |e|
    ensures e[i] < e[j] <==> Normalised(e)[i] < Normalised(e)[j]
    ensures e[i] == e[j] <==> Normalised(e)[i] == Normalised(e)[j]
  {
    SumPositive(e);
    var c := 1.0 / Sum(e);
    assert Normalised(e) == Scale(e, c);
    ScaledOrder(e[i], e[j], c, Normalised(e)[i], Normalised(e)[j]);
  }

  /** Multiplying by a positive factor preserves and reflects order. */
  lemma ScaledOrder(x: real, y: real, c: real, a: real, b: real)
    requires c > 0.0 && a == x * c && b == y * c
    ensures x < y <==> a < b
    ensures x == y <==> a == b
  {
    if x < y {
      assert (y - x) * c > 0.0;
    } else if y < x {
      assert (x - y) * c > 0.0;
    }
  }

  /** A row of equal scores gives the uniform distribution. */
  lemma {:induction false} SoftmaxOfEqualScores(exp: real -> real, x: Vector, c: real)
    requires ExpLike(exp)
    requires |x| > 0
    requires forall i :: 0 <= i < |x| ==> x[i] == c
    ensures forall i :: 0 <= i < |x| ==> Softmax(exp, x)[i] == 1.0 / |x| as real
  {
    var p := Softmax(exp, x);
    forall i | 0 <= i < |x|
      ensures p[i] == p[0]
    {
      SoftmaxOrder(exp, x, i, 0);
    }
    EqualSharesAreUniform(p);
  }

  /** A distribution with all entries equal is uniform. */
  lemma EqualSharesAreUniform(p: Vector)
    requires |p| > 0 && Sum(p) == 1.0
    requires forall i :: 0 <= i < |p| ==> p[i] == p[0]
    ensures forall i :: 0 <= i < |p| ==> p[i] == 1.0 / |p| as real
  {
    SumOfConstant(p, p[0]);
    ShareOfOne(|p| as real, p[0]);
  }

  lemma ShareOfOne(n: real, c: real)
    requires n > 0.0 && n * c == 1.0
    ensures c == 1.0 / n
  {
  }
}
