/** Reading predictions off probability rows: `np.argmax` with numpy's
    first-index tie-breaking, the accuracy of a batch, and the printed
    label and confidence of one prediction. */
module Metrics {
  import opened Results
  import opened LinAlg
  import opened Activations
  import opened Features

  /** `np.argmax(v)`: a position of a largest entry, the first one on ties. */
  function Argmax(v: Vector): (k: nat)
    requires |v| > 0
    ensures k < |v|
    ensures forall i :: 0 <= i < |v| ==> v[i] <= v[k]
    ensures forall i :: 0 <= i < k ==> v[i] < v[k]
  {
    if |v| == 1 then 0
    else
      var k := Argmax(v[..|v| - 1]);
      if v[|v| - 1] > v[k] then |v| - 1 else k
  }

  /** The two properties of `Argmax` pin it down: any position holding a
      maximum with only smaller entries before it is the argmax. */
  lemma ArgmaxUnique(v: Vector, k: nat)
    requires k < |v|
    requires forall i :: 0 <= i < |v| ==> v[i] <= v[k]
    requires forall i :: 0 <= i < k ==> v[i] < v[k]
    ensures Argmax(v) == k
  {
  }

  /** The argmax of a one-hot label is the position of its direction. */
  lemma ArgmaxOneHot(d: Direction)
    ensures Argmax(OneHot(d)) == Index(d)
  {
    ArgmaxUnique(OneHot(d), Index(d));
  }

  /** Reading a training label back with argmax recovers the trend the
      window was labelled with. */
  lemma LabelArgmaxIsTrend(prices: Vector)
    requires |prices| == WindowSize && prices[0] != 0.0
    ensures Argmax(TrendLabel(prices)) == Index(Trend(prices))
    ensures LabelNames[Argmax(TrendLabel(prices))] == Name(Trend(prices))
  {
    ArgmaxOneHot(Trend(prices));
    IndexBijection(Trend(prices), 0);
  }

  /** Softmax never changes the predicted class: the argmax of the
      probabilities is the argmax of the raw scores. */
  lemma ArgmaxSoftmax(exp: real -> real, x: Vector)
    requires ExpLike(exp)
    requires |x| > 0
    ensures Argmax(Softmax(exp, x)) == Argmax(x)
  {
    var k := Argmax(x);
    var p := Softmax(exp, x);
    forall i | 0 <= i < |x|
      ensures p[i] <= p[k]
      ensures i < k ==> p[i] < p[k]
    {
      SoftmaxOrder(exp, x, i, k);
    }
    ArgmaxUnique(p, k);
  }

  // ---------------------------------------------------------------------
  // Accuracy

  /** The positions, among the first `n`, of the rows whose predicted and
      true classes agree. */
  ghost function Agreeing(pred: seq<Vector>, truth: seq<Vector>, n: nat): set<nat>
    requires n <= |pred| && n <= |truth|
    requires forall i :: 0 <= i < n ==> |pred[i]| > 0 && |truth[i]| > 0
  {
    set i: nat | i < n && Argmax(pred[i]) == Argmax(truth[i])
  }

  /** One more row adds its position to the agreeing ones exactly when its
      classes agree. */
  lemma AgreeingStep(pred: seq<Vector>, truth: seq<Vector>, n: nat)
    requires 0 < n <= |pred| && n <= |truth|
    requires forall i :: 0 <= i < n ==> |pred[i]| > 0 && |truth[i]| > 0
    ensures Argmax(pred[n - 1]) == Argmax(truth[n - 1]) ==>
              Agreeing(pred, truth, n) == Agreeing(pred, truth, n - 1) + {n - 1}
    ensures Argmax(pred[n - 1]) != Argmax(truth[n - 1]) ==>
              Agreeing(pred, truth, n) == Agreeing(pred, truth, n - 1)
    ensures n - 1 !in Agreeing(pred, truth, n - 1)
  {
  }

  /** Rows whose predicted and true classes agree, among the first `n`. */
  function Matches(pred: seq<Vector>, truth: seq<Vector>, n: nat): (c: nat)
    requires n <= |pred| && n <= |truth|
    requires forall i :: 0 <= i < n ==> |pred[i]| > 0 && |truth[i]| > 0
    ensures c == |Agreeing(pred, truth, n)|
    ensures c <= n
    ensures c == n <==> forall i :: 0 <= i < n ==> Argmax(pred[i]) == Argmax(truth[i])
    ensures c == 0 <==> forall i :: 0 <= i < n ==> Argmax(pred[i]) != Argmax(truth[i])
  {
    if n == 0 then
      assert Agreeing(pred, truth, 0) == {};
      0
    else
      var c := Matches(pred, truth, n - 1);
      AgreeingStep(pred, truth, n);
      if Argmax(pred[n - 1]) == Argmax(truth[n - 1]) then c + 1 else c
  }

  /** `np.mean(argmax(pred) == argmax(truth))` over a batch: the fraction
      of rows classified correctly, or no value for an empty batch (numpy
      returns NaN). */
  function Accuracy(pred: seq<Vector>, truth: seq<Vector>): (r: Option<real>)
    requires |pred| == |truth|
    requires forall i :: 0 <= i < |pred| ==> |pred[i]| > 0 && |truth[i]| > 0
    ensures r.None? <==> |pred| == 0
    ensures r.Some? ==> r.value == |Agreeing(pred, truth, |pred|)| as real / |pred| as real
    ensures r.Some? ==> 0.0 <= r.value <= 1.0
    ensures r.Some? ==> (r.value == 1.0 <==> forall i :: 0 <= i < |pred| ==> Argmax(pred[i]) == Argmax(truth[i]))
    ensures r.Some? ==> (r.value == 0.0 <==> forall i :: 0 <= i < |pred| ==> Argmax(pred[i]) != Argmax(truth[i]))
  {
    if |pred| == 0 then None
    else
      var c := Matches(pred, truth, |pred|);
      FractionBounds(c, |pred|);
      Some(c as real / |pred| as real)
  }

  lemma FractionBounds(c: nat, n: nat)
    requires 0 < n && c <= n
    ensures 0.0 <= c as real / n as real <= 1.0
    ensures c as real / n as real == 1.0 <==> c == n
    ensures c as real / n as real == 0.0 <==> c == 0
  {
  }

  /** Scoring a batch of one-hot labels against itself is perfect. */
  lemma AccuracyOfLabelsAgainstThemselves(labels: seq<Direction>)
    requires |labels| > 0
    ensures var ys := seq(|labels|, i requires 0 <= i < |labels| => OneHot(labels[i]));
            Accuracy(ys, ys) == Some(1.0)
  {
  }

  // ---------------------------------------------------------------------
  // One prediction

  /** The class and confidence printed for one probability row:
      the label at the argmax and the largest probability. */
  datatype Prediction = Prediction(direction: Direction, confidence: real)

  function Classify(probs: Vector): (r: Prediction)
    requires |probs| == 3
    ensures Index(r.direction) == Argmax(probs)
    ensures r.confidence in probs
    ensures forall i :: 0 <= i < 3 ==> probs[i] <= r.confidence
  {
    var k := Argmax(probs);
    Prediction(DirectionAt(k), probs[k])
  }

  /** With three classes the winning probability is at least 1/3. */
  lemma ConfidenceAtLeastThird(probs: Vector)
    requires |probs| == 3
    requires IsDistribution(probs)
    ensures Classify(probs).confidence >= 1.0 / 3.0
  {
    var c := Classify(probs).confidence;
    SumAtMostLengthTimesBound(probs, c);
  }
}
