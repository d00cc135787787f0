/** Turning a window of five prices into the model's four input features
    and its one-hot trend label. */
module Features {
  import opened Results
  import opened LinAlg

  /** Number of prices in a window. */
  const WindowSize: nat := 5
  /** Number of features, one per consecutive pair of prices. */
  const FeatureCount: nat := 4
  /** A 5% move maps to the edge of the feature range. */
  const PercentScale: real := 5.0
  /** Total moves strictly beyond +/-1.5% are trends. */
  const TrendThreshold: real := 1.5

  // ---------------------------------------------------------------------
  // Directions and their encodings

  /** The three classes, in output order. */
  datatype Direction = Up | Down | Sideways

  /** Position of a direction in the label and probability vectors. */
  function Index(d: Direction): (k: nat)
    ensures k < 3
  {
    match d
    case Up => 0
    case Down => 1
    case Sideways => 2
  }

  /** The direction at output position `k`. */
  function DirectionAt(k: nat): (d: Direction)
    requires k < 3
    ensures Index(d) == k
  {
    if k == 0 then Up else if k == 1 then Down else Sideways
  }

  /** The label list written next to the weights. */
  const LabelNames: seq<string> := ["UP", "DOWN", "SIDEWAYS"]

  /** The name a direction is exported and printed under. */
  function Name(d: Direction): string
  {
    match d
    case Up => "UP"
    case Down => "DOWN"
    case Sideways => "SIDEWAYS"
  }

  /** Positions and directions are in one-to-one correspondence, and the
      exported label list names each direction at its own position. */
  lemma {:induction false} IndexBijection(d: Direction, k: nat)
    requires k < 3
    ensures DirectionAt(Index(d)) == d
    ensures Index(DirectionAt(k)) == k
    ensures |LabelNames| == 3 && LabelNames[Index(d)] == Name(d)
  {
    match d
    case Up =>
    case Down =>
    case Sideways =>
  }

  /** The one-hot label vector of a direction. */
  function OneHot(d: Direction): (y: Vector)
    ensures |y| == 3
    ensures forall i :: 0 <= i < 3 ==> (y[i] == 1.0 <==> i == Index(d))
    ensures forall i :: 0 <= i < 3 ==> (y[i] == 0.0 <==> i != Index(d))
    ensures Sum(y) == 1.0
  {
    var y := seq(3, i requires 0 <= i < 3 => if i == Index(d) then 1.0 else 0.0);
    SumOfThree(y);
    y
  }

  // ---------------------------------------------------------------------
  // Features

  /** Percentage change from `a` to `b`. */
  function PercentChange(a: real, b: real): real
    requires a != 0.0
  {
    (b - a) / a * 100.0
  }

  /** `min(max(x, lo), hi)`. */
  function Clamp(x: real, lo: real, hi: real): (r: real)
    requires lo <= hi
    ensures lo <= r <= hi
    ensures lo <= x <= hi ==> r == x
    ensures x < lo ==> r == lo
    ensures x > hi ==> r == hi
  {
    var m := if x > lo then x else lo;
    if m < hi then m else hi
  }

  /** One feature: the percentage move scaled by 1/5 and clamped to [-1, 1]. */
  function Feature(a: real, b: real): (f: real)
    requires a != 0.0
    ensures -1.0 <= f <= 1.0
  {
    Clamp(PercentChange(a, b) / PercentScale, -1.0, 1.0)
  }

  /** The four features of a five-price window. */
  function Normalise(prices: Vector): (features: Vector)
    requires |prices| == WindowSize
    requires forall i :: 0 <= i < FeatureCount ==> prices[i] != 0.0
    ensures |features| == FeatureCount
    ensures forall i :: 0 <= i < FeatureCount ==> -1.0 <= features[i] <= 1.0
    ensures forall i :: 0 <= i < FeatureCount ==> features[i] == Feature(prices[i], prices[i + 1])
  {
    seq(FeatureCount, i requires 0 <= i < FeatureCount => Feature(prices[i], prices[i + 1]))
  }

  /** Inside the band the clamp is invisible: a scaled move of at most 5%
      either way is the feature itself. */
  lemma FeatureUnclamped(a: real, b: real)
    requires a != 0.0
    requires -1.0 <= PercentChange(a, b) / PercentScale <= 1.0
    ensures Feature(a, b) == PercentChange(a, b) / PercentScale
  {
  }

  /** For a positive base price the feature has the sign of the move, it
      saturates at 1 exactly for moves of 5% or more, and at -1 exactly
      for drops of 5% or more. */
  lemma {:induction false} FeatureSign(a: real, b: real)
    requires a > 0.0
    ensures Feature(a, b) > 0.0 <==> b > a
    ensures Feature(a, b) == 0.0 <==> b == a
    ensures Feature(a, b) < 0.0 <==> b < a
    ensures Feature(a, b) == 1.0 <==> b >= a * 1.05
    ensures Feature(a, b) == -1.0 <==> b <= a * 0.95
  {
    var q := PercentChange(a, b) / PercentScale;
    assert q == (b - a) * 20.0 / a;
    Ratio(b - a, a);
  }

  /** Sign and size of (d * 20) / a, for a > 0. */
  lemma Ratio(d: real, a: real)
    requires a > 0.0
    ensures d * 20.0 / a > 0.0 <==> d > 0.0
    ensures d * 20.0 / a == 0.0 <==> d == 0.0
    ensures d * 20.0 / a >= 1.0 <==> d >= a * 0.05
    ensures d * 20.0 / a <= -1.0 <==> d <= -(a * 0.05)
  {
    var q := d * 20.0 / a;
    assert q * a == d * 20.0;
    QuotientBounds(q, d * 20.0, a);
  }

  lemma QuotientBounds(q: real, n: real, a: real)
    requires a > 0.0 && q * a == n
    ensures q > 0.0 <==> n > 0.0
    ensures q == 0.0 <==> n == 0.0
    ensures q >= 1.0 <==> n >= a
    ensures q <= -1.0 <==> n <= -a
  {
    QuotientSign(q, n, a);
    QuotientAtLeastOne(q, n, a);
    NegatedQuotient(q, n, a);
  }

  lemma QuotientSign(q: real, n: real, a: real)
    requires a > 0.0 && q * a == n
    ensures q > 0.0 <==> n > 0.0
    ensures q == 0.0 <==> n == 0.0
  {
    CompareScaled(q, 0.0, a);
  }

  lemma QuotientAtLeastOne(q: real, n: real, a: real)
    requires a > 0.0 && q * a == n
    ensures q >= 1.0 <==> n >= a
  {
    CompareScaled(q, 1.0, a);
  }

  lemma NegatedQuotient(q: real, n: real, a: real)
    requires a > 0.0 && q * a == n
    ensures q <= -1.0 <==> n <= -a
  {
    CompareScaled(-q, 1.0, a);
    assert (-q) * a == -n;
  }

  /** Multiplying by a positive factor preserves comparisons both ways. */
  lemma CompareScaled(q: real, c: real, a: real)
    requires a > 0.0
    ensures q >= c <==> q * a >= c * a
    ensures q <= c <==> q * a <= c * a
  {
    if q >= c {
      assert (q - c) * a >= 0.0;
    }
    if q <= c {
      assert (c - q) * a >= 0.0;
    }
  }

  /** A flat window gives all-zero features. */
  lemma FlatWindowHasZeroFeatures(prices: Vector)
    requires |prices| == WindowSize
    requires prices[0] != 0.0
    requires forall i :: 0 <= i < WindowSize ==> prices[i] == prices[0]
    ensures Normalise(prices) == Zeros(FeatureCount)
  {
  }

  // ---------------------------------------------------------------------
  // Labels

  /** Percentage change from the first to the last price of the window. */
  function TotalChange(prices: Vector): real
    requires |prices| == WindowSize && prices[0] != 0.0
  {
    PercentChange(prices[0], prices[WindowSize - 1])
  }

  /** The trend of a window: up beyond +1.5%, down beyond -1.5%, sideways
      otherwise (both thresholds themselves are sideways). */
  function Trend(prices: Vector): (d: Direction)
    requires |prices| == WindowSize && prices[0] != 0.0
    ensures d == Up <==> TotalChange(prices) > TrendThreshold
    ensures d == Down <==> TotalChange(prices) < -TrendThreshold
    ensures d == Sideways <==> -TrendThreshold <= TotalChange(prices) <= TrendThreshold
  {
    var total := TotalChange(prices);
    if total > TrendThreshold then Up
    else if total < -TrendThreshold then Down
    else Sideways
  }

  /** The training label of a window: the one-hot vector of its trend. */
  function TrendLabel(prices: Vector): (y: Vector)
    requires |prices| == WindowSize && prices[0] != 0.0
    ensures |y| == 3 && Sum(y) == 1.0
    ensures forall i :: 0 <= i < 3 ==> y[i] == 0.0 || y[i] == 1.0
    ensures y[0] == 1.0 <==> TotalChange(prices) > TrendThreshold
    ensures y[1] == 1.0 <==> TotalChange(prices) < -TrendThreshold
    ensures y[2] == 1.0 <==> -TrendThreshold <= TotalChange(prices) <= TrendThreshold
  {
    OneHot(Trend(prices))
  }

  /** A window whose prices never fall is never labelled down, and if one
      of its steps is a rise of 5% or more (a feature at the ceiling 1) it
      is labelled up. */
  lemma {:induction false} RisingWindowLabel(prices: Vector)
    requires |prices| == WindowSize
    requires forall i :: 0 <= i < WindowSize ==> prices[i] > 0.0
    requires forall i :: 0 <= i < FeatureCount ==> Normalise(prices)[i] >= 0.0
    ensures Trend(prices) != Down
    ensures (exists i :: 0 <= i < FeatureCount && Normalise(prices)[i] == 1.0) ==> Trend(prices) == Up
  {
    forall i | 0 <= i < FeatureCount
      ensures prices[i + 1] >= prices[i]
      ensures Normalise(prices)[i] == 1.0 ==> prices[i + 1] >= prices[i] * 1.05
    {
      FeatureSign(prices[i], prices[i + 1]);
    }
    var p0, p4 := prices[0], prices[4];
    assert prices[1] >= p0 && prices[2] >= prices[1] && prices[3] >= prices[2] && p4 >= prices[3];
    TotalChangeBounds(p0, p4);
    if exists i :: 0 <= i < FeatureCount && Normalise(prices)[i] == 1.0 {
      var i :| 0 <= i < FeatureCount && Normalise(prices)[i] == 1.0;
      assert prices[i + 1] >= prices[i] * 1.05;
      assert p4 >= prices[i + 1] && prices[i] >= p0;
      assert p4 >= p0 * 1.05;
    }
  }

  /** The mirror image: a window whose prices never rise is never labelled
      up, and a drop of 5% or more in one step makes it down. */
  lemma {:induction false} FallingWindowLabel(prices: Vector)
    requires |prices| == WindowSize
    requires forall i :: 0 <= i < WindowSize ==> prices[i] > 0.0
    requires forall i :: 0 <= i < FeatureCount ==> Normalise(prices)[i] <= 0.0
    ensures Trend(prices) != Up
    ensures (exists i :: 0 <= i < FeatureCount && Normalise(prices)[i] == -1.0) ==> Trend(prices) == Down
  {
    forall i | 0 <= i < FeatureCount
      ensures prices[i + 1] <= prices[i]
      ensures Normalise(prices)[i] == -1.0 ==> prices[i + 1] <= prices[i] * 0.95
    {
      FeatureSign(prices[i], prices[i + 1]);
    }
    var p0, p4 := prices[0], prices[4];
    assert prices[1] <= p0 && prices[2] <= prices[1] && prices[3] <= prices[2] && p4 <= prices[3];
    TotalChangeBounds(p0, p4);
    if exists i :: 0 <= i < FeatureCount && Normalise(prices)[i] == -1.0 {
      var i :| 0 <= i < FeatureCount && Normalise(prices)[i] == -1.0;
      assert prices[i + 1] <= prices[i] * 0.95;
      ScaleDown(prices[i], p0);
      assert p4 <= p0 * 0.95;
    }
  }

  lemma ScaleDown(a: real, b: real)
    requires a <= b
    ensures a * 0.95 <= b * 0.95
  {
  }

  /** How the end-to-end move of a positive window translates to a total
      percentage change. */
  lemma TotalChangeBounds(p0: real, p4: real)
    requires p0 > 0.0
    ensures p4 >= p0 ==> PercentChange(p0, p4) >= 0.0
    ensures p4 <= p0 ==> PercentChange(p0, p4) <= 0.0
    ensures p4 >= p0 * 1.05 ==> PercentChange(p0, p4) >= 5.0
    ensures p4 <= p0 * 0.95 ==> PercentChange(p0, p4) <= -5.0
  {
    Ratio(p4 - p0, p0);
    assert PercentChange(p0, p4) == (p4 - p0) * 20.0 / p0 * 5.0;
  }

  // ---------------------------------------------------------------------
  // Checked entry point

  /** Why a price window was refused. */
  datatype InputError = WrongLength(length: nat) | NonPositivePrice(index: nat)

  /** First position holding a non-positive price, if any. */
  function FirstNonPositive(prices: Vector, from: nat): (k: Option<nat>)
    requires from <= |prices|
    ensures k.None? <==> forall i :: from <= i < |prices| ==> prices[i] > 0.0
    ensures k.Some? ==> from <= k.value < |prices| && prices[k.value] <= 0.0
    ensures k.Some? ==> forall i :: from <= i < k.value ==> prices[i] > 0.0
    decreases |prices| - from
  {
    if from == |prices| then None
    else if prices[from] <= 0.0 then Some(from)
    else FirstNonPositive(prices, from + 1)
  }

  /** Validates a raw request window and normalises it: a window of the
      wrong length or with a non-positive price is refused with the
      violated constraint, and never reaches the network. */
  function CheckedFeatures(prices: Vector): (r: Result<Vector, InputError>)
    ensures r.Err? && r.error.WrongLength? <==> |prices| != WindowSize
    ensures r.Err? && r.error.NonPositivePrice? ==>
      r.error.index < |prices| && prices[r.error.index] <= 0.0
    ensures r.Ok? <==> |prices| == WindowSize && forall i :: 0 <= i < |prices| ==> prices[i] > 0.0
    ensures r.Ok? ==> |prices| == WindowSize && r.value == Normalise(prices)
  {
    if |prices| != WindowSize then Err(WrongLength(|prices|))
    else match FirstNonPositive(prices, 0)
      case Some(k) => Err(NonPositivePrice(k))
      case None => Ok(Normalise(prices))
  }
}
