# Price-direction predictor in Dafny

A model of the deterministic core of the cauldron-oracle price predictor
(`models/price_predictor/train.py`). The core covers these steps:

- A window of five prices becomes four features: the percentage change
  between consecutive prices, divided by 5 and clamped to [-1, 1].
- The window's overall percentage change becomes a one-hot UP / DOWN /
  SIDEWAYS label, using strict thresholds of +/-1.5.
- A two-layer network maps the four features to three class
  probabilities. It applies a dense layer, then ReLU, then a second dense
  layer, then a max-shifted softmax.
- `np.argmax` reads predictions and labels back, and accuracy scores a
  batch.
- A fresh network has weight arrays of fixed shapes, and the exported
  weight file lists the labels in output order.

Numbers are exact `real`s, an idealisation of numpy's float64. Vectors
are `seq<real>` and matrices are `seq<seq<real>>`. Sums run in
ascending index order.

Dafny has no exponential. Every softmax therefore takes `exp: real -> real`
as a parameter. The parameter must satisfy `Activations.ExpLike`:
positive everywhere and strictly increasing. The mathematical exponential
is such a function, so the softmax properties below hold for it.
`SoftmaxShiftInvariant` additionally needs the law
exp(a) == exp(a - c) * exp(c) at the scores, which the mathematical
exponential also obeys. Floating-point `np.exp` is not such a function: it
underflows to 0.0 for arguments below about -745, and a probability can
then be exactly 0.

Modules:

- `Results`: the `Option` and `Result` types.
- `LinAlg`: shapes, `Sum`, `Dot`, `Dense`, `Max` and facts about sums.
- `Activations`: ReLU and its derivative, plus softmax.
- `Features`: the window features, the trend label and the direction
  encodings.
- `Metrics`: argmax, accuracy, and the label and confidence of one
  prediction.
- `Network`: the weights, construction, the forward pass, and the weight
  file.

`train.py` itself never validates a window. It always builds exactly five
prices, starting from 100. `Features.CheckedFeatures` follows the
documented inference contract instead. It refuses a window of the wrong
length or one with a non-positive price, and names the violated
constraint. The plain `Features.Normalise` states only what the arithmetic
needs: five prices, with non-zero divisors.

`train.py` also has no loader. `Network.Load` is the inverse of
`export_weights`, and it validates each array's shape against the
announced architecture.

## Model

| member | source | states |
|---|---|---|
| Features.Normalise | models/price_predictor/train.py:132-135 | five prices give exactly four features, feature i comes from prices i and i+1, and every feature lies in [-1, 1] |
| Features.Clamp | models/price_predictor/train.py:135 | `min(max(x, lo), hi)` lies in [lo, hi], is x inside the range, lo below it, and hi above it |
| Features.FeatureUnclamped | models/price_predictor/train.py:135 | a scaled move already in [-1, 1] passes through the clamp unchanged |
| Features.FeatureSign | models/price_predictor/train.py:132-135 | for a positive base price, a feature is positive, zero or negative exactly when the price rises, stays or falls; it is 1 exactly for rises of 5% or more and -1 exactly for drops of 5% or more |
| Features.FlatWindowHasZeroFeatures | models/price_predictor/train.py:132-135 | a constant window gives four zero features |
| Features.CheckedFeatures | models/price_predictor/train.py:132-135 | a window of the wrong length is refused as such; a non-positive price is refused with its position; otherwise the result is the four features |
| Features.Trend | models/price_predictor/train.py:138-145 | UP iff the total change is > 1.5, DOWN iff it is < -1.5, SIDEWAYS iff it lies in [-1.5, 1.5], so both thresholds themselves are SIDEWAYS |
| Features.TrendLabel | models/price_predictor/train.py:138-145 | the label has three 0/1 entries summing to 1 (one-hot); entry 0, 1 or 2 is set exactly under the UP, DOWN or SIDEWAYS condition |
| Features.OneHot | models/price_predictor/train.py:141-145 | the label vector of a direction has a 1 exactly at that direction's position and 0 elsewhere |
| Features.IndexBijection | models/price_predictor/train.py:99 | positions 0, 1, 2 and UP, DOWN, SIDEWAYS correspond one to one, and the label list names each direction at its own position |
| Features.RisingWindowLabel | models/price_predictor/train.py:132-145 | a positive window whose features are all non-negative is never labelled DOWN, and if one feature is 1 it is labelled UP |
| Features.FallingWindowLabel | models/price_predictor/train.py:132-145 | a positive window whose features are all non-positive is never labelled UP, and if one feature is -1 it is labelled DOWN |
| Activations.Relu | models/price_predictor/train.py:30-31 | ReLU is non-negative, at least its input, and either the input or 0 |
| Activations.ReluCharacterisation | models/price_predictor/train.py:30-31 | ReLU is the identity on x >= 0 and 0 on x < 0; Relu(x) - Relu(-x) == x; ReLU is idempotent |
| Activations.ReluVec | models/price_predictor/train.py:30-31 | entrywise ReLU keeps the length and applies ReLU at every position |
| Activations.ReluDerivative | models/price_predictor/train.py:33-34 | the derivative is 1 exactly where x > 0 and 0 exactly where x <= 0 (so 0 at the kink), and Relu(x) == derivative * x |
| Activations.ReluDerivativeVec | models/price_predictor/train.py:33-34 | the entrywise derivative keeps the length and applies the derivative at every position |
| LinAlg.Max | models/price_predictor/train.py:37 | `np.max` returns an entry of the vector that no entry exceeds |
| Activations.Shifted | models/price_predictor/train.py:37 | after subtracting the maximum, every score is <= 0, at least one is 0, and a score is 0 exactly where the input is maximal |
| Activations.Normalised | models/price_predictor/train.py:38 | dividing a positive vector by its total gives entries in (0, 1] that sum to 1 |
| Activations.NormalisedOrder | models/price_predictor/train.py:38 | dividing by the total preserves the order of entries both ways: smaller stays smaller and equal stays equal |
| Activations.NormalisedScaled | models/price_predictor/train.py:38 | multiplying every entry by a common positive factor does not change the normalised vector |
| Activations.Softmax | models/price_predictor/train.py:36-38 | softmax keeps the length, and every output lies in (0, 1] with the outputs summing to 1 |
| Activations.SoftmaxShiftInvariant | models/price_predictor/train.py:36-38 | for an exponential with exp(a) == exp(a - c) * exp(c), subtracting the maximum does not change the result: the shifted softmax equals the textbook one |
| Activations.SoftmaxOrder | models/price_predictor/train.py:36-38 | softmax preserves the order of scores both ways: strictly smaller stays strictly smaller, and equal stays equal |
| Activations.SoftmaxOfEqualScores | models/price_predictor/train.py:36-38 | n equal scores give probability 1/n each |
| LinAlg.Dense | models/price_predictor/train.py:42-44 | `np.dot(x, W) + b` with W of shape len(x) x len(b) has one entry per bias |
| LinAlg.DenseIsRowCombination | models/price_predictor/train.py:42-44 | for every x, W and b, `np.dot(x, W) + b` equals the bias plus x[0] * W[0] + ... + x[n-1] * W[n-1], the rows of W weighted by the entries of x |
| LinAlg.RowCombinationEntries | models/price_predictor/train.py:42-44 | entry j of the weighted sum of W's rows is the inner product of x with column j of W |
| LinAlg.DenseOfZeros | models/price_predictor/train.py:42-44 | a dense layer fed the zero vector returns its bias exactly |
| Metrics.Argmax | models/price_predictor/train.py:77-78 | argmax returns the position of a maximal entry, and every earlier entry is strictly smaller, so ties go to the first position as in numpy |
| Metrics.ArgmaxUnique | models/price_predictor/train.py:77-78 | any position that is maximal and has only strictly smaller entries before it is the argmax |
| Metrics.ArgmaxOneHot | models/price_predictor/train.py:78 | the argmax of a one-hot label is its direction's position |
| Metrics.LabelArgmaxIsTrend | models/price_predictor/train.py:172-176 | argmax of a window's training label gives back its trend's position, and the label list names that trend |
| Metrics.ArgmaxSoftmax | models/price_predictor/train.py:36-38 | the argmax of the softmax probabilities is the argmax of the raw scores |
| Metrics.Matches | models/price_predictor/train.py:79 | the result is the number of positions among the first n whose predicted and true argmaxes agree; hence it is at most n, equals n iff every row agrees and is 0 iff no row does |
| Metrics.Accuracy | models/price_predictor/train.py:75-79 | an empty batch has no accuracy (numpy gives NaN); otherwise accuracy is the number of rows whose argmaxes agree divided by the number of rows, lies in [0, 1], is 1 iff every row agrees, and is 0 iff none does |
| Metrics.AccuracyOfLabelsAgainstThemselves | models/price_predictor/train.py:75-79 | a batch of one-hot labels scored against itself has accuracy 1 |
| Metrics.Classify | models/price_predictor/train.py:222-227 | the printed label is the direction at the argmax, and the printed confidence is an entry that no probability exceeds |
| Metrics.ConfidenceAtLeastThird | models/price_predictor/train.py:227 | for a three-way probability distribution the printed confidence is at least 1/3 |
| Network.Init | models/price_predictor/train.py:19-28 | construction fails iff the input or hidden width is 0; otherwise W1 is input x hidden and W2 is hidden x output, both filled with the draws, and b1 and b2 are zero vectors of hidden and output length |
| Network.DefaultModelFitsPipeline | models/price_predictor/train.py:179 | the 4-16-3 configuration always builds, takes the four window features and has one output per label |
| Network.Forward | models/price_predictor/train.py:40-46 | z1 is `np.dot(x, W1) + b1` and z2 is `np.dot(a1, W2) + b2`; z1 and a1 have hidden length; z2 and a2 have output length; a1 is non-negative, equals z1 exactly where z1 >= 0 and is 0 where z1 < 0; a2 is the softmax of z2, a probability distribution whose argmax is the argmax of z2 |
| Network.ForwardBatch | models/price_predictor/train.py:40-46 | a batch gives one probability row per input row, and row i is the forward pass's softmax output for input row i; each is a distribution of output length predicting the argmax of that row's scores |
| Network.ZeroInputReachesBiases | models/price_predictor/train.py:42-44 | on an all-zero input, z1 equals b1, and z2 depends only on b1, W2 and b2 |
| Network.ZeroBiasesGiveZeroScores | models/price_predictor/train.py:42-44 | with zero biases, an all-zero input gives all-zero scores whatever the weights |
| Network.UniformOverThree | models/price_predictor/train.py:36-38 | three zero scores give probabilities (1/3, 1/3, 1/3) |
| Network.FreshModelOnZeroInput | models/price_predictor/train.py:19-46 | a network with zero biases and three outputs assigns probability 1/3 to every direction on an all-zero input, whatever its weights |
| Network.ClassifyUniform | models/price_predictor/train.py:222-227 | three equal probabilities are reported as UP, by first-index tie-breaking, with confidence 1/3 |
| Network.FreshModelOnFlatWindow | models/price_predictor/train.py:19-46 | a freshly built 4-h-3 network on a flat window outputs (1/3, 1/3, 1/3) and, by first-index tie-breaking, predicts UP with confidence 1/3, whatever the random weights |
| Network.Export | models/price_predictor/train.py:81-100 | the weight file records the three widths, and its label list holds three names, each direction's name at that direction's one-hot position |
| Network.Load | models/price_predictor/train.py:93-99 | reading a weight file succeeds iff all four arrays have the shapes its architecture announces; a success is well shaped with those widths; each error names an array whose shape is wrong |
| Network.ExportLoadRoundTrip | models/price_predictor/train.py:81-100 | reading back the file of a well-shaped model gives the same model; the file of a badly shaped model is refused |

## Left out

- `backward` (gradient descent, train.py:48-67) and the training loop (train.py:153-230) are left out. They are iterative floating-point optimisation. Their only stated facts are shapes, and the derivative they use is modelled as `ReluDerivative`.
- `compute_loss` (train.py:69-73) is left out. It relies on `log` and epsilon clipping, which have no counterpart over exact reals.
- Random numbers are left out: Xavier draws, data synthesis and shuffling (train.py:25-27, 122-128, 186, 221). `Network.Init` takes the scaled draws as parameters, and only their placement and the resulting shapes are modelled.
- Network.Init: it does not model the value of the Xavier scale sqrt(2 / n), because Dafny has no square root on reals. Only the division by a zero width, which Python raises as ZeroDivisionError, is modelled.
- Printing, the JSON file write and argparse (train.py:102-105, 156-228, 233-241) are left out as I/O. `Network.Export` models the content of the written JSON object, not its text.
- IEEE-754 behaviour is left out: rounding, summation-order effects, overflow, underflow, NaN and infinities. A zero price followed by a non-zero one gives an infinite change, which the clamp turns into +/-1. Two consecutive zero prices give 0/0 = NaN, and the clamp `min(max(nan, -1), 1)` (train.py:135) keeps NaN, because Python's `max` and `min` return their first argument when every comparison with NaN is false. The model instead requires non-zero divisors.
- Activations.Softmax: it does not model the overflow that the max shift prevents. Over exact reals there is none. Its effect is stated instead by `SoftmaxShiftInvariant`.
- Negative layer widths are left out. Widths are `nat`; numpy would reject negative dimensions.
- Metrics.Accuracy: batches of different lengths are excluded by precondition. numpy raises an error for most of them, but when one side has a single row it broadcasts that row against the other batch and returns a number. Every call in train.py (lines 195, 204, 210) passes batches of equal length.
- Empty score rows are left out. `np.max` raises ValueError on an empty row (train.py:37), and `np.argmax` raises on one too. So `LinAlg.Max`, `Activations.Softmax`, `Metrics.Argmax` and `Network.Forward` (through `outputSize > 0`) require a non-empty row.
- The on-chain/off-chain invocation routing and the binary result codec are not part of this model. They live in other files of the repository.
