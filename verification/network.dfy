/** The two-layer price-direction network: its weights, construction,
    forward pass and exported weight file. */
module Network {
  import opened Results
  import opened LinAlg
  import opened Activations
  import opened Features
  import opened Metrics

  /** Layer widths used for the trained model. */
  const DefaultInputSize: nat := 4
  const DefaultHiddenSize: nat := 16
  const DefaultOutputSize: nat := 3

  /** The network: its three widths and its two weight matrices and bias
      vectors. */
  datatype Model = Model(
    inputSize: nat, hiddenSize: nat, outputSize: nat,
    W1: Matrix, b1: Vector, W2: Matrix, b2: Vector)

  /** The weights have the shapes the widths announce. */
  predicate WellShaped(m: Model) {
    && IsMatrix(m.W1, m.inputSize, m.hiddenSize)
    && |m.b1| == m.hiddenSize
    && IsMatrix(m.W2, m.hiddenSize, m.outputSize)
    && |m.b2| == m.outputSize
  }

  // ---------------------------------------------------------------------
  // Construction

  /** Construction fails when a Xavier scale sqrt(2 / n) divides by a zero
      width. */
  datatype InitError = ZeroWidth

  /** A `rows` x `cols` matrix of sampled values. */
  function Sampled(rows: nat, cols: nat, draw: (nat, nat) -> real): (w: Matrix)
    ensures IsMatrix(w, rows, cols)
    ensures forall i, j :: 0 <= i < rows && 0 <= j < cols ==> w[i][j] == draw(i, j)
  {
    seq(rows, i requires 0 <= i < rows => seq(cols, j requires 0 <= j < cols => draw(i, j)))
  }

  /** A fresh model.  The random draws, already multiplied by their Xavier
      scale, are supplied as `draw1` and `draw2`; both biases start at
      zero. */
  function Init(inputSize: nat, hiddenSize: nat, outputSize: nat,
                draw1: (nat, nat) -> real, draw2: (nat, nat) -> real): (r: Result<Model, InitError>)
    ensures r.Err? <==> inputSize == 0 || hiddenSize == 0
    ensures r.Ok? ==> WellShaped(r.value)
    ensures r.Ok? ==> r.value.inputSize == inputSize && r.value.hiddenSize == hiddenSize
                      && r.value.outputSize == outputSize
    ensures r.Ok? ==> r.value.b1 == Zeros(hiddenSize) && r.value.b2 == Zeros(outputSize)
    ensures r.Ok? ==> forall i, j :: 0 <= i < inputSize && 0 <= j < hiddenSize ==>
                        r.value.W1[i][j] == draw1(i, j)
    ensures r.Ok? ==> forall i, j :: 0 <= i < hiddenSize && 0 <= j < outputSize ==>
                        r.value.W2[i][j] == draw2(i, j)
  {
    if inputSize == 0 || hiddenSize == 0 then Err(ZeroWidth)
    else Ok(Model(inputSize, hiddenSize, outputSize,
                  Sampled(inputSize, hiddenSize, draw1), Zeros(hiddenSize),
                  Sampled(hiddenSize, outputSize, draw2), Zeros(outputSize)))
  }

  /** The trained configuration always builds, takes exactly the four
      features of a window and produces one score per direction. */
  lemma DefaultModelFitsPipeline(draw1: (nat, nat) -> real, draw2: (nat, nat) -> real)
    ensures var r := Init(DefaultInputSize, DefaultHiddenSize, DefaultOutputSize, draw1, draw2);
            && r.Ok?
            && r.value.inputSize == FeatureCount
            && r.value.outputSize == |LabelNames|
            && r.value.outputSize == |OneHot(Up)|
  {
  }

  // ---------------------------------------------------------------------
  // Forward pass

  /** The intermediate values one forward pass stores on the model. */
  datatype Trace = Trace(z1: Vector, a1: Vector, z2: Vector, a2: Vector)

  /** Hidden pre-activation, ReLU, output scores and softmax for one row. */
  function Forward(exp: real -> real, m: Model, x: Vector): (t: Trace)
    requires ExpLike(exp)
    requires WellShaped(m) && m.outputSize > 0
    requires |x| == m.inputSize
    ensures t.z1 == Dense(x, m.W1, m.b1)
    ensures |t.z1| == m.hiddenSize && |t.a1| == m.hiddenSize
    ensures t.z2 == Dense(t.a1, m.W2, m.b2)
    ensures |t.z2| == m.outputSize && |t.a2| == m.outputSize
    ensures forall j :: 0 <= j < m.hiddenSize ==> t.a1[j] >= 0.0
    ensures forall j :: 0 <= j < m.hiddenSize ==> (t.a1[j] == t.z1[j] <==> t.z1[j] >= 0.0)
    ensures forall j :: 0 <= j < m.hiddenSize ==> (t.z1[j] < 0.0 ==> t.a1[j] == 0.0)
    ensures t.a2 == Softmax(exp, t.z2)
    ensures IsDistribution(t.a2)
    ensures Argmax(t.a2) == Argmax(t.z2)
  {
    var z1 := Dense(x, m.W1, m.b1);
    var a1 := ReluVec(z1);
    var z2 := Dense(a1, m.W2, m.b2);
    ArgmaxSoftmax(exp, z2);
    Trace(z1, a1, z2, Softmax(exp, z2))
  }

  /** The forward pass over a batch: row by row, since both products and
      the softmax act on the last axis. */
  function ForwardBatch(exp: real -> real, m: Model, xs: seq<Vector>): (ps: seq<Vector>)
    requires ExpLike(exp)
    requires WellShaped(m) && m.outputSize > 0
    requires forall i :: 0 <= i < |xs| ==> |xs[i]| == m.inputSize
    ensures |ps| == |xs|
    ensures forall i :: 0 <= i < |xs| ==> |ps[i]| == m.outputSize && IsDistribution(ps[i])
    ensures forall i :: 0 <= i < |xs| ==> Argmax(ps[i]) == Argmax(Forward(exp, m, xs[i]).z2)
    ensures forall i :: 0 <= i < |xs| ==> ps[i] == Forward(exp, m, xs[i]).a2
  {
    seq(|xs|, i requires 0 <= i < |xs| => Forward(exp, m, xs[i]).a2)
  }

  /** With an all-zero input the hidden pre-activation is the first bias
      and the scores depend on the biases and W2 alone. */
  lemma ZeroInputReachesBiases(exp: real -> real, m: Model)
    requires ExpLike(exp)
    requires WellShaped(m) && m.outputSize > 0
    ensures Forward(exp, m, Zeros(m.inputSize)).z1 == m.b1
    ensures Forward(exp, m, Zeros(m.inputSize)).z2 == Dense(ReluVec(m.b1), m.W2, m.b2)
  {
    DenseOfZeros(m.W1, m.b1, m.inputSize);
  }

  /** With zero biases an all-zero input gives all-zero scores, whatever
      the weight matrices hold. */
  lemma ZeroBiasesGiveZeroScores(exp: real -> real, m: Model)
    requires ExpLike(exp)
    requires WellShaped(m) && m.outputSize > 0
    requires m.b1 == Zeros(m.hiddenSize) && m.b2 == Zeros(m.outputSize)
    ensures Forward(exp, m, Zeros(m.inputSize)).z2 == Zeros(m.outputSize)
  {
    ZeroInputReachesBiases(exp, m);
    assert ReluVec(m.b1) == Zeros(m.hiddenSize);
    DenseOfZeros(m.W2, m.b2, m.hiddenSize);
  }

  /** Three equal scores give three probabilities of 1/3. */
  lemma UniformOverThree(exp: real -> real, z: Vector)
    requires ExpLike(exp)
    requires z == Zeros(3)
    ensures Softmax(exp, z) == [1.0 / 3.0, 1.0 / 3.0, 1.0 / 3.0]
  {
    SoftmaxOfEqualScores(exp, z, 0.0);
    var p := Softmax(exp, z);
    assert |p| == 3 && p[0] == 1.0 / 3.0 && p[1] == 1.0 / 3.0 && p[2] == 1.0 / 3.0;
  }

  /** A freshly built network shown a flat price window gives every
      direction probability 1/3, and numpy's first-index tie-breaking then
      reports UP with confidence 1/3, whatever the random weights. */
  lemma FreshModelOnFlatWindow(exp: real -> real, hiddenSize: nat,
                               draw1: (nat, nat) -> real, draw2: (nat, nat) -> real,
                               prices: Vector)
    requires ExpLike(exp)
    requires hiddenSize > 0
    requires |prices| == WindowSize && prices[0] > 0.0
    requires forall i :: 0 <= i < WindowSize ==> prices[i] == prices[0]
    ensures var r := Init(FeatureCount, hiddenSize, 3, draw1, draw2);
            && r.Ok?
            && Forward(exp, r.value, Normalise(prices)).a2 == [1.0 / 3.0, 1.0 / 3.0, 1.0 / 3.0]
            && Classify(Forward(exp, r.value, Normalise(prices)).a2) == Prediction(Up, 1.0 / 3.0)
  {
    var m := Init(FeatureCount, hiddenSize, 3, draw1, draw2).value;
    FlatWindowHasZeroFeatures(prices);
    FreshModelOnZeroInput(exp, m);
    ClassifyUniform();
  }

  /** A model with zero biases and three outputs gives every direction
      probability 1/3 on an all-zero input. */
  lemma FreshModelOnZeroInput(exp: real -> real, m: Model)
    requires ExpLike(exp)
    requires WellShaped(m) && m.outputSize == 3
    requires m.b1 == Zeros(m.hiddenSize) && m.b2 == Zeros(m.outputSize)
    ensures Forward(exp, m, Zeros(m.inputSize)).a2 == [1.0 / 3.0, 1.0 / 3.0, 1.0 / 3.0]
  {
    ZeroBiasesGiveZeroScores(exp, m);
    UniformOverThree(exp, Forward(exp, m, Zeros(m.inputSize)).z2);
  }

  /** Three equal probabilities are read as UP, by first-index
      tie-breaking, with confidence 1/3. */
  lemma ClassifyUniform()
    ensures Classify([1.0 / 3.0, 1.0 / 3.0, 1.0 / 3.0]) == Prediction(Up, 1.0 / 3.0)
  {
    ArgmaxUnique([1.0 / 3.0, 1.0 / 3.0, 1.0 / 3.0], 0);
  }

  // ---------------------------------------------------------------------
  // Exported weight file

  /** The `architecture` block of the weight file. */
  datatype Architecture = Architecture(
    inputSize: nat, hiddenSize: nat, outputSize: nat,
    activation: string, outputActivation: string)

  /** The weight file: name, version, architecture, the four weight arrays
      as nested lists, and the label names in output order. */
  datatype WeightFile = WeightFile(
    model: string, version: string, architecture: Architecture,
    W1: Matrix, b1: Vector, W2: Matrix, b2: Vector,
    labels: seq<string>)

  /** The weight file written for a model. */
  function Export(m: Model): (f: WeightFile)
    ensures f.architecture.inputSize == m.inputSize
    ensures f.architecture.hiddenSize == m.hiddenSize
    ensures f.architecture.outputSize == m.outputSize
    ensures |f.labels| == 3
    ensures forall d: Direction :: f.labels[Argmax(OneHot(d))] == Name(d)
  {
    forall d: Direction
      ensures LabelNames[Argmax(OneHot(d))] == Name(d)
    {
      ArgmaxOneHot(d);
      IndexBijection(d, 0);
    }
    WeightFile("price-predictor", "1.0.0",
               Architecture(m.inputSize, m.hiddenSize, m.outputSize, "relu", "softmax"),
               m.W1, m.b1, m.W2, m.b2, LabelNames)
  }

  /** Which array of a weight file disagrees with its architecture. */
  datatype LoadError = BadW1 | BadB1 | BadW2 | BadB2

  /** Reads a model back from a weight file, refusing any array whose shape
      disagrees with the announced architecture. */
  function Load(f: WeightFile): (r: Result<Model, LoadError>)
    ensures r.Ok? ==> WellShaped(r.value)
    ensures r.Ok? ==> r.value.inputSize == f.architecture.inputSize
                      && r.value.hiddenSize == f.architecture.hiddenSize
                      && r.value.outputSize == f.architecture.outputSize
    ensures r.Err? <==> !WellShaped(Model(f.architecture.inputSize, f.architecture.hiddenSize,
                                          f.architecture.outputSize, f.W1, f.b1, f.W2, f.b2))
    ensures r == Err(BadW1) ==> !IsMatrix(f.W1, f.architecture.inputSize, f.architecture.hiddenSize)
    ensures r == Err(BadB1) ==> |f.b1| != f.architecture.hiddenSize
    ensures r == Err(BadW2) ==> !IsMatrix(f.W2, f.architecture.hiddenSize, f.architecture.outputSize)
    ensures r == Err(BadB2) ==> |f.b2| != f.architecture.outputSize
  {
    var a := f.architecture;
    if !IsMatrix(f.W1, a.inputSize, a.hiddenSize) then Err(BadW1)
    else if |f.b1| != a.hiddenSize then Err(BadB1)
    else if !IsMatrix(f.W2, a.hiddenSize, a.outputSize) then Err(BadW2)
    else if |f.b2| != a.outputSize then Err(BadB2)
    else Ok(Model(a.inputSize, a.hiddenSize, a.outputSize, f.W1, f.b1, f.W2, f.b2))
  }

  /** Exporting and reading back gives the same model for every well-shaped
      model, and a model of the wrong shape is refused. */
  lemma ExportLoadRoundTrip(m: Model)
    ensures WellShaped(m) ==> Load(Export(m)) == Ok(m)
    ensures !WellShaped(m) ==> Load(Export(m)).Err?
  {
  }
}
