/** The four regression models of the housing-price demo, as the layer
    stacks they hand to the tensor library. Each factory builds a sequential
    model of dense layers; only the first layer names the input width, the
    later ones take it from the layer before. */
module RegressionModels {
  import opened Wrappers

  /** The `activation` option of a dense layer; leaving it out gives the
      library's identity activation. */
  datatype Activation = NoActivation | Sigmoid

  /** The `kernelInitializer` option; leaving it out gives the library's
      default. */
  datatype Initializer = DefaultInitializer | LeCunNormal

  /** A dense layer: its width, activation, initializer and, for the first
      layer only, the declared input width (`inputShape`). */
  datatype Layer = Dense(units: nat, activation: Activation, initializer: Initializer, inputWidth: Option<nat>)

  /** The width of every hidden layer of the demo. */
  const HiddenUnits: nat := 50

  /** The shape every factory promises: the first layer declares
      `numFeatures` inputs, no later layer declares one, and the last layer
      is a single plain output unit producing the predicted price. */
  ghost predicate RegressionStack(m: seq<Layer>, numFeatures: nat) {
    && |m| >= 1
    && m[0].inputWidth == Some(numFeatures)
    && (forall i :: 1 <= i < |m| ==> m[i].inputWidth.None?)
    && m[|m| - 1].units == 1
    && m[|m| - 1].activation == NoActivation
    && m[|m| - 1].initializer == DefaultInitializer
  }

  /** The layers before the output layer. */
  function HiddenLayers(m: seq<Layer>): seq<Layer>
    requires |m| >= 1
  {
    m[..|m| - 1]
  }

  /** Every hidden layer has 50 units, the given activation and the LeCun
      normal initializer. */
  ghost predicate HiddenAre(m: seq<Layer>, act: Activation)
    requires |m| >= 1
  {
    forall l :: l in HiddenLayers(m) ==>
      l.units == HiddenUnits && l.activation == act && l.initializer == LeCunNormal
  }

  /** The number of trainable parameters of a dense stack fed `inWidth`
      inputs: a kernel of `inWidth * units` weights plus `units` biases per
      layer, each layer feeding the next. */
  function ParamCount(m: seq<Layer>, inWidth: nat): nat {
    if |m| == 0 then 0
    else (inWidth + 1) * m[0].units + ParamCount(m[1..], m[0].units)
  }

  /** `linearRegressionModel`: a single output unit, no hidden layer. */
  function LinearRegressionModel(numFeatures: nat): (m: seq<Layer>)
    ensures RegressionStack(m, numFeatures)
    ensures |m| == 1
  {
    [Dense(1, NoActivation, DefaultInitializer, Some(numFeatures))]
  }

  /** `multiLayerPerceptronRegressionModel1Hidden`: one sigmoid hidden
      layer of 50 units. */
  function Perceptron1Hidden(numFeatures: nat): (m: seq<Layer>)
    ensures RegressionStack(m, numFeatures)
    ensures |m| == 2 && HiddenAre(m, Sigmoid)
  {
    [Dense(HiddenUnits, Sigmoid, LeCunNormal, Some(numFeatures)),
     Dense(1, NoActivation, DefaultInitializer, None)]
  }

  /** `multiLayerPerceptronRegressionModel2Hidden`: two sigmoid hidden
      layers of 50 units. */
  function Perceptron2Hidden(numFeatures: nat): (m: seq<Layer>)
    ensures RegressionStack(m, numFeatures)
    ensures |m| == 3 && HiddenAre(m, Sigmoid)
  {
    [Dense(HiddenUnits, Sigmoid, LeCunNormal, Some(numFeatures)),
     Dense(HiddenUnits, Sigmoid, LeCunNormal, None),
     Dense(1, NoActivation, DefaultInitializer, None)]
  }

  /** `multiLayerPerceptronRegressionModel1HiddenNoSigmoid`: one hidden
      layer of 50 units with the activation left out. The code builds one
      hidden layer, although its doc comment speaks of two. */
  function Perceptron1HiddenNoSigmoid(numFeatures: nat): (m: seq<Layer>)
    ensures RegressionStack(m, numFeatures)
    ensures |m| == 2 && HiddenAre(m, NoActivation)
  {
    [Dense(HiddenUnits, NoActivation, LeCunNormal, Some(numFeatures)),
     Dense(1, NoActivation, DefaultInitializer, None)]
  }

  /** The no-sigmoid variant is the one-hidden-layer model with only the
      hidden activation switched off. */
  lemma NoSigmoidDiffersOnlyInActivation(numFeatures: nat)
    ensures |Perceptron1HiddenNoSigmoid(numFeatures)| == |Perceptron1Hidden(numFeatures)|
    ensures Perceptron1HiddenNoSigmoid(numFeatures)[0]
         == Perceptron1Hidden(numFeatures)[0].(activation := NoActivation)
    ensures Perceptron1HiddenNoSigmoid(numFeatures)[1..] == Perceptron1Hidden(numFeatures)[1..]
  {
  }

  /** The two-hidden-layer model is the one-hidden-layer model with one more
      identical hidden layer inserted before the output. */
  lemma TwoHiddenExtendsOneHidden(numFeatures: nat)
    ensures Perceptron2Hidden(numFeatures)
         == Perceptron1Hidden(numFeatures)[..1]
          + [Dense(HiddenUnits, Sigmoid, LeCunNormal, None)]
          + Perceptron1Hidden(numFeatures)[1..]
  {
  }

  /** The parameter counts the summary of each model reports. */
  lemma ParamCounts(numFeatures: nat)
    ensures ParamCount(LinearRegressionModel(numFeatures), numFeatures) == numFeatures + 1
    ensures ParamCount(Perceptron1Hidden(numFeatures), numFeatures) == 50 * numFeatures + 101
    ensures ParamCount(Perceptron2Hidden(numFeatures), numFeatures) == 50 * numFeatures + 2651
    ensures ParamCount(Perceptron1HiddenNoSigmoid(numFeatures), numFeatures) == 50 * numFeatures + 101
  {
    var out := [Dense(1, NoActivation, DefaultInitializer, None)];
    assert ParamCount(out, HiddenUnits) == 51 by {
      assert out[1..] == [];
    }
    assert LinearRegressionModel(numFeatures)[1..] == [];
    assert Perceptron1Hidden(numFeatures)[1..] == out;
    assert Perceptron1HiddenNoSigmoid(numFeatures)[1..] == out;
    var tail2 := Perceptron2Hidden(numFeatures)[1..];
    assert tail2[1..] == out;
    assert ParamCount(tail2, HiddenUnits) == 51 * 50 + 51;
  }
}
