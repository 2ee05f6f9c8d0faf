/**
 * The fully-connected layer: forward pass, error backpropagation and
 * gradient accumulation (each with and without a dropout mask), the
 * shadow-weights switch between training and testing, and its saved record.
 */
module FullyConnected {
  import opened Wrappers
  import opened Arith
  import opened Streams
  import opened Tensors
  import Activations
  import opened Dropout
  import opened Weighted

  // ---------------------------------------------------------------------------
  // Specification: matrices are row-major sequences with n columns.

  /** Entry (i, j) of a row-major matrix with n columns, or 0 outside it. */
  function Entry(m: seq<real>, n: nat, i: int, j: int): real
  {
    if 0 <= i && 0 <= j < n && i * n + j < |m| then m[i * n + j] else 0.0
  }

  /** Whether neuron i takes part: every neuron when there is no mask, else the mask's flag. */
  function Kept(mask: Option<seq<bool>>, i: int): bool
  {
    mask.None? || (0 <= i < |mask.value| && mask.value[i])
  }

  /** The flags of a mask, or None for a null mask. */
  function MaskOf(mask: DropoutMask?): Option<seq<bool>>
    reads mask, if mask == null then {} else {mask.mask}
  {
    if mask == null then None else Some(mask.mask[..])
  }

  /** Σ_{j<upto} x[j]·W[i][j]. */
  function PartialInput(weights: seq<real>, n: nat, x: seq<real>, i: int, upto: int): real
  {
    Sum(0, upto, j => At(x, j) * Entry(weights, n, i, j))
  }

  /** Output of neuron i: its bias plus its weighted input, or 0 when the neuron is dropped. */
  function NeuronOutput(weights: seq<real>, biases: seq<real>, n: nat, x: seq<real>, mask: Option<seq<bool>>, i: int): real
  {
    if Kept(mask, i) then At(biases, i) + PartialInput(weights, n, x, i, n) else 0.0
  }

  /** The forward pass of m neurons over n inputs. */
  function Forward(weights: seq<real>, biases: seq<real>, n: nat, x: seq<real>, mask: Option<seq<bool>>, m: nat): (r: seq<real>)
    ensures |r| == m
  {
    seq(m, i => NeuronOutput(weights, biases, n, x, mask, i))
  }

  /** Σ_{i<upto, i kept} W[i][j]·err[i]. */
  function PartialError(weights: seq<real>, n: nat, err: seq<real>, mask: Option<seq<bool>>, j: int, upto: int): real
  {
    Sum(0, upto, i => if Kept(mask, i) then Entry(weights, n, i, j) * At(err, i) else 0.0)
  }

  /** The error passed back to the n inputs from m neurons. */
  function Backward(weights: seq<real>, n: nat, err: seq<real>, mask: Option<seq<bool>>, m: nat): (r: seq<real>)
    ensures |r| == n
  {
    seq(n, j => PartialError(weights, n, err, mask, j, m))
  }

  /** Bias gradients: kept neurons add their delta, dropped ones are unchanged. */
  function AccumulateBiases(nablaB: seq<real>, delta: seq<real>, mask: Option<seq<bool>>): (r: seq<real>)
    ensures |r| == |nablaB|
  {
    seq(|nablaB|, i requires 0 <= i < |nablaB| => if Kept(mask, i) then nablaB[i] + At(delta, i) else nablaB[i])
  }

  /** Weight gradients: row i of a kept neuron gains delta[i]·a[j]; rows of dropped neurons are unchanged. */
  function AccumulateWeights(nablaW: seq<real>, delta: seq<real>, a: seq<real>, mask: Option<seq<bool>>): (r: seq<real>)
    ensures |r| == |nablaW|
  {
    var n := |a|;
    seq(|nablaW|, k requires 0 <= k < |nablaW| =>
      if n > 0 && Kept(mask, RowOf(k, n)) then nablaW[k] + At(delta, RowOf(k, n)) * a[ColumnOf(k, n)] else nablaW[k])
  }

  lemma PartialInputStep(weights: seq<real>, n: nat, x: seq<real>, i: int, upto: nat)
    ensures PartialInput(weights, n, x, i, upto + 1) == PartialInput(weights, n, x, i, upto) + At(x, upto) * Entry(weights, n, i, upto)
  {
  }

  lemma PartialErrorStep(weights: seq<real>, n: nat, err: seq<real>, mask: Option<seq<bool>>, j: int, upto: nat)
    ensures PartialError(weights, n, err, mask, j, upto + 1) ==
      PartialError(weights, n, err, mask, j, upto) + (if Kept(mask, upto) then Entry(weights, n, upto, j) * At(err, upto) else 0.0)
  {
  }

  /** One more kept neuron i adds W[i][j]·err[i] to the error passed back to input j. */
  lemma BackwardStepAt(weights: seq<real>, n: nat, err: seq<real>, mask: Option<seq<bool>>, j: nat, i: nat, m: nat)
    requires i < m && j < n && |weights| == m * n && i < |err| && Kept(mask, i)
    ensures i * n + j < |weights|
    ensures Backward(weights, n, err, mask, i + 1)[j] == Backward(weights, n, err, mask, i)[j] + weights[i * n + j] * err[i]
  {
    MulAddBound(i, j, m, n);
    PartialErrorStep(weights, n, err, mask, j, i);
  }

  // ---------------------------------------------------------------------------
  // Properties of the specification.

  /** The product that both sides of the transpose identity sum: x[j]·W[i][j]·err[i] for kept i. */
  function TransposeTerm(weights: seq<real>, n: nat, x: seq<real>, err: seq<real>, mask: Option<seq<bool>>, i: int, j: int): real
  {
    if Kept(mask, i) then At(x, j) * (Entry(weights, n, i, j) * At(err, i)) else 0.0
  }

  lemma ScaledErrorAsSum(weights: seq<real>, n: nat, x: seq<real>, err: seq<real>, mask: Option<seq<bool>>, m: nat, j: int,
                         f: (int, int) -> real)
    requires forall i, j' :: f(i, j') == TransposeTerm(weights, n, x, err, mask, i, j')
    ensures At(x, j) * PartialError(weights, n, err, mask, j, m) == Sum(0, m, i => f(i, j))
  {
    var g := i => if Kept(mask, i) then Entry(weights, n, i, j) * At(err, i) else 0.0;
    PartialErrorScaled(weights, n, x, err, mask, m, j, g);
    ErrorTermsScaled(weights, n, x, err, mask, m, j, f, g);
  }

  /** Scaling input j's partial error scales each of its terms. */
  lemma PartialErrorScaled(weights: seq<real>, n: nat, x: seq<real>, err: seq<real>, mask: Option<seq<bool>>, m: nat, j: int,
                           g: int -> real)
    requires g == (i => if Kept(mask, i) then Entry(weights, n, i, j) * At(err, i) else 0.0)
    ensures At(x, j) * PartialError(weights, n, err, mask, j, m) == Sum(0, m, i => At(x, j) * g(i))
  {
    assert PartialError(weights, n, err, mask, j, m) == Sum(0, m, g);
    SumScale(0, m, At(x, j), g);
  }

  /** Input j's transpose terms are its value times the kept neurons' weighted errors. */
  lemma ErrorTermsScaled(weights: seq<real>, n: nat, x: seq<real>, err: seq<real>, mask: Option<seq<bool>>, m: nat, j: int,
                         f: (int, int) -> real, g: int -> real)
    requires forall i, j' :: f(i, j') == TransposeTerm(weights, n, x, err, mask, i, j')
    requires forall i :: g(i) == if Kept(mask, i) then Entry(weights, n, i, j) * At(err, i) else 0.0
    ensures Sum(0, m, i => At(x, j) * g(i)) == Sum(0, m, i => f(i, j))
  {
    forall i | 0 <= i < m
      ensures At(x, j) * g(i) == f(i, j)
    {
      if !Kept(mask, i) {
        assert g(i) == 0.0;
      }
    }
    SumExt(0, m, i => At(x, j) * g(i), i => f(i, j));
  }

  lemma BackwardSideAsDoubleSum(weights: seq<real>, n: nat, x: seq<real>, err: seq<real>, mask: Option<seq<bool>>, m: nat,
                                f: (int, int) -> real)
    requires forall i, j :: f(i, j) == TransposeTerm(weights, n, x, err, mask, i, j)
    ensures Sum(0, n, j => At(x, j) * PartialError(weights, n, err, mask, j, m)) == Sum(0, n, j => Sum(0, m, i => f(i, j)))
  {
    forall j | 0 <= j < n
      ensures At(x, j) * PartialError(weights, n, err, mask, j, m) == Sum(0, m, i => f(i, j))
    {
      ScaledErrorAsSum(weights, n, x, err, mask, m, j, f);
    }
    SumExt(0, n, j => At(x, j) * PartialError(weights, n, err, mask, j, m), j => Sum(0, m, i => f(i, j)));
  }

  lemma ScaledInputAsSum(weights: seq<real>, n: nat, x: seq<real>, err: seq<real>, mask: Option<seq<bool>>, i: int,
                         f: (int, int) -> real)
    requires forall i', j :: f(i', j) == TransposeTerm(weights, n, x, err, mask, i', j)
    ensures (if Kept(mask, i) then At(err, i) * PartialInput(weights, n, x, i, n) else 0.0) == Sum(0, n, j => f(i, j))
  {
    if Kept(mask, i) {
      var e, g := At(err, i), j => At(x, j) * Entry(weights, n, i, j);
      assert PartialInput(weights, n, x, i, n) == Sum(0, n, g);
      SumScale(0, n, e, g);
      KeptTermsScaled(weights, n, x, err, mask, i, f, g);
    } else {
      SumZero(0, n, j => f(i, j));
    }
  }

  /** A kept neuron's transpose terms are its error times its weighted inputs. */
  lemma KeptTermsScaled(weights: seq<real>, n: nat, x: seq<real>, err: seq<real>, mask: Option<seq<bool>>, i: int,
                        f: (int, int) -> real, g: int -> real)
    requires Kept(mask, i)
    requires forall i', j :: f(i', j) == TransposeTerm(weights, n, x, err, mask, i', j)
    requires forall j :: g(j) == At(x, j) * Entry(weights, n, i, j)
    ensures Sum(0, n, j => At(err, i) * g(j)) == Sum(0, n, j => f(i, j))
  {
    forall j | 0 <= j < n
      ensures At(err, i) * g(j) == f(i, j)
    {
      RealMulRotate(At(err, i), At(x, j), Entry(weights, n, i, j));
    }
    SumExt(0, n, j => At(err, i) * g(j), j => f(i, j));
  }

  lemma ForwardSideAsDoubleSum(weights: seq<real>, n: nat, x: seq<real>, err: seq<real>, mask: Option<seq<bool>>, m: nat,
                               f: (int, int) -> real)
    requires forall i, j :: f(i, j) == TransposeTerm(weights, n, x, err, mask, i, j)
    ensures Sum(0, m, i => if Kept(mask, i) then At(err, i) * PartialInput(weights, n, x, i, n) else 0.0) ==
      Sum(0, m, i => Sum(0, n, j => f(i, j)))
  {
    forall i | 0 <= i < m
      ensures (if Kept(mask, i) then At(err, i) * PartialInput(weights, n, x, i, n) else 0.0) == Sum(0, n, j => f(i, j))
    {
      ScaledInputAsSum(weights, n, x, err, mask, i, f);
    }
    SumExt(0, m, i => if Kept(mask, i) then At(err, i) * PartialInput(weights, n, x, i, n) else 0.0,
                 i => Sum(0, n, j => f(i, j)));
  }

  /**
   * Backpropagation is the transpose of the forward pass: for any input x and
   * error e, Σ_j x[j]·(error passed back to j) equals Σ_{i kept} e[i]·(weighted input of i).
   */
  lemma BackwardIsTransposeOfForward(weights: seq<real>, n: nat, x: seq<real>, err: seq<real>, mask: Option<seq<bool>>, m: nat)
    ensures Sum(0, n, j => At(x, j) * PartialError(weights, n, err, mask, j, m)) ==
      Sum(0, m, i => if Kept(mask, i) then At(err, i) * PartialInput(weights, n, x, i, n) else 0.0)
  {
    var f := (i, j) => TransposeTerm(weights, n, x, err, mask, i, j);
    BackwardSideAsDoubleSum(weights, n, x, err, mask, m, f);
    ForwardSideAsDoubleSum(weights, n, x, err, mask, m, f);
    SumSwap(0, m, 0, n, f);
  }

  /** A mask that keeps every neuron behaves exactly like no mask, in both directions. */
  lemma FullMaskIsNoMask(weights: seq<real>, biases: seq<real>, n: nat, x: seq<real>, err: seq<real>, flags: seq<bool>, m: nat)
    requires m <= |flags| && forall i | 0 <= i < m :: flags[i]
    ensures Forward(weights, biases, n, x, Some(flags), m) == Forward(weights, biases, n, x, None, m)
    ensures Backward(weights, n, err, Some(flags), m) == Backward(weights, n, err, None, m)
  {
    forall j | 0 <= j < n
      ensures PartialError(weights, n, err, Some(flags), j, m) == PartialError(weights, n, err, None, j, m)
    {
      SumExt(0, m, i => if Kept(Some(flags), i) then Entry(weights, n, i, j) * At(err, i) else 0.0,
                   i => if Kept(None, i) then Entry(weights, n, i, j) * At(err, i) else 0.0);
    }
  }

  /**
   * Entry (i, j) of the accumulated weight gradients: the old value plus δ[i]·a[j]
   * when neuron i is kept, the old value when it is dropped.
   */
  lemma AccumulateWeightsAt(nablaW: seq<real>, delta: seq<real>, a: seq<real>, mask: Option<seq<bool>>, m: nat, i: nat, j: nat)
    requires i < m && j < |a| && |nablaW| == m * |a|
    ensures i * |a| + j < |nablaW|
    ensures AccumulateWeights(nablaW, delta, a, mask)[i * |a| + j] ==
      if Kept(mask, i) then nablaW[i * |a| + j] + At(delta, i) * a[j] else nablaW[i * |a| + j]
  {
    MulAddBound(i, j, m, |a|);
    RowColumnOf(i, j, |a|);
  }

  /** The row of a dropped neuron keeps its gradient values. */
  lemma DroppedRowUnchanged(nablaW: seq<real>, delta: seq<real>, a: seq<real>, mask: Option<seq<bool>>, r: nat, m: nat)
    requires r < m && |nablaW| == m * |a| && !Kept(mask, r)
    ensures (r + 1) * |a| == r * |a| + |a| && r * |a| + |a| <= |nablaW|
    ensures forall k | r * |a| <= k < r * |a| + |a| :: AccumulateWeights(nablaW, delta, a, mask)[k] == nablaW[k]
  {
    var n := |a|;
    MulDistrib(r, 1, n);
    MulMonotone(r + 1, m, n);
    forall k | r * n <= k < r * n + n
      ensures AccumulateWeights(nablaW, delta, a, mask)[k] == nablaW[k]
    {
      AccumulateWeightsAt(nablaW, delta, a, mask, m, r, k - r * n);
    }
  }

  // ---------------------------------------------------------------------------
  // The shadow-weights switch, on values.

  /** The weights in use and, when the previous layer uses dropout, the shadow copy of the training weights. */
  datatype WeightState = WeightState(weights: seq<real>, shadow: Option<seq<real>>)

  /** SwitchToTestingWeights: save the weights to the shadow, then scale them by the previous layer's keep probability. */
  function Testing(s: WeightState, prevKeep: real): WeightState
  {
    if s.shadow.None? then s else WeightState(Scale(s.weights, prevKeep), Some(s.weights))
  }

  /** SwitchToTrainingWeights: copy the shadow back. */
  function Training(s: WeightState): WeightState
  {
    if s.shadow.None? then s else WeightState(s.shadow.value, s.shadow)
  }

  /** Switching to testing and back to training restores the training weights. */
  lemma TestingThenTrainingRestores(s: WeightState, prevKeep: real)
    ensures Training(Testing(s, prevKeep)).weights == s.weights
  {
  }

  /**
   * Switching to testing twice scales by prevKeep² and overwrites the shadow with
   * the once-scaled weights, so switching back no longer restores the training weights.
   */
  lemma TestingTwiceLosesTrainingWeights(s: WeightState, prevKeep: real)
    requires s.shadow.Some?
    ensures Testing(Testing(s, prevKeep), prevKeep).weights == Scale(s.weights, prevKeep * prevKeep)
    ensures Training(Testing(Testing(s, prevKeep), prevKeep)).weights == Scale(s.weights, prevKeep)
  {
    ScalesCompose(s.weights, prevKeep, prevKeep);
  }

  /** The saved record: tag 0, the activation record, the keep probability, the weights and the biases. */
  function RecordUnits(af: Option<Activations.ActivationFunction>, keep: real, weights: TensorValue, biases: TensorValue): seq<Unit>
    requires weights.shape.IsU32Shape() && biases.shape.IsU32Shape()
  {
    [Byte(0)] + Activations.SaveUnits(af) + [Double(keep)] + TensorUnits(weights) + TensorUnits(biases)
  }

  /** The memcpy between the weights and their shadow. */
  method CopyElements(target: array<real>, source: array<real>)
    requires target != source && target.Length == source.Length
    modifies target
    ensures target[..] == source[..]
  {
    forall i | 0 <= i < target.Length {
      target[i] := source[i];
    }
  }

  // ---------------------------------------------------------------------------
  // The layer.

  class FullyConnectedLayer {
    var weights: Tensor?
    var biases: Tensor?
    /** The unscaled training weights, kept while testing when the previous layer uses dropout. */
    var trainingWeights: Tensor?
    var activationFunction: Option<Activations.ActivationFunction>
    const keepProbability: real
    const prevLayerKeepProbability: real
    const inputSize: nat
    const outputPlanes: nat
    const outputRows: nat
    const outputColumns: nat

    ghost predicate Valid()
      reads this, weights, biases, trainingWeights
    {
      outputPlanes == 1 && outputRows == 1 &&
      (weights == null ==> biases == null && trainingWeights == null) &&
      (weights != null ==> HasWeights())
    }

    /** Weights are an outputColumns × inputSize matrix and the shadow exists exactly when the previous layer uses dropout. */
    ghost predicate HasWeights()
      reads this, weights, biases, trainingWeights
    {
      weights != null && biases != null && weights.Valid() && biases.Valid() &&
      weights.Dims() == Shape(1, 1, outputColumns, inputSize) && weights.size == outputColumns * inputSize &&
      biases.size == outputColumns && weights.elements != biases.elements &&
      (trainingWeights != null <==> prevLayerKeepProbability < 1.0) &&
      (trainingWeights != null ==>
        trainingWeights.Valid() && trainingWeights.Dims() == weights.Dims() && trainingWeights.size == weights.size &&
        trainingWeights.elements != weights.elements && trainingWeights.elements != biases.elements)
    }

    ghost function State(): WeightState
      reads this, weights, trainingWeights
      requires weights != null
      reads weights.elements, if trainingWeights == null then {} else {trainingWeights.elements}
    {
      WeightState(weights.elements[..], if trainingWeights == null then None else Some(trainingWeights.elements[..]))
    }

    /** The weightless constructor: no weights or biases until InitializeWeights; one row of layerSize outputs. */
    constructor (inputSize: nat, layerSize: nat, af: Option<Activations.ActivationFunction>, keepProbability: real, prevLayerKeepProbability: real)
      ensures Valid() && weights == null && biases == null && trainingWeights == null
      ensures this.inputSize == inputSize && outputColumns == layerSize && activationFunction == af
      ensures this.keepProbability == keepProbability && this.prevLayerKeepProbability == prevLayerKeepProbability
    {
      this.inputSize := inputSize;
      outputPlanes, outputRows, outputColumns := 1, 1, layerSize;
      activationFunction := af;
      this.keepProbability := keepProbability;
      this.prevLayerKeepProbability := prevLayerKeepProbability;
      weights, biases, trainingWeights := null, null, null;
    }

    /**
     * The weights-given constructor: throws unless the weights are two-dimensional;
     * the output size is the number of weight rows and the input size the number of columns.
     */
    static method WithWeights(weights: Tensor, biases: Tensor, af: Option<Activations.ActivationFunction>,
                              keepProbability: real, prevLayerKeepProbability: real)
      returns (r: Result<FullyConnectedLayer>)
      requires weights.Valid() && biases.Valid() && weights.elements != biases.elements
      requires biases.size == weights.rows
      ensures r.Ok? <==> weights.hyperplanes == 1 && weights.planes == 1
      ensures r.Err? ==> r.error == "FullyConnectedLayer requires a 2 dimensional weight tensor."
      ensures r.Ok? ==>
        var l := r.value;
        fresh(l) && l.Valid() && l.weights == weights && l.biases == biases &&
        l.outputColumns == weights.rows && l.inputSize == weights.columns && l.activationFunction == af &&
        l.keepProbability == keepProbability && l.prevLayerKeepProbability == prevLayerKeepProbability &&
        (l.trainingWeights != null ==> fresh(l.trainingWeights) && fresh(l.trainingWeights.elements) &&
                                       l.trainingWeights.elements[..] == weights.elements[..])
    {
      if weights.hyperplanes != 1 || weights.planes != 1 {
        return Err("FullyConnectedLayer requires a 2 dimensional weight tensor.");
      }
      var l := new FullyConnectedLayer(weights.columns, weights.rows, af, keepProbability, prevLayerKeepProbability);
      l.weights, l.biases := weights, biases;
      if prevLayerKeepProbability < 1.0 {
        var shadow := new Tensor.Copy(weights);
        l.trainingWeights := shadow;
      }
      return Ok(l);
    }

    /** The initialisation loop: element v of the tensor takes the v-th draw of the distribution. */
    static method DrawInto(t: Tensor, samples: seq<real>)
      requires t.Valid() && |samples| == t.size
      modifies t.elements
      ensures t.elements[..] == samples
    {
      var v := 0;
      while v < t.size
        invariant 0 <= v <= t.size
        invariant forall i | 0 <= i < v :: t.elements[i] == samples[i]
      {
        t.elements[v] := samples[v];
        v := v + 1;
      }
      assert t.elements[..] == samples;
    }

    /** InitializeWeights: only when there are no weights yet, from the drawn samples; makes the shadow copy when needed. */
    method InitializeWeights(weightSamples: seq<real>, biasSamples: seq<real>)
      requires Valid()
      requires |weightSamples| == outputColumns * inputSize && |biasSamples| == outputColumns
      modifies this
      ensures Valid() && weights != null
      ensures old(weights) != null ==> weights == old(weights) && biases == old(biases) && trainingWeights == old(trainingWeights)
      ensures old(weights) == null ==>
        fresh(weights) && fresh(biases) && weights.elements[..] == weightSamples && biases.elements[..] == biasSamples &&
        (trainingWeights != null ==> trainingWeights.elements[..] == weightSamples)
      ensures activationFunction == old(activationFunction)
    {
      if weights == null {
        var w := new Tensor.Of2(outputColumns, inputSize);
        var b := new Tensor.Of1(outputColumns);
        DrawInto(w, weightSamples);
        DrawInto(b, biasSamples);
        weights, biases := w, b;
        if prevLayerKeepProbability < 1.0 {
          trainingWeights := new Tensor.Copy(w);
        }
      }
    }

    function KeepProbability(): real
      reads this
    {
      keepProbability
    }

    /**
     * FeedForward: out[i] = b[i] + Σ_j in[j]·W[i][j] for every neuron, except that
     * neurons the mask drops output exactly 0.
     */
    method FeedForward(inputs: Tensor, outputs: Tensor, dropoutMask: DropoutMask?)
      requires Valid() && weights != null
      requires inputs.Valid() && outputs.Valid()
      requires inputs.size == inputSize && outputs.size == outputColumns
      requires dropoutMask != null ==> dropoutMask.Valid() && dropoutMask.size >= outputs.size
      requires outputs.elements != inputs.elements && outputs.elements != weights.elements && outputs.elements != biases.elements
      modifies outputs.elements
      ensures outputs.elements[..] == Forward(weights.elements[..], biases.elements[..], inputSize, inputs.elements[..], MaskOf(dropoutMask), outputColumns)
    {
      var out := outputs.elements;
      var m := outputs.size;
      ghost var mask := MaskOf(dropoutMask);
      ghost var W, B, X := weights.elements[..], biases.elements[..], inputs.elements[..];
      var output := 0;
      if dropoutMask != null {
        while output != m
          invariant 0 <= output <= m
          invariant forall i | 0 <= i < output :: out[i] == NeuronOutput(W, B, inputSize, X, mask, i)
        {
          if dropoutMask.mask[output] {
            var activation := NeuronActivation(inputs, output);
            out[output] := activation;
          } else {
            out[output] := 0.0;
          }
          output := output + 1;
        }
      } else {
        while output != m
          invariant 0 <= output <= m
          invariant forall i | 0 <= i < output :: out[i] == NeuronOutput(W, B, inputSize, X, mask, i)
        {
          var activation := NeuronActivation(inputs, output);
          out[output] := activation;
          output := output + 1;
        }
      }
      assert forall i | 0 <= i < m :: out[i] == Forward(W, B, inputSize, X, mask, m)[i];
    }

    /** The inner loop of FeedForward: the bias of neuron `output` plus its weighted input. */
    method NeuronActivation(inputs: Tensor, output: nat) returns (activation: real)
      requires Valid() && weights != null && inputs.Valid() && inputs.size == inputSize && output < outputColumns
      ensures activation == biases.elements[output] + PartialInput(weights.elements[..], inputSize, inputs.elements[..], output, inputSize)
    {
      var n := inputSize;
      var W := weights.elements;
      activation := biases.elements[output];
      var weight := output * n;
      var input := 0;
      while input != n
        invariant 0 <= input <= n && weight == output * n + input
        invariant activation == biases.elements[output] + PartialInput(W[..], n, inputs.elements[..], output, input)
      {
        MulAddBound(output, input, outputColumns, n);
        PartialInputStep(W[..], n, inputs.elements[..], output, input);
        activation := activation + inputs.elements[input] * W[weight];
        weight := weight + 1;
        input := input + 1;
      }
    }

    /**
     * BackpropagateError overwrites the previous layer's error with
     * prev[j] = Σ_{i kept} W[i][j]·err[i] (all i without a mask).
     */
    method BackpropagateError(errorInThisLayer: Tensor, errorInPreviousLayer: Tensor, dropoutMask: DropoutMask?)
      requires Valid() && weights != null
      requires errorInThisLayer.Valid() && errorInPreviousLayer.Valid()
      requires errorInThisLayer.size == outputColumns && errorInPreviousLayer.size == inputSize
      requires dropoutMask != null ==> dropoutMask.Valid() && dropoutMask.size >= errorInThisLayer.size
      requires errorInPreviousLayer.elements != errorInThisLayer.elements && errorInPreviousLayer.elements != weights.elements
      modifies errorInPreviousLayer.elements
      ensures errorInPreviousLayer.elements[..] ==
        Backward(weights.elements[..], inputSize, errorInThisLayer.elements[..], MaskOf(dropoutMask), outputColumns)
    {
      var prev := errorInPreviousLayer.elements;
      var n := inputSize;
      ghost var mask := MaskOf(dropoutMask);
      ghost var W, E := weights.elements[..], errorInThisLayer.elements[..];
      if dropoutMask != null {
        errorInPreviousLayer.SetAllToZero();
        var thisLayerError := 0;
        while thisLayerError != outputColumns
          invariant 0 <= thisLayerError <= outputColumns
          invariant forall j | 0 <= j < n :: prev[j] == PartialError(W, n, E, mask, j, thisLayerError)
        {
          if dropoutMask.mask[thisLayerError] {
            AddRowError(errorInThisLayer, errorInPreviousLayer, thisLayerError, mask);
          } else {
            forall j | 0 <= j < n
              ensures PartialError(W, n, E, mask, j, thisLayerError + 1) == PartialError(W, n, E, mask, j, thisLayerError)
            {
              PartialErrorStep(W, n, E, mask, j, thisLayerError);
            }
          }
          thisLayerError := thisLayerError + 1;
        }
      } else {
        var prevLayerError := 0;
        while prevLayerError != n
          invariant 0 <= prevLayerError <= n
          invariant forall j | 0 <= j < prevLayerError :: prev[j] == PartialError(W, n, E, mask, j, outputColumns)
        {
          var error := ColumnError(errorInThisLayer, prevLayerError);
          prev[prevLayerError] := error;
          prevLayerError := prevLayerError + 1;
        }
      }
      assert forall j | 0 <= j < n :: prev[j] == Backward(W, n, E, mask, outputColumns)[j];
    }

    /** The masked branch's inner loop: a kept neuron adds W[i][j]·err[i] to every prev[j]. */
    method AddRowError(errorInThisLayer: Tensor, errorInPreviousLayer: Tensor, i: nat, ghost mask: Option<seq<bool>>)
      requires Valid() && weights != null
      requires errorInThisLayer.Valid() && errorInPreviousLayer.Valid()
      requires errorInThisLayer.size == outputColumns && errorInPreviousLayer.size == inputSize
      requires errorInPreviousLayer.elements != errorInThisLayer.elements && errorInPreviousLayer.elements != weights.elements
      requires i < outputColumns && Kept(mask, i)
      requires forall j | 0 <= j < inputSize ::
        errorInPreviousLayer.elements[j] == PartialError(weights.elements[..], inputSize, errorInThisLayer.elements[..], mask, j, i)
      modifies errorInPreviousLayer.elements
      ensures forall j | 0 <= j < inputSize ::
        errorInPreviousLayer.elements[j] == PartialError(weights.elements[..], inputSize, errorInThisLayer.elements[..], mask, j, i + 1)
    {
      var prev, W, E := errorInPreviousLayer.elements, weights.elements, errorInThisLayer.elements;
      ghost var Wv, Ev := W[..], E[..];
      var n := inputSize;
      ghost var before, after := Backward(Wv, n, Ev, mask, i), Backward(Wv, n, Ev, mask, i + 1);
      var weight := i * n;
      var prevLayerError := 0;
      while prevLayerError != n
        invariant 0 <= prevLayerError <= n && weight == i * n + prevLayerError
        invariant forall j | 0 <= j < prevLayerError :: prev[j] == after[j]
        invariant forall j | prevLayerError <= j < n :: prev[j] == before[j]
      {
        BackwardStepAt(Wv, n, Ev, mask, prevLayerError, i, outputColumns);
        assert before[prevLayerError] + W[weight] * E[i] == after[prevLayerError];
        prev[prevLayerError] := prev[prevLayerError] + W[weight] * E[i];
        assert prev[prevLayerError] == after[prevLayerError];
        weight := weight + 1;
        prevLayerError := prevLayerError + 1;
      }
    }

    /** The unmasked branch's inner loop: the error of input j, walking down column j. */
    method ColumnError(errorInThisLayer: Tensor, j: nat) returns (error: real)
      requires Valid() && weights != null
      requires errorInThisLayer.Valid() && errorInThisLayer.size == outputColumns && j < inputSize
      ensures error == PartialError(weights.elements[..], inputSize, errorInThisLayer.elements[..], None, j, outputColumns)
    {
      var W, E := weights.elements, errorInThisLayer.elements;
      var n := inputSize;
      var weight := j;
      error := 0.0;
      var thisLayerError := 0;
      while thisLayerError != outputColumns
        invariant 0 <= thisLayerError <= outputColumns && weight == thisLayerError * n + j
        invariant error == PartialError(W[..], n, E[..], None, j, thisLayerError)
      {
        MulAddBound(thisLayerError, j, outputColumns, n);
        PartialErrorStep(W[..], n, E[..], None, j, thisLayerError);
        error := error + W[weight] * E[thisLayerError];
        weight := weight + n;
        thisLayerError := thisLayerError + 1;
      }
    }

    /**
     * UpdateWeightAndBiasErrors: for every kept neuron i, nablaB[i] += δ[i] and
     * nablaW[i][j] += δ[i]·a[j]; the rows of dropped neurons are left unchanged.
     */
    method UpdateWeightAndBiasErrors(delta: Tensor, previousLayerActivations: Tensor, nablaW: Tensor, nablaB: Tensor,
                                     dropoutMask: DropoutMask?)
      requires Valid() && weights != null
      requires delta.Valid() && previousLayerActivations.Valid() && nablaW.Valid() && nablaB.Valid()
      requires delta.size == outputColumns && previousLayerActivations.size == inputSize
      requires nablaW.size == outputColumns * inputSize && nablaB.size == outputColumns
      requires dropoutMask != null ==> dropoutMask.Valid() && dropoutMask.size >= delta.size
      requires nablaW.elements != nablaB.elements
      requires nablaW.elements != delta.elements && nablaW.elements != previousLayerActivations.elements
      requires nablaB.elements != delta.elements && nablaB.elements != previousLayerActivations.elements
      modifies nablaW.elements, nablaB.elements
      ensures nablaB.elements[..] == AccumulateBiases(old(nablaB.elements[..]), delta.elements[..], MaskOf(dropoutMask))
      ensures nablaW.elements[..] ==
        AccumulateWeights(old(nablaW.elements[..]), delta.elements[..], previousLayerActivations.elements[..], MaskOf(dropoutMask))
    {
      if dropoutMask != null {
        MaskedGradients(delta, previousLayerActivations, nablaW, nablaB, dropoutMask);
      } else {
        UnmaskedGradients(delta, previousLayerActivations, nablaW, nablaB);
      }
    }

    /** The masked branch of UpdateWeightAndBiasErrors. */
    method MaskedGradients(delta: Tensor, previousLayerActivations: Tensor, nablaW: Tensor, nablaB: Tensor, dropoutMask: DropoutMask)
      requires delta.Valid() && previousLayerActivations.Valid() && nablaW.Valid() && nablaB.Valid()
      requires delta.size == outputColumns && previousLayerActivations.size == inputSize
      requires nablaW.size == outputColumns * inputSize && nablaB.size == outputColumns
      requires nablaW.elements != nablaB.elements
      requires nablaW.elements != delta.elements && nablaW.elements != previousLayerActivations.elements
      requires nablaB.elements != delta.elements && nablaB.elements != previousLayerActivations.elements
      modifies nablaW.elements, nablaB.elements
      requires dropoutMask.Valid() && dropoutMask.size >= delta.size
      ensures nablaB.elements[..] == AccumulateBiases(old(nablaB.elements[..]), delta.elements[..], MaskOf(dropoutMask))
      ensures nablaW.elements[..] ==
        AccumulateWeights(old(nablaW.elements[..]), delta.elements[..], previousLayerActivations.elements[..], MaskOf(dropoutMask))
    {
      var nb, nw := nablaB.elements, nablaW.elements;
      var n := previousLayerActivations.size;
      ghost var mask := MaskOf(dropoutMask);
      ghost var D, A, nb0, nw0 := delta.elements[..], previousLayerActivations.elements[..], nb[..], nw[..];
      ghost var target := AccumulateWeights(nw0, D, A, mask);
      var r := 0;
      while r < delta.size
        invariant 0 <= r <= delta.size && r * n <= nw.Length
        invariant forall i | 0 <= i < r :: nb[i] == AccumulateBiases(nb0, D, mask)[i]
        invariant forall i | r <= i < nb.Length :: nb[i] == nb0[i]
        invariant forall k | 0 <= k < r * n :: nw[k] == target[k]
        invariant forall k | r * n <= k < nw.Length :: nw[k] == nw0[k]
      {
        RowEndBound(r, delta.size, n);
        if dropoutMask.mask[r] {
          nb[r] := nb[r] + delta.elements[r];
          AddOuterRow(delta, previousLayerActivations, nablaW, r, mask, nw0);
        } else {
          DroppedRowUnchanged(nw0, D, A, mask, r, delta.size);
        }
        r := r + 1;
      }
      assert forall i | 0 <= i < nb.Length :: nb[i] == AccumulateBiases(nb0, D, mask)[i];
      assert forall k | 0 <= k < nw.Length :: nw[k] == target[k];
    }

    /** The unmasked branch of UpdateWeightAndBiasErrors. */
    method UnmaskedGradients(delta: Tensor, previousLayerActivations: Tensor, nablaW: Tensor, nablaB: Tensor)
      requires delta.Valid() && previousLayerActivations.Valid() && nablaW.Valid() && nablaB.Valid()
      requires delta.size == outputColumns && previousLayerActivations.size == inputSize
      requires nablaW.size == outputColumns * inputSize && nablaB.size == outputColumns
      requires nablaW.elements != nablaB.elements
      requires nablaW.elements != delta.elements && nablaW.elements != previousLayerActivations.elements
      requires nablaB.elements != delta.elements && nablaB.elements != previousLayerActivations.elements
      modifies nablaW.elements, nablaB.elements
      ensures nablaB.elements[..] == AccumulateBiases(old(nablaB.elements[..]), delta.elements[..], None)
      ensures nablaW.elements[..] ==
        AccumulateWeights(old(nablaW.elements[..]), delta.elements[..], previousLayerActivations.elements[..], None)
    {
      ghost var D, nb0 := delta.elements[..], nablaB.elements[..];
      nablaB.ComponentWiseAdd(delta);
      assert forall i | 0 <= i < nablaB.size :: nablaB.elements[i] == AccumulateBiases(nb0, D, None)[i];
      AddAllOuterRows(delta, previousLayerActivations, nablaW);
    }

    /** The unmasked weight loop: every row r gains δ[r]·a. */
    method AddAllOuterRows(delta: Tensor, previousLayerActivations: Tensor, nablaW: Tensor)
      requires delta.Valid() && previousLayerActivations.Valid() && nablaW.Valid()
      requires nablaW.size == delta.size * previousLayerActivations.size
      requires nablaW.elements != delta.elements && nablaW.elements != previousLayerActivations.elements
      modifies nablaW.elements
      ensures nablaW.elements[..] ==
        AccumulateWeights(old(nablaW.elements[..]), delta.elements[..], previousLayerActivations.elements[..], None)
    {
      var nw := nablaW.elements;
      var n := previousLayerActivations.size;
      ghost var D, A, nw0 := delta.elements[..], previousLayerActivations.elements[..], nw[..];
      ghost var target := AccumulateWeights(nw0, D, A, None);
      var r := 0;
      while r < delta.size
        invariant 0 <= r <= delta.size && r * n <= nw.Length
        invariant forall k | 0 <= k < r * n :: nw[k] == target[k]
        invariant forall k | r * n <= k < nw.Length :: nw[k] == nw0[k]
      {
        RowEndBound(r, delta.size, n);
        AddOuterRow(delta, previousLayerActivations, nablaW, r, None, nw0);
        r := r + 1;
      }
      assert forall k | 0 <= k < nw.Length :: nw[k] == target[k];
    }

    /** The inner loop of UpdateWeightAndBiasErrors for a kept row r: nablaW[r][c] += δ[r]·a[c]. */
    method AddOuterRow(delta: Tensor, previousLayerActivations: Tensor, nablaW: Tensor, r: nat,
                       ghost mask: Option<seq<bool>>, ghost nw0: seq<real>)
      requires delta.Valid() && previousLayerActivations.Valid() && nablaW.Valid()
      requires r < delta.size && Kept(mask, r)
      requires nablaW.size == delta.size * previousLayerActivations.size && |nw0| == nablaW.size
      requires r * previousLayerActivations.size + previousLayerActivations.size <= nablaW.size
      requires nablaW.elements != delta.elements && nablaW.elements != previousLayerActivations.elements
      requires var n := previousLayerActivations.size;
        var target := AccumulateWeights(nw0, delta.elements[..], previousLayerActivations.elements[..], mask);
        (forall k | 0 <= k < r * n :: nablaW.elements[k] == target[k]) &&
        (forall k | r * n <= k < nablaW.size :: nablaW.elements[k] == nw0[k])
      modifies nablaW.elements
      ensures var n := previousLayerActivations.size;
        var target := AccumulateWeights(nw0, delta.elements[..], previousLayerActivations.elements[..], mask);
        (forall k | 0 <= k < r * n + n :: nablaW.elements[k] == target[k]) &&
        (forall k | r * n + n <= k < nablaW.size :: nablaW.elements[k] == nw0[k])
    {
      var nw, e2 := nablaW.elements, previousLayerActivations.elements;
      var n := previousLayerActivations.size;
      ghost var D, A := delta.elements[..], e2[..];
      ghost var target := AccumulateWeights(nw0, D, A, mask);
      var e1 := delta.elements[r];
      var result := r * n;
      RowEndBound(r, delta.size, n);
      assert forall k | 0 <= k < result :: nw[k] == target[k];
      var c := 0;
      while c < n
        invariant 0 <= c <= n && result == r * n + c && result <= nw.Length
        invariant forall k | 0 <= k < result :: nw[k] == target[k]
        invariant forall k | result <= k < nw.Length :: nw[k] == nw0[k]
      {
        AccumulateWeightsAt(nw0, D, A, mask, delta.size, r, c);
        assert e1 * e2[c] == At(D, r) * A[c];
        nw[result] := nw[result] + e1 * e2[c];
        result := result + 1;
        c := c + 1;
      }
    }

    /** SwitchToTrainingWeights: when there is a shadow, copy it back over the weights. */
    method SwitchToTrainingWeights()
      requires Valid() && weights != null
      modifies weights.elements
      ensures Valid() && State() == Training(old(State()))
    {
      if trainingWeights != null {
        CopyElements(weights.elements, trainingWeights.elements);
      }
    }

    /** SwitchToTestingWeights: when there is a shadow, save the weights to it and scale them by prevKeep. */
    method SwitchToTestingWeights()
      requires Valid() && weights != null
      modifies weights.elements, if trainingWeights == null then {} else {trainingWeights.elements}
      ensures Valid() && State() == Testing(old(State()), prevLayerKeepProbability)
    {
      if trainingWeights != null {
        CopyElements(trainingWeights.elements, weights.elements);
        Weighted.DecayWeights(weights, prevLayerKeepProbability);
      }
    }

    /** UpdateWeightsAndBiases of a weighted layer, on this layer's weights and biases. */
    method UpdateWeightsAndBiases(nablaW: Tensor, nablaB: Tensor, scalar: real)
      requires Valid() && weights != null && nablaW.Valid() && nablaB.Valid()
      requires nablaW.Dims() == weights.Dims() && nablaB.Dims() == biases.Dims()
      requires nablaW.elements != weights.elements && nablaW.elements != biases.elements
      requires nablaB.elements != weights.elements && nablaB.elements != biases.elements
      modifies weights.elements, biases.elements
      ensures weights.elements[..] == Step(old(weights.elements[..]), nablaW.elements[..], scalar)
      ensures biases.elements[..] == Step(old(biases.elements[..]), nablaB.elements[..], scalar)
    {
      Weighted.UpdateWeightsAndBiases(weights, biases, nablaW, nablaB, scalar);
    }

    /** DecayWeights of a weighted layer: the weights only. */
    method DecayWeights(factor: real)
      requires Valid() && weights != null
      modifies weights.elements
      ensures weights.elements[..] == Scale(old(weights.elements[..]), factor)
      ensures biases.elements[..] == old(biases.elements[..])
    {
      Weighted.DecayWeights(weights, factor);
    }

    /** Save: the layer record, with the unscaled shadow weights when there is a shadow. */
    method Save() returns (out: seq<Unit>)
      requires Valid() && weights != null
      requires weights.Dims().IsU32Shape() && IsU32(weights.size) && biases.Dims().IsU32Shape() && IsU32(biases.size)
      ensures out == RecordUnits(activationFunction, keepProbability,
        if trainingWeights != null then trainingWeights.Value() else weights.Value(), biases.Value())
    {
      out := [Byte(0)] + Activations.SaveUnits(activationFunction) + [Double(keepProbability)];
      var w;
      if trainingWeights != null {
        w := trainingWeights.Save();
      } else {
        w := weights.Save();
      }
      var b := biases.Save();
      out := out + w + b;
    }
  }
}
