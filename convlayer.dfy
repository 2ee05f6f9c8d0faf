/**
 * The convolutional layer object: its construction rules, the filter-offset
 * tables it precomputes, and the three passes over Tensors, each delegated to
 * the buffer walks of Convolution and ConvolutionGradients and stated against
 * the brute-force sums of ConvolutionSpec.
 */
module ConvolutionalLayers {
  import opened Wrappers
  import opened Arith
  import opened Streams
  import opened Tensors
  import opened ConvolutionSpec
  import Activations
  import Convolution
  import ConvolutionGradients
  import Weighted

  /** The layer's record: tag 1, the activation, stride and padding as u32, then the weight and bias tensors. */
  function RecordUnits(af: Option<Activations.ActivationFunction>, stride: nat, padding: nat,
                       weights: TensorValue, biases: TensorValue): seq<Unit>
    requires IsU32(stride) && IsU32(padding) && weights.shape.IsU32Shape() && biases.shape.IsU32Shape()
  {
    [Byte(1)] + Activations.SaveUnits(af) + U32Bytes(stride) + U32Bytes(padding)
    + TensorUnits(weights) + TensorUnits(biases)
  }

  /** A tensor of `planes` planes of rows × columns, in one hyperplane, has the planes·rows·columns elements a layout expects. */
  lemma PlanesSize(planes: nat, rows: nat, columns: nat)
    ensures Shape(1, planes, rows, columns).Size() == (planes * rows) * columns
  {
    MulAssociates(planes, rows, columns);
  }

  /** A filters × channels × F × F weight tensor holds WeightCount weights. */
  lemma FilterBankSize(filters: nat, channels: nat, F: nat)
    ensures Shape(filters, channels, F, F).Size() == ((filters * channels) * F) * F
  {
    MulAssociates(F * F, channels, filters);
    MulAssociates(filters, channels, F);
    MulAssociates(filters * channels, F, F);
  }

  class ConvolutionalLayer {
    const inputChannelCount: nat
    const inputRows: nat
    const inputColumns: nat
    const filterCount: nat
    const filterSize: nat
    const stride: nat
    const zeroPadding: nat
    const outputPlanes: nat
    const outputRows: nat
    const outputColumns: nat
    var activationFunction: Option<Activations.ActivationFunction>
    var weights: Tensor?
    var biases: Tensor?
    /** Per filter row and per filter column: the first input cell, the first output and the output count. */
    var filterRowInfo: array?<FilterInfo>
    var filterColumnInfo: array?<FilterInfo>

    function Dimensions(): Geometry
    {
      Geometry(inputChannelCount, inputRows, inputColumns, filterCount, filterSize, stride, zeroPadding)
    }

    /** A usable geometry, output dimensions from the output-size formula, and weights with their tables or none of them. */
    ghost predicate Valid()
      reads this, weights, biases, filterRowInfo, filterColumnInfo
    {
      Dimensions().Valid() &&
      outputPlanes == filterCount && outputRows == Dimensions().OutputRows() && outputColumns == Dimensions().OutputColumns() &&
      (weights == null ==> biases == null && filterRowInfo == null && filterColumnInfo == null) &&
      (weights != null ==> HasWeights())
    }

    /** Weights are filters × channels × filterSize × filterSize, one bias per filter. */
    ghost predicate HasWeights()
      reads this, weights, biases, filterRowInfo, filterColumnInfo
      requires Dimensions().Valid()
    {
      weights != null && biases != null && weights.Valid() && biases.Valid() &&
      weights.Dims() == Shape(filterCount, inputChannelCount, filterSize, filterSize) &&
      weights.size == Dimensions().WeightCount() && biases.size == filterCount &&
      weights.elements != biases.elements && TablesReady()
    }

    /** The tables hold the filter-offset entries of the input's rows and columns. */
    ghost predicate TablesReady()
      reads this, filterRowInfo, filterColumnInfo
      requires Dimensions().Valid()
    {
      filterRowInfo != null && filterColumnInfo != null &&
      ConvolutionGradients.IsFilterTable(filterRowInfo, inputRows, filterSize, stride, zeroPadding) &&
      ConvolutionGradients.IsFilterTable(filterColumnInfo, inputColumns, filterSize, stride, zeroPadding)
    }

    /**
     * The weightless constructor: no weights, biases or tables until
     * InitializeWeights; filterCount output planes of the output-size formula.
     */
    constructor (inputChannelCount: nat, inputRows: nat, inputColumns: nat, filterCount: nat, filterSize: nat,
                 stride: nat, zeroPadding: nat, af: Option<Activations.ActivationFunction>)
      requires Geometry(inputChannelCount, inputRows, inputColumns, filterCount, filterSize, stride, zeroPadding).Valid()
      ensures Valid() && weights == null
      ensures Dimensions() == Geometry(inputChannelCount, inputRows, inputColumns, filterCount, filterSize, stride, zeroPadding)
      ensures outputPlanes == filterCount
      ensures outputRows == (inputRows + 2 * zeroPadding - filterSize) / stride + 1
      ensures outputColumns == (inputColumns + 2 * zeroPadding - filterSize) / stride + 1
      ensures activationFunction == af
    {
      this.inputChannelCount, this.inputRows, this.inputColumns := inputChannelCount, inputRows, inputColumns;
      this.filterCount, this.filterSize, this.stride, this.zeroPadding := filterCount, filterSize, stride, zeroPadding;
      var g := Geometry(inputChannelCount, inputRows, inputColumns, filterCount, filterSize, stride, zeroPadding);
      StepsIsQuotient(inputRows + 2 * zeroPadding - filterSize, stride);
      StepsIsQuotient(inputColumns + 2 * zeroPadding - filterSize, stride);
      outputPlanes, outputRows, outputColumns := filterCount, g.OutputRows(), g.OutputColumns();
      activationFunction := af;
      weights, biases := null, null;
      filterRowInfo, filterColumnInfo := null, null;
    }

    /**
     * The weights-given constructor: throws when the padding is not below the
     * filter rows, when the filter is not square, or when the bias count is not
     * the filter count, in that order; otherwise takes the weights and biases and
     * computes the tables. Filters are the weight hyperplanes, channels its planes.
     */
    static method WithWeights(weights: Tensor, biases: Tensor, inputRows: nat, inputColumns: nat, stride: nat,
                              zeroPadding: nat, af: Option<Activations.ActivationFunction>)
      returns (r: Result<ConvolutionalLayer>)
      requires weights.Valid() && biases.Valid() && weights.elements != biases.elements
      requires stride >= 1 && weights.rows <= inputRows && weights.rows <= inputColumns
      ensures r.Err? <==> zeroPadding >= weights.rows || weights.rows != weights.columns || weights.hyperplanes != biases.size
      ensures zeroPadding >= weights.rows ==> r == Err("Zero padding must be less than the size of the filter.")
      ensures zeroPadding < weights.rows && weights.rows != weights.columns ==>
        r == Err("Filter width and height must be the same.")
      ensures zeroPadding < weights.rows && weights.rows == weights.columns && weights.hyperplanes != biases.size ==>
        r == Err("There must be 1 bias for each filter.")
      ensures r.Ok? ==>
        var l := r.value;
        fresh(l) && l.Valid() && l.weights == weights && l.biases == biases &&
        l.Dimensions() == Geometry(weights.planes, inputRows, inputColumns, weights.hyperplanes, weights.rows, stride, zeroPadding) &&
        l.activationFunction == af
    {
      if zeroPadding >= weights.rows {
        return Err("Zero padding must be less than the size of the filter.");
      }
      if weights.rows != weights.columns {
        return Err("Filter width and height must be the same.");
      }
      if weights.hyperplanes != biases.size {
        return Err("There must be 1 bias for each filter.");
      }
      var l := new ConvolutionalLayer(weights.planes, inputRows, inputColumns, weights.hyperplanes, weights.rows,
                                      stride, zeroPadding, af);
      FilterBankSize(weights.hyperplanes, weights.planes, weights.rows);
      l.weights, l.biases := weights, biases;
      l.CalculateFilterInfo();
      return Ok(l);
    }

    /** CalculateFilterInfo: fresh tables for the input's rows and for its columns. */
    method CalculateFilterInfo()
      requires Dimensions().Valid()
      modifies this
      ensures TablesReady() && fresh(filterRowInfo) && fresh(filterColumnInfo)
      ensures weights == old(weights) && biases == old(biases) && activationFunction == old(activationFunction)
    {
      filterRowInfo := ConvolutionGradients.NewFilterTable(inputRows, filterSize, stride, zeroPadding);
      filterColumnInfo := ConvolutionGradients.NewFilterTable(inputColumns, filterSize, stride, zeroPadding);
    }

    /**
     * InitializeWeights: only when there are no weights yet. The weights are the
     * drawn samples, the biases stay 0, and the tables are computed.
     */
    method InitializeWeights(weightSamples: seq<real>)
      requires Valid()
      requires |weightSamples| == Dimensions().WeightCount()
      modifies this
      ensures Valid() && weights != null
      ensures old(weights) != null ==>
        weights == old(weights) && biases == old(biases) &&
        filterRowInfo == old(filterRowInfo) && filterColumnInfo == old(filterColumnInfo)
      ensures old(weights) == null ==>
        fresh(weights) && fresh(biases) &&
        weights.elements[..] == weightSamples && forall f | 0 <= f < biases.size :: biases.elements[f] == 0.0
      ensures activationFunction == old(activationFunction)
    {
      if weights == null {
        var w := new Tensor(filterCount, inputChannelCount, filterSize, filterSize);
        var b := new Tensor.Of1(filterCount);
        FilterBankSize(filterCount, inputChannelCount, filterSize);
        var v := 0;
        while v < w.size
          invariant 0 <= v <= w.size
          invariant forall i | 0 <= i < v :: w.elements[i] == weightSamples[i]
          modifies w.elements
        {
          w.elements[v] := weightSamples[v];
          v := v + 1;
        }
        assert w.elements[..] == weightSamples;
        weights, biases := w, b;
        CalculateFilterInfo();
      }
    }

    /**
     * FeedForward: every output cell is its filter's bias plus the cross-correlation
     * of the filter with the in-bounds part of its window.
     */
    method FeedForward(inputs: Tensor, outputs: Tensor)
      requires Valid() && weights != null
      requires inputs.Valid() && outputs.Valid()
      requires inputs.Dims() == Shape(1, inputChannelCount, inputRows, inputColumns)
      requires outputs.Dims() == Shape(1, filterCount, outputRows, outputColumns)
      requires outputs.elements != inputs.elements && outputs.elements != weights.elements && outputs.elements != biases.elements
      modifies outputs.elements
      ensures outputs.elements[..] == ConvForward(Dimensions(), inputs.elements[..], weights.elements[..], biases.elements[..])
    {
      PlanesSize(inputChannelCount, inputRows, inputColumns);
      PlanesSize(filterCount, outputRows, outputColumns);
      Convolution.Forward(Dimensions(), inputs.elements, weights.elements, biases.elements, outputs.elements);
    }

    /**
     * BackpropagateError: the previous layer's error is zeroed, then every output
     * error is sent back through its window's weights to the in-bounds cells.
     */
    method BackpropagateError(errorInThisLayer: Tensor, errorInPreviousLayer: Tensor)
      requires Valid() && weights != null
      requires errorInThisLayer.Valid() && errorInPreviousLayer.Valid()
      requires errorInThisLayer.Dims() == Shape(1, filterCount, outputRows, outputColumns)
      requires errorInPreviousLayer.Dims() == Shape(1, inputChannelCount, inputRows, inputColumns)
      requires errorInPreviousLayer.elements != errorInThisLayer.elements && errorInPreviousLayer.elements != weights.elements
      modifies errorInPreviousLayer.elements
      ensures errorInPreviousLayer.elements[..] == ConvBackward(Dimensions(), weights.elements[..], errorInThisLayer.elements[..])
    {
      PlanesSize(inputChannelCount, inputRows, inputColumns);
      PlanesSize(filterCount, outputRows, outputColumns);
      errorInPreviousLayer.SetAllToZero();
      Convolution.ScatterErrors(Dimensions(), weights.elements, errorInThisLayer.elements, errorInPreviousLayer.elements);
    }

    /**
     * UpdateWeightAndBiasErrors: each weight's nabla grows by the sum of δ·activation
     * over the outputs whose window puts it on an input cell, and each bias's nabla
     * by the sum of its filter's δ plane.
     */
    method UpdateWeightAndBiasErrors(delta: Tensor, previousLayerActivations: Tensor, nablaW: Tensor, nablaB: Tensor)
      requires Valid() && weights != null
      requires delta.Valid() && previousLayerActivations.Valid() && nablaW.Valid() && nablaB.Valid()
      requires delta.Dims() == Shape(1, filterCount, outputRows, outputColumns)
      requires previousLayerActivations.Dims() == Shape(1, inputChannelCount, inputRows, inputColumns)
      requires nablaW.Dims() == weights.Dims() && nablaB.size == filterCount
      requires nablaW.elements != previousLayerActivations.elements && nablaW.elements != delta.elements
      requires nablaB.elements != previousLayerActivations.elements && nablaB.elements != delta.elements
      requires nablaW.elements != nablaB.elements
      modifies nablaW.elements, nablaB.elements
      ensures forall k | 0 <= k < nablaW.size ::
        nablaW.elements[k] == old(nablaW.elements[k])
                              + WeightGradients(Dimensions(), previousLayerActivations.elements[..], delta.elements[..])[k]
      ensures forall f | 0 <= f < filterCount ::
        nablaB.elements[f] == old(nablaB.elements[f]) + BiasGradient(Dimensions(), delta.elements[..], f)
    {
      PlanesSize(inputChannelCount, inputRows, inputColumns);
      PlanesSize(filterCount, outputRows, outputColumns);
      ConvolutionGradients.AddWeightAndBiasErrors(Dimensions(), previousLayerActivations.elements, delta.elements,
        nablaW.elements, nablaB.elements, filterRowInfo, filterColumnInfo);
    }

    /** UpdateWeightsAndBiases of a weighted layer, on this layer's weights and biases. */
    method UpdateWeightsAndBiases(nablaW: Tensor, nablaB: Tensor, scalar: real)
      requires Valid() && weights != null && nablaW.Valid() && nablaB.Valid()
      requires nablaW.Dims() == weights.Dims() && nablaB.Dims() == biases.Dims()
      requires nablaW.elements != weights.elements && nablaW.elements != biases.elements
      requires nablaB.elements != weights.elements && nablaB.elements != biases.elements
      modifies weights.elements, biases.elements
      ensures weights.elements[..] == Weighted.Step(old(weights.elements[..]), nablaW.elements[..], scalar)
      ensures biases.elements[..] == Weighted.Step(old(biases.elements[..]), nablaB.elements[..], scalar)
    {
      Weighted.UpdateWeightsAndBiases(weights, biases, nablaW, nablaB, scalar);
    }

    /** DecayWeights of a weighted layer: the weights only. */
    method DecayWeights(factor: real)
      requires Valid() && weights != null
      modifies weights.elements
      ensures weights.elements[..] == Weighted.Scale(old(weights.elements[..]), factor)
      ensures biases.elements[..] == old(biases.elements[..])
    {
      Weighted.DecayWeights(weights, factor);
    }

    /** Save: the layer's record. */
    method Save() returns (out: seq<Unit>)
      requires Valid() && weights != null
      requires IsU32(stride) && IsU32(zeroPadding)
      requires weights.Dims().IsU32Shape() && IsU32(weights.size) && biases.Dims().IsU32Shape() && IsU32(biases.size)
      ensures out == RecordUnits(activationFunction, stride, zeroPadding, weights.Value(), biases.Value())
    {
      out := [Byte(1)] + Activations.SaveUnits(activationFunction) + U32Bytes(stride) + U32Bytes(zeroPadding);
      var w := weights.Save();
      var b := biases.Save();
      out := out + w + b;
    }
  }
}
