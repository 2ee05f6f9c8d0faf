/**
 * FeedForwardNetwork: the input dimensions, the training settings and the
 * stack of layers, which the Add*Layer methods grow one layer at a time under
 * the construction rules: no max-pooling layer first, and no convolutional or
 * max-pooling layer after a fully-connected one. Each new layer is built for
 * the output dimensions of the layer before it (or the network input).
 */
module Networks {
  import opened Wrappers
  import opened Layers
  import Activations
  import FullyConnected
  import ConvolutionalLayers
  import MaxPooling
  import ConvolutionSpec

  // ---------------------------------------------------------------------------
  // The construction rules, on the sequence of layer types.

  /** Whether a layer of type `t` may be added on top of layers of types `types`. */
  predicate MayFollow(types: seq<LayerType>, t: LayerType)
  {
    match t
    case FullyConnectedType => true
    case ConvolutionalType => types == [] || types[|types| - 1] != FullyConnectedType
    case MaxPoolingType => types != [] && types[|types| - 1] != FullyConnectedType
  }

  /** Every layer of the stack was admitted by the rules on top of the layers below it. */
  predicate WellOrdered(types: seq<LayerType>)
  {
    forall i :: 0 <= i < |types| ==> MayFollow(types[..i], types[i])
  }

  /** The fully-connected layers form a tail of the stack, and a pooling layer never comes first. */
  predicate FullyConnectedTail(types: seq<LayerType>)
  {
    (|types| > 0 ==> types[0] != MaxPoolingType) &&
    forall i, j :: 0 <= i < j < |types| && types[i] == FullyConnectedType ==> types[j] == FullyConnectedType
  }

  /** In a well-ordered stack, every layer above a fully-connected layer is fully connected. */
  lemma {:induction false} FullyConnectedPersists(types: seq<LayerType>, i: nat, j: nat)
    requires WellOrdered(types) && i < j < |types| && types[i] == FullyConnectedType
    ensures types[j] == FullyConnectedType
    decreases j - i
  {
    if j > i + 1 {
      FullyConnectedPersists(types, i, j - 1);
    }
    assert MayFollow(types[..j], types[j]);
    assert types[..j][j - 1] == types[j - 1];
  }

  /** The rules admit exactly the stacks whose fully-connected layers form a tail and whose first layer is not pooling. */
  lemma WellOrderedIsFullyConnectedTail(types: seq<LayerType>)
    ensures WellOrdered(types) <==> FullyConnectedTail(types)
  {
    if WellOrdered(types) {
      if |types| > 0 {
        assert MayFollow(types[..0], types[0]);
      }
      forall i, j | 0 <= i < j < |types| && types[i] == FullyConnectedType
        ensures types[j] == FullyConnectedType
      {
        FullyConnectedPersists(types, i, j);
      }
    }
    if FullyConnectedTail(types) {
      forall i | 0 <= i < |types|
        ensures MayFollow(types[..i], types[i])
      {
        if i > 0 {
          assert types[..i][i - 1] == types[i - 1];
        }
      }
    }
  }

  /** A well-ordered stack stays well ordered after adding a layer exactly when the rules admit it. */
  lemma AppendKeepsOrder(types: seq<LayerType>, t: LayerType)
    requires WellOrdered(types)
    ensures WellOrdered(types + [t]) <==> MayFollow(types, t)
  {
    var grown := types + [t];
    assert grown[..|types|] == types;
    forall i | 0 <= i < |types|
      ensures grown[..i] == types[..i] && grown[i] == types[i]
    {
    }
  }

  /** Why an Add*Layer call throws. */
  datatype Problem =
    | KeepOutOfRange
    | PaddingTooLarge
    | ConvolutionalAfterFullyConnected
    | FilterDoesNotFit
    | PoolingFirst
    | PoolingAfterFullyConnected
    | OddPoolingInput
  {
    /** The message thrown (FilterDoesNotFit is the model's own refusal, see the Layers module). */
    function Message(): string
    {
      match this
      case KeepOutOfRange => "Keep probability must be greater than 0 and no greater than one."
      case PaddingTooLarge => "Zero padding must be less than the size of the filter."
      case ConvolutionalAfterFullyConnected => "A convolutional layer cannot follow a fully connected layer."
      case FilterDoesNotFit => "The filter does not fit the input of the convolutional layer."
      case PoolingFirst => "A max pooling layer cannot be the first layer in the network."
      case PoolingAfterFullyConnected => "A max pooling layer cannot follow a fully connected layer."
      case OddPoolingInput => "Input dimensions to MaxPoolingLayer must be divisible by 2."
    }
  }

  // ---------------------------------------------------------------------------
  // Chaining: each layer is built for what the layer below it produces.

  function TypesOf(ls: seq<Layer>): (t: seq<LayerType>)
    ensures |t| == |ls| && forall i :: 0 <= i < |ls| ==> t[i] == ls[i].Type()
  {
    seq(|ls|, i requires 0 <= i < |ls| => ls[i].Type())
  }

  /** What a layer placed on top of `ls` receives: the output of the top layer, or the network input. */
  function Top(ls: seq<Layer>, input: Dims): Dims
  {
    if ls == [] then input else ls[|ls| - 1].Output()
  }

  /** Every layer accepts what the layers below it (or the network input) produce. */
  predicate Chained(ls: seq<Layer>, input: Dims)
  {
    forall i :: 0 <= i < |ls| ==> ls[i].Accepts(Top(ls[..i], input))
  }

  /** Pushing a layer that accepts the top output keeps the stack chained. */
  lemma PushKeepsChain(ls: seq<Layer>, input: Dims, l: Layer)
    requires Chained(ls, input) && l.Accepts(Top(ls, input))
    ensures Chained(ls + [l], input)
  {
    var grown := ls + [l];
    assert grown[..|ls|] == ls;
    forall i | 0 <= i < |ls|
      ensures grown[..i] == ls[..i] && grown[i] == ls[i]
    {
    }
  }

  /** A weightless convolutional layer built for input of dimensions `d`. */
  method NewConvolutional(d: Dims, filterCount: nat, filterSize: nat, stride: nat, zeroPadding: nat,
                          af: Option<Activations.ActivationFunction>)
    returns (l: ConvolutionalLayers.ConvolutionalLayer)
    requires ConvolutionSpec.Geometry(d.planes, d.rows, d.columns, filterCount, filterSize, stride, zeroPadding).Valid()
    ensures fresh(l) && l.Valid() && l.weights == null && l.activationFunction == af
    ensures l.Dimensions() == ConvolutionSpec.Geometry(d.planes, d.rows, d.columns, filterCount, filterSize, stride, zeroPadding)
    ensures Conv(l).Accepts(d)
  {
    l := new ConvolutionalLayers.ConvolutionalLayer(d.planes, d.rows, d.columns, filterCount, filterSize, stride, zeroPadding, af);
  }

  // ---------------------------------------------------------------------------
  // The network.

  class FeedForwardNetwork {
    var name: string
    const inputChannelCount: nat
    const inputRows: nat
    const inputColumns: nat
    const threadCount: nat
    var epochsTrained: nat
    var learningRate: real
    var weightDecay: real
    var weightDecayMultiplier: real
    var layers: seq<Layer>

    function Input(): Dims
    {
      Dims(inputChannelCount, inputRows, inputColumns)
    }

    /** What a new layer receives. */
    function NextInput(): Dims
      reads this
    {
      Top(layers, Input())
    }

    /** The keep probability of the top layer if it is fully connected, else 1. */
    function PrevKeep(): real
      reads this
    {
      if layers == [] then 1.0 else layers[|layers| - 1].KeepProbability()
    }

    /** The stack obeys the construction rules and every layer was built for what the layer below produces. */
    ghost predicate Valid()
      reads this
    {
      WellOrdered(TypesOf(layers)) && Chained(layers, Input())
    }

    /** The constructor: no layers yet, and a weight-decay multiplier of 1. */
    constructor (name: string, inputChannelCount: nat, inputRows: nat, inputColumns: nat, threadCount: nat,
                 epochsTrained: nat, learningRate: real, weightDecay: real)
      ensures Valid() && layers == []
      ensures this.name == name && Input() == Dims(inputChannelCount, inputRows, inputColumns)
      ensures this.threadCount == threadCount && this.epochsTrained == epochsTrained
      ensures this.learningRate == learningRate && this.weightDecay == weightDecay && weightDecayMultiplier == 1.0
    {
      this.name := name;
      this.inputChannelCount, this.inputRows, this.inputColumns := inputChannelCount, inputRows, inputColumns;
      this.threadCount, this.epochsTrained := threadCount, epochsTrained;
      this.learningRate, this.weightDecay, weightDecayMultiplier := learningRate, weightDecay, 1.0;
      layers := [];
    }

    /** Pushing a layer the rules admit and that accepts what it receives keeps the network valid. */
    method Push(l: Layer)
      requires Valid() && MayFollow(TypesOf(layers), l.Type()) && l.Accepts(NextInput())
      modifies this`layers
      ensures Valid() && layers == old(layers) + [l]
    {
      AppendKeepsOrder(TypesOf(layers), l.Type());
      PushKeepsChain(layers, Input(), l);
      assert TypesOf(layers + [l]) == TypesOf(layers) + [l.Type()];
      layers := layers + [l];
    }

    /**
     * AddFullyConnectedLayer: throws unless 0 < keep ≤ 1; the new layer's input
     * size is the flattened output of the top layer (or of the network input), and
     * its previous-layer keep probability that of the top layer when it is fully
     * connected, else 1.
     */
    method AddFullyConnectedLayer(layerSize: nat, af: Option<Activations.ActivationFunction>, keepProbability: real)
      returns (error: Option<Problem>)
      requires Valid()
      modifies this`layers
      ensures Valid()
      ensures error.Some? <==> keepProbability > 1.0 || keepProbability <= 0.0
      ensures error.Some? ==> error == Some(KeepOutOfRange) && layers == old(layers)
      ensures error.None? ==>
        |layers| == |old(layers)| + 1 && layers == old(layers) + [layers[|old(layers)|]] &&
        var l := layers[|old(layers)|];
        l.FC? && fresh(l.fc) && l.fc.Valid() && l.fc.weights == null &&
        l.fc.inputSize == old(NextInput()).Size() && l.fc.outputColumns == layerSize && l.fc.activationFunction == af &&
        l.fc.keepProbability == keepProbability && l.fc.prevLayerKeepProbability == old(PrevKeep())
    {
      if keepProbability > 1.0 || keepProbability <= 0.0 {
        return Some(KeepOutOfRange);
      }
      var input := NextInput();
      var prevKeep := PrevKeep();
      var fc := new FullyConnected.FullyConnectedLayer(input.Size(), layerSize, af, keepProbability, prevKeep);
      Push(FC(fc));
      error := None;
    }

    /**
     * AddConvolutionalLayer: throws when the padding is not below the filter size,
     * then when the top layer is fully connected; the new layer takes the top
     * layer's output (or the network input) as its input channels, rows and columns.
     */
    method AddConvolutionalLayer(filterCount: nat, filterSize: nat, stride: nat, zeroPadding: nat,
                                 af: Option<Activations.ActivationFunction>)
      returns (error: Option<Problem>)
      requires Valid()
      modifies this`layers
      ensures Valid()
      ensures zeroPadding >= filterSize ==> error == Some(PaddingTooLarge)
      ensures zeroPadding < filterSize && TypesOf(old(layers)) != [] && TypesOf(old(layers))[|old(layers)| - 1] == FullyConnectedType ==>
        error == Some(ConvolutionalAfterFullyConnected)
      ensures (zeroPadding < filterSize && MayFollow(TypesOf(old(layers)), ConvolutionalType) &&
               (stride == 0 || filterSize > old(NextInput()).rows || filterSize > old(NextInput()).columns)) ==>
        error == Some(FilterDoesNotFit)
      ensures error.None? <==> zeroPadding < filterSize && MayFollow(TypesOf(old(layers)), ConvolutionalType) &&
                               stride != 0 && filterSize <= old(NextInput()).rows && filterSize <= old(NextInput()).columns
      ensures error.Some? ==> layers == old(layers)
      ensures error.None? ==>
        |layers| == |old(layers)| + 1 && layers == old(layers) + [layers[|old(layers)|]] &&
        var l := layers[|old(layers)|];
        var d := old(NextInput());
        l.Conv? && fresh(l.conv) && l.conv.Valid() && l.conv.weights == null && l.conv.activationFunction == af &&
        l.conv.Dimensions() == ConvolutionSpec.Geometry(d.planes, d.rows, d.columns, filterCount, filterSize, stride, zeroPadding)
    {
      if zeroPadding >= filterSize {
        return Some(PaddingTooLarge);
      }
      if layers != [] && layers[|layers| - 1].FC? {
        return Some(ConvolutionalAfterFullyConnected);
      }
      var input := NextInput();
      if stride == 0 || filterSize > input.rows || filterSize > input.columns {
        return Some(FilterDoesNotFit);
      }
      var conv := NewConvolutional(input, filterCount, filterSize, stride, zeroPadding, af);
      Push(Conv(conv));
      error := None;
    }

    /**
     * AddMaxPoolingLayer: throws when the network has no layer yet, then when the
     * top layer is fully connected, then (from the layer's constructor) when the
     * top layer's output rows or columns are odd.
     */
    method AddMaxPoolingLayer() returns (error: Option<Problem>)
      requires Valid()
      modifies this`layers
      ensures Valid()
      ensures old(layers) == [] ==> error == Some(PoolingFirst)
      ensures old(layers) != [] && TypesOf(old(layers))[|old(layers)| - 1] == FullyConnectedType ==>
        error == Some(PoolingAfterFullyConnected)
      ensures MayFollow(TypesOf(old(layers)), MaxPoolingType) && (old(NextInput()).rows % 2 != 0 || old(NextInput()).columns % 2 != 0) ==>
        error == Some(OddPoolingInput)
      ensures error.None? <==> MayFollow(TypesOf(old(layers)), MaxPoolingType) &&
                               old(NextInput()).rows % 2 == 0 && old(NextInput()).columns % 2 == 0
      ensures error.Some? ==> layers == old(layers)
      ensures error.None? ==>
        |layers| == |old(layers)| + 1 && layers == old(layers) + [layers[|old(layers)|]] &&
        var l := layers[|old(layers)|];
        var d := old(NextInput());
        l.Pool? && fresh(l.pool) && l.pool.Valid() &&
        l.pool.inputChannelCount == d.planes && l.pool.inputRows == d.rows && l.pool.inputColumns == d.columns
    {
      if layers == [] {
        return Some(PoolingFirst);
      }
      if layers[|layers| - 1].FC? {
        return Some(PoolingAfterFullyConnected);
      }
      var input := NextInput();
      var created := MaxPooling.MaxPoolingLayer.Create(input.planes, input.rows, input.columns);
      if created.Err? {
        return Some(OddPoolingInput);
      }
      Push(Pool(created.value));
      error := None;
    }
  }
}
