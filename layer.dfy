/**
 * What every layer shares: its type tag, its output dimensions, the keep
 * probability the next layer sees, and the saved record that Layer::Load
 * reads back, dispatching on the tag and building the layer from the
 * dimensions of the layer before it.
 */
module Layers {
  import opened Wrappers
  import opened Streams
  import opened Tensors
  import Activations
  import FullyConnected
  import ConvolutionalLayers
  import MaxPooling
  import ConvolutionSpec

  /** Layer::Types. */
  datatype LayerType = FullyConnectedType | ConvolutionalType | MaxPoolingType

  /** FullyConnected = 0, Convolutional = 1, MaxPooling = 2. */
  function TypeTag(t: LayerType): nat
  {
    match t
    case FullyConnectedType => 0
    case ConvolutionalType => 1
    case MaxPoolingType => 2
  }

  /** The layer type a tag stands for, if any. */
  function TypeOfTag(tag: int): (r: Option<LayerType>)
    ensures r.Some? <==> 0 <= tag <= 2
    ensures r.Some? ==> TypeTag(r.value) == tag
  {
    if tag == 0 then Some(FullyConnectedType)
    else if tag == 1 then Some(ConvolutionalType)
    else if tag == 2 then Some(MaxPoolingType)
    else None
  }

  /** The three tags are distinct. */
  lemma TagsIdentifyTypes(t: LayerType, u: LayerType)
    ensures TypeTag(t) == TypeTag(u) <==> t == u
    ensures TypeOfTag(TypeTag(t)) == Some(t)
  {
  }

  /** Output planes, rows and columns of a layer. */
  datatype Dims = Dims(planes: nat, rows: nat, columns: nat)
  {
    function Size(): nat { (planes * rows) * columns }
  }

  // ---------------------------------------------------------------------------
  // The layer objects of a network.

  /** A layer of the network, one of the three concrete classes. */
  datatype Layer = FC(fc: FullyConnected.FullyConnectedLayer)
                 | Conv(conv: ConvolutionalLayers.ConvolutionalLayer)
                 | Pool(pool: MaxPooling.MaxPoolingLayer)
  {
    function Type(): LayerType
    {
      match this
      case FC(_) => FullyConnectedType
      case Conv(_) => ConvolutionalType
      case Pool(_) => MaxPoolingType
    }

    /** The object whose fields describe the layer. */
    function Object(): object
    {
      match this
      case FC(l) => l
      case Conv(l) => l
      case Pool(l) => l
    }

    /** The layer was built for input of dimensions `d` (a fully-connected layer sees them flattened). */
    predicate Accepts(d: Dims)
    {
      match this
      case FC(l) => l.inputSize == d.Size()
      case Conv(l) => l.inputChannelCount == d.planes && l.inputRows == d.rows && l.inputColumns == d.columns
      case Pool(l) => l.inputChannelCount == d.planes && l.inputRows == d.rows && l.inputColumns == d.columns
    }

    function Output(): Dims
    {
      match this
      case FC(l) => Dims(l.outputPlanes, l.outputRows, l.outputColumns)
      case Conv(l) => Dims(l.outputPlanes, l.outputRows, l.outputColumns)
      case Pool(l) => Dims(l.outputPlanes, l.outputRows, l.outputColumns)
    }

    /** KeepProbability: a fully-connected layer's own; the base class's 1.0 for the others. */
    function KeepProbability(): (p: real)
      ensures !FC? ==> p == 1.0
    {
      if FC? then fc.keepProbability else 1.0
    }
  }

  // ---------------------------------------------------------------------------
  // Saved records.

  /** A layer as its record stores it. */
  datatype LayerRecord =
    | FCRecord(af: Option<Activations.ActivationFunction>, keep: real, weights: TensorValue, biases: TensorValue)
    | ConvRecord(af: Option<Activations.ActivationFunction>, stride: nat, padding: nat, weights: TensorValue, biases: TensorValue)
    | PoolRecord
  {
    function Type(): LayerType
    {
      match this
      case FCRecord(_, _, _, _) => FullyConnectedType
      case ConvRecord(_, _, _, _, _) => ConvolutionalType
      case PoolRecord => MaxPoolingType
    }

    /** Every field fits the width it is written with. */
    predicate Saveable()
    {
      match this
      case FCRecord(_, _, w, b) => TensorSaveable(w) && TensorSaveable(b)
      case ConvRecord(_, s, p, w, b) => IsU32(s) && IsU32(p) && TensorSaveable(w) && TensorSaveable(b)
      case PoolRecord => true
    }

    /** The keep probability the next layer is built with. */
    function KeepProbability(): real
    {
      if FCRecord? then keep else 1.0
    }
  }

  predicate TensorSaveable(t: TensorValue)
  {
    t.WellFormed() && t.shape.IsU32Shape() && IsU32(t.shape.Size())
  }

  /** What each layer's Save writes. */
  function RecordUnits(r: LayerRecord): seq<Unit>
    requires r.Saveable()
  {
    match r
    case FCRecord(af, keep, w, b) => FullyConnected.RecordUnits(af, keep, w, b)
    case ConvRecord(af, s, p, w, b) => ConvolutionalLayers.RecordUnits(af, s, p, w, b)
    case PoolRecord => [Byte(2)]
  }

  /** A tensor inside a layer record; a stream that ends early is refused. */
  function DecodeTensorIn(s: seq<Unit>, pos: nat): (r: Result<Decoded<TensorValue>>)
    ensures r.Ok? ==> TensorSaveable(r.value.value) && r.value.next <= |s|
  {
    match DecodeTensor(s, pos)
    case Some(d) => Ok(d)
    case None => Err("The stream ended inside a tensor.")
  }

  /**
   * The record part of Layer::Load: the tag byte (the end of the stream reads as -1),
   * then the record of that layer type. Any other tag throws.
   */
  function DecodeLayer(s: seq<Unit>, pos: nat): (r: Result<Decoded<LayerRecord>>)
    ensures r.Ok? ==> r.value.next <= |s| && r.value.value.Saveable()
  {
    var tag := if pos < |s| && s[pos].Byte? then s[pos].b as int else -1;
    match TypeOfTag(tag)
    case None => Err("Unrecognized layer type.")
    case Some(FullyConnectedType) => DecodeFullyConnected(s, pos + 1)
    case Some(ConvolutionalType) => DecodeConvolutional(s, pos + 1)
    case Some(MaxPoolingType) => Ok(Decoded(PoolRecord, pos + 1))
  }

  /** After the tag of a fully-connected layer: its activation, keep probability, weights and biases. */
  function DecodeFullyConnected(s: seq<Unit>, pos: nat): (r: Result<Decoded<LayerRecord>>)
    ensures r.Ok? ==> r.value.next <= |s| && r.value.value.FCRecord? && r.value.value.Saveable()
  {
    var af :- Activations.Load(s, pos);
    match ReadDouble(s, af.next)
    case None => Err("The stream ended inside a layer record.")
    case Some(keep) =>
      var wb :- DecodeWeightsAndBiases(s, af.next + 1);
      Ok(Decoded(FCRecord(af.value, keep, wb.value.0, wb.value.1), wb.next))
  }

  /** After the tag of a convolutional layer: its activation, stride, padding, weights and biases. */
  function DecodeConvolutional(s: seq<Unit>, pos: nat): (r: Result<Decoded<LayerRecord>>)
    ensures r.Ok? ==> r.value.next <= |s| && r.value.value.ConvRecord? && r.value.value.Saveable()
  {
    var af :- Activations.Load(s, pos);
    var stride :- U32In(s, af.next);
    var padding :- U32In(s, af.next + 4);
    var wb :- DecodeWeightsAndBiases(s, af.next + 8);
    Ok(Decoded(ConvRecord(af.value, stride, padding, wb.value.0, wb.value.1), wb.next))
  }

  /** A u32 inside a layer record; a stream that ends early is refused. */
  function U32In(s: seq<Unit>, pos: nat): (r: Result<nat>)
    ensures r.Ok? ==> IsU32(r.value) && pos + 4 <= |s|
  {
    match ReadU32(s, pos)
    case Some(n) => Ok(n)
    case None => Err("The stream ended inside a layer record.")
  }

  /** The two tensors that end a weighted layer's record. */
  function DecodeWeightsAndBiases(s: seq<Unit>, pos: nat): (r: Result<Decoded<(TensorValue, TensorValue)>>)
    ensures r.Ok? ==> r.value.next <= |s| && TensorSaveable(r.value.value.0) && TensorSaveable(r.value.value.1)
  {
    var w :- DecodeTensorIn(s, pos);
    var b :- DecodeTensorIn(s, w.next);
    Ok(Decoded((w.value, b.value), b.next))
  }

  /** Load reads back the two tensors Save wrote one after the other. */
  lemma WeightsAndBiasesRoundTrip(s: seq<Unit>, pos: nat, bpos: nat, w: TensorValue, b: TensorValue)
    requires TensorSaveable(w) && TensorSaveable(b) && bpos == pos + SavedLength(w)
    requires SitsAt(s, pos, TensorUnits(w)) && SitsAt(s, bpos, TensorUnits(b))
    ensures DecodeWeightsAndBiases(s, pos) == Ok(Decoded((w, b), pos + SavedLength(w) + SavedLength(b)))
  {
    TensorRoundTrip(s, pos, w);
    TensorRoundTrip(s, bpos, b);
    WeightsAndBiasesSteps(s, pos, bpos, w, b);
  }

  /** Decoding the two tensors in turn. */
  lemma WeightsAndBiasesSteps(s: seq<Unit>, pos: nat, bpos: nat, w: TensorValue, b: TensorValue)
    requires bpos == pos + SavedLength(w)
    requires DecodeTensor(s, pos) == Some(Decoded(w, pos + SavedLength(w)))
    requires DecodeTensor(s, bpos) == Some(Decoded(b, bpos + SavedLength(b)))
    ensures DecodeWeightsAndBiases(s, pos) == Ok(Decoded((w, b), pos + SavedLength(w) + SavedLength(b)))
  {
  }

  // Positions inside the record of a weighted layer that starts at `pos`.

  /** Just past the tag and the activation. */
  function FieldsStart(pos: nat, r: LayerRecord): nat
    requires !r.PoolRecord?
  {
    pos + 1 + |Activations.SaveUnits(r.af)|
  }

  /** Where the weights begin: after the keep probability, or after stride and padding. */
  function WeightsStart(pos: nat, r: LayerRecord): nat
    requires !r.PoolRecord?
  {
    if r.FCRecord? then FieldsStart(pos, r) + 1 else FieldsStart(pos, r) + 8
  }

  /** Where the biases begin. */
  function BiasesStart(pos: nat, r: LayerRecord): nat
    requires !r.PoolRecord?
  {
    WeightsStart(pos, r) + SavedLength(r.weights)
  }

  /** Load reads back exactly the record Save wrote, wherever it sits in the stream. */
  lemma LayerRoundTrip(s: seq<Unit>, pos: nat, r: LayerRecord)
    requires r.Saveable() && SitsAt(s, pos, RecordUnits(r))
    ensures DecodeLayer(s, pos) == Ok(Decoded(r, pos + |RecordUnits(r)|))
  {
    match r
    case PoolRecord =>
      SitsAtIndex(s, pos, RecordUnits(r), 0);
    case FCRecord(_, _, _, _) =>
      FCRoundTrip(s, pos, r);
    case ConvRecord(_, _, _, _, _) =>
      ConvRoundTrip(s, pos, r);
  }

  lemma FCRoundTrip(s: seq<Unit>, pos: nat, r: LayerRecord)
    requires r.FCRecord? && r.Saveable() && SitsAt(s, pos, RecordUnits(r))
    ensures DecodeLayer(s, pos) == Ok(Decoded(r, pos + |RecordUnits(r)|))
  {
    FCLayout(s, pos, r);
    FCFromPieces(s, pos, r);
  }

  /** A fully-connected record decodes from its pieces, each sitting where Save put it. */
  lemma FCFromPieces(s: seq<Unit>, pos: nat, r: LayerRecord)
    requires r.FCRecord? && r.Saveable() && pos < |s| && s[pos] == Byte(0)
    requires SitsAt(s, pos + 1, Activations.SaveUnits(r.af))
    requires FieldsStart(pos, r) < |s| && s[FieldsStart(pos, r)] == Double(r.keep)
    requires SitsAt(s, WeightsStart(pos, r), TensorUnits(r.weights)) && SitsAt(s, BiasesStart(pos, r), TensorUnits(r.biases))
    ensures DecodeLayer(s, pos) == Ok(Decoded(r, pos + |RecordUnits(r)|))
  {
    Activations.SaveLoadRoundTrip(s, pos + 1, r.af);
    WeightsAndBiasesRoundTrip(s, WeightsStart(pos, r), BiasesStart(pos, r), r.weights, r.biases);
    FCSteps(s, pos, r);
  }

  /** Where each piece of a fully-connected record sits. */
  lemma FCLayout(s: seq<Unit>, pos: nat, r: LayerRecord)
    requires r.FCRecord? && r.Saveable() && SitsAt(s, pos, RecordUnits(r))
    ensures pos < |s| && s[pos] == Byte(0)
    ensures SitsAt(s, pos + 1, Activations.SaveUnits(r.af))
    ensures FieldsStart(pos, r) < |s| && s[FieldsStart(pos, r)] == Double(r.keep)
    ensures SitsAt(s, WeightsStart(pos, r), TensorUnits(r.weights))
    ensures SitsAt(s, BiasesStart(pos, r), TensorUnits(r.biases))
  {
    var a, k, tw, tb := Activations.SaveUnits(r.af), [Double(r.keep)], TensorUnits(r.weights), TensorUnits(r.biases);
    SitsAtSplitAt(s, pos, [Byte(0)] + a + k + tw, tb, BiasesStart(pos, r));
    SitsAtSplitAt(s, pos, [Byte(0)] + a + k, tw, WeightsStart(pos, r));
    SitsAtSplitAt(s, pos, [Byte(0)] + a, k, FieldsStart(pos, r));
    SitsAtSplitAt(s, pos, [Byte(0)], a, pos + 1);
    SitsAtIndex(s, pos, [Byte(0)], 0);
  }

  /** Decoding a fully-connected record piece by piece. */
  lemma FCSteps(s: seq<Unit>, pos: nat, r: LayerRecord)
    requires r.FCRecord? && r.Saveable()
    requires pos < |s| && s[pos] == Byte(0)
    requires var d := Activations.Load(s, pos + 1); d.Ok? && d.value.value == r.af && d.value.next == FieldsStart(pos, r)
    requires FieldsStart(pos, r) < |s| && s[FieldsStart(pos, r)] == Double(r.keep)
    requires var d := DecodeWeightsAndBiases(s, WeightsStart(pos, r));
      d.Ok? && d.value.value == (r.weights, r.biases) && d.value.next == BiasesStart(pos, r) + SavedLength(r.biases)
    ensures DecodeLayer(s, pos) == Ok(Decoded(r, pos + |RecordUnits(r)|))
  {
    assert DecodeFullyConnected(s, pos + 1).Ok?;
    RecordEnd(pos, r);
    DecodedAs(DecodeLayer(s, pos), Decoded(r, pos + |RecordUnits(r)|));
  }

  lemma ConvRoundTrip(s: seq<Unit>, pos: nat, r: LayerRecord)
    requires r.ConvRecord? && r.Saveable() && SitsAt(s, pos, RecordUnits(r))
    ensures DecodeLayer(s, pos) == Ok(Decoded(r, pos + |RecordUnits(r)|))
  {
    ConvLayout(s, pos, r);
    ConvFromPieces(s, pos, r);
  }

  /** A convolutional record decodes from its pieces, each sitting where Save put it. */
  lemma ConvFromPieces(s: seq<Unit>, pos: nat, r: LayerRecord)
    requires r.ConvRecord? && r.Saveable() && pos < |s| && s[pos] == Byte(1)
    requires SitsAt(s, pos + 1, Activations.SaveUnits(r.af))
    requires SitsAt(s, FieldsStart(pos, r), U32Bytes(r.stride)) && SitsAt(s, FieldsStart(pos, r) + 4, U32Bytes(r.padding))
    requires SitsAt(s, WeightsStart(pos, r), TensorUnits(r.weights)) && SitsAt(s, BiasesStart(pos, r), TensorUnits(r.biases))
    ensures DecodeLayer(s, pos) == Ok(Decoded(r, pos + |RecordUnits(r)|))
  {
    ConvHeadDecodes(s, pos, r);
    WeightsAndBiasesRoundTrip(s, WeightsStart(pos, r), BiasesStart(pos, r), r.weights, r.biases);
    ConvSteps(s, pos, r);
  }

  /** The activation, stride and padding of a convolutional record read back as written. */
  lemma ConvHeadDecodes(s: seq<Unit>, pos: nat, r: LayerRecord)
    requires r.ConvRecord? && r.Saveable()
    requires SitsAt(s, pos + 1, Activations.SaveUnits(r.af))
    requires SitsAt(s, FieldsStart(pos, r), U32Bytes(r.stride)) && SitsAt(s, FieldsStart(pos, r) + 4, U32Bytes(r.padding))
    ensures var d := Activations.Load(s, pos + 1); d.Ok? && d.value.value == r.af && d.value.next == FieldsStart(pos, r)
    ensures ReadU32(s, FieldsStart(pos, r)) == Some(r.stride) && ReadU32(s, FieldsStart(pos, r) + 4) == Some(r.padding)
  {
    Activations.SaveLoadRoundTrip(s, pos + 1, r.af);
    U32RoundTrip(s, FieldsStart(pos, r), r.stride);
    U32RoundTrip(s, FieldsStart(pos, r) + 4, r.padding);
  }

  /** Where each piece of a convolutional record sits. */
  lemma ConvLayout(s: seq<Unit>, pos: nat, r: LayerRecord)
    requires r.ConvRecord? && r.Saveable() && SitsAt(s, pos, RecordUnits(r))
    ensures pos < |s| && s[pos] == Byte(1)
    ensures SitsAt(s, pos + 1, Activations.SaveUnits(r.af))
    ensures SitsAt(s, FieldsStart(pos, r), U32Bytes(r.stride))
    ensures SitsAt(s, FieldsStart(pos, r) + 4, U32Bytes(r.padding))
    ensures SitsAt(s, WeightsStart(pos, r), TensorUnits(r.weights))
    ensures SitsAt(s, BiasesStart(pos, r), TensorUnits(r.biases))
  {
    ConvTensorsLayout(s, pos, r);
    ConvFieldsLayout(s, pos, r);
  }

  /** The two tensors of a convolutional record sit after its fixed fields. */
  lemma ConvTensorsLayout(s: seq<Unit>, pos: nat, r: LayerRecord)
    requires r.ConvRecord? && r.Saveable() && SitsAt(s, pos, RecordUnits(r))
    ensures SitsAt(s, pos, [Byte(1)] + Activations.SaveUnits(r.af) + U32Bytes(r.stride) + U32Bytes(r.padding))
    ensures SitsAt(s, WeightsStart(pos, r), TensorUnits(r.weights))
    ensures SitsAt(s, BiasesStart(pos, r), TensorUnits(r.biases))
  {
    var head := [Byte(1)] + Activations.SaveUnits(r.af) + U32Bytes(r.stride) + U32Bytes(r.padding);
    var tw, tb := TensorUnits(r.weights), TensorUnits(r.biases);
    SitsAtSplitAt(s, pos, head + tw, tb, BiasesStart(pos, r));
    SitsAtSplitAt(s, pos, head, tw, WeightsStart(pos, r));
  }

  /** The tag, activation, stride and padding of a convolutional record, one after another. */
  lemma ConvFieldsLayout(s: seq<Unit>, pos: nat, r: LayerRecord)
    requires r.ConvRecord? && r.Saveable()
    requires SitsAt(s, pos, [Byte(1)] + Activations.SaveUnits(r.af) + U32Bytes(r.stride) + U32Bytes(r.padding))
    ensures pos < |s| && s[pos] == Byte(1)
    ensures SitsAt(s, pos + 1, Activations.SaveUnits(r.af))
    ensures SitsAt(s, FieldsStart(pos, r), U32Bytes(r.stride))
    ensures SitsAt(s, FieldsStart(pos, r) + 4, U32Bytes(r.padding))
  {
    var a, su, pu := Activations.SaveUnits(r.af), U32Bytes(r.stride), U32Bytes(r.padding);
    SitsAtSplitAt(s, pos, [Byte(1)] + a + su, pu, FieldsStart(pos, r) + 4);
    SitsAtSplitAt(s, pos, [Byte(1)] + a, su, FieldsStart(pos, r));
    SitsAtSplitAt(s, pos, [Byte(1)], a, pos + 1);
    SitsAtIndex(s, pos, [Byte(1)], 0);
  }

  /** Decoding a convolutional record piece by piece. */
  lemma ConvSteps(s: seq<Unit>, pos: nat, r: LayerRecord)
    requires r.ConvRecord? && r.Saveable()
    requires pos < |s| && s[pos] == Byte(1)
    requires var d := Activations.Load(s, pos + 1); d.Ok? && d.value.value == r.af && d.value.next == FieldsStart(pos, r)
    requires ReadU32(s, FieldsStart(pos, r)) == Some(r.stride) && ReadU32(s, FieldsStart(pos, r) + 4) == Some(r.padding)
    requires var d := DecodeWeightsAndBiases(s, WeightsStart(pos, r));
      d.Ok? && d.value.value == (r.weights, r.biases) && d.value.next == BiasesStart(pos, r) + SavedLength(r.biases)
    ensures DecodeLayer(s, pos) == Ok(Decoded(r, pos + |RecordUnits(r)|))
  {
    ConvDecodes(s, pos, r);
    RecordEnd(pos, r);
    DecodedAs(DecodeLayer(s, pos), Decoded(r, pos + |RecordUnits(r)|));
  }

  /** After a convolutional tag, the fields decode to the record and end where the biases end. */
  lemma ConvDecodes(s: seq<Unit>, pos: nat, r: LayerRecord)
    requires r.ConvRecord? && r.Saveable()
    requires var d := Activations.Load(s, pos + 1); d.Ok? && d.value.value == r.af && d.value.next == FieldsStart(pos, r)
    requires ReadU32(s, FieldsStart(pos, r)) == Some(r.stride) && ReadU32(s, FieldsStart(pos, r) + 4) == Some(r.padding)
    requires var d := DecodeWeightsAndBiases(s, WeightsStart(pos, r));
      d.Ok? && d.value.value == (r.weights, r.biases) && d.value.next == BiasesStart(pos, r) + SavedLength(r.biases)
    ensures var d := DecodeConvolutional(s, pos + 1);
      d.Ok? && d.value.value == r && d.value.next == DecodeWeightsAndBiases(s, WeightsStart(pos, r)).value.next
  {
    var af := Activations.Load(s, pos + 1).value;
    assert U32In(s, af.next) == Ok(r.stride) && U32In(s, af.next + 4) == Ok(r.padding);
    assert af.next + 8 == WeightsStart(pos, r);
    var wb := DecodeWeightsAndBiases(s, WeightsStart(pos, r)).value;
    assert ConvRecord(af.value, r.stride, r.padding, wb.value.0, wb.value.1) == r;
  }

  /** A weighted record ends where its biases end. */
  lemma RecordEnd(pos: nat, r: LayerRecord)
    requires !r.PoolRecord? && r.Saveable()
    ensures BiasesStart(pos, r) + SavedLength(r.biases) == pos + |RecordUnits(r)|
  {
  }

  /** A tag other than 0, 1 and 2 is refused. */
  lemma UnknownTagRefused(s: seq<Unit>, pos: nat)
    requires pos < |s| && s[pos].Byte? && s[pos].b as int > 2
    ensures DecodeLayer(s, pos) == Err("Unrecognized layer type.")
  {
  }

  // ---------------------------------------------------------------------------
  // Building a loaded layer.

  /**
   * The constructor Layer::Load calls, given the dimensions of the layer before:
   * its checks in order, then the layer's output dimensions. A fully-connected
   * layer needs a two-dimensional weight tensor and has one row of weight-rows
   * outputs; a convolutional layer checks padding, squareness and bias count and
   * has one plane per filter; max pooling needs even rows and columns and halves them.
   */
  function LoadedOutput(r: LayerRecord, input: Dims): (out: Result<Dims>)
  {
    match r
    case FCRecord(_, _, w, _) =>
      if w.shape.hyperplanes != 1 || w.shape.planes != 1 then
        Err("FullyConnectedLayer requires a 2 dimensional weight tensor.")
      else Ok(Dims(1, 1, w.shape.rows))
    case ConvRecord(_, stride, padding, w, b) =>
      var F := w.shape.rows;
      if padding >= F then Err("Zero padding must be less than the size of the filter.")
      else if F != w.shape.columns then Err("Filter width and height must be the same.")
      else if w.shape.hyperplanes != |b.elements| then Err("There must be 1 bias for each filter.")
      else if stride == 0 || F > input.rows || F > input.columns then
        Err("The filter does not fit the input of the convolutional layer.")
      else
        Ok(Dims(w.shape.hyperplanes, (input.rows + 2 * padding - F) / stride + 1,
                (input.columns + 2 * padding - F) / stride + 1))
    case PoolRecord =>
      if input.columns % 2 != 0 || input.rows % 2 != 0 then
        Err("Input dimensions to MaxPoolingLayer must be divisible by 2.")
      else Ok(Dims(input.planes, input.rows / 2, input.columns / 2))
  }

  /** A pooling layer keeps the channels and halves the plane; a convolutional layer has one plane per filter. */
  lemma LoadedOutputShapes(r: LayerRecord, input: Dims)
    requires LoadedOutput(r, input).Ok?
    ensures r.PoolRecord? ==> var o := LoadedOutput(r, input).value;
      o.planes == input.planes && 2 * o.rows == input.rows && 2 * o.columns == input.columns
    ensures r.ConvRecord? ==> LoadedOutput(r, input).value.planes == |r.biases.elements|
    ensures r.FCRecord? ==> LoadedOutput(r, input).value.Size() == r.weights.shape.rows
  {
  }
}
