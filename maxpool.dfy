/**
 * The 2×2 max-pooling layer: the forward pass keeps the largest value of each
 * disjoint 2×2 block, and backpropagation routes each block's error to every
 * cell of the block that holds that largest value.
 */
module MaxPooling {
  import opened Wrappers
  import opened Arith
  import opened Streams
  import opened Tensors

  // ---------------------------------------------------------------------------
  // Specification. Rows are counted across channels: output row g (with oc
  // columns) pools input rows 2g and 2g+1 (with 2·oc columns).

  /** The running maximum in the order the layer compares: a, b, then c, then d, replacing only on a strictly larger value. */
  function PoolOf(a: real, b: real, c: real, d: real): real
  {
    var m1 := if b > a then b else a;
    var m2 := if c > m1 then c else m1;
    if d > m2 then d else m2
  }

  /** The flat input index of the top-left cell of output o's block: 4·o − 2·(o's column). */
  function BlockCorner(o: nat, oc: nat): int
  {
    4 * o - 2 * ColumnOf(o, oc)
  }

  /** The forward pass over `size` outputs with oc columns. */
  function PoolForward(inputs: seq<real>, oc: nat, size: nat): (r: seq<real>)
    ensures |r| == size
  {
    seq(size, o requires 0 <= o < size => var k := BlockCorner(o, oc);
      PoolOf(At(inputs, k), At(inputs, k + 1), At(inputs, k + 2 * oc), At(inputs, k + 2 * oc + 1)))
  }

  /** The output whose block contains input cell k (input rows have 2·oc columns). */
  function BlockOf(k: nat, oc: nat): nat
  {
    (RowOf(k, 2 * oc) / 2) * oc + ColumnOf(k, 2 * oc) / 2
  }

  /** The backward pass: a cell gets its block's error when it holds the pooled value, else 0. */
  function PoolBackward(prevActivations: seq<real>, activations: seq<real>, err: seq<real>, oc: nat, n: nat): (r: seq<real>)
    ensures |r| == n
  {
    seq(n, k requires 0 <= k < n => var o := BlockOf(k, oc); if At(prevActivations, k) == At(activations, o) then At(err, o) else 0.0)
  }

  // ---------------------------------------------------------------------------
  // Properties.

  /** The pooled value is the maximum of the four: no smaller than each, and equal to one of them. */
  lemma PoolOfIsMaximum(a: real, b: real, c: real, d: real)
    ensures var m := PoolOf(a, b, c, d);
      a <= m && b <= m && c <= m && d <= m && (m == a || m == b || m == c || m == d)
  {
  }

  /** Output (g, c) pools the block whose top-left input cell is row 2g, column 2c. */
  lemma BlockCornerIsRowPair(g: nat, c: nat, oc: nat)
    requires c < oc
    ensures BlockCorner(g * oc + c, oc) == (2 * g) * (2 * oc) + 2 * c
  {
    RowColumnOf(g, c, oc);
    assert (2 * g) * (2 * oc) == 4 * (g * oc);
  }

  /**
   * Counting rows across channels pools within each channel: output (ch, r, c) of a
   * channels × outRows × oc tensor pools input (ch, 2r, 2c) of the channels × 2·outRows × 2·oc input.
   */
  lemma BlocksStayInTheirChannel(ch: nat, r: nat, c: nat, outRows: nat, oc: nat)
    requires r < outRows && c < oc
    ensures BlockCorner(Offset(Shape(1, 1, outRows, oc), 0, ch, r, c), oc) == Offset(Shape(1, 1, 2 * outRows, 2 * oc), 0, ch, 2 * r, 2 * c)
  {
    var g, plane := ch * outRows + r, outRows * oc;
    assert Offset(Shape(1, 1, outRows, oc), 0, ch, r, c) == plane * ch + oc * r + c;
    MulAssociates(ch, outRows, oc);
    MulDistrib(ch * outRows, r, oc);
    assert g * oc == plane * ch + oc * r;
    BlockCornerIsRowPair(g, c, oc);
    assert (2 * g) * (2 * oc) == 4 * (g * oc);
    assert Offset(Shape(1, 1, 2 * outRows, 2 * oc), 0, ch, 2 * r, 2 * c) == 4 * (plane * ch) + 4 * (oc * r) + 2 * c;
  }

  /** The cells of output (g, c)'s block all map back to that output. */
  lemma BlockOfCorners(g: nat, c: nat, oc: nat, below: bool, right: bool)
    requires c < oc
    ensures BlockOf((2 * g) * (2 * oc) + 2 * c + (if below then 2 * oc else 0) + (if right then 1 else 0), oc) == g * oc + c
  {
    var dr, dc := if below then 1 else 0, if right then 1 else 0;
    MulDistrib(2 * g, dr, 2 * oc);
    RowColumnOf(2 * g + dr, 2 * c + dc, 2 * oc);
  }

  /** Output (g, c) exists and its whole block lies inside an input four times as large. */
  lemma BlockInside(oc: nat, rowsOut: nat, g: nat, c: nat)
    requires g < rowsOut && c < oc
    ensures g * oc + c < rowsOut * oc
    ensures (2 * g) * (2 * oc) + 2 * c == 4 * (g * oc) + 2 * c
    ensures 4 * (g * oc) + 2 * c + 2 * oc + 1 < 4 * (rowsOut * oc)
  {
    MulAddBound(g, c, rowsOut, oc);
    RowEndBound(g, rowsOut, oc);
    assert (2 * g) * (2 * oc) == 4 * (g * oc);
  }

  /** The four cells of block (g, c), as the backward pass sees them. */
  lemma BackBlockCells(prevActivations: seq<real>, activations: seq<real>, err: seq<real>, oc: nat, rowsOut: nat,
                       g: nat, c: nat, o: nat, row1: nat, row2: nat, spec: seq<real>)
    requires |activations| == rowsOut * oc && |err| == rowsOut * oc && g < rowsOut && c < oc
    requires |prevActivations| == 4 * (rowsOut * oc)
    requires o == g * oc + c && row1 == 4 * (g * oc) + 2 * c && row2 == row1 + 2 * oc
    requires spec == PoolBackward(prevActivations, activations, err, oc, 4 * (rowsOut * oc))
    ensures o < |activations| && row2 + 1 < |spec|
    ensures spec[row1] == if prevActivations[row1] == activations[o] then err[o] else 0.0
    ensures spec[row1 + 1] == if prevActivations[row1 + 1] == activations[o] then err[o] else 0.0
    ensures spec[row2] == if prevActivations[row2] == activations[o] then err[o] else 0.0
    ensures spec[row2 + 1] == if prevActivations[row2 + 1] == activations[o] then err[o] else 0.0
  {
    BlockInside(oc, rowsOut, g, c);
    BlockOfCorners(g, c, oc, false, false);
    BlockOfCorners(g, c, oc, false, true);
    BlockOfCorners(g, c, oc, true, false);
    BlockOfCorners(g, c, oc, true, true);
  }

  /** The pooled output (g, c) is the PoolOf of its block's four cells. */
  lemma ForwardAtBlock(prevActivations: seq<real>, oc: nat, rowsOut: nat, g: nat, c: nat)
    requires g < rowsOut && c < oc
    requires |prevActivations| == 4 * (rowsOut * oc)
    ensures g * oc + c < rowsOut * oc
    ensures (2 * g) * (2 * oc) + 2 * c + 2 * oc + 1 < |prevActivations|
    ensures var corner := (2 * g) * (2 * oc) + 2 * c;
      PoolForward(prevActivations, oc, rowsOut * oc)[g * oc + c] ==
        PoolOf(prevActivations[corner], prevActivations[corner + 1],
               prevActivations[corner + 2 * oc], prevActivations[corner + 2 * oc + 1])
  {
    BlockInside(oc, rowsOut, g, c);
    BlockCornerIsRowPair(g, c, oc);
  }

  /** A cell holding one of its block's four values gets the error exactly when it is their maximum. */
  lemma BackwardAtCell(prevActivations: seq<real>, activations: seq<real>, err: seq<real>, oc: nat, k: nat, o: nat,
                       a: real, b: real, c: real, d: real)
    requires k < |prevActivations| && o < |activations| && BlockOf(k, oc) == o
    requires activations[o] == PoolOf(a, b, c, d)
    requires prevActivations[k] == a || prevActivations[k] == b || prevActivations[k] == c || prevActivations[k] == d
    ensures var x := prevActivations[k];
      PoolBackward(prevActivations, activations, err, oc, |prevActivations|)[k] ==
        if a <= x && b <= x && c <= x && d <= x then At(err, o) else 0.0
  {
    PoolOfIsMaximum(a, b, c, d);
  }

  /** Input cell of output (g, c)'s block: its top-left corner, moved one row down and one column right as asked. */
  function BlockCell(g: nat, c: nat, oc: nat, below: bool, right: bool): nat
  {
    (2 * g) * (2 * oc) + 2 * c + (if below then 2 * oc else 0) + (if right then 1 else 0)
  }

  /** A cell of output o's block, in a pass whose output o is its block's PoolOf, gets o's error exactly when it is a maximum of the block. */
  lemma ErrorAtBlockCell(prevActivations: seq<real>, err: seq<real>, oc: nat, size: nat, o: nat,
                         c00: nat, c01: nat, c10: nat, c11: nat, k: nat)
    requires |prevActivations| == 4 * size && o < size
    requires c00 < |prevActivations| && c01 < |prevActivations| && c10 < |prevActivations| && c11 < |prevActivations|
    requires k == c00 || k == c01 || k == c10 || k == c11
    requires BlockOf(k, oc) == o
    requires PoolForward(prevActivations, oc, size)[o] ==
      PoolOf(prevActivations[c00], prevActivations[c01], prevActivations[c10], prevActivations[c11])
    ensures var x := At(prevActivations, k);
      PoolBackward(prevActivations, PoolForward(prevActivations, oc, size), err, oc, |prevActivations|)[k] ==
        if At(prevActivations, c00) <= x && At(prevActivations, c01) <= x &&
           At(prevActivations, c10) <= x && At(prevActivations, c11) <= x
        then At(err, o) else 0.0
  {
    var a, b, c, d := prevActivations[c00], prevActivations[c01], prevActivations[c10], prevActivations[c11];
    BackwardAtCell(prevActivations, PoolForward(prevActivations, oc, size), err, oc, k, o, a, b, c, d);
  }

  /** The four cells of output (g, c)'s block lie inside the input, and the forward pass pools them. */
  lemma ForwardAtBlockCells(prevActivations: seq<real>, oc: nat, rowsOut: nat, g: nat, c: nat)
    requires g < rowsOut && c < oc
    requires |prevActivations| == 4 * (rowsOut * oc)
    ensures g * oc + c < rowsOut * oc
    ensures BlockCell(g, c, oc, false, false) < |prevActivations| && BlockCell(g, c, oc, false, true) < |prevActivations|
    ensures BlockCell(g, c, oc, true, false) < |prevActivations| && BlockCell(g, c, oc, true, true) < |prevActivations|
    ensures PoolForward(prevActivations, oc, rowsOut * oc)[g * oc + c] ==
      PoolOf(prevActivations[BlockCell(g, c, oc, false, false)], prevActivations[BlockCell(g, c, oc, false, true)],
             prevActivations[BlockCell(g, c, oc, true, false)], prevActivations[BlockCell(g, c, oc, true, true)])
  {
    ForwardAtBlock(prevActivations, oc, rowsOut, g, c);
  }

  /**
   * Forward and backward agree: when the layer's activations are the pooled values,
   * each cell of a block receives the block's error exactly when it is a maximum of the
   * block, and 0 otherwise; so every tied maximum receives it.
   */
  lemma ErrorGoesToEveryMaximum(prevActivations: seq<real>, err: seq<real>, oc: nat, rowsOut: nat, g: nat, c: nat, below: bool, right: bool)
    requires g < rowsOut && c < oc
    requires |prevActivations| == 4 * (rowsOut * oc)
    ensures BlockCell(g, c, oc, below, right) < |prevActivations|
    ensures var x := At(prevActivations, BlockCell(g, c, oc, below, right));
      PoolBackward(prevActivations, PoolForward(prevActivations, oc, rowsOut * oc), err, oc, |prevActivations|)[BlockCell(g, c, oc, below, right)] ==
        if At(prevActivations, BlockCell(g, c, oc, false, false)) <= x && At(prevActivations, BlockCell(g, c, oc, false, true)) <= x &&
           At(prevActivations, BlockCell(g, c, oc, true, false)) <= x && At(prevActivations, BlockCell(g, c, oc, true, true)) <= x
        then At(err, g * oc + c) else 0.0
  {
    var k := BlockCell(g, c, oc, below, right);
    ForwardAtBlockCells(prevActivations, oc, rowsOut, g, c);
    BlockOfCorners(g, c, oc, below, right);
    assert BlockOf(k, oc) == g * oc + c;
    var size := rowsOut * oc;
    ErrorAtBlockCell(prevActivations, err, oc, size, g * oc + c, BlockCell(g, c, oc, false, false), BlockCell(g, c, oc, false, true),
                     BlockCell(g, c, oc, true, false), BlockCell(g, c, oc, true, true), k);
  }

  /** The output tensor holds h·p·r rows of oc values, the input four times as many values. */
  lemma PoolShapeSizes(h: nat, p: nat, r: nat, oc: nat)
    ensures Shape(h, p, r, oc).Size() == (h * p * r) * oc
    ensures Shape(h, p, 2 * r, 2 * oc).Size() == 4 * ((h * p * r) * oc)
  {
    assert (r * oc) * p * h == (h * p * r) * oc;
    assert ((2 * r) * (2 * oc)) * p * h == 4 * ((r * oc) * p * h);
  }

  // ---------------------------------------------------------------------------

  class MaxPoolingLayer {
    const inputChannelCount: nat
    const inputRows: nat
    const inputColumns: nat
    const outputPlanes: nat
    const outputRows: nat
    const outputColumns: nat

    /** The output is the input halved in rows and columns, channel for channel. */
    ghost predicate Valid()
    {
      outputPlanes == inputChannelCount && inputRows == 2 * outputRows && inputColumns == 2 * outputColumns
    }

    constructor Make(inputChannelCount: nat, inputRows: nat, inputColumns: nat)
      requires inputRows % 2 == 0 && inputColumns % 2 == 0
      ensures Valid()
      ensures this.inputChannelCount == inputChannelCount && this.inputRows == inputRows && this.inputColumns == inputColumns
    {
      this.inputChannelCount, this.inputRows, this.inputColumns := inputChannelCount, inputRows, inputColumns;
      outputPlanes, outputRows, outputColumns := inputChannelCount, inputRows / 2, inputColumns / 2;
    }

    /** The constructor: throws unless both input rows and columns are even. */
    static method Create(inputChannelCount: nat, inputRows: nat, inputColumns: nat) returns (r: Result<MaxPoolingLayer>)
      ensures r.Err? <==> inputColumns % 2 != 0 || inputRows % 2 != 0
      ensures r.Err? ==> r.error == "Input dimensions to MaxPoolingLayer must be divisible by 2."
      ensures r.Ok? ==>
        fresh(r.value) && r.value.Valid() && r.value.inputChannelCount == inputChannelCount &&
        r.value.inputRows == inputRows && r.value.inputColumns == inputColumns
    {
      if inputColumns % 2 != 0 || inputRows % 2 != 0 {
        return Err("Input dimensions to MaxPoolingLayer must be divisible by 2.");
      }
      var layer := new MaxPoolingLayer.Make(inputChannelCount, inputRows, inputColumns);
      return Ok(layer);
    }

    /** Save: the pooling layer's record is its type tag alone. */
    method Save() returns (out: seq<Unit>)
      ensures out == [Byte(2)]
    {
      out := [Byte(2)];
    }

    /** Pooling: each output is the maximum of its 2×2 input block, compared in row-major order. */
    method FeedForward(inputs: Tensor, outputs: Tensor)
      requires Valid() && inputs.Valid() && outputs.Valid() && inputs.elements != outputs.elements
      requires inputs.Dims() == Shape(inputs.hyperplanes, inputChannelCount, inputRows, inputColumns)
      requires outputs.Dims() == Shape(inputs.hyperplanes, inputChannelCount, outputRows, outputColumns)
      modifies outputs.elements
      ensures outputs.elements[..] == PoolForward(inputs.elements[..], outputColumns, outputs.size)
    {
      PoolShapeSizes(inputs.hyperplanes, inputChannelCount, outputRows, outputColumns);
      var rowsOut := inputs.hyperplanes * inputChannelCount * outputRows;
      var input, output := inputs.elements, outputs.elements;
      ghost var spec := PoolForward(input[..], outputColumns, rowsOut * outputColumns);
      var g := 0;
      while g < rowsOut
        invariant 0 <= g <= rowsOut
        invariant forall o | 0 <= o < g * outputColumns :: output[o] == spec[o]
      {
        PoolRow(input, output, g, outputColumns, rowsOut);
        RowEndBound(g, rowsOut, outputColumns);
        g := g + 1;
      }
      assert forall o | 0 <= o < output.Length :: output[o] == spec[o];
    }

    /** One output row g: outputs g·oc .. g·oc + oc − 1 from input rows 2g and 2g + 1. */
    static method PoolRow(input: array<real>, output: array<real>, g: nat, oc: nat, rowsOut: nat)
      requires input != output && input.Length == 4 * (rowsOut * oc) && output.Length == rowsOut * oc && g < rowsOut
      modifies output
      ensures g * oc + oc <= output.Length
      ensures forall o | 0 <= o < output.Length ::
        output[o] == if g * oc <= o < g * oc + oc then PoolForward(input[..], oc, rowsOut * oc)[o] else old(output[o])
    {
      RowEndBound(g, rowsOut, oc);
      ghost var spec := PoolForward(input[..], oc, rowsOut * oc);
      var out := g * oc;
      var row1 := 4 * (g * oc);
      var row2 := row1 + 2 * oc;
      var c := 0;
      while c < oc
        invariant 0 <= c <= oc && out == g * oc + c && row1 == 4 * (g * oc) + 2 * c && row2 == row1 + 2 * oc
        invariant forall o | 0 <= o < output.Length ::
          output[o] == if g * oc <= o < out then spec[o] else old(output[o])
      {
        BlockInside(oc, rowsOut, g, c);
        ForwardAtBlock(input[..], oc, rowsOut, g, c);
        var m := input[row1];
        if input[row1 + 1] > m {
          m := input[row1 + 1];
        }
        if input[row2] > m {
          m := input[row2];
        }
        if input[row2 + 1] > m {
          m := input[row2 + 1];
        }
        output[out] := m;
        out, row1, row2, c := out + 1, row1 + 2, row2 + 2, c + 1;
      }
    }

    /**
     * Backpropagation: each input cell gets the error of the output whose block
     * holds it when its activation equals that output's activation, else 0.
     */
    method BackpropagateError(thisLayerActivations: Tensor, previousLayerActivations: Tensor,
                              errorInThisLayer: Tensor, errorInPreviousLayer: Tensor)
      requires Valid() && thisLayerActivations.Valid() && previousLayerActivations.Valid()
      requires errorInThisLayer.Valid() && errorInPreviousLayer.Valid()
      requires previousLayerActivations.Dims() == Shape(previousLayerActivations.hyperplanes, inputChannelCount, inputRows, inputColumns)
      requires errorInPreviousLayer.Dims() == previousLayerActivations.Dims()
      requires thisLayerActivations.Dims() == Shape(previousLayerActivations.hyperplanes, inputChannelCount, outputRows, outputColumns)
      requires errorInThisLayer.Dims() == thisLayerActivations.Dims()
      requires errorInPreviousLayer.elements != previousLayerActivations.elements
      requires errorInPreviousLayer.elements != thisLayerActivations.elements
      requires errorInPreviousLayer.elements != errorInThisLayer.elements
      modifies errorInPreviousLayer.elements
      ensures errorInPreviousLayer.elements[..] ==
        PoolBackward(previousLayerActivations.elements[..], thisLayerActivations.elements[..], errorInThisLayer.elements[..],
                     outputColumns, errorInPreviousLayer.size)
    {
      PoolShapeSizes(previousLayerActivations.hyperplanes, inputChannelCount, outputRows, outputColumns);
      var rowsOut := previousLayerActivations.hyperplanes * inputChannelCount * outputRows;
      var thisAct, prevAct := thisLayerActivations.elements, previousLayerActivations.elements;
      var err, prevErr := errorInThisLayer.elements, errorInPreviousLayer.elements;
      ghost var spec := PoolBackward(prevAct[..], thisAct[..], err[..], outputColumns, prevErr.Length);
      var g := 0;
      while g < rowsOut
        invariant 0 <= g <= rowsOut
        invariant forall k | 0 <= k < 4 * (g * outputColumns) :: prevErr[k] == spec[k]
      {
        BackRow(thisAct, prevAct, err, prevErr, g, outputColumns, rowsOut);
        RowEndBound(g, rowsOut, outputColumns);
        g := g + 1;
      }
      assert forall k | 0 <= k < prevErr.Length :: prevErr[k] == spec[k];
    }

    /** Block (g, c): each of its four cells gets the block's error when it holds the pooled value, else 0. */
    static method BackBlock(thisAct: array<real>, prevAct: array<real>, err: array<real>, prevErr: array<real>,
                            g: nat, c: nat, oc: nat, rowsOut: nat, o: nat, row1: nat, row2: nat, ghost spec: seq<real>)
      requires thisAct.Length == rowsOut * oc && err.Length == rowsOut * oc && g < rowsOut && c < oc
      requires prevAct.Length == 4 * (rowsOut * oc) && prevErr.Length == 4 * (rowsOut * oc)
      requires prevErr != prevAct && prevErr != thisAct && prevErr != err
      requires o == g * oc + c && row1 == 4 * (g * oc) + 2 * c && row2 == row1 + 2 * oc
      requires spec == PoolBackward(prevAct[..], thisAct[..], err[..], oc, prevErr.Length)
      modifies prevErr
      ensures forall k | 0 <= k < prevErr.Length ::
        prevErr[k] == if k == row1 || k == row1 + 1 || k == row2 || k == row2 + 1 then spec[k] else old(prevErr[k])
    {
      BackBlockCells(prevAct[..], thisAct[..], err[..], oc, rowsOut, g, c, o, row1, row2, spec);
      var activation := thisAct[o];
      var e11 := if prevAct[row1] == activation then err[o] else 0.0;
      var e12 := if prevAct[row1 + 1] == activation then err[o] else 0.0;
      var e21 := if prevAct[row2] == activation then err[o] else 0.0;
      var e22 := if prevAct[row2 + 1] == activation then err[o] else 0.0;
      assert e11 == spec[row1] && e12 == spec[row1 + 1] && e21 == spec[row2] && e22 == spec[row2 + 1];
      prevErr[row1] := e11;
      prevErr[row1 + 1] := e12;
      prevErr[row2] := e21;
      prevErr[row2 + 1] := e22;
    }

    /** One output row g: the errors of input rows 2g and 2g + 1, block by block. */
    static method BackRow(thisAct: array<real>, prevAct: array<real>, err: array<real>, prevErr: array<real>,
                          g: nat, oc: nat, rowsOut: nat)
      requires thisAct.Length == rowsOut * oc && err.Length == rowsOut * oc && g < rowsOut
      requires prevAct.Length == 4 * (rowsOut * oc) && prevErr.Length == 4 * (rowsOut * oc)
      requires prevErr != prevAct && prevErr != thisAct && prevErr != err
      modifies prevErr
      ensures forall k | 0 <= k < prevErr.Length ::
        prevErr[k] == if 4 * (g * oc) <= k < 4 * (g * oc) + 4 * oc
          then PoolBackward(prevAct[..], thisAct[..], err[..], oc, prevErr.Length)[k] else old(prevErr[k])
    {
      ghost var spec := PoolBackward(prevAct[..], thisAct[..], err[..], oc, prevErr.Length);
      var o := g * oc;
      var row1 := 4 * (g * oc);
      var row2 := row1 + 2 * oc;
      ghost var start := row1;
      var c := 0;
      while c < oc
        invariant 0 <= c <= oc && o == g * oc + c && row1 == start + 2 * c && row2 == row1 + 2 * oc
        invariant forall k | 0 <= k < prevErr.Length ::
          prevErr[k] == if start <= k < row1 || start + 2 * oc <= k < row2 then spec[k] else old(prevErr[k])
      {
        BackBlock(thisAct, prevAct, err, prevErr, g, c, oc, rowsOut, o, row1, row2, spec);
        o, row1, row2, c := o + 1, row1 + 2, row2 + 2, c + 1;
      }
    }
  }
}
