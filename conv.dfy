/**
 * The convolutional layer: a bank of square filters cross-correlated with a
 * zero-padded input at a given stride. Each pass walks the flat buffers with
 * running indices, clipping every window to the input one side at a time, and
 * is proved against the brute-force sums of ConvolutionSpec.
 */
module Convolution {
  import opened Wrappers
  import opened Arith
  import opened Streams
  import opened Tensors
  import opened ConvolutionSpec
  import Activations

  // ---------------------------------------------------------------------------
  // Forward pass.

  /** Stepping one row down a row-major layout moves the index by one full row. */
  lemma NextRowIndex(p: nat, r: nat, c: nat, width: nat, rows: nat, cols: nat)
    requires c + width <= cols
    ensures Index3(p, r + 1, c, rows, cols) == Index3(p, r, c + width, rows, cols) + (cols - width)
  {
    MulDistrib(p * rows + r, 1, cols);
  }

  /** With no padding every window lies inside the input, so clipping leaves the whole filter. */
  lemma UnpaddedWindowsNeedNoClipping(length: nat, filterSize: nat, stride: nat, t: nat)
    requires stride >= 1 && 0 < filterSize <= length && t < Steps(length - filterSize, stride) + 1
    ensures ClipStart(t * stride) == 0 && ClipEnd(t * stride, length, filterSize) == filterSize
  {
    WindowStartInRange(length, filterSize, stride, 0, t);
  }

  /** Term kc of a run starting at lo is the product of the input and weight entries kc - lo cells past the run's start. */
  ghost predicate RunTermMatches(terms: int -> real, x: seq<real>, w: seq<real>, weight: int, input: int, lo: int, kc: int)
  {
    0 <= input + (kc - lo) < |x| && 0 <= weight + (kc - lo) < |w| &&
    terms(kc) == x[input + (kc - lo)] * w[weight + (kc - lo)]
  }

  /** Every term of the run from lo to hi reads the entries the running indices name. */
  ghost predicate RunMatches(terms: int -> real, x: seq<real>, w: seq<real>, weight: int, input: int, lo: int, hi: int)
  {
    forall kc | lo <= kc < hi :: RunTermMatches(terms, x, w, weight, input, lo, kc)
  }

  /** A window term over an in-bounds input cell is the product of the buffer entries the running indices name. */
  lemma WindowTermAt(g: Geometry, x: seq<real>, w: seq<real>, f: nat, ch: nat, kr: nat, top: int, left: int, kc: int,
                     weight: nat, input: nat)
    requires g.Valid() && f < g.filters && ch < g.channels && kr < g.filterSize
    requires |x| >= g.InputSize() && |w| >= g.WeightCount()
    requires 0 <= top + kr < g.rows && -(g.filterSize as int) < left < g.columns
    requires ClipStart(left) <= kc < ClipEnd(left, g.columns, g.filterSize)
    requires weight == Index3(f * g.channels + ch, kr, ClipStart(left), g.filterSize, g.filterSize)
    requires input == Index3(ch, top + kr, left + ClipStart(left), g.rows, g.columns)
    ensures RunTermMatches(KcTerms(g, x, w, f, ch, kr, top, left), x, w, weight, input, ClipStart(left), kc)
  {
    var lo := ClipStart(left);
    ClipIsExact(left, g.columns, g.filterSize, kc);
    MulAddBound(f, ch, g.filters, g.channels);
    Index3Bound(ch, top + kr, left + kc, g.channels, g.rows, g.columns);
    Index3Bound(f * g.channels + ch, kr, kc, g.filters * g.channels, g.filterSize, g.filterSize);
    assert input + (kc - lo) == Index3(ch, top + kr, left + kc, g.rows, g.columns);
    assert weight + (kc - lo) == Index3(f * g.channels + ch, kr, kc, g.filterSize, g.filterSize);
    assert XAt(g, x, ch, top + kr, left + kc) == x[input + (kc - lo)];
    assert WAt(g, w, f, ch, kr, kc) == w[weight + (kc - lo)];
  }

  /** Every in-bounds term of a window row is the product of the buffer entries the running indices name. */
  lemma WindowRowReadsRuns(g: Geometry, x: seq<real>, w: seq<real>, f: nat, ch: nat, kr: nat, top: int, left: int,
                           weight: nat, input: nat)
    requires g.Valid() && f < g.filters && ch < g.channels && kr < g.filterSize
    requires |x| >= g.InputSize() && |w| >= g.WeightCount()
    requires 0 <= top + kr < g.rows && -(g.filterSize as int) < left < g.columns
    requires weight == Index3(f * g.channels + ch, kr, ClipStart(left), g.filterSize, g.filterSize)
    requires input == Index3(ch, top + kr, left + ClipStart(left), g.rows, g.columns)
    ensures RunMatches(KcTerms(g, x, w, f, ch, kr, top, left), x, w, weight, input, ClipStart(left), ClipEnd(left, g.columns, g.filterSize))
  {
    forall kc | ClipStart(left) <= kc < ClipEnd(left, g.columns, g.filterSize)
      ensures RunTermMatches(KcTerms(g, x, w, f, ch, kr, top, left), x, w, weight, input, ClipStart(left), kc)
    {
      WindowTermAt(g, x, w, f, ch, kr, top, left, kc, weight, input);
    }
  }

  /**
   * The innermost run of one window row: adds weight·input for the cells from lo to hi,
   * stepping both indices one cell at a time until the weight index reaches the end of the row.
   */
  method AccumulateRun(x: array<real>, w: array<real>, weight: nat, input: nat, lo: int, hi: int,
                       ghost terms: int -> real, acc: real)
    returns (r: real, weightEnd: nat, inputEnd: nat)
    requires lo <= hi
    requires RunMatches(terms, x[..], w[..], weight, input, lo, hi)
    ensures r == acc + Sum(lo, hi, terms)
    ensures weightEnd == weight + (hi - lo) && inputEnd == input + (hi - lo)
  {
    var weightRowEnd := weight + (hi - lo);
    r, weightEnd, inputEnd := acc, weight, input;
    ghost var kc := lo;
    while weightEnd != weightRowEnd
      invariant lo <= kc <= hi
      invariant weightEnd == weight + (kc - lo) && inputEnd == input + (kc - lo)
      invariant r == acc + Sum(lo, kc, terms)
      decreases hi - kc
    {
      assert RunTermMatches(terms, x[..], w[..], weight, input, lo, kc);
      assert terms(kc) == x[inputEnd] * w[weightEnd];
      assert Sum(lo, kc + 1, terms) == Sum(lo, kc, terms) + terms(kc);
      r := r + x[inputEnd] * w[weightEnd];
      weightEnd, inputEnd, kc := weightEnd + 1, inputEnd + 1, kc + 1;
    }
  }

  /** One in-bounds row of one channel's window: the run over the clipped columns. */
  method AccumulateWindowRow(g: Geometry, x: array<real>, w: array<real>, f: nat, ch: nat, top: int, left: int, kr: nat,
                             acc: real, weight: nat, input: nat)
    returns (r: real, weightEnd: nat, inputEnd: nat)
    requires g.Valid() && f < g.filters && ch < g.channels && kr < g.filterSize
    requires x.Length >= g.InputSize() && w.Length >= g.WeightCount()
    requires -(g.filterSize as int) < left < g.columns && 0 <= top + kr < g.rows
    requires weight == Index3(f * g.channels + ch, kr, ClipStart(left), g.filterSize, g.filterSize)
    requires input == Index3(ch, top + kr, left + ClipStart(left), g.rows, g.columns)
    ensures r == acc + ClippedRow(g, x[..], w[..], f, ch, top, left)(kr)
    ensures weightEnd == weight + (ClipEnd(left, g.columns, g.filterSize) - ClipStart(left))
    ensures inputEnd == input + (ClipEnd(left, g.columns, g.filterSize) - ClipStart(left))
  {
    var lo, hi := ClipStart(left), ClipEnd(left, g.columns, g.filterSize);
    ClipIsExact(left, g.columns, g.filterSize, 0);
    WindowRowReadsRuns(g, x[..], w[..], f, ch, kr, top, left, weight, input);
    r, weightEnd, inputEnd := AccumulateRun(x, w, weight, input, lo, hi, KcTerms(g, x[..], w[..], f, ch, kr, top, left), acc);
  }

  /** One channel's window: the in-bounds rows in turn, stepping both indices to the next row after each. */
  method AccumulateWindow(g: Geometry, x: array<real>, w: array<real>, f: nat, ch: nat, top: int, left: int, acc: real)
    returns (r: real)
    requires g.Valid() && f < g.filters && ch < g.channels
    requires x.Length >= g.InputSize() && w.Length >= g.WeightCount()
    requires -(g.filterSize as int) < top < g.rows && -(g.filterSize as int) < left < g.columns
    ensures r == acc + ChTerms(g, x[..], w[..], f, top, left)(ch)
  {
    var F := g.filterSize;
    var startRow, endRow := ClipStart(top), ClipEnd(top, g.rows, F);
    var startCol, endCol := ClipStart(left), ClipEnd(left, g.columns, F);
    ClipIsExact(top, g.rows, F, 0);
    ClipIsExact(left, g.columns, F, 0);
    var filterWidth := endCol - startCol;
    var filterRowOffset := F - filterWidth;
    var rowOffset := g.columns - filterWidth;
    var weight := Index3(f * g.channels + ch, startRow, startCol, F, F);
    var input := Index3(ch, top + startRow, left + startCol, g.rows, g.columns);
    r := acc;
    var kr := startRow;
    while kr < endRow
      invariant startRow <= kr <= endRow
      invariant weight == Index3(f * g.channels + ch, kr, startCol, F, F)
      invariant input == Index3(ch, top + kr, left + startCol, g.rows, g.columns)
      invariant r == acc + Sum(startRow, kr, ClippedRow(g, x[..], w[..], f, ch, top, left))
    {
      ClipIsExact(top, g.rows, F, kr);
      r, weight, input := AccumulateWindowRow(g, x, w, f, ch, top, left, kr, r, weight, input);
      NextRowIndex(f * g.channels + ch, kr, startCol, filterWidth, F, F);
      NextRowIndex(ch, top + kr, left + startCol, filterWidth, g.rows, g.columns);
      weight, input := weight + filterRowOffset, input + rowOffset;
      kr := kr + 1;
    }
    ClippedWindow(g, x[..], w[..], f, ch, top, left);
  }

  /** One output cell: the filter's bias plus the windows of every input channel. */
  method CellActivation(g: Geometry, x: array<real>, w: array<real>, f: nat, filterBias: real, top: int, left: int)
    returns (activation: real)
    requires g.Valid() && f < g.filters
    requires x.Length >= g.InputSize() && w.Length >= g.WeightCount()
    requires -(g.filterSize as int) < top < g.rows && -(g.filterSize as int) < left < g.columns
    ensures activation == filterBias + Correlation(g, x[..], w[..], f, top, left)
  {
    activation := filterBias;
    for ch := 0 to g.channels
      invariant activation == filterBias + Sum(0, ch, ChTerms(g, x[..], w[..], f, top, left))
    {
      activation := AccumulateWindow(g, x, w, f, ch, top, left, activation);
    }
  }

  /** Output cell (f, r, c) sits at flat index Index3(f, r, c) and holds the cell the specification names. */
  lemma ForwardCellAt(g: Geometry, x: seq<real>, w: seq<real>, b: seq<real>, f: nat, r: nat, c: nat)
    requires g.Valid() && f < g.filters && r < g.OutputRows() && c < g.OutputColumns()
    ensures Index3(f, r, c, g.OutputRows(), g.OutputColumns()) < g.OutputSize()
    ensures ConvForward(g, x, w, b)[Index3(f, r, c, g.OutputRows(), g.OutputColumns())] == ConvCell(g, x, w, b, f, r, c)
  {
    Index3Bound(f, r, c, g.filters, g.OutputRows(), g.OutputColumns());
    Index3Decomposes(f, r, c, g.OutputRows(), g.OutputColumns());
  }

  /** Output (f, r, c) sits c places after the start of output row (f, r). */
  lemma ForwardCellInRow(g: Geometry, x: seq<real>, w: seq<real>, b: seq<real>, f: nat, r: nat, c: nat, output: nat, filterBias: real)
    requires g.Valid() && f < g.filters && r < g.OutputRows() && c < g.OutputColumns()
    requires output == Index3(f, r, 0, g.OutputRows(), g.OutputColumns()) && filterBias == At(b, f)
    ensures output + c < g.OutputSize()
    ensures ConvForward(g, x, w, b)[output + c] == filterBias + Correlation(g, x, w, f, r * g.stride - g.padding, c * g.stride - g.padding)
  {
    ForwardCellAt(g, x, w, b, f, r, c);
    assert Index3(f, r, c, g.OutputRows(), g.OutputColumns()) == output + c;
  }

  /** Output (f, r, c): the bias plus the window's correlation, written at its place in row (f, r). */
  method ForwardCell(g: Geometry, x: array<real>, w: array<real>, out: array<real>, ghost b: seq<real>, ghost spec: seq<real>,
                     f: nat, filterBias: real, ghost r: nat, ghost c: nat, inputRow: int, inputCol: int, output: nat, next: nat)
    requires g.Valid() && f < g.filters && r < g.OutputRows() && c < g.OutputColumns() && next == output + c
    requires inputRow == r * g.stride - g.padding && inputCol == c * g.stride - g.padding
    requires -(g.filterSize as int) < inputRow < g.rows && -(g.filterSize as int) < inputCol < g.columns
    requires x.Length >= g.InputSize() && w.Length >= g.WeightCount() && out.Length == g.OutputSize()
    requires out != x && out != w && filterBias == At(b, f) && spec == ConvForward(g, x[..], w[..], b)
    requires output == Index3(f, r, 0, g.OutputRows(), g.OutputColumns())
    modifies out
    ensures next < out.Length
    ensures forall k | 0 <= k < out.Length :: out[k] == if k == next then spec[k] else old(out[k])
  {
    var activation := CellActivation(g, x, w, f, filterBias, inputRow, inputCol);
    ForwardCellInRow(g, x[..], w[..], b, f, r, c, output, filterBias);
    out[next] := activation;
  }

  /** One output row of filter f: windows starting at column −p, −p + s, … while the start is below endCol. */
  method ForwardRow(g: Geometry, x: array<real>, w: array<real>, out: array<real>, ghost b: seq<real>, ghost spec: seq<real>,
                    f: nat, filterBias: real, ghost r: nat, inputRow: int, output: nat)
    returns (next: nat)
    requires g.Valid() && f < g.filters && r < g.OutputRows() && inputRow == r * g.stride - g.padding
    requires x.Length >= g.InputSize() && w.Length >= g.WeightCount() && out.Length == g.OutputSize()
    requires out != x && out != w && filterBias == At(b, f) && spec == ConvForward(g, x[..], w[..], b)
    requires output == Index3(f, r, 0, g.OutputRows(), g.OutputColumns())
    modifies out
    ensures next == output + g.OutputColumns()
    ensures forall k | 0 <= k < out.Length :: out[k] == if output <= k < next then spec[k] else old(out[k])
  {
    WindowStartInRange(g.rows, g.filterSize, g.stride, g.padding, r);
    var endCol := g.columns + g.padding - g.filterSize + 1;
    var inputCol := -(g.padding as int);
    next := output;
    ghost var c := 0;
    while inputCol < endCol
      invariant c <= g.OutputColumns() && inputCol == c * g.stride - g.padding && next == output + c
      invariant forall k | 0 <= k < out.Length :: out[k] == if output <= k < next then spec[k] else old(out[k])
      decreases g.OutputColumns() - c
    {
      PaddedLoopVisitsEveryOutput(g.columns, g.filterSize, g.stride, g.padding, c);
      WindowStartInRange(g.columns, g.filterSize, g.stride, g.padding, c);
      ForwardCell(g, x, w, out, b, spec, f, filterBias, r, c, inputRow, inputCol, output, next);
      next := next + 1;
      MulDistrib(c, 1, g.stride);
      inputCol := inputCol + g.stride;
      c := c + 1;
    }
    PaddedLoopVisitsEveryOutput(g.columns, g.filterSize, g.stride, g.padding, c);
  }

  /** Every output row of filter f: windows starting at row −p, −p + s, … while the start is below endRow. */
  method ForwardPlane(g: Geometry, x: array<real>, w: array<real>, out: array<real>, ghost b: seq<real>, ghost spec: seq<real>,
                      f: nat, filterBias: real, output: nat)
    returns (next: nat)
    requires g.Valid() && f < g.filters
    requires x.Length >= g.InputSize() && w.Length >= g.WeightCount() && out.Length == g.OutputSize()
    requires out != x && out != w && filterBias == At(b, f) && spec == ConvForward(g, x[..], w[..], b)
    requires output == Index3(f, 0, 0, g.OutputRows(), g.OutputColumns())
    modifies out
    ensures next == Index3(f + 1, 0, 0, g.OutputRows(), g.OutputColumns())
    ensures forall k | 0 <= k < out.Length :: out[k] == if output <= k < next then spec[k] else old(out[k])
  {
    var endRow := g.rows + g.padding - g.filterSize + 1;
    var inputRow := -(g.padding as int);
    next := output;
    ghost var r := 0;
    while inputRow < endRow
      invariant r <= g.OutputRows() && inputRow == r * g.stride - g.padding
      invariant next == Index3(f, r, 0, g.OutputRows(), g.OutputColumns())
      invariant forall k | 0 <= k < out.Length :: out[k] == if output <= k < next then spec[k] else old(out[k])
      decreases g.OutputRows() - r
    {
      PaddedLoopVisitsEveryOutput(g.rows, g.filterSize, g.stride, g.padding, r);
      next := ForwardRow(g, x, w, out, b, spec, f, filterBias, r, inputRow, next);
      NextRowIndex(f, r, 0, g.OutputColumns(), g.OutputRows(), g.OutputColumns());
      MulDistrib(r, 1, g.stride);
      inputRow := inputRow + g.stride;
      r := r + 1;
    }
    PaddedLoopVisitsEveryOutput(g.rows, g.filterSize, g.stride, g.padding, r);
    MulDistrib(f, 1, g.OutputRows());
  }

  /** Plane f of a planes × rows × cols layout starts within it when f <= planes. */
  lemma PlaneStartBound(f: nat, planes: nat, rows: nat, cols: nat)
    requires f <= planes
    ensures Index3(f, 0, 0, rows, cols) <= (planes * rows) * cols
  {
    MulMonotone(f, planes, rows);
    MulMonotone(f * rows, planes * rows, cols);
  }

  /** The forward pass over every filter, writing the outputs in order. */
  method Forward(g: Geometry, x: array<real>, w: array<real>, b: array<real>, out: array<real>)
    requires g.Valid() && x.Length >= g.InputSize() && w.Length >= g.WeightCount() && b.Length == g.filters
    requires out.Length == g.OutputSize() && out != x && out != w && out != b
    modifies out
    ensures out[..] == ConvForward(g, x[..], w[..], b[..])
  {
    ghost var spec := ConvForward(g, x[..], w[..], b[..]);
    var output := 0;
    for f := 0 to g.filters
      invariant output == Index3(f, 0, 0, g.OutputRows(), g.OutputColumns()) && output <= out.Length
      invariant forall k | 0 <= k < output :: out[k] == spec[k]
    {
      output := ForwardPlane(g, x, w, out, b[..], spec, f, b[f], output);
      PlaneStartBound(f + 1, g.filters, g.OutputRows(), g.OutputColumns());
    }
    assert forall k | 0 <= k < out.Length :: out[k] == spec[k];
  }

  // ---------------------------------------------------------------------------
  // Backpropagating the error: every output error is scattered back through its
  // window, filter by filter, channel by channel, row by row.

  /**
   * What the windows of filter f, output row r, in front of output column c, have sent to
   * input cell k so far, counting only the window rows above input row `below`.
   */
  ghost function WindowRowsShare(g: Geometry, w: seq<real>, e: seq<real>, f: nat, r: nat, c: nat, ch: nat, below: int, k: nat): real
    requires g.Valid()
  {
    if PlaneOf(k, g.rows, g.columns) == ch && RowIn(k, g.rows, g.columns) < below
    then Contribution(g, w, e, f, r, c, ch, RowIn(k, g.rows, g.columns), ColumnIn(k, g.columns)) else 0.0
  }

  /** What the window of output (f, r, c) sends to input cell k of channel ch. */
  ghost function WindowShare(g: Geometry, w: seq<real>, e: seq<real>, f: nat, r: nat, c: nat, ch: nat, k: nat): real
    requires g.Valid()
  {
    if PlaneOf(k, g.rows, g.columns) == ch
    then Contribution(g, w, e, f, r, c, ch, RowIn(k, g.rows, g.columns), ColumnIn(k, g.columns)) else 0.0
  }

  /** What the first `done` windows of output row r of filter f send to input cell k of channel ch. */
  ghost function RowShare(g: Geometry, w: seq<real>, e: seq<real>, f: nat, r: nat, ch: nat, done: int, k: nat): real
    requires g.Valid()
  {
    if PlaneOf(k, g.rows, g.columns) == ch
    then Sum(0, done, ColContribs(g, w, e, f, r, ch, RowIn(k, g.rows, g.columns), ColumnIn(k, g.columns))) else 0.0
  }

  /** What the first `done` output rows of filter f send to input cell k of channel ch. */
  ghost function PlaneShare(g: Geometry, w: seq<real>, e: seq<real>, f: nat, ch: nat, done: int, k: nat): real
    requires g.Valid()
  {
    if PlaneOf(k, g.rows, g.columns) == ch
    then Sum(0, done, RowContribs(g, w, e, f, ch, RowIn(k, g.rows, g.columns), ColumnIn(k, g.columns))) else 0.0
  }

  /** What filter f sends to input cell k once its first `done` input channels are processed. */
  ghost function FilterShare(g: Geometry, w: seq<real>, e: seq<real>, f: nat, done: int, k: nat): real
    requires g.Valid()
  {
    if PlaneOf(k, g.rows, g.columns) < done
    then FilterContribs(g, w, e, PlaneOf(k, g.rows, g.columns), RowIn(k, g.rows, g.columns), ColumnIn(k, g.columns))(f) else 0.0
  }

  /** Error of filter f's output (r, c) scattered through a run of weights onto a run of input cells. */
  method ScatterRun(prev: array<real>, w: array<real>, ghost ws: seq<real>, weight: nat, input: nat, lo: int, hi: int, err: real)
    returns (weightEnd: nat, inputEnd: nat)
    requires prev != w && lo <= hi && input + (hi - lo) <= prev.Length && weight + (hi - lo) <= w.Length && ws == w[..]
    modifies prev
    ensures weightEnd == weight + (hi - lo) && inputEnd == input + (hi - lo)
    ensures forall k | 0 <= k < prev.Length ::
      prev[k] == old(prev[k]) + (if input <= k < inputEnd then err * ws[weight + (k - input)] else 0.0)
  {
    weightEnd, inputEnd := weight, input;
    for kc := lo to hi
      invariant weightEnd == weight + (kc - lo) && inputEnd == input + (kc - lo)
      invariant forall k | 0 <= k < prev.Length ::
        prev[k] == old(prev[k]) + (if input <= k < inputEnd then err * ws[weight + (k - input)] else 0.0)
    {
      prev[inputEnd] := prev[inputEnd] + err * w[weightEnd];
      weightEnd, inputEnd := weightEnd + 1, inputEnd + 1;
    }
  }

  /** The clipped run of window row kr lies inside both buffers. */
  lemma WindowRowRunFits(g: Geometry, f: nat, ch: nat, kr: nat, top: int, left: int, weight: nat, input: nat)
    requires g.Valid() && f < g.filters && ch < g.channels && kr < g.filterSize
    requires 0 <= top + kr < g.rows && -(g.filterSize as int) < left < g.columns
    requires weight == Index3(f * g.channels + ch, kr, ClipStart(left), g.filterSize, g.filterSize)
    requires input == Index3(ch, top + kr, left + ClipStart(left), g.rows, g.columns)
    ensures ClipStart(left) < ClipEnd(left, g.columns, g.filterSize)
    ensures input + (ClipEnd(left, g.columns, g.filterSize) - ClipStart(left)) <= g.InputSize()
    ensures weight + (ClipEnd(left, g.columns, g.filterSize) - ClipStart(left)) <= g.WeightCount()
  {
    var last := ClipEnd(left, g.columns, g.filterSize) - 1;
    ClipIsExact(left, g.columns, g.filterSize, last);
    MulAddBound(f, ch, g.filters, g.channels);
    Index3Bound(ch, top + kr, left + last, g.channels, g.rows, g.columns);
    Index3Bound(f * g.channels + ch, kr, last, g.filters * g.channels, g.filterSize, g.filterSize);
  }

  /** Cell k of the clipped run of window row kr is input cell (ch, top + kr, left + ClipStart(left) + (k − input)). */
  lemma WindowRowHitCell(g: Geometry, ch: nat, kr: nat, top: int, left: int, input: nat, k: nat)
    requires g.Valid() && 0 <= top + kr < g.rows && -(g.filterSize as int) < left < g.columns
    requires input <= k < input + (ClipEnd(left, g.columns, g.filterSize) - ClipStart(left))
    requires input == Index3(ch, top + kr, left + ClipStart(left), g.rows, g.columns)
    ensures ClipStart(left) + (k - input) < g.filterSize
    ensures PlaneOf(k, g.rows, g.columns) == ch && RowIn(k, g.rows, g.columns) == top + kr
    ensures ColumnIn(k, g.columns) == left + ClipStart(left) + (k - input)
  {
    var j := k - input;
    ClipIsExact(left, g.columns, g.filterSize, ClipStart(left) + j);
    assert k == Index3(ch, top + kr, left + ClipStart(left) + j, g.rows, g.columns);
    Index3Decomposes(ch, top + kr, left + ClipStart(left) + j, g.rows, g.columns);
  }

  /** The weight facing cell j of the run of window row kr is entry weight + j. */
  lemma WindowRowHitWeight(g: Geometry, w: seq<real>, f: nat, ch: nat, kr: nat, left: int, weight: nat, j: nat)
    requires f < g.filters && ch < g.channels && kr < g.filterSize && ClipStart(left) + j < g.filterSize
    requires |w| >= g.WeightCount()
    requires weight == Index3(f * g.channels + ch, kr, ClipStart(left), g.filterSize, g.filterSize)
    ensures weight + j < |w|
    ensures WAt(g, w, f, ch, kr, ClipStart(left) + j) == w[weight + j]
  {
    MulAddBound(f, ch, g.filters, g.channels);
    Index3Bound(f * g.channels + ch, kr, ClipStart(left) + j, g.filters * g.channels, g.filterSize, g.filterSize);
  }

  /** The contribution of output (f, r, c) to input cell (y, x) = (r·s − p + kr, c·s − p + kc) uses filter offset (kr, kc). */
  lemma ContributionAtOffset(g: Geometry, w: seq<real>, e: seq<real>, f: nat, r: nat, c: nat, ch: nat, y: int, x: int, kr: int, kc: int)
    requires g.Valid() && y == r * g.stride - g.padding + kr && x == c * g.stride - g.padding + kc
    ensures Contribution(g, w, e, f, r, c, ch, y, x) == OAt(g, e, f, r, c) * WAt(g, w, f, ch, kr, kc)
  {
    assert y - (r * g.stride - g.padding) == kr && x - (c * g.stride - g.padding) == kc;
  }

  /** A cell of row top + kr outside the clipped run faces no weight: its column is beyond the filter. */
  lemma WindowRowMiss(g: Geometry, w: seq<real>, e: seq<real>, f: nat, r: nat, c: nat, ch: nat, kr: nat,
                      top: int, left: int, input: nat, k: nat)
    requires g.Valid() && top == r * g.stride - g.padding && left == c * g.stride - g.padding
    requires 0 <= top + kr < g.rows && -(g.filterSize as int) < left < g.columns
    requires input == Index3(ch, top + kr, left + ClipStart(left), g.rows, g.columns)
    requires PlaneOf(k, g.rows, g.columns) == ch && RowIn(k, g.rows, g.columns) == top + kr
    requires !(input <= k < input + (ClipEnd(left, g.columns, g.filterSize) - ClipStart(left)))
    ensures Contribution(g, w, e, f, r, c, ch, RowIn(k, g.rows, g.columns), ColumnIn(k, g.columns)) == 0.0
  {
    Index3Recomposes(k, g.rows, g.columns);
    var x := ColumnIn(k, g.columns);
    assert k == input + (x - left - ClipStart(left));
    ClipIsExact(left, g.columns, g.filterSize, x - left);
    ContributionAtOffset(g, w, e, f, r, c, ch, RowIn(k, g.rows, g.columns), x, kr, x - left);
  }

  /**
   * Scattering window row kr of output (f, r, c) adds to input cell k exactly that row's share of
   * the contribution: the error times the weight facing k inside the clipped run, 0 elsewhere.
   */
  lemma WindowRowStep(g: Geometry, w: seq<real>, e: seq<real>, f: nat, r: nat, c: nat, ch: nat, kr: nat,
                      top: int, left: int, weight: nat, input: nat, err: real, k: nat)
    requires g.Valid() && f < g.filters && ch < g.channels && kr < g.filterSize && |w| >= g.WeightCount()
    requires top == r * g.stride - g.padding && left == c * g.stride - g.padding && err == OAt(g, e, f, r, c)
    requires 0 <= top + kr < g.rows && -(g.filterSize as int) < left < g.columns
    requires weight == Index3(f * g.channels + ch, kr, ClipStart(left), g.filterSize, g.filterSize)
    requires input == Index3(ch, top + kr, left + ClipStart(left), g.rows, g.columns)
    ensures input <= k < input + (ClipEnd(left, g.columns, g.filterSize) - ClipStart(left)) ==> weight + (k - input) < |w|
    ensures WindowRowsShare(g, w, e, f, r, c, ch, top + kr + 1, k)
         == WindowRowsShare(g, w, e, f, r, c, ch, top + kr, k)
          + (if input <= k < input + (ClipEnd(left, g.columns, g.filterSize) - ClipStart(left)) then err * w[weight + (k - input)] else 0.0)
  {
    if input <= k < input + (ClipEnd(left, g.columns, g.filterSize) - ClipStart(left)) {
      WindowRowHit(g, w, e, f, r, c, ch, kr, top, left, weight, input, err, k);
    } else {
      WindowRowSkip(g, w, e, f, r, c, ch, kr, top, left, input, k);
    }
  }

  /** A cell inside the clipped run of window row kr gets the error times the weight facing it. */
  lemma WindowRowHit(g: Geometry, w: seq<real>, e: seq<real>, f: nat, r: nat, c: nat, ch: nat, kr: nat,
                     top: int, left: int, weight: nat, input: nat, err: real, k: nat)
    requires g.Valid() && f < g.filters && ch < g.channels && kr < g.filterSize && |w| >= g.WeightCount()
    requires top == r * g.stride - g.padding && left == c * g.stride - g.padding && err == OAt(g, e, f, r, c)
    requires 0 <= top + kr < g.rows && -(g.filterSize as int) < left < g.columns
    requires weight == Index3(f * g.channels + ch, kr, ClipStart(left), g.filterSize, g.filterSize)
    requires input == Index3(ch, top + kr, left + ClipStart(left), g.rows, g.columns)
    requires input <= k < input + (ClipEnd(left, g.columns, g.filterSize) - ClipStart(left))
    ensures weight + (k - input) < |w|
    ensures WindowRowsShare(g, w, e, f, r, c, ch, top + kr + 1, k)
         == WindowRowsShare(g, w, e, f, r, c, ch, top + kr, k) + err * w[weight + (k - input)]
  {
    WindowRowHitFacts(g, w, f, ch, kr, top, left, weight, input, k);
    ShareOfCell(g, w, e, f, r, c, ch, kr, top, left, err, w[weight + (k - input)], k, k - input);
  }

  /** Where cell k of the clipped run of window row kr lies, and the weight entry that faces it. */
  lemma WindowRowHitFacts(g: Geometry, w: seq<real>, f: nat, ch: nat, kr: nat, top: int, left: int, weight: nat, input: nat, k: nat)
    requires g.Valid() && f < g.filters && ch < g.channels && kr < g.filterSize && |w| >= g.WeightCount()
    requires 0 <= top + kr < g.rows && -(g.filterSize as int) < left < g.columns
    requires weight == Index3(f * g.channels + ch, kr, ClipStart(left), g.filterSize, g.filterSize)
    requires input == Index3(ch, top + kr, left + ClipStart(left), g.rows, g.columns)
    requires input <= k < input + (ClipEnd(left, g.columns, g.filterSize) - ClipStart(left))
    ensures PlaneOf(k, g.rows, g.columns) == ch && RowIn(k, g.rows, g.columns) == top + kr
    ensures ColumnIn(k, g.columns) == left + ClipStart(left) + (k - input)
    ensures weight + (k - input) < |w| && WAt(g, w, f, ch, kr, ClipStart(left) + (k - input)) == w[weight + (k - input)]
  {
    WindowRowHitCell(g, ch, kr, top, left, input, k);
    WindowRowHitWeight(g, w, f, ch, kr, left, weight, k - input);
  }

  /** Cell k of row top + kr, column left + ClipStart(left) + j: the window rows up to it gain the error times the weight facing it. */
  lemma ShareOfCell(g: Geometry, w: seq<real>, e: seq<real>, f: nat, r: nat, c: nat, ch: nat, kr: nat,
                    top: int, left: int, err: real, v: real, k: nat, j: nat)
    requires g.Valid() && top == r * g.stride - g.padding && left == c * g.stride - g.padding && err == OAt(g, e, f, r, c)
    requires PlaneOf(k, g.rows, g.columns) == ch && RowIn(k, g.rows, g.columns) == top + kr
    requires ColumnIn(k, g.columns) == left + ClipStart(left) + j
    requires v == WAt(g, w, f, ch, kr, ClipStart(left) + j)
    ensures WindowRowsShare(g, w, e, f, r, c, ch, top + kr + 1, k) == WindowRowsShare(g, w, e, f, r, c, ch, top + kr, k) + err * v
  {
    ContributionIs(g, w, e, f, r, c, ch, RowIn(k, g.rows, g.columns), ColumnIn(k, g.columns), kr, ClipStart(left) + j, err, v);
  }

  /** The share at offset (kr, kc) of the window, given the values of the output error and of the weight there. */
  lemma ContributionIs(g: Geometry, w: seq<real>, e: seq<real>, f: nat, r: nat, c: nat, ch: nat, y: int, x: int, kr: int, kc: int,
                       err: real, weight: real)
    requires g.Valid() && y == r * g.stride - g.padding + kr && x == c * g.stride - g.padding + kc
    requires err == OAt(g, e, f, r, c) && weight == WAt(g, w, f, ch, kr, kc)
    ensures Contribution(g, w, e, f, r, c, ch, y, x) == err * weight
  {
    ContributionAtOffset(g, w, e, f, r, c, ch, y, x, kr, kc);
  }


  /** A cell outside the clipped run of window row kr gets nothing from that row. */
  lemma WindowRowSkip(g: Geometry, w: seq<real>, e: seq<real>, f: nat, r: nat, c: nat, ch: nat, kr: nat,
                      top: int, left: int, input: nat, k: nat)
    requires g.Valid() && top == r * g.stride - g.padding && left == c * g.stride - g.padding
    requires 0 <= top + kr < g.rows && -(g.filterSize as int) < left < g.columns
    requires input == Index3(ch, top + kr, left + ClipStart(left), g.rows, g.columns)
    requires !(input <= k < input + (ClipEnd(left, g.columns, g.filterSize) - ClipStart(left)))
    ensures WindowRowsShare(g, w, e, f, r, c, ch, top + kr + 1, k) == WindowRowsShare(g, w, e, f, r, c, ch, top + kr, k)
  {
    if PlaneOf(k, g.rows, g.columns) == ch && RowIn(k, g.rows, g.columns) == top + kr {
      WindowRowMiss(g, w, e, f, r, c, ch, kr, top, left, input, k);
    }
  }

  /** Before the first clipped row, the rows above have received nothing: their filter rows are padding. */
  lemma WindowRowsStart(g: Geometry, w: seq<real>, e: seq<real>, f: nat, r: nat, c: nat, ch: nat, top: int, k: nat)
    requires g.Valid() && top == r * g.stride - g.padding
    ensures WindowRowsShare(g, w, e, f, r, c, ch, top + ClipStart(top), k) == 0.0
  {
    var y := RowIn(k, g.rows, g.columns);
    if PlaneOf(k, g.rows, g.columns) == ch && y < top + ClipStart(top) {
      assert y - top < 0;
    }
  }

  /** After the last clipped row, the rows below receive nothing: the window row share is the whole window's. */
  lemma WindowRowsEnd(g: Geometry, w: seq<real>, e: seq<real>, f: nat, r: nat, c: nat, ch: nat, top: int, k: nat)
    requires g.Valid() && top == r * g.stride - g.padding && top < g.rows
    ensures WindowRowsShare(g, w, e, f, r, c, ch, top + ClipEnd(top, g.rows, g.filterSize), k)
         == WindowShare(g, w, e, f, r, c, ch, k)
  {
    Index3Recomposes(k, g.rows, g.columns);
    var y := RowIn(k, g.rows, g.columns);
    if PlaneOf(k, g.rows, g.columns) == ch && y >= top + ClipEnd(top, g.rows, g.filterSize) {
      assert y - top >= g.filterSize;
    }
  }

  /** Window row kr of output (f, r, c): its clipped run is scattered, adding that row's share to every input cell. */
  method ScatterWindowRow(g: Geometry, w: array<real>, prev: array<real>, ghost ws: seq<real>, ghost es: seq<real>,
                          ghost base: seq<real>, f: nat, ch: nat, ghost r: nat, ghost c: nat, kr: nat,
                          top: int, left: int, weight: nat, input: nat, err: real)
    returns (weightEnd: nat, inputEnd: nat)
    requires g.Valid() && f < g.filters && ch < g.channels && kr < g.filterSize
    requires w.Length >= g.WeightCount() && prev.Length == g.InputSize() == |base| && prev != w && ws == w[..]
    requires top == r * g.stride - g.padding && left == c * g.stride - g.padding && err == OAt(g, es, f, r, c)
    requires 0 <= top + kr < g.rows && -(g.filterSize as int) < left < g.columns
    requires weight == Index3(f * g.channels + ch, kr, ClipStart(left), g.filterSize, g.filterSize)
    requires input == Index3(ch, top + kr, left + ClipStart(left), g.rows, g.columns)
    requires forall k | 0 <= k < prev.Length :: prev[k] == base[k] + WindowRowsShare(g, ws, es, f, r, c, ch, top + kr, k)
    modifies prev
    ensures weightEnd == weight + (ClipEnd(left, g.columns, g.filterSize) - ClipStart(left))
    ensures inputEnd == input + (ClipEnd(left, g.columns, g.filterSize) - ClipStart(left))
    ensures forall k | 0 <= k < prev.Length :: prev[k] == base[k] + WindowRowsShare(g, ws, es, f, r, c, ch, top + kr + 1, k)
  {
    WindowRowRunFits(g, f, ch, kr, top, left, weight, input);
    ghost var before := prev[..];
    weightEnd, inputEnd := ScatterRun(prev, w, ws, weight, input, ClipStart(left), ClipEnd(left, g.columns, g.filterSize), err);
    forall k | 0 <= k < prev.Length
      ensures prev[k] == base[k] + WindowRowsShare(g, ws, es, f, r, c, ch, top + kr + 1, k)
    {
      assert before[k] == base[k] + WindowRowsShare(g, ws, es, f, r, c, ch, top + kr, k);
      WindowRowStep(g, ws, es, f, r, c, ch, kr, top, left, weight, input, err, k);
    }
  }

  /** One window: the error of output (f, r, c) scattered through filter f's channel ch onto the clipped window. */
  method ScatterWindow(g: Geometry, w: array<real>, prev: array<real>, ghost ws: seq<real>, ghost es: seq<real>,
                       f: nat, ch: nat, ghost r: nat, ghost c: nat, top: int, left: int, err: real)
    requires g.Valid() && f < g.filters && ch < g.channels && r < g.OutputRows() && c < g.OutputColumns()
    requires w.Length >= g.WeightCount() && prev.Length == g.InputSize() && prev != w && ws == w[..]
    requires top == r * g.stride - g.padding && left == c * g.stride - g.padding && err == OAt(g, es, f, r, c)
    modifies prev
    ensures forall k | 0 <= k < prev.Length :: prev[k] == old(prev[k]) + WindowShare(g, ws, es, f, r, c, ch, k)
  {
    var F := g.filterSize;
    WindowStartInRange(g.rows, F, g.stride, g.padding, r);
    WindowStartInRange(g.columns, F, g.stride, g.padding, c);
    var startRow, endRow := ClipStart(top), ClipEnd(top, g.rows, F);
    var startCol, endCol := ClipStart(left), ClipEnd(left, g.columns, F);
    ClipIsExact(top, g.rows, F, 0);
    ClipIsExact(left, g.columns, F, 0);
    var filterWidth := endCol - startCol;
    var filterRowOffset := F - filterWidth;
    var inputRowOffset := g.columns - filterWidth;
    var weight := Index3(f * g.channels + ch, startRow, startCol, F, F);
    var input := Index3(ch, top + startRow, left + startCol, g.rows, g.columns);
    ghost var base := prev[..];
    var firstRow := top + startRow;
    forall k | 0 <= k < prev.Length
      ensures prev[k] == base[k] + WindowRowsShare(g, ws, es, f, r, c, ch, firstRow, k)
    {
      WindowRowsStart(g, ws, es, f, r, c, ch, top, k);
    }
    for kr := startRow to endRow
      invariant weight == Index3(f * g.channels + ch, kr, startCol, F, F)
      invariant input == Index3(ch, top + kr, left + startCol, g.rows, g.columns)
      invariant forall k | 0 <= k < prev.Length :: prev[k] == base[k] + WindowRowsShare(g, ws, es, f, r, c, ch, top + kr, k)
    {
      ClipIsExact(top, g.rows, F, kr);
      var weightEnd, inputEnd := ScatterWindowRow(g, w, prev, ws, es, base, f, ch, r, c, kr, top, left, weight, input, err);
      NextRowIndex(f * g.channels + ch, kr, startCol, filterWidth, F, F);
      NextRowIndex(ch, top + kr, left + startCol, filterWidth, g.rows, g.columns);
      weight, input := weightEnd + filterRowOffset, inputEnd + inputRowOffset;
    }
    var lastRow := top + endRow;
    forall k | 0 <= k < prev.Length
      ensures prev[k] == base[k] + WindowShare(g, ws, es, f, r, c, ch, k)
    {
      WindowRowsEnd(g, ws, es, f, r, c, ch, top, k);
    }
  }

  /** Adding window c of output row r completes the row share of the first c + 1 windows. */
  lemma RowShareStep(g: Geometry, w: seq<real>, e: seq<real>, f: nat, r: nat, ch: nat, c: nat, k: nat)
    requires g.Valid()
    ensures RowShare(g, w, e, f, r, ch, c + 1, k) == RowShare(g, w, e, f, r, ch, c, k) + WindowShare(g, w, e, f, r, c, ch, k)
  {
  }

  /** One output row of filter f: every window along it scattered onto channel ch, reading the errors in order. */
  method ScatterRow(g: Geometry, w: array<real>, e: array<real>, prev: array<real>, ghost ws: seq<real>, ghost es: seq<real>,
                    f: nat, ch: nat, ghost r: nat, inputRow: int, output: nat)
    returns (next: nat)
    requires g.Valid() && f < g.filters && ch < g.channels && r < g.OutputRows() && inputRow == r * g.stride - g.padding
    requires w.Length >= g.WeightCount() && e.Length == g.OutputSize() && prev.Length == g.InputSize()
    requires prev != w && prev != e && ws == w[..] && es == e[..]
    requires output == Index3(f, r, 0, g.OutputRows(), g.OutputColumns())
    modifies prev
    ensures next == output + g.OutputColumns()
    ensures forall k | 0 <= k < prev.Length :: prev[k] == old(prev[k]) + RowShare(g, ws, es, f, r, ch, g.OutputColumns(), k)
  {
    ghost var base := prev[..];
    var inputCol := -(g.padding as int);
    next := output;
    for c := 0 to g.OutputColumns()
      invariant inputCol == c * g.stride - g.padding && next == output + c
      invariant forall k | 0 <= k < prev.Length :: prev[k] == base[k] + RowShare(g, ws, es, f, r, ch, c, k)
    {
      Index3Bound(f, r, c, g.filters, g.OutputRows(), g.OutputColumns());
      ghost var before := prev[..];
      ScatterWindow(g, w, prev, ws, es, f, ch, r, c, inputRow, inputCol, e[next]);
      forall k | 0 <= k < prev.Length
        ensures prev[k] == base[k] + RowShare(g, ws, es, f, r, ch, c + 1, k)
      {
        assert before[k] == base[k] + RowShare(g, ws, es, f, r, ch, c, k);
        RowShareStep(g, ws, es, f, r, ch, c, k);
      }
      next := next + 1;
      MulDistrib(c, 1, g.stride);
      inputCol := inputCol + g.stride;
    }
  }

  /** Adding output row r completes the plane share of the first r + 1 rows. */
  lemma PlaneShareStep(g: Geometry, w: seq<real>, e: seq<real>, f: nat, ch: nat, r: nat, k: nat)
    requires g.Valid()
    ensures PlaneShare(g, w, e, f, ch, r + 1, k) == PlaneShare(g, w, e, f, ch, r, k) + RowShare(g, w, e, f, r, ch, g.OutputColumns(), k)
  {
  }

  /** Every output row of filter f scattered onto channel ch; the errors are read plane f row after row. */
  method ScatterPlane(g: Geometry, w: array<real>, e: array<real>, prev: array<real>, ghost ws: seq<real>, ghost es: seq<real>,
                      f: nat, ch: nat)
    requires g.Valid() && f < g.filters && ch < g.channels
    requires w.Length >= g.WeightCount() && e.Length == g.OutputSize() && prev.Length == g.InputSize()
    requires prev != w && prev != e && ws == w[..] && es == e[..]
    modifies prev
    ensures forall k | 0 <= k < prev.Length :: prev[k] == old(prev[k]) + PlaneShare(g, ws, es, f, ch, g.OutputRows(), k)
  {
    ghost var base := prev[..];
    var output := Index3(f, 0, 0, g.OutputRows(), g.OutputColumns());
    var inputRow := -(g.padding as int);
    for r := 0 to g.OutputRows()
      invariant inputRow == r * g.stride - g.padding && output == Index3(f, r, 0, g.OutputRows(), g.OutputColumns())
      invariant forall k | 0 <= k < prev.Length :: prev[k] == base[k] + PlaneShare(g, ws, es, f, ch, r, k)
    {
      ghost var before := prev[..];
      output := ScatterRow(g, w, e, prev, ws, es, f, ch, r, inputRow, output);
      forall k | 0 <= k < prev.Length
        ensures prev[k] == base[k] + PlaneShare(g, ws, es, f, ch, r + 1, k)
      {
        assert before[k] == base[k] + PlaneShare(g, ws, es, f, ch, r, k);
        PlaneShareStep(g, ws, es, f, ch, r, k);
      }
      NextRowIndex(f, r, 0, g.OutputColumns(), g.OutputRows(), g.OutputColumns());
      MulDistrib(r, 1, g.stride);
      inputRow := inputRow + g.stride;
    }
  }

  /** Adding channel ch completes filter f's share for every cell of the first ch + 1 channels. */
  lemma FilterShareStep(g: Geometry, w: seq<real>, e: seq<real>, f: nat, ch: nat, k: nat)
    requires g.Valid()
    ensures FilterShare(g, w, e, f, ch + 1, k) == FilterShare(g, w, e, f, ch, k) + PlaneShare(g, w, e, f, ch, g.OutputRows(), k)
  {
  }

  /** Filter f: its error planes scattered onto every input channel in turn. */
  method ScatterFilter(g: Geometry, w: array<real>, e: array<real>, prev: array<real>, ghost ws: seq<real>, ghost es: seq<real>, f: nat)
    requires g.Valid() && f < g.filters
    requires w.Length >= g.WeightCount() && e.Length == g.OutputSize() && prev.Length == g.InputSize()
    requires prev != w && prev != e && ws == w[..] && es == e[..]
    modifies prev
    ensures forall k | 0 <= k < prev.Length :: prev[k] == old(prev[k]) + FilterShare(g, ws, es, f, g.channels, k)
  {
    ghost var base := prev[..];
    for ch := 0 to g.channels
      invariant forall k | 0 <= k < prev.Length :: prev[k] == base[k] + FilterShare(g, ws, es, f, ch, k)
    {
      ghost var before := prev[..];
      ScatterPlane(g, w, e, prev, ws, es, f, ch);
      forall k | 0 <= k < prev.Length
        ensures prev[k] == base[k] + FilterShare(g, ws, es, f, ch + 1, k)
      {
        assert before[k] == base[k] + FilterShare(g, ws, es, f, ch, k);
        FilterShareStep(g, ws, es, f, ch, k);
      }
    }
  }

  /** Once every channel is done, filter f's share of input cell k is its term of the backward sum. */
  lemma FilterShareComplete(g: Geometry, w: seq<real>, e: seq<real>, f: nat, k: nat)
    requires g.Valid() && k < g.InputSize()
    ensures FilterShare(g, w, e, f, g.channels, k)
         == FilterContribs(g, w, e, PlaneOf(k, g.rows, g.columns), RowIn(k, g.rows, g.columns), ColumnIn(k, g.columns))(f)
  {
    Index3Recomposes(k, g.rows, g.columns);
    Index3Bound(PlaneOf(k, g.rows, g.columns), RowIn(k, g.rows, g.columns), ColumnIn(k, g.columns), g.channels, g.rows, g.columns);
  }

  /**
   * The backward pass proper, on an error buffer the caller has zeroed: every filter in turn
   * scatters its error through its weights, leaving the specification's previous-layer error.
   */
  method ScatterErrors(g: Geometry, w: array<real>, e: array<real>, prev: array<real>)
    requires g.Valid() && w.Length >= g.WeightCount() && e.Length == g.OutputSize() && prev.Length == g.InputSize()
    requires prev != w && prev != e && forall k | 0 <= k < prev.Length :: prev[k] == 0.0
    modifies prev
    ensures prev[..] == ConvBackward(g, w[..], e[..])
  {
    ghost var ws, es := w[..], e[..];
    for f := 0 to g.filters
      invariant forall k | 0 <= k < prev.Length ::
        prev[k] == Sum(0, f, FilterContribs(g, ws, es, PlaneOf(k, g.rows, g.columns), RowIn(k, g.rows, g.columns), ColumnIn(k, g.columns)))
    {
      ScatterFilter(g, w, e, prev, ws, es, f);
      forall k | 0 <= k < prev.Length
        ensures prev[k] == Sum(0, f + 1, FilterContribs(g, ws, es, PlaneOf(k, g.rows, g.columns), RowIn(k, g.rows, g.columns), ColumnIn(k, g.columns)))
      {
        FilterShareComplete(g, ws, es, f, k);
      }
    }
  }
}
