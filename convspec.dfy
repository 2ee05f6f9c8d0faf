/**
 * The geometry of a convolutional layer and brute-force specifications of its
 * three passes: the forward cross-correlation, the backpropagated error and
 * the weight and bias gradients, each over in-bounds input cells only (zero
 * padding contributes nothing). Also the per-filter-offset table the padded
 * gradient pass uses to skip padding.
 */
module ConvolutionSpec {
  import opened Arith

  /**
   * A layer over an input of `channels` planes of rows × columns, with `filters`
   * square filters of side filterSize, moved `stride` cells at a time over the
   * input surrounded by `padding` zero cells.
   */
  datatype Geometry = Geometry(channels: nat, rows: nat, columns: nat, filters: nat,
                               filterSize: nat, stride: nat, padding: nat)
  {
    /** A positive stride, padding below the filter size, and a filter no larger than the input. */
    predicate Valid()
    {
      stride >= 1 && padding < filterSize && filterSize <= rows && filterSize <= columns
    }

    /** (inputRows + 2·padding − filterSize) / stride + 1 (see StepsIsQuotient). */
    function OutputRows(): nat
      requires Valid()
    {
      Steps(rows + 2 * padding - filterSize, stride) + 1
    }

    /** (inputColumns + 2·padding − filterSize) / stride + 1 (see StepsIsQuotient). */
    function OutputColumns(): nat
      requires Valid()
    {
      Steps(columns + 2 * padding - filterSize, stride) + 1
    }

    function InputSize(): nat { (channels * rows) * columns }

    function OutputSize(): nat
      requires Valid()
    {
      (filters * OutputRows()) * OutputColumns()
    }

    function WeightCount(): nat { ((filters * channels) * filterSize) * filterSize }
  }

  // ---------------------------------------------------------------------------
  // Counting windows.

  /** How many whole strides fit in a span, counted by repeated subtraction. */
  function Steps(span: nat, s: nat): nat
    decreases span
  {
    if s == 0 || span < s then 0 else 1 + Steps(span - s, s)
  }

  /** For a positive stride, counting strides is integer division. */
  lemma {:induction false} StepsIsQuotient(span: nat, s: nat)
    requires s >= 1
    ensures Steps(span, s) == span / s
    decreases span
  {
    if span >= s {
      StepsIsQuotient(span - s, s);
      var q, r := (span - s) / s, (span - s) % s;
      assert span - s == q * s + r;
      MulDistrib(q, 1, s);
      DivModOf(q + 1, r, s);
    }
  }

  /** For a positive stride s and D >= 0: t·s <= D exactly when t <= D / s. */
  lemma StepsWithin(t: nat, s: nat, bound: nat)
    requires s >= 1
    ensures t * s <= bound <==> t <= bound / s
  {
    var q := bound / s;
    assert bound == q * s + bound % s;
    if t <= q {
      MulMonotone(t, q, s);
    } else {
      MulMonotone(q + 1, t, s);
      MulDistrib(q, 1, s);
    }
  }

  /**
   * The padded loops start the window at −padding and step by the stride while the
   * start is below length + padding − filterSize + 1: they visit exactly the
   * (length + 2·padding − filterSize) / stride + 1 windows of the output.
   */
  lemma PaddedLoopVisitsEveryOutput(length: nat, filterSize: nat, stride: nat, padding: nat, t: nat)
    requires stride >= 1 && filterSize <= length
    ensures t * stride - padding < length + padding - filterSize + 1 <==>
            t < Steps(length + 2 * padding - filterSize, stride) + 1
  {
    StepsIsQuotient(length + 2 * padding - filterSize, stride);
    StepsWithin(t, stride, length + 2 * padding - filterSize);
  }

  /** The window of output t starts at input coordinate t·stride − padding, within [−padding, length − 1]. */
  lemma WindowStartInRange(length: nat, filterSize: nat, stride: nat, padding: nat, t: nat)
    requires stride >= 1 && padding < filterSize <= length
    requires t < Steps(length + 2 * padding - filterSize, stride) + 1
    ensures -(padding as int) <= t * stride - padding && t * stride - padding + filterSize <= length + padding
    ensures -(filterSize as int) < t * stride - padding < length
  {
    StepsIsQuotient(length + 2 * padding - filterSize, stride);
    StepsWithin(t, stride, length + 2 * padding - filterSize);
    MulNonneg(t, stride);
  }

  // ---------------------------------------------------------------------------
  // Clipping a window to the input, one side at a time as the layer does.

  /** The first filter offset inside the input for a window starting at `start`. */
  function ClipStart(start: int): nat
  {
    if start < 0 then -start else 0
  }

  /** One past the last filter offset inside the input: trimmed at the far side only when the near side was not. */
  function ClipEnd(start: int, length: nat, filterSize: nat): int
  {
    if start < 0 then filterSize else if start + filterSize > length then length - start else filterSize
  }

  /** For a window that overlaps the input and a filter no longer than it, the clipped range is exactly the in-bounds offsets. */
  lemma ClipIsExact(start: int, length: nat, filterSize: nat, k: int)
    requires 0 < filterSize <= length && -(filterSize as int) < start < length
    ensures ClipStart(start) < ClipEnd(start, length, filterSize) <= filterSize
    ensures 0 <= k < filterSize ==>
      (ClipStart(start) <= k < ClipEnd(start, length, filterSize) <==> 0 <= start + k < length)
  {
  }

  // ---------------------------------------------------------------------------
  // Reading the flat buffers.

  /** Input (or previous-layer error) cell (ch, y, x), or 0 for a padding cell. */
  function XAt(g: Geometry, x: seq<real>, ch: int, y: int, col: int): real
  {
    if 0 <= ch < g.channels && 0 <= y < g.rows && 0 <= col < g.columns
    then At(x, Index3(ch, y, col, g.rows, g.columns)) else 0.0
  }

  /** Weight (f, ch, kr, kc) of the filters × channels × size × size weight tensor, or 0 outside the filter. */
  function WAt(g: Geometry, w: seq<real>, f: int, ch: int, kr: int, kc: int): real
  {
    if 0 <= f < g.filters && 0 <= ch < g.channels && 0 <= kr < g.filterSize && 0 <= kc < g.filterSize
    then At(w, Index3(f * g.channels + ch, kr, kc, g.filterSize, g.filterSize)) else 0.0
  }

  /** Output (or error, or delta) cell (f, r, c), or 0 outside the output. */
  function OAt(g: Geometry, o: seq<real>, f: int, r: int, c: int): real
    requires g.Valid()
  {
    if 0 <= f < g.filters && 0 <= r < g.OutputRows() && 0 <= c < g.OutputColumns()
    then At(o, Index3(f, r, c, g.OutputRows(), g.OutputColumns())) else 0.0
  }

  // ---------------------------------------------------------------------------
  // Forward: out[f][r][c] = bias[f] + Σ_{ch,kr,kc} in[ch][r·s−p+kr][c·s−p+kc]·W[f][ch][kr][kc].

  function KcTerms(g: Geometry, x: seq<real>, w: seq<real>, f: int, ch: int, kr: int, top: int, left: int): int -> real
  {
    kc => XAt(g, x, ch, top + kr, left + kc) * WAt(g, w, f, ch, kr, kc)
  }

  function KrTerms(g: Geometry, x: seq<real>, w: seq<real>, f: int, ch: int, top: int, left: int): int -> real
  {
    kr => Sum(0, g.filterSize, KcTerms(g, x, w, f, ch, kr, top, left))
  }

  function ChTerms(g: Geometry, x: seq<real>, w: seq<real>, f: int, top: int, left: int): int -> real
  {
    ch => Sum(0, g.filterSize, KrTerms(g, x, w, f, ch, top, left))
  }

  /** Filter f applied to the window whose top-left input cell is (top, left), padding read as 0. */
  function Correlation(g: Geometry, x: seq<real>, w: seq<real>, f: int, top: int, left: int): real
  {
    Sum(0, g.channels, ChTerms(g, x, w, f, top, left))
  }

  /** Output (f, r, c): the bias of filter f plus the correlation at window (r·s − p, c·s − p). */
  function ConvCell(g: Geometry, x: seq<real>, w: seq<real>, b: seq<real>, f: int, r: int, c: int): real
  {
    At(b, f) + Correlation(g, x, w, f, r * g.stride - g.padding, c * g.stride - g.padding)
  }

  /** The whole output, filter by filter, row by row. */
  function ConvForward(g: Geometry, x: seq<real>, w: seq<real>, b: seq<real>): (o: seq<real>)
    requires g.Valid()
    ensures |o| == g.OutputSize()
  {
    seq(g.OutputSize(), k requires 0 <= k < g.OutputSize() =>
      ConvCell(g, x, w, b, PlaneOf(k, g.OutputRows(), g.OutputColumns()),
               RowIn(k, g.OutputRows(), g.OutputColumns()), ColumnIn(k, g.OutputColumns())))
  }

  /** Row kr of a window restricted to the in-bounds columns. */
  function ClippedRow(g: Geometry, x: seq<real>, w: seq<real>, f: int, ch: int, top: int, left: int): int -> real
  {
    kr => Sum(ClipStart(left), ClipEnd(left, g.columns, g.filterSize), KcTerms(g, x, w, f, ch, kr, top, left))
  }

  /** A window term reading a padding cell is 0. */
  lemma PaddingTermIsZero(g: Geometry, x: seq<real>, w: seq<real>, f: int, ch: int, kr: int, top: int, left: int, kc: int)
    requires !(0 <= top + kr < g.rows && 0 <= left + kc < g.columns)
    ensures KcTerms(g, x, w, f, ch, kr, top, left)(kc) == 0.0
  {
  }

  /** One filter row of a window: its in-bounds columns when the row is inside the input, else nothing. */
  lemma ClippedWindowRow(g: Geometry, x: seq<real>, w: seq<real>, f: int, ch: int, top: int, left: int, kr: int)
    requires 0 < g.filterSize <= g.rows && g.filterSize <= g.columns
    requires -(g.filterSize as int) < top < g.rows && -(g.filterSize as int) < left < g.columns
    requires 0 <= kr < g.filterSize
    ensures KrTerms(g, x, w, f, ch, top, left)(kr) ==
      if ClipStart(top) <= kr < ClipEnd(top, g.rows, g.filterSize) then ClippedRow(g, x, w, f, ch, top, left)(kr) else 0.0
  {
    var F := g.filterSize;
    var terms := KcTerms(g, x, w, f, ch, kr, top, left);
    ClipIsExact(top, g.rows, F, kr);
    ClipIsExact(left, g.columns, F, 0);
    var lo, hi := ClipStart(left), ClipEnd(left, g.columns, F);
    if ClipStart(top) <= kr < ClipEnd(top, g.rows, F) {
      forall kc | 0 <= kc < lo || hi <= kc < F
        ensures terms(kc) == 0.0
      {
        ClipIsExact(left, g.columns, F, kc);
        PaddingTermIsZero(g, x, w, f, ch, kr, top, left, kc);
      }
      SumRestrict(0, lo, hi, F, terms);
    } else {
      forall kc | 0 <= kc < F
        ensures terms(kc) == 0.0
      {
        PaddingTermIsZero(g, x, w, f, ch, kr, top, left, kc);
      }
      SumZero(0, F, terms);
    }
  }

  /** Restricting a window to its in-bounds rows and columns leaves the correlation of one channel unchanged. */
  lemma ClippedWindow(g: Geometry, x: seq<real>, w: seq<real>, f: int, ch: int, top: int, left: int)
    requires 0 < g.filterSize <= g.rows && g.filterSize <= g.columns
    requires -(g.filterSize as int) < top < g.rows && -(g.filterSize as int) < left < g.columns
    ensures ChTerms(g, x, w, f, top, left)(ch) ==
      Sum(ClipStart(top), ClipEnd(top, g.rows, g.filterSize), ClippedRow(g, x, w, f, ch, top, left))
  {
    var F := g.filterSize;
    ClipIsExact(top, g.rows, F, 0);
    var rows := KrTerms(g, x, w, f, ch, top, left);
    var clipped := ClippedRow(g, x, w, f, ch, top, left);
    forall kr | 0 <= kr < F
      ensures rows(kr) == if ClipStart(top) <= kr < ClipEnd(top, g.rows, F) then clipped(kr) else 0.0
    {
      ClippedWindowRow(g, x, w, f, ch, top, left, kr);
    }
    SumRestrict(0, ClipStart(top), ClipEnd(top, g.rows, F), F, rows);
    SumExt(ClipStart(top), ClipEnd(top, g.rows, F), rows, clipped);
  }

  // ---------------------------------------------------------------------------
  // Backward: prev[ch][y][x] = Σ_{f,r,c} err[f][r][c]·W[f][ch][y−(r·s−p)][x−(c·s−p)],
  // the weight being 0 when (y, x) is outside output (f, r, c)'s window.

  /** What output (f, r, c)'s error sends back to input cell (ch, y, x). */
  function Contribution(g: Geometry, w: seq<real>, e: seq<real>, f: int, r: int, c: int, ch: int, y: int, col: int): real
    requires g.Valid()
  {
    OAt(g, e, f, r, c) * WAt(g, w, f, ch, y - (r * g.stride - g.padding), col - (c * g.stride - g.padding))
  }

  function ColContribs(g: Geometry, w: seq<real>, e: seq<real>, f: int, r: int, ch: int, y: int, col: int): int -> real
    requires g.Valid()
  {
    c => Contribution(g, w, e, f, r, c, ch, y, col)
  }

  function RowContribs(g: Geometry, w: seq<real>, e: seq<real>, f: int, ch: int, y: int, col: int): int -> real
    requires g.Valid()
  {
    r => Sum(0, g.OutputColumns(), ColContribs(g, w, e, f, r, ch, y, col))
  }

  function FilterContribs(g: Geometry, w: seq<real>, e: seq<real>, ch: int, y: int, col: int): int -> real
    requires g.Valid()
  {
    f => Sum(0, g.OutputRows(), RowContribs(g, w, e, f, ch, y, col))
  }

  /** The error of input cell (ch, y, x): the contributions of every filter's outputs, filter by filter. */
  function BackwardCell(g: Geometry, w: seq<real>, e: seq<real>, ch: int, y: int, col: int): real
    requires g.Valid()
  {
    Sum(0, g.filters, FilterContribs(g, w, e, ch, y, col))
  }

  /** The whole previous-layer error, channel by channel, row by row. */
  function ConvBackward(g: Geometry, w: seq<real>, e: seq<real>): (r: seq<real>)
    requires g.Valid()
    ensures |r| == g.InputSize()
  {
    seq(g.InputSize(), k requires 0 <= k < g.InputSize() =>
      BackwardCell(g, w, e, PlaneOf(k, g.rows, g.columns), RowIn(k, g.rows, g.columns), ColumnIn(k, g.columns)))
  }

  // ---------------------------------------------------------------------------
  // Gradients: nablaW[f][ch][kr][kc] += Σ_{r,c} δ[f][r][c]·a[ch][r·s−p+kr][c·s−p+kc] over in-bounds cells,
  // nablaB[f] += Σ_{r,c} δ[f][r][c].

  function GradColTerms(g: Geometry, a: seq<real>, d: seq<real>, f: int, ch: int, kr: int, kc: int, r: int): int -> real
    requires g.Valid()
  {
    c => OAt(g, d, f, r, c) * XAt(g, a, ch, r * g.stride - g.padding + kr, c * g.stride - g.padding + kc)
  }

  function GradRowTerms(g: Geometry, a: seq<real>, d: seq<real>, f: int, ch: int, kr: int, kc: int): int -> real
    requires g.Valid()
  {
    r => Sum(0, g.OutputColumns(), GradColTerms(g, a, d, f, ch, kr, kc, r))
  }

  /** The gradient of weight (f, ch, kr, kc) for deltas d and previous activations a. */
  function WeightGradient(g: Geometry, a: seq<real>, d: seq<real>, f: int, ch: int, kr: int, kc: int): real
    requires g.Valid()
  {
    Sum(0, g.OutputRows(), GradRowTerms(g, a, d, f, ch, kr, kc))
  }

  function PlaneTerms(d: seq<real>, planeSize: nat, f: int): int -> real
  {
    i => At(d, f * planeSize + i)
  }

  /** The sum of plane f of a layout of planes of planeSize entries each. */
  function PlaneSum(d: seq<real>, planeSize: nat, f: int): real
  {
    Sum(0, planeSize, PlaneTerms(d, planeSize, f))
  }

  /** The gradient of filter f's bias: the sum of plane f of the deltas. */
  function BiasGradient(g: Geometry, d: seq<real>, f: int): real
    requires g.Valid()
  {
    PlaneSum(d, g.OutputRows() * g.OutputColumns(), f)
  }

  /** The gradient of the weight stored at flat position k of the weights. */
  function WeightGradientOf(g: Geometry, a: seq<real>, d: seq<real>, k: nat): real
    requires g.Valid()
  {
    var q := PlaneOf(k, g.filterSize, g.filterSize);
    WeightGradient(g, a, d, RowOf(q, g.channels), ColumnOf(q, g.channels), RowIn(k, g.filterSize, g.filterSize), ColumnIn(k, g.filterSize))
  }

  /** The gradients of the weights at positions k, k + 1, ..., in order. */
  function WeightGradientsFrom(g: Geometry, a: seq<real>, d: seq<real>, k: nat): (s: seq<real>)
    requires g.Valid() && k <= g.WeightCount()
    ensures |s| == g.WeightCount() - k
    decreases g.WeightCount() - k
  {
    if k == g.WeightCount() then [] else [WeightGradientOf(g, a, d, k)] + WeightGradientsFrom(g, a, d, k + 1)
  }

  /** Every weight's gradient, laid out as the weights are: filter, channel, filter row, filter column. */
  function WeightGradients(g: Geometry, a: seq<real>, d: seq<real>): (s: seq<real>)
    requires g.Valid()
    ensures |s| == g.WeightCount()
  {
    WeightGradientsFrom(g, a, d, 0)
  }

  lemma {:induction false} WeightGradientsFromAt(g: Geometry, a: seq<real>, d: seq<real>, k: nat, i: nat)
    requires g.Valid() && k <= i < g.WeightCount()
    ensures WeightGradientsFrom(g, a, d, k)[i - k] == WeightGradientOf(g, a, d, i)
    decreases i - k
  {
    if k < i {
      WeightGradientsFromAt(g, a, d, k + 1, i);
    }
  }


  /** Weight (f, ch, kr, kc) sits at its row-major index, and its gradient at the same index of WeightGradients. */
  lemma WeightGradientsAt(g: Geometry, a: seq<real>, d: seq<real>, f: nat, ch: nat, kr: nat, kc: nat)
    requires g.Valid() && f < g.filters && ch < g.channels && kr < g.filterSize && kc < g.filterSize
    ensures Index3(f * g.channels + ch, kr, kc, g.filterSize, g.filterSize) < g.WeightCount()
    ensures WeightGradients(g, a, d)[Index3(f * g.channels + ch, kr, kc, g.filterSize, g.filterSize)] == WeightGradient(g, a, d, f, ch, kr, kc)
  {
    MulAddBound(f, ch, g.filters, g.channels);
    Index3Bound(f * g.channels + ch, kr, kc, g.filters * g.channels, g.filterSize, g.filterSize);
    Index3Decomposes(f * g.channels + ch, kr, kc, g.filterSize, g.filterSize);
    RowColumnOf(f, ch, g.channels);
    WeightGradientsFromAt(g, a, d, 0, Index3(f * g.channels + ch, kr, kc, g.filterSize, g.filterSize));
  }

  // ---------------------------------------------------------------------------
  // The filter-offset table of the padded gradient pass. For filter offset i along
  // one dimension of the given length, it records the first input coordinate the
  // offset touches, the first output whose window touches it there, and how many
  // consecutive outputs do.

  datatype FilterInfo = FilterInfo(inputStartOffset: int, outputStartOffset: int, outputSpan: int)

  /** The first output whose window puts offset i inside the input: ⌈(p − i)/s⌉ when i < p, else 0. */
  function FirstOutput(stride: nat, padding: nat, i: nat): nat
    requires stride >= 1
  {
    if i < padding then (padding - i) / stride + (if (padding - i) % stride != 0 then 1 else 0) else 0
  }

  /** The input coordinate offset i touches at that first output. */
  function FirstInput(stride: nat, padding: nat, i: nat): int
    requires stride >= 1
  {
    if i < padding then (if (padding - i) % stride == 0 then 0 else stride - (padding - i) % stride) else i - padding
  }

  /** The last output whose window is inside the padded input and puts offset i before the input's end. */
  function LastOutput(length: nat, filterSize: nat, stride: nat, padding: nat, i: nat): int
    requires stride >= 1
  {
    Min((length + 2 * padding - filterSize) / stride, (length - 1 + padding - i) / stride)
  }

  function Span(length: nat, filterSize: nat, stride: nat, padding: nat, i: nat): int
    requires stride >= 1
  {
    LastOutput(length, filterSize, stride, padding, i) - FirstOutput(stride, padding, i) + 1
  }

  /** The table entry for filter offset i. */
  function FilterInfoFor(length: nat, filterSize: nat, stride: nat, padding: nat, i: nat): FilterInfo
    requires stride >= 1
  {
    FilterInfo(FirstInput(stride, padding, i), FirstOutput(stride, padding, i), Span(length, filterSize, stride, padding, i))
  }

  /** ⌈d/s⌉ in the source's form is one more than (d − 1)/s. */
  lemma CeilingDivision(d: nat, s: nat)
    requires s >= 1 && d >= 1
    ensures d / s + (if d % s != 0 then 1 else 0) == (d - 1) / s + 1
    ensures d == (d / s) * s + d % s
  {
    var q, r := d / s, d % s;
    assert d == q * s + r;
    if r == 0 {
      MulDistrib(q - 1, 1, s);
      DivModOf(q - 1, s - 1, s);
    } else {
      DivModOf(q, r - 1, s);
    }
  }

  /** Output o's window puts offset i at or after the input's start exactly from FirstOutput on. */
  lemma FirstOutputIsFirst(stride: nat, padding: nat, i: nat, o: nat)
    requires stride >= 1
    ensures o * stride - padding + i >= 0 <==> o >= FirstOutput(stride, padding, i)
  {
    MulNonneg(o, stride);
    if i < padding {
      var d := padding - i;
      CeilingDivision(d, stride);
      StepsWithin(o, stride, d - 1);
    }
  }

  /** FirstInput is the coordinate offset i actually touches at output FirstOutput. */
  lemma FirstInputIsTouched(stride: nat, padding: nat, i: nat)
    requires stride >= 1
    ensures FirstInput(stride, padding, i) == FirstOutput(stride, padding, i) * stride - padding + i
    ensures 0 <= FirstInput(stride, padding, i) < stride || i >= padding
  {
    if i < padding {
      var d := padding - i;
      CeilingDivision(d, stride);
      if d % stride != 0 {
        MulDistrib(d / stride, 1, stride);
      }
    }
  }

  /**
   * The outputs whose window puts offset i inside the input are exactly the Span
   * consecutive outputs from FirstOutput (none when Span <= 0).
   */
  lemma SpanIsExact(length: nat, filterSize: nat, stride: nat, padding: nat, i: nat, o: nat)
    requires stride >= 1 && padding < filterSize <= length && i < filterSize
    ensures (o < Steps(length + 2 * padding - filterSize, stride) + 1 && 0 <= o * stride - padding + i < length) <==>
      FirstOutput(stride, padding, i) <= o < FirstOutput(stride, padding, i) + Span(length, filterSize, stride, padding, i)
  {
    StepsIsQuotient(length + 2 * padding - filterSize, stride);
    FirstOutputIsFirst(stride, padding, i, o);
    StepsWithin(o, stride, length - 1 + padding - i);
  }

  /** A span is never negative: an offset inside the padding is reached no later than one output after the last one. */
  lemma SpanNonnegative(length: nat, filterSize: nat, stride: nat, padding: nat, i: nat)
    requires stride >= 1 && padding < filterSize <= length && i < filterSize
    ensures Span(length, filterSize, stride, padding, i) >= 0
  {
    if i < padding {
      var d := padding - i;
      CeilingDivision(d, stride);
      var t := (d - 1) / stride;
      StepsWithin(t, stride, d - 1);
      StepsWithin(t, stride, length + 2 * padding - filterSize);
      StepsWithin(t, stride, length - 1 + padding - i);
    }
  }

  /** The first input coordinate as the table is filled: (p − i) mod s for offsets inside the padding. */
  function FirstInputAsWritten(stride: nat, padding: nat, i: nat): int
    requires stride >= 1
  {
    if i < padding then (padding - i) % stride else i - padding
  }

  /** The filled-in coordinate is the touched one exactly when i >= p, s divides p − i, or the remainder is half the stride. */
  lemma FirstInputAsWrittenAgreesOnlySometimes(stride: nat, padding: nat, i: nat)
    requires stride >= 1
    ensures FirstInputAsWritten(stride, padding, i) == FirstInput(stride, padding, i) <==>
      i >= padding || (padding - i) % stride == 0 || 2 * ((padding - i) % stride) == stride
  {
  }

  /** With stride 3 and padding 2, filter offset 1 first touches input coordinate 2, but the table says 1. */
  lemma FirstInputAsWrittenWrongForStrideThree()
    ensures FirstOutput(3, 2, 1) * 3 - 2 + 1 == 2 == FirstInput(3, 2, 1)
    ensures FirstInputAsWritten(3, 2, 1) == 1
  {
    FirstInputIsTouched(3, 2, 1);
  }

  /** The gradient's do-while loops visit at least one output even when the span is empty. */
  function OutputsVisitedAsWritten(span: int): nat
  {
    if span < 1 then 1 else span
  }

  /**
   * Length 4, filter size 2, stride 5, padding 1: filter offset 0 is inside the input for
   * no output, so its span is 0, yet the do-while loops read one delta and one activation for it.
   */
  lemma EmptySpanStillVisitedAsWritten()
    ensures Span(4, 2, 5, 1, 0) == 0 && OutputsVisitedAsWritten(Span(4, 2, 5, 1, 0)) == 1
  {
    assert FirstOutput(5, 1, 0) == 1;
    assert LastOutput(4, 2, 5, 1, 0) == 0;
  }
}
