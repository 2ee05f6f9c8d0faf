/**
 * The gradient pass of the convolutional layer and the per-filter-offset table
 * it walks. For each weight, the pass sums δ·activation over the outputs whose
 * window puts that weight over an input cell, reading the first input cell and
 * the first output from the table and stepping the running indices by the stride.
 */
module ConvolutionGradients {
  import opened Arith
  import opened ConvolutionSpec

  // ---------------------------------------------------------------------------
  // Filling the filter-offset table.

  /** The last output whose window puts offset i before the input's end, among the first `visited` outputs. */
  function LastVisited(length: nat, stride: nat, padding: nat, i: nat, visited: nat): int
    requires stride >= 1 && i <= length - 1 + padding
  {
    Min(visited as int - 1, (length - 1 + padding - i) / stride)
  }

  /** Entry i once the start loops have run and the span loop has visited `visited` outputs. */
  ghost predicate EntryAfter(e: FilterInfo, length: nat, filterSize: nat, stride: nat, padding: nat, i: nat, visited: nat)
    requires stride >= 1 && i < filterSize <= length
  {
    e.inputStartOffset == FirstInput(stride, padding, i) &&
    e.outputStartOffset == FirstOutput(stride, padding, i) &&
    e.outputSpan == (if visited == 0 then 0 else LastVisited(length, stride, padding, i, visited) - FirstOutput(stride, padding, i) + 1)
  }

  /** Output t's window starting at `offset` covers offset i inside the input exactly when t is at most (length − 1 + p − i)/s. */
  lemma SpanLoopReaches(length: nat, stride: nat, padding: nat, i: nat, t: nat, offset: int)
    requires stride >= 1 && i <= length - 1 + padding && offset == t * stride - padding
    ensures i < length - offset <==> t <= (length - 1 + padding - i) / stride
  {
    StepsWithin(t, stride, length - 1 + padding - i);
  }

  /** The span loop's visit of output t moves entry i one output on when it is reached, and leaves it when it is not. */
  lemma SpanLoopStep(length: nat, filterSize: nat, stride: nat, padding: nat, i: nat, t: nat, offset: int, e: FilterInfo)
    requires stride >= 1 && i < filterSize <= length && offset == t * stride - padding
    requires EntryAfter(e, length, filterSize, stride, padding, i, t)
    ensures i < length - offset ==>
      EntryAfter(e.(outputSpan := t - e.outputStartOffset + 1), length, filterSize, stride, padding, i, t + 1)
    ensures i >= length - offset ==> EntryAfter(e, length, filterSize, stride, padding, i, t + 1)
  {
    SpanLoopReaches(length, stride, padding, i, t, offset);
  }

  /** After every output has been visited, the entry is the table's. */
  lemma SpanLoopDone(length: nat, filterSize: nat, stride: nat, padding: nat, i: nat, e: FilterInfo)
    requires stride >= 1 && padding < filterSize && i < filterSize <= length
    requires EntryAfter(e, length, filterSize, stride, padding, i, Steps(length + 2 * padding - filterSize, stride) + 1)
    ensures e == FilterInfoFor(length, filterSize, stride, padding, i)
  {
    StepsIsQuotient(length + 2 * padding - filterSize, stride);
  }

  /** The start of entry i as filled in: the first touched input coordinate ⌈(p − i)/s⌉·s − (p − i) and the output ⌈(p − i)/s⌉. */
  lemma PaddedStart(stride: nat, padding: nat, i: nat, first: nat)
    requires stride >= 1 && i < padding
    requires first == (padding - i) / stride + (if (padding - i) % stride != 0 then 1 else 0)
    ensures first == FirstOutput(stride, padding, i)
    ensures first * stride - (padding - i) == FirstInput(stride, padding, i)
  {
    FirstInputIsTouched(stride, padding, i);
  }

  /**
   * The table for one dimension of the given length: first the offsets inside the
   * padding, then the others, then one pass over the outputs in which every offset
   * the window still puts inside the input records the output as its last.
   * Offsets inside the padding start at the input coordinate they actually touch.
   */
  method NewFilterTable(length: nat, filterSize: nat, stride: nat, padding: nat) returns (info: array<FilterInfo>)
    requires stride >= 1 && padding < filterSize <= length
    ensures fresh(info) && info.Length == filterSize
    ensures forall i | 0 <= i < filterSize :: info[i] == FilterInfoFor(length, filterSize, stride, padding, i)
  {
    info := new FilterInfo[filterSize](_ => FilterInfo(0, 0, 0));
    for i := 0 to padding
      invariant forall j | 0 <= j < filterSize :: info[j].outputSpan == 0
      invariant forall j | 0 <= j < i :: EntryAfter(info[j], length, filterSize, stride, padding, j, 0)
    {
      var offset := padding - i;
      var first := offset / stride;
      if offset % stride != 0 {
        first := first + 1;
      }
      PaddedStart(stride, padding, i, first);
      info[i] := FilterInfo(first * stride - offset, first, info[i].outputSpan);
    }
    for i := padding to filterSize
      invariant forall j | 0 <= j < filterSize :: info[j].outputSpan == 0
      invariant forall j | 0 <= j < i :: EntryAfter(info[j], length, filterSize, stride, padding, j, 0)
    {
      info[i] := FilterInfo(i - padding, 0, info[i].outputSpan);
    }
    RecordSpans(info, length, filterSize, stride, padding);
  }

  /** Output t is the last one so far of the first `reached` offsets: their span now ends at t. */
  method RecordOutput(info: array<FilterInfo>, reached: nat, t: int)
    requires reached <= info.Length
    modifies info
    ensures forall j | 0 <= j < info.Length ::
      info[j] == if j < reached then old(info[j]).(outputSpan := t - old(info[j]).outputStartOffset + 1) else old(info[j])
  {
    for i := 0 to reached
      invariant forall j | 0 <= j < info.Length ::
        info[j] == if j < i then old(info[j]).(outputSpan := t - old(info[j]).outputStartOffset + 1) else old(info[j])
    {
      info[i] := info[i].(outputSpan := t - info[i].outputStartOffset + 1);
    }
  }

  /**
   * The span pass of the table: the windows at −p, −p + s, … while they end inside the
   * padded input; each offset the window still puts before the input's end records the
   * window's output as its last, its span being counted from its first output.
   */
  method RecordSpans(info: array<FilterInfo>, length: nat, filterSize: nat, stride: nat, padding: nat)
    requires stride >= 1 && padding < filterSize <= length && info.Length == filterSize
    requires forall j | 0 <= j < filterSize :: EntryAfter(info[j], length, filterSize, stride, padding, j, 0)
    modifies info
    ensures forall i | 0 <= i < filterSize :: info[i] == FilterInfoFor(length, filterSize, stride, padding, i)
  {
    ghost var outputs := Steps(length + 2 * padding - filterSize, stride) + 1;
    var outputOffset := 0;
    var offset := -(padding as int);
    while offset + filterSize <= length + padding
      invariant offset == outputOffset * stride - padding && outputOffset <= outputs
      invariant forall j | 0 <= j < filterSize :: EntryAfter(info[j], length, filterSize, stride, padding, j, outputOffset)
      decreases outputs - outputOffset
    {
      PaddedLoopVisitsEveryOutput(length, filterSize, stride, padding, outputOffset);
      var reached := Min(filterSize, length - offset);
      ghost var before := info[..];
      RecordOutput(info, reached, outputOffset);
      forall j | 0 <= j < filterSize
        ensures EntryAfter(info[j], length, filterSize, stride, padding, j, outputOffset + 1)
      {
        SpanLoopStep(length, filterSize, stride, padding, j, outputOffset, offset, before[j]);
      }
      MulDistrib(outputOffset, 1, stride);
      outputOffset := outputOffset + 1;
      offset := offset + stride;
    }
    PaddedLoopVisitsEveryOutput(length, filterSize, stride, padding, outputOffset);
    forall i | 0 <= i < filterSize
      ensures info[i] == FilterInfoFor(length, filterSize, stride, padding, i)
    {
      SpanLoopDone(length, filterSize, stride, padding, i, info[i]);
    }
  }

  // ---------------------------------------------------------------------------
  // The gradient of one weight: a strided walk over the outputs that put it inside the input.

  /** Term c of a strided run from lo: the delta c − lo cells past del times the activation (c − lo)·stride cells past act. */
  ghost predicate StridedTermMatches(terms: int -> real, d: seq<real>, a: seq<real>, del: int, act: int, stride: int, lo: int, c: int)
  {
    0 <= del + (c - lo) < |d| && 0 <= act + (c - lo) * stride < |a| &&
    terms(c) == d[del + (c - lo)] * a[act + (c - lo) * stride]
  }

  ghost predicate StridedRunMatches(terms: int -> real, d: seq<real>, a: seq<real>, del: int, act: int, stride: int, lo: int, hi: int)
  {
    forall c | lo <= c < hi :: StridedTermMatches(terms, d, a, del, act, stride, lo, c)
  }

  /**
   * The innermost loop of the gradient: δ·activation for the outputs lo to hi of one row,
   * the delta index stepping by one and the activation index by the stride while it is
   * below the row's end.
   */
  method AccumulateStridedRun(d: array<real>, a: array<real>, del: int, act: int, stride: nat, lo: int, hi: int,
                              ghost terms: int -> real, acc: real)
    returns (r: real, delEnd: int, actEnd: int)
    requires stride >= 1 && lo <= hi
    requires StridedRunMatches(terms, d[..], a[..], del, act, stride, lo, hi)
    ensures r == acc + Sum(lo, hi, terms)
    ensures delEnd == del + (hi - lo) && actEnd == act + (hi - lo) * stride
  {
    var rowActivationEnd := act + (hi - lo) * stride;
    r, delEnd, actEnd := acc, del, act;
    ghost var c := lo;
    while actEnd < rowActivationEnd
      invariant lo <= c <= hi && delEnd == del + (c - lo) && actEnd == act + (c - lo) * stride
      invariant r == acc + Sum(lo, c, terms)
      decreases hi - c
    {
      MulStrictIff(c - lo, hi - lo, stride);
      assert StridedTermMatches(terms, d[..], a[..], del, act, stride, lo, c);
      r := r + d[delEnd] * a[actEnd];
      MulDistrib(c - lo, 1, stride);
      delEnd, actEnd, c := delEnd + 1, actEnd + stride, c + 1;
    }
    MulStrictIff(c - lo, hi - lo, stride);
  }

  /** Inside its column span, output column c of row r is in range and sits where the running indices say. */
  lemma GradTermIndices(g: Geometry, f: nat, ch: nat, kr: nat, kc: nat, r: nat, c: int, del: int, act: int)
    requires g.Valid() && f < g.filters && ch < g.channels && kc < g.filterSize
    requires r < g.OutputRows() && 0 <= r * g.stride - g.padding + kr < g.rows
    requires FirstOutput(g.stride, g.padding, kc) <= c < FirstOutput(g.stride, g.padding, kc) + Span(g.columns, g.filterSize, g.stride, g.padding, kc)
    requires del == Index3(f, r, FirstOutput(g.stride, g.padding, kc), g.OutputRows(), g.OutputColumns())
    requires FirstInput(g.stride, g.padding, kc) >= 0
    requires act == Index3(ch, r * g.stride - g.padding + kr, FirstInput(g.stride, g.padding, kc), g.rows, g.columns)
    ensures 0 <= c < g.OutputColumns() && 0 <= c * g.stride - g.padding + kc < g.columns
    ensures var c0 := FirstOutput(g.stride, g.padding, kc);
      Index3(f, r, c, g.OutputRows(), g.OutputColumns()) == del + (c - c0) < g.OutputSize() &&
      Index3(ch, r * g.stride - g.padding + kr, c * g.stride - g.padding + kc, g.rows, g.columns) == act + (c - c0) * g.stride < g.InputSize()
  {
    var c0 := FirstOutput(g.stride, g.padding, kc);
    var y := r * g.stride - g.padding + kr;
    var x := c * g.stride - g.padding + kc;
    SpanIsExact(g.columns, g.filterSize, g.stride, g.padding, kc, c);
    FirstInputIsTouched(g.stride, g.padding, kc);
    MulDistrib(c0, c - c0, g.stride);
    assert x == FirstInput(g.stride, g.padding, kc) + (c - c0) * g.stride;
    Index3Bound(ch, y, x, g.channels, g.rows, g.columns);
    Index3Bound(f, r, c, g.filters, g.OutputRows(), g.OutputColumns());
  }

  /** Inside its column span, output column c of row r reads the delta and activation the running indices name. */
  lemma GradTermAt(g: Geometry, a: seq<real>, d: seq<real>, f: nat, ch: nat, kr: nat, kc: nat, r: nat, c: int,
                   del: int, act: int)
    requires g.Valid() && f < g.filters && ch < g.channels && kc < g.filterSize
    requires |a| == g.InputSize() && |d| == g.OutputSize()
    requires r < g.OutputRows() && 0 <= r * g.stride - g.padding + kr < g.rows
    requires FirstOutput(g.stride, g.padding, kc) <= c < FirstOutput(g.stride, g.padding, kc) + Span(g.columns, g.filterSize, g.stride, g.padding, kc)
    requires del == Index3(f, r, FirstOutput(g.stride, g.padding, kc), g.OutputRows(), g.OutputColumns())
    requires FirstInput(g.stride, g.padding, kc) >= 0
    requires act == Index3(ch, r * g.stride - g.padding + kr, FirstInput(g.stride, g.padding, kc), g.rows, g.columns)
    ensures StridedTermMatches(GradColTerms(g, a, d, f, ch, kr, kc, r), d, a, del, act, g.stride, FirstOutput(g.stride, g.padding, kc), c)
  {
    GradTermIndices(g, f, ch, kr, kc, r, c, del, act);
  }

  /** Every term of the column span of row r reads the entries the running indices name. */
  lemma GradRowReadsRun(g: Geometry, a: seq<real>, d: seq<real>, f: nat, ch: nat, kr: nat, kc: nat, r: nat, del: int, act: int)
    requires g.Valid() && f < g.filters && ch < g.channels && kc < g.filterSize
    requires |a| == g.InputSize() && |d| == g.OutputSize()
    requires r < g.OutputRows() && 0 <= r * g.stride - g.padding + kr < g.rows
    requires del == Index3(f, r, FirstOutput(g.stride, g.padding, kc), g.OutputRows(), g.OutputColumns())
    requires FirstInput(g.stride, g.padding, kc) >= 0
    requires act == Index3(ch, r * g.stride - g.padding + kr, FirstInput(g.stride, g.padding, kc), g.rows, g.columns)
    ensures StridedRunMatches(GradColTerms(g, a, d, f, ch, kr, kc, r), d, a, del, act, g.stride, FirstOutput(g.stride, g.padding, kc),
                              FirstOutput(g.stride, g.padding, kc) + Span(g.columns, g.filterSize, g.stride, g.padding, kc))
  {
    var c0 := FirstOutput(g.stride, g.padding, kc);
    forall c | c0 <= c < c0 + Span(g.columns, g.filterSize, g.stride, g.padding, kc)
      ensures StridedTermMatches(GradColTerms(g, a, d, f, ch, kr, kc, r), d, a, del, act, g.stride, c0, c)
    {
      GradTermAt(g, a, d, f, ch, kr, kc, r, c, del, act);
    }
  }

  /** Outside its column span a term of row r reads padding: the row's sum is the sum over the span. */
  lemma GradRowRestrict(g: Geometry, a: seq<real>, d: seq<real>, f: nat, ch: nat, kr: nat, kc: nat, r: int)
    requires g.Valid() && kc < g.filterSize
    ensures var c0 := FirstOutput(g.stride, g.padding, kc);
      GradRowTerms(g, a, d, f, ch, kr, kc)(r)
      == Sum(c0, c0 + Span(g.columns, g.filterSize, g.stride, g.padding, kc), GradColTerms(g, a, d, f, ch, kr, kc, r))
  {
    var c0 := FirstOutput(g.stride, g.padding, kc);
    var span := Span(g.columns, g.filterSize, g.stride, g.padding, kc);
    var terms := GradColTerms(g, a, d, f, ch, kr, kc, r);
    SpanNonnegative(g.columns, g.filterSize, g.stride, g.padding, kc);
    forall c | 0 <= c < g.OutputColumns() && !(c0 <= c < c0 + span)
      ensures terms(c) == 0.0
    {
      SpanIsExact(g.columns, g.filterSize, g.stride, g.padding, kc, c);
    }
    if span == 0 {
      SumZero(0, g.OutputColumns(), terms);
    } else {
      SpanIsExact(g.columns, g.filterSize, g.stride, g.padding, kc, c0 + span - 1);
      SumRestrict(0, c0, c0 + span, g.OutputColumns(), terms);
    }
  }

  /** Outside its row span every term reads padding: the weight's gradient is the sum over the row span. */
  lemma GradPlaneRestrict(g: Geometry, a: seq<real>, d: seq<real>, f: nat, ch: nat, kr: nat, kc: nat)
    requires g.Valid() && kr < g.filterSize
    ensures var r0 := FirstOutput(g.stride, g.padding, kr);
      WeightGradient(g, a, d, f, ch, kr, kc)
      == Sum(r0, r0 + Span(g.rows, g.filterSize, g.stride, g.padding, kr), GradRowTerms(g, a, d, f, ch, kr, kc))
  {
    var r0 := FirstOutput(g.stride, g.padding, kr);
    var span := Span(g.rows, g.filterSize, g.stride, g.padding, kr);
    var terms := GradRowTerms(g, a, d, f, ch, kr, kc);
    SpanNonnegative(g.rows, g.filterSize, g.stride, g.padding, kr);
    forall r | 0 <= r < g.OutputRows() && !(r0 <= r < r0 + span)
      ensures terms(r) == 0.0
    {
      SpanIsExact(g.rows, g.filterSize, g.stride, g.padding, kr, r);
      SumZero(0, g.OutputColumns(), GradColTerms(g, a, d, f, ch, kr, kc, r));
    }
    if span == 0 {
      SumZero(0, g.OutputRows(), terms);
    } else {
      SpanIsExact(g.rows, g.filterSize, g.stride, g.padding, kr, r0 + span - 1);
      SumRestrict(0, r0, r0 + span, g.OutputRows(), terms);
    }
  }

  /** One strided row down: the activation index moves s input rows, the delta index one output row. */
  lemma StridedRowStep(g: Geometry, f: nat, ch: nat, r: nat, y: nat, x0: nat, c0: nat)
    requires g.Valid()
    ensures Index3(ch, y + g.stride, x0, g.rows, g.columns) == Index3(ch, y, x0, g.rows, g.columns) + g.columns * g.stride
    ensures Index3(f, r + 1, c0, g.OutputRows(), g.OutputColumns()) == Index3(f, r, c0, g.OutputRows(), g.OutputColumns()) + g.OutputColumns()
  {
    MulDistrib(ch * g.rows + y, g.stride, g.columns);
    MulDistrib(f * g.OutputRows() + r, 1, g.OutputColumns());
  }

  /** The activation index of strided row rr stays below the end of the row span exactly while rr is inside it. */
  lemma StridedRowWalk(ch: nat, y0: nat, x0: nat, rows: nat, cols: nat, stride: nat, rr: nat, span: int)
    requires stride >= 1 && cols >= 1
    ensures Index3(ch, y0 + rr * stride, x0, rows, cols) < Index3(ch, y0, x0, rows, cols) + (span * stride) * cols <==> rr < span
  {
    MulDistrib(ch * rows + y0, rr * stride, cols);
    MulStrictIff(rr * stride, span * stride, cols);
    MulStrictIff(rr, span, stride);
  }

  /** Output row r puts filter row kr inside the input. */
  ghost predicate RowInSpan(g: Geometry, kr: nat, r: int)
    requires g.Valid()
  {
    0 <= r < g.OutputRows() && 0 <= r * g.stride - g.padding + kr < g.rows
  }

  /** Every output row of the table's row span puts filter row kr inside the input. */
  lemma RowSpanInRange(g: Geometry, kr: nat)
    requires g.Valid() && kr < g.filterSize
    ensures forall r | FirstOutput(g.stride, g.padding, kr) <= r < FirstOutput(g.stride, g.padding, kr) + Span(g.rows, g.filterSize, g.stride, g.padding, kr)
      :: RowInSpan(g, kr, r)
  {
    forall r | FirstOutput(g.stride, g.padding, kr) <= r < FirstOutput(g.stride, g.padding, kr) + Span(g.rows, g.filterSize, g.stride, g.padding, kr)
      ensures RowInSpan(g, kr, r)
    {
      SpanIsExact(g.rows, g.filterSize, g.stride, g.padding, kr, r);
    }
  }

  /** Row r of the row span: the column span walked from the row's first delta and activation. */
  method WeightErrorRow(g: Geometry, a: array<real>, d: array<real>, ghost acts: seq<real>, ghost ds: seq<real>,
                        f: nat, ch: nat, kr: nat, kc: nat, ghost r: nat, ghost y: nat, c0: nat, colSpan: int, x0: nat,
                        del: nat, activation: nat, acc: real)
    returns (thisError: real, delEnd: int, actEnd: int)
    requires g.Valid() && f < g.filters && ch < g.channels && kc < g.filterSize
    requires a.Length == g.InputSize() && d.Length == g.OutputSize() && acts == a[..] && ds == d[..]
    requires RowInSpan(g, kr, r) && y == r * g.stride - g.padding + kr
    requires c0 == FirstOutput(g.stride, g.padding, kc) && colSpan == Span(g.columns, g.filterSize, g.stride, g.padding, kc) >= 0
    requires x0 == FirstInput(g.stride, g.padding, kc)
    requires del == Index3(f, r, c0, g.OutputRows(), g.OutputColumns()) && activation == Index3(ch, y, x0, g.rows, g.columns)
    ensures thisError == acc + GradRowTerms(g, acts, ds, f, ch, kr, kc)(r)
    ensures delEnd == del + colSpan && actEnd == activation + colSpan * g.stride
  {
    GradRowReadsRun(g, acts, ds, f, ch, kr, kc, r, del, activation);
    GradRowRestrict(g, acts, ds, f, ch, kr, kc, r);
    thisError, delEnd, actEnd := AccumulateStridedRun(d, a, del, activation, g.stride, c0, c0 + colSpan,
                                                      GradColTerms(g, acts, ds, f, ch, kr, kc, r), acc);
  }

  /**
   * The row walk of one weight's gradient: from the first delta and activation of the span,
   * each row's column span in turn, the activation index moving s input rows and the delta
   * index one output row after each, while the activation index is below the span's end.
   */
  method WalkRowSpan(g: Geometry, a: array<real>, d: array<real>, ghost acts: seq<real>, ghost ds: seq<real>,
                     f: nat, ch: nat, kr: nat, kc: nat, r0: nat, rowSpan: int, y0: nat, c0: nat, colSpan: int, x0: nat)
    returns (thisError: real)
    requires g.Valid() && f < g.filters && ch < g.channels && kc < g.filterSize
    requires a.Length == g.InputSize() && d.Length == g.OutputSize() && acts == a[..] && ds == d[..]
    requires rowSpan >= 0 && y0 == r0 * g.stride - g.padding + kr
    requires forall r | r0 <= r < r0 + rowSpan :: RowInSpan(g, kr, r)
    requires c0 == FirstOutput(g.stride, g.padding, kc) && colSpan == Span(g.columns, g.filterSize, g.stride, g.padding, kc) >= 0
    requires x0 == FirstInput(g.stride, g.padding, kc)
    ensures thisError == Sum(r0, r0 + rowSpan, GradRowTerms(g, acts, ds, f, ch, kr, kc))
  {
    var inputWidthTimesStride := g.columns * g.stride;
    var activationRowOffset := rowSpan * g.stride * g.columns;
    var inputColSpan := colSpan * g.stride;
    var activation := Index3(ch, y0, x0, g.rows, g.columns);
    var rowActivationEnd := activation + inputColSpan;
    var activationOffset := inputWidthTimesStride - inputColSpan;
    var activationEnd := activation + activationRowOffset;
    var del := Index3(f, r0, c0, g.OutputRows(), g.OutputColumns());
    var delOffset := g.OutputColumns() - colSpan;
    thisError := 0.0;
    ghost var rr: nat := 0;
    ghost var y: nat := y0;
    while activation < activationEnd
      invariant rr <= rowSpan && y == y0 + rr * g.stride
      invariant activation == Index3(ch, y, x0, g.rows, g.columns) && rowActivationEnd == activation + inputColSpan
      invariant del == Index3(f, r0 + rr, c0, g.OutputRows(), g.OutputColumns())
      invariant thisError == Sum(r0, r0 + rr, GradRowTerms(g, acts, ds, f, ch, kr, kc))
      decreases rowSpan - rr
    {
      StridedRowWalk(ch, y0, x0, g.rows, g.columns, g.stride, rr, rowSpan);
      assert RowInSpan(g, kr, r0 + rr);
      MulDistrib(r0, rr, g.stride);
      var delEnd, actEnd;
      thisError, delEnd, actEnd := WeightErrorRow(g, a, d, acts, ds, f, ch, kr, kc, r0 + rr, y, c0, colSpan, x0, del, activation, thisError);
      activation := actEnd + activationOffset;
      rowActivationEnd := rowActivationEnd + inputWidthTimesStride;
      del := delEnd + delOffset;
      StridedRowStep(g, f, ch, r0 + rr, y, x0, c0);
      MulDistrib(rr, 1, g.stride);
      rr, y := rr + 1, y + g.stride;
    }
    StridedRowWalk(ch, y0, x0, g.rows, g.columns, g.stride, rr, rowSpan);
  }

  /**
   * The gradient of weight (f, ch, kr, kc), as the padded pass computes it: the row walk
   * from the first input cell and first output the table gives for kr and kc, over the
   * table's row and column spans. An empty span walks nothing.
   */
  method WeightError(g: Geometry, a: array<real>, d: array<real>, ghost acts: seq<real>, ghost ds: seq<real>,
                     f: nat, ch: nat, kr: nat, kc: nat, rowInfo: FilterInfo, colInfo: FilterInfo)
    returns (thisError: real)
    requires g.Valid() && f < g.filters && ch < g.channels && kr < g.filterSize && kc < g.filterSize
    requires a.Length == g.InputSize() && d.Length == g.OutputSize() && acts == a[..] && ds == d[..]
    requires rowInfo == FilterInfoFor(g.rows, g.filterSize, g.stride, g.padding, kr)
    requires colInfo == FilterInfoFor(g.columns, g.filterSize, g.stride, g.padding, kc)
    ensures thisError == WeightGradient(g, acts, ds, f, ch, kr, kc)
  {
    FirstInputIsTouched(g.stride, g.padding, kr);
    FirstInputIsTouched(g.stride, g.padding, kc);
    SpanNonnegative(g.rows, g.filterSize, g.stride, g.padding, kr);
    SpanNonnegative(g.columns, g.filterSize, g.stride, g.padding, kc);
    RowSpanInRange(g, kr);
    thisError := WalkRowSpan(g, a, d, acts, ds, f, ch, kr, kc, rowInfo.outputStartOffset, rowInfo.outputSpan,
                             rowInfo.inputStartOffset, colInfo.outputStartOffset, colInfo.outputSpan, colInfo.inputStartOffset);
    GradPlaneRestrict(g, acts, ds, f, ch, kr, kc);
  }

  /** t holds the entry of every filter offset along an axis of the given length. */
  predicate IsFilterTable(t: array<FilterInfo>, length: nat, filterSize: nat, stride: nat, padding: nat)
    reads t
    requires stride >= 1
  {
    t.Length == filterSize && forall i | 0 <= i < filterSize :: t[i] == FilterInfoFor(length, filterSize, stride, padding, i)
  }

  // ---------------------------------------------------------------------------
  // Where each weight's gradient sits in nablaW. These lemmas are about positions
  // only: w stands for whatever value each position is meant to hold.

  /** Filter row kr of an F × F block starting at base is the F entries from base + kr·F on. */
  lemma RowOfBlock(spec: seq<real>, w: (nat, nat) -> real, F: nat, kr: nat, base: nat, start: nat)
    requires kr < F && start == base + kr * F
    requires forall r: nat, c: nat | r < F && c < F :: base + Index2(r, c, F) < |spec| && spec[base + Index2(r, c, F)] == w(r, c)
    ensures start + F == base + (kr + 1) * F <= base + F * F
    ensures start + F <= |spec|
    ensures forall c: nat | c < F :: spec[start + c] == w(kr, c)
  {
    MulMonotone(kr + 1, F, F);
    MulDistrib(kr, 1, F);
    assert base + Index2(kr, F - 1, F) < |spec| && spec[base + Index2(kr, F - 1, F)] == w(kr, F - 1);
    forall c: nat | c < F
      ensures spec[start + c] == w(kr, c)
    {
      assert base + Index2(kr, c, F) < |spec| && spec[base + Index2(kr, c, F)] == w(kr, c);
    }
  }

  /** Channel ch of C blocks of F × F starting at base is the block from base + (ch·F)·F on. */
  lemma BlockOfFilter(spec: seq<real>, w: (nat, nat, nat) -> real, C: nat, F: nat, ch: nat, base: nat, start: nat)
    requires ch < C && start == base + (ch * F) * F
    requires forall ch: nat, r: nat, c: nat | ch < C && r < F && c < F ::
      base + Index3(ch, r, c, F, F) < |spec| && spec[base + Index3(ch, r, c, F, F)] == w(ch, r, c)
    ensures start + F * F == base + ((ch + 1) * F) * F <= base + (C * F) * F
    ensures forall r: nat, c: nat | r < F && c < F ::
      start + Index2(r, c, F) < |spec| && spec[start + Index2(r, c, F)] == w(ch, r, c)
  {
    MulDistrib(ch, 1, F);
    MulDistrib(ch * F, F, F);
    MulMonotone(ch + 1, C, F);
    MulMonotone((ch + 1) * F, C * F, F);
    forall r: nat, c: nat | r < F && c < F
      ensures start + Index2(r, c, F) < |spec| && spec[start + Index2(r, c, F)] == w(ch, r, c)
    {
      assert base + Index3(ch, r, c, F, F) < |spec| && spec[base + Index3(ch, r, c, F, F)] == w(ch, r, c);
      MulDistrib(ch * F, r, F);
    }
  }

  // ---------------------------------------------------------------------------
  // Every weight in turn, then the bias.

  /** Filter row kr of filter f's channel ch: each column's gradient added to the next nablaW entry. */
  method AddKernelRowErrors(g: Geometry, a: array<real>, d: array<real>, nablaW: array<real>,
                            rowTable: array<FilterInfo>, colTable: array<FilterInfo>,
                            ghost acts: seq<real>, ghost ds: seq<real>, ghost spec: seq<real>,
                            f: nat, ch: nat, kr: nat, thisNablaW: nat)
    returns (next: nat)
    requires g.Valid() && f < g.filters && ch < g.channels && kr < g.filterSize
    requires a.Length == g.InputSize() && d.Length == g.OutputSize() && acts == a[..] && ds == d[..]
    requires nablaW != a && nablaW != d && |spec| == nablaW.Length && thisNablaW + g.filterSize <= nablaW.Length
    requires thisNablaW + g.filterSize <= |spec|
    requires forall kc: nat | kc < g.filterSize :: spec[thisNablaW + kc] == WeightGradient(g, acts, ds, f, ch, kr, kc)
    requires IsFilterTable(rowTable, g.rows, g.filterSize, g.stride, g.padding)
    requires IsFilterTable(colTable, g.columns, g.filterSize, g.stride, g.padding)
    modifies nablaW
    ensures next == thisNablaW + g.filterSize
    ensures forall k | 0 <= k < nablaW.Length :: nablaW[k] == old(nablaW[k]) + (if thisNablaW <= k < next then spec[k] else 0.0)
  {
    next := thisNablaW;
    for kc := 0 to g.filterSize
      invariant next == thisNablaW + kc
      invariant forall k | 0 <= k < nablaW.Length :: nablaW[k] == old(nablaW[k]) + (if thisNablaW <= k < next then spec[k] else 0.0)
    {
      var thisError := WeightError(g, a, d, acts, ds, f, ch, kr, kc, rowTable[kr], colTable[kc]);
      nablaW[next] := nablaW[next] + thisError;
      next := next + 1;
    }
  }

  /** Channel ch of filter f: its filter rows in turn. */
  method AddChannelErrors(g: Geometry, a: array<real>, d: array<real>, nablaW: array<real>,
                          rowTable: array<FilterInfo>, colTable: array<FilterInfo>,
                          ghost acts: seq<real>, ghost ds: seq<real>, ghost spec: seq<real>, f: nat, ch: nat, thisNablaW: nat)
    returns (next: nat)
    requires g.Valid() && f < g.filters && ch < g.channels
    requires a.Length == g.InputSize() && d.Length == g.OutputSize() && acts == a[..] && ds == d[..]
    requires nablaW != a && nablaW != d && |spec| == nablaW.Length
    requires thisNablaW + g.filterSize * g.filterSize <= nablaW.Length
    requires forall kr: nat, kc: nat | kr < g.filterSize && kc < g.filterSize ::
      thisNablaW + Index2(kr, kc, g.filterSize) < |spec| && spec[thisNablaW + Index2(kr, kc, g.filterSize)] == WeightGradient(g, acts, ds, f, ch, kr, kc)
    requires IsFilterTable(rowTable, g.rows, g.filterSize, g.stride, g.padding)
    requires IsFilterTable(colTable, g.columns, g.filterSize, g.stride, g.padding)
    modifies nablaW
    ensures next == thisNablaW + g.filterSize * g.filterSize
    ensures forall k | 0 <= k < nablaW.Length :: nablaW[k] == old(nablaW[k]) + (if thisNablaW <= k < next then spec[k] else 0.0)
  {
    var F := g.filterSize;
    next := thisNablaW;
    for kr := 0 to F
      invariant next == thisNablaW + kr * F
      invariant forall k | 0 <= k < nablaW.Length :: nablaW[k] == old(nablaW[k]) + (if thisNablaW <= k < next then spec[k] else 0.0)
    {
      RowOfBlock(spec, (r: nat, c: nat) => WeightGradient(g, acts, ds, f, ch, r, c), F, kr, thisNablaW, next);
      next := AddKernelRowErrors(g, a, d, nablaW, rowTable, colTable, acts, ds, spec, f, ch, kr, next);
    }
  }

  /** Every channel of filter f in turn, the nablaW index running on from one to the next. */
  method AddFilterErrors(g: Geometry, a: array<real>, d: array<real>, nablaW: array<real>,
                         rowTable: array<FilterInfo>, colTable: array<FilterInfo>,
                         ghost acts: seq<real>, ghost ds: seq<real>, ghost spec: seq<real>, f: nat, thisNablaW: nat)
    returns (next: nat)
    requires g.Valid() && f < g.filters
    requires a.Length == g.InputSize() && d.Length == g.OutputSize() && acts == a[..] && ds == d[..]
    requires nablaW != a && nablaW != d && |spec| == nablaW.Length
    requires thisNablaW + (g.channels * g.filterSize) * g.filterSize <= nablaW.Length
    requires forall ch: nat, kr: nat, kc: nat | ch < g.channels && kr < g.filterSize && kc < g.filterSize ::
      thisNablaW + Index3(ch, kr, kc, g.filterSize, g.filterSize) < |spec| &&
      spec[thisNablaW + Index3(ch, kr, kc, g.filterSize, g.filterSize)] == WeightGradient(g, acts, ds, f, ch, kr, kc)
    requires IsFilterTable(rowTable, g.rows, g.filterSize, g.stride, g.padding)
    requires IsFilterTable(colTable, g.columns, g.filterSize, g.stride, g.padding)
    modifies nablaW
    ensures next == thisNablaW + (g.channels * g.filterSize) * g.filterSize
    ensures forall k | 0 <= k < nablaW.Length :: nablaW[k] == old(nablaW[k]) + (if thisNablaW <= k < next then spec[k] else 0.0)
  {
    var F := g.filterSize;
    next := thisNablaW;
    for ch := 0 to g.channels
      invariant next == thisNablaW + (ch * F) * F
      invariant forall k | 0 <= k < nablaW.Length :: nablaW[k] == old(nablaW[k]) + (if thisNablaW <= k < next then spec[k] else 0.0)
    {
      BlockOfFilter(spec, (ch: nat, r: nat, c: nat) => WeightGradient(g, acts, ds, f, ch, r, c), g.channels, F, ch, thisNablaW, next);
      next := AddChannelErrors(g, a, d, nablaW, rowTable, colTable, acts, ds, spec, f, ch, next);
    }
  }

  /** The bias gradient of filter f: the deltas of plane f summed in order. */
  method BiasError(g: Geometry, d: array<real>, f: nat) returns (biasUpdate: real)
    requires g.Valid() && f < g.filters && d.Length == g.OutputSize()
    ensures biasUpdate == PlaneSum(d[..], g.OutputRows() * g.OutputColumns(), f)
  {
    var deltaPlaneSize := g.OutputRows() * g.OutputColumns();
    MulAssociates(f, g.OutputRows(), g.OutputColumns());
    MulAssociates(g.filters, g.OutputRows(), g.OutputColumns());
    var del := Index3(f, 0, 0, g.OutputRows(), g.OutputColumns());
    RowEndBound(f, g.filters, deltaPlaneSize);
    var delEnd := del + deltaPlaneSize;
    biasUpdate := 0.0;
    ghost var i := 0;
    while del < delEnd
      invariant 0 <= i <= deltaPlaneSize && del == f * deltaPlaneSize + i
      invariant biasUpdate == Sum(0, i, PlaneTerms(d[..], deltaPlaneSize, f))
      decreases deltaPlaneSize - i
    {
      assert del < d.Length;
      assert d[del] == At(d[..], f * deltaPlaneSize + i);
      assert d[del] == PlaneTerms(d[..], deltaPlaneSize, f)(i);
      biasUpdate := biasUpdate + d[del];
      del, i := del + 1, i + 1;
    }
  }

  /** Where each weight's gradient sits in WeightGradients, in the filter · channel · row · column order. */
  predicate GradientLayout(g: Geometry, acts: seq<real>, ds: seq<real>, spec: seq<real>)
    requires g.Valid()
  {
    |spec| == g.WeightCount() &&
    forall f: nat, ch: nat, kr: nat, kc: nat {:trigger WeightGradient(g, acts, ds, f, ch, kr, kc)}
      | f < g.filters && ch < g.channels && kr < g.filterSize && kc < g.filterSize ::
      Index3(f * g.channels + ch, kr, kc, g.filterSize, g.filterSize) < g.WeightCount() &&
      spec[Index3(f * g.channels + ch, kr, kc, g.filterSize, g.filterSize)] == WeightGradient(g, acts, ds, f, ch, kr, kc)
  }

  lemma WeightGradientsLayout(g: Geometry, acts: seq<real>, ds: seq<real>)
    requires g.Valid()
    ensures GradientLayout(g, acts, ds, WeightGradients(g, acts, ds))
  {
    var spec := WeightGradients(g, acts, ds);
    forall f: nat, ch: nat, kr: nat, kc: nat | f < g.filters && ch < g.channels && kr < g.filterSize && kc < g.filterSize
      ensures Index3(f * g.channels + ch, kr, kc, g.filterSize, g.filterSize) < g.WeightCount()
      ensures spec[Index3(f * g.channels + ch, kr, kc, g.filterSize, g.filterSize)] == WeightGradient(g, acts, ds, f, ch, kr, kc)
    {
      WeightGradientsAt(g, acts, ds, f, ch, kr, kc);
    }
  }

  /** The weights are g.filters blocks of C·F·F, one per filter. */
  lemma WeightsPerFilter(g: Geometry)
    ensures g.WeightCount() == g.filters * ((g.channels * g.filterSize) * g.filterSize)
  {
    assert ((g.filters * g.channels) * g.filterSize) * g.filterSize == g.filters * ((g.channels * g.filterSize) * g.filterSize);
  }

  /**
   * The gradient pass: for every filter, every weight's gradient added to nablaW in the
   * weights' own order, then the bias gradient added to nablaB.
   */
  method AddWeightAndBiasErrors(g: Geometry, a: array<real>, d: array<real>, nablaW: array<real>, nablaB: array<real>,
                                rowTable: array<FilterInfo>, colTable: array<FilterInfo>)
    requires g.Valid() && a.Length == g.InputSize() && d.Length == g.OutputSize()
    requires nablaW.Length == g.WeightCount() && nablaB.Length == g.filters
    requires nablaW != a && nablaW != d && nablaB != a && nablaB != d && nablaW != nablaB
    requires IsFilterTable(rowTable, g.rows, g.filterSize, g.stride, g.padding)
    requires IsFilterTable(colTable, g.columns, g.filterSize, g.stride, g.padding)
    modifies nablaW, nablaB
    ensures forall k | 0 <= k < nablaW.Length :: nablaW[k] == old(nablaW[k]) + WeightGradients(g, a[..], d[..])[k]
    ensures forall f | 0 <= f < nablaB.Length :: nablaB[f] == old(nablaB[f]) + BiasGradient(g, d[..], f)
  {
    WeightGradientsLayout(g, a[..], d[..]);
    AddFilterErrorsInTurn(g, a, d, nablaW, nablaB, rowTable, colTable, a[..], d[..], WeightGradients(g, a[..], d[..]), g.OutputRows() * g.OutputColumns());
  }

  /** One filter's turn: its weights' gradients, then its bias gradient. */
  method AddFilterAndBiasErrors(g: Geometry, a: array<real>, d: array<real>, nablaW: array<real>, nablaB: array<real>,
                               rowTable: array<FilterInfo>, colTable: array<FilterInfo>,
                               ghost acts: seq<real>, ghost ds: seq<real>, ghost spec: seq<real>, ghost planeSize: nat,
                               f: nat, thisNablaW: nat)
    returns (next: nat)
    requires g.Valid() && a.Length == g.InputSize() && d.Length == g.OutputSize() && acts == a[..] && ds == d[..]
    requires nablaW.Length == g.WeightCount() && nablaB.Length == g.filters && GradientLayout(g, acts, ds, spec)
    requires planeSize == g.OutputRows() * g.OutputColumns()
    requires nablaW != a && nablaW != d && nablaB != a && nablaB != d && nablaW != nablaB
    requires IsFilterTable(rowTable, g.rows, g.filterSize, g.stride, g.padding)
    requires IsFilterTable(colTable, g.columns, g.filterSize, g.stride, g.padding)
    requires f < g.filters && thisNablaW == f * ((g.channels * g.filterSize) * g.filterSize)
    modifies nablaW, nablaB
    ensures next == (f + 1) * ((g.channels * g.filterSize) * g.filterSize)
    ensures forall k | 0 <= k < nablaW.Length :: nablaW[k] == old(nablaW[k]) + (if thisNablaW <= k < next then spec[k] else 0.0)
    ensures forall j | 0 <= j < nablaB.Length :: nablaB[j] == old(nablaB[j]) + (if j == f then PlaneSum(ds, planeSize, f) else 0.0)
  {
    FilterBlock(g, acts, ds, spec, f, thisNablaW);
    next := AddFilterErrors(g, a, d, nablaW, rowTable, colTable, acts, ds, spec, f, thisNablaW);
    var biasUpdate := BiasError(g, d, f);
    nablaB[f] := nablaB[f] + biasUpdate;
  }

  /** The gradients of filter f sit in the block of the table that starts at thisNablaW. */
  lemma FilterBlock(g: Geometry, acts: seq<real>, ds: seq<real>, spec: seq<real>, f: nat, thisNablaW: nat)
    requires g.Valid() && GradientLayout(g, acts, ds, spec)
    requires f < g.filters && thisNablaW == f * ((g.channels * g.filterSize) * g.filterSize)
    ensures thisNablaW + (g.channels * g.filterSize) * g.filterSize == (f + 1) * ((g.channels * g.filterSize) * g.filterSize) <= |spec|
    ensures forall ch: nat, kr: nat, kc: nat | ch < g.channels && kr < g.filterSize && kc < g.filterSize ::
      thisNablaW + Index3(ch, kr, kc, g.filterSize, g.filterSize) < |spec| &&
      spec[thisNablaW + Index3(ch, kr, kc, g.filterSize, g.filterSize)] == WeightGradient(g, acts, ds, f, ch, kr, kc)
  {
    WeightsPerFilter(g);
    var C, F := g.channels, g.filterSize;
    MulDistrib(f, 1, (C * F) * F);
    MulMonotone(f + 1, g.filters, (C * F) * F);
    forall ch: nat, r: nat, c: nat | ch < C && r < F && c < F
      ensures thisNablaW + Index3(ch, r, c, F, F) < |spec| &&
              spec[thisNablaW + Index3(ch, r, c, F, F)] == WeightGradient(g, acts, ds, f, ch, r, c)
    {
      var v := WeightGradient(g, acts, ds, f, ch, r, c);
      assert Index3(f * C + ch, r, c, F, F) < |spec| && spec[Index3(f * C + ch, r, c, F, F)] == v;
      MulDistrib(f * C, ch, F);
      MulDistrib((f * C) * F, ch * F + r, F);
      MulAssociates(f, C, F);
      MulAssociates(f, C * F, F);
    }
  }

  /** The filter loop of the gradient pass, against any table laid out as GradientLayout says. */
  method AddFilterErrorsInTurn(g: Geometry, a: array<real>, d: array<real>, nablaW: array<real>, nablaB: array<real>,
                               rowTable: array<FilterInfo>, colTable: array<FilterInfo>,
                               ghost acts: seq<real>, ghost ds: seq<real>, ghost spec: seq<real>, ghost planeSize: nat)
    requires g.Valid() && a.Length == g.InputSize() && d.Length == g.OutputSize() && acts == a[..] && ds == d[..]
    requires nablaW.Length == g.WeightCount() && nablaB.Length == g.filters && GradientLayout(g, acts, ds, spec)
    requires planeSize == g.OutputRows() * g.OutputColumns()
    requires nablaW != a && nablaW != d && nablaB != a && nablaB != d && nablaW != nablaB
    requires IsFilterTable(rowTable, g.rows, g.filterSize, g.stride, g.padding)
    requires IsFilterTable(colTable, g.columns, g.filterSize, g.stride, g.padding)
    modifies nablaW, nablaB
    ensures forall k | 0 <= k < nablaW.Length :: nablaW[k] == old(nablaW[k]) + spec[k]
    ensures forall f | 0 <= f < nablaB.Length :: nablaB[f] == old(nablaB[f]) + PlaneSum(ds, planeSize, f)
  {
    var filterWeights := (g.channels * g.filterSize) * g.filterSize;
    var thisNablaW := 0;
    for f := 0 to g.filters
      invariant thisNablaW == f * filterWeights
      invariant forall k | 0 <= k < nablaW.Length :: nablaW[k] == old(nablaW[k]) + (if k < thisNablaW then spec[k] else 0.0)
      invariant forall j | 0 <= j < nablaB.Length :: nablaB[j] == old(nablaB[j]) + (if j < f then PlaneSum(ds, planeSize, j) else 0.0)
    {
      thisNablaW := AddFilterAndBiasErrors(g, a, d, nablaW, nablaB, rowTable, colTable, acts, ds, spec, planeSize, f, thisNablaW);
    }
    WeightsPerFilter(g);
  }
}
