/**
 * FishNet's Tensor: a shape of up to four dimensions over one flat, row-major
 * buffer of doubles, with in-place element-wise arithmetic, a first-maximum
 * search, weight statistics and a binary save/load layout.
 */
module Tensors {
  import opened Wrappers
  import opened Arith
  import opened Streams

  /** The four dimensions of a tensor; lower-rank tensors have leading dimensions of 1. */
  datatype Shape = Shape(hyperplanes: nat, planes: nat, rows: nat, columns: nat) {
    function PlaneSize(): nat { rows * columns }
    function HyperplaneSize(): nat { PlaneSize() * planes }
    function Size(): nat { HyperplaneSize() * hyperplanes }
    predicate IsU32Shape() { IsU32(hyperplanes) && IsU32(planes) && IsU32(rows) && IsU32(columns) }
  }

  /** A tensor as a value: its shape and its elements in row-major order. */
  datatype TensorValue = TensorValue(shape: Shape, elements: seq<real>) {
    predicate WellFormed() { |elements| == shape.Size() }
  }

  /** Flat offset of element (h, p, r, c): h·hyperplaneSize + p·planeSize + r·columns + c. */
  function Offset(s: Shape, h: nat, p: nat, r: nat, c: nat): nat
  {
    s.HyperplaneSize() * h + s.PlaneSize() * p + s.columns * r + c
  }

  /** Strict bounds on every coordinate. */
  predicate InBounds(s: Shape, h: nat, p: nat, r: nat, c: nat)
  {
    h < s.hyperplanes && p < s.planes && r < s.rows && c < s.columns
  }

  /** The debug-build check of the multi-index accessors as written: a coordinate equal to its dimension passes. */
  predicate IndexCheckAsWritten(s: Shape, h: nat, p: nat, r: nat, c: nat)
  {
    !(h > s.hyperplanes) && !(p > s.planes) && !(r > s.rows) && !(c > s.columns)
  }

  lemma OffsetInBounds(s: Shape, h: nat, p: nat, r: nat, c: nat)
    requires InBounds(s, h, p, r, c)
    ensures Offset(s, h, p, r, c) < s.Size()
  {
    MulAddBound(r, c, s.rows, s.columns);
    MulAddBound(p, r * s.columns + c, s.planes, s.PlaneSize());
    MulAddBound(h, p * s.PlaneSize() + r * s.columns + c, s.hyperplanes, s.HyperplaneSize());
  }

  /** The offset in Horner form: ((h·planes + p)·rows + r)·columns + c. */
  lemma OffsetHorner(s: Shape, h: nat, p: nat, r: nat, c: nat)
    ensures Offset(s, h, p, r, c) == ((h * s.planes + p) * s.rows + r) * s.columns + c
  {
    var q2 := h * s.planes + p;
    MulDistrib(q2 * s.rows, r, s.columns);
    MulDistrib(h * s.planes, p, s.rows);
    MulDistrib(h * s.planes * s.rows, p * s.rows, s.columns);
    assert s.HyperplaneSize() * h == h * s.planes * s.rows * s.columns;
    assert s.PlaneSize() * p == p * s.rows * s.columns;
  }

  /** The row-major layout is one-to-one: every coordinate can be read back from the offset. */
  lemma OffsetDecomposes(s: Shape, h: nat, p: nat, r: nat, c: nat)
    requires InBounds(s, h, p, r, c)
    ensures var k := Offset(s, h, p, r, c);
      k % s.columns == c && k / s.columns % s.rows == r &&
      k / s.columns / s.rows % s.planes == p && k / s.columns / s.rows / s.planes == h
  {
    var q2 := h * s.planes + p;
    var q1 := q2 * s.rows + r;
    OffsetHorner(s, h, p, r, c);
    DivModOf(q1, c, s.columns);
    DivModOf(q2, r, s.rows);
    DivModOf(h, p, s.planes);
  }

  lemma {:induction false} OffsetInjective(s: Shape, h: nat, p: nat, r: nat, c: nat, h': nat, p': nat, r': nat, c': nat)
    requires InBounds(s, h, p, r, c) && InBounds(s, h', p', r', c')
    ensures Offset(s, h, p, r, c) == Offset(s, h', p', r', c') <==> (h, p, r, c) == (h', p', r', c')
  {
    OffsetDecomposes(s, h, p, r, c);
    OffsetDecomposes(s, h', p', r', c');
  }

  /** For every two-dimensional shape, the row index equal to the row count passes the check as written yet lands past the end. */
  lemma AsWrittenCheckAdmitsRowPastEnd(rows: nat, columns: nat)
    ensures var s := Shape(1, 1, rows, columns);
      IndexCheckAsWritten(s, 0, 0, rows, 0) && !InBounds(s, 0, 0, rows, 0) && Offset(s, 0, 0, rows, 0) >= s.Size()
  {
  }

  /** A 3-by-4 tensor: (3, 3) passes the check as written and is offset 15 of 12 elements. */
  lemma AsWrittenCheckAdmitsThreeThree()
    ensures var s := Shape(1, 1, 3, 4);
      IndexCheckAsWritten(s, 0, 0, 3, 3) && Offset(s, 0, 0, 3, 3) == 15 && s.Size() == 12
  {
  }

  // ---------------------------------------------------------------------------
  // Specification functions over element sequences.

  datatype Op = Plus | Minus | Times {
    function On(x: real, y: real): real
    {
      match this
      case Plus => x + y
      case Minus => x - y
      case Times => x * y
    }
  }

  /** Element-wise combination of two equally long sequences. */
  function Combine(op: Op, a: seq<real>, b: seq<real>): (r: seq<real>)
    requires |a| == |b|
    ensures |r| == |a|
  {
    seq(|a|, i requires 0 <= i < |a| => op.On(a[i], b[i]))
  }

  /** Subtracting what was added restores the original elements. */
  lemma SubtractUndoesAdd(a: seq<real>, b: seq<real>)
    requires |a| == |b|
    ensures Combine(Minus, Combine(Plus, a, b), b) == a
  {
  }

  /** The sum of a sequence, accumulated from the front. */
  function SeqSum(s: seq<real>): real
  {
    if s == [] then 0.0 else SeqSum(s[..|s| - 1]) + s[|s| - 1]
  }

  /** The index of the first occurrence of the largest element. */
  predicate IsFirstMax(s: seq<real>, k: int)
  {
    0 <= k < |s| && (forall i | 0 <= i < |s| :: s[i] <= s[k]) && (forall i | 0 <= i < k :: s[i] < s[k])
  }

  function FirstMaxIndex(s: seq<real>): (k: nat)
    requires |s| > 0
    ensures IsFirstMax(s, k)
  {
    if |s| == 1 then 0
    else
      var k := FirstMaxIndex(s[..|s| - 1]);
      if s[|s| - 1] > s[k] then |s| - 1 else k
  }

  lemma FirstMaxUnique(s: seq<real>, k: int, k': int)
    requires IsFirstMax(s, k) && IsFirstMax(s, k')
    ensures k == k'
  {
    assert s[k] == s[k'];
  }

  /** A running maximum as GetStatistics keeps it, starting from `init`. */
  function RunningMax(s: seq<real>, init: real): real
  {
    if s == [] then init
    else
      var m := RunningMax(s[..|s| - 1], init);
      if s[|s| - 1] > m then s[|s| - 1] else m
  }

  /** A running minimum as GetStatistics keeps it, starting from `init`. */
  function RunningMin(s: seq<real>, init: real): real
  {
    if s == [] then init
    else
      var m := RunningMin(s[..|s| - 1], init);
      if s[|s| - 1] < m then s[|s| - 1] else m
  }

  lemma {:induction false} RunningMaxBounds(s: seq<real>, init: real)
    ensures init <= RunningMax(s, init)
    ensures forall i | 0 <= i < |s| :: s[i] <= RunningMax(s, init)
    ensures RunningMax(s, init) == init || exists i | 0 <= i < |s| :: s[i] == RunningMax(s, init)
  {
    if s != [] {
      RunningMaxBounds(s[..|s| - 1], init);
      var m := RunningMax(s[..|s| - 1], init);
      if m != init {
        var i :| 0 <= i < |s| - 1 && s[..|s| - 1][i] == m;
        assert s[i] == m;
      }
    }
  }

  lemma {:induction false} RunningMinBounds(s: seq<real>, init: real)
    ensures RunningMin(s, init) <= init
    ensures forall i | 0 <= i < |s| :: RunningMin(s, init) <= s[i]
    ensures RunningMin(s, init) == init || exists i | 0 <= i < |s| :: s[i] == RunningMin(s, init)
  {
    if s != [] {
      RunningMinBounds(s[..|s| - 1], init);
      var m := RunningMin(s[..|s| - 1], init);
      if m != init {
        var i :| 0 <= i < |s| - 1 && s[..|s| - 1][i] == m;
        assert s[i] == m;
      }
    }
  }

  /** numeric_limits<double>::min(): the smallest positive normal double, 2^-1022. */
  const DoubleMin: real := 1.0 / 44942328371557897693232629769725618340449424473557664318357520289433168951375240783177119330601884005280028469967848339414697442203604155623211857659868531094441973356216371319075554900311523529863270738021251442209537670585615720368478277635206809290837627671146574559986811484619929076208839082406056034304.0

  /** numeric_limits<double>::max(): (2^53 - 1)·2^971. */
  const DoubleMax: real := 179769313486231570814527423731704356798070567525844996598917476803157260780028538760589558632766878171540458953514382464234321326889464182768467546703537516986049910576551282076245490090389328944075868508455133942304583236903222948165808559332123348274797826204144723168738177180919299881250404026184124858368.0

  /** Because the running maximum starts at the smallest positive double, an all-negative tensor reports that value as its maximum. */
  lemma AllNegativeMaxIsDoubleMin(s: seq<real>)
    requires forall i | 0 <= i < |s| :: s[i] < 0.0
    ensures RunningMax(s, DoubleMin) == DoubleMin
  {
    RunningMaxBounds(s, DoubleMin);
  }

  // ---------------------------------------------------------------------------
  // The save/load layout: four u32 dimensions, then the elements.

  /** What Save writes: the four dimensions as u32, then the elements. */
  function TensorUnits(t: TensorValue): (u: seq<Unit>)
    requires t.shape.IsU32Shape()
    ensures |u| == SavedLength(t)
  {
    U32Bytes(t.shape.hyperplanes) + U32Bytes(t.shape.planes) + U32Bytes(t.shape.rows) + U32Bytes(t.shape.columns)
    + DoubleUnits(t.elements)
  }

  /** The number of units Save writes for `t`. */
  function SavedLength(t: TensorValue): nat
  {
    16 + |t.elements|
  }

  /** Reads a tensor at `pos`; a header whose element count does not fit in 32 bits is refused. */
  function DecodeTensor(s: seq<Unit>, pos: nat): (r: Option<Decoded<TensorValue>>)
    ensures r.Some? ==> r.value.value.WellFormed() && r.value.value.shape.IsU32Shape() && r.value.next <= |s|
  {
    var hyperplanes :- ReadU32(s, pos);
    var planes :- ReadU32(s, pos + 4);
    var rows :- ReadU32(s, pos + 8);
    var columns :- ReadU32(s, pos + 12);
    var shape := Shape(hyperplanes, planes, rows, columns);
    if !IsU32(shape.Size()) then None
    else
      var xs :- ReadDoubles(s, pos + 16, shape.Size());
      Some(Decoded(TensorValue(shape, xs), pos + 16 + shape.Size()))
  }

  /** Load reads back the tensor Save wrote, wherever its units sit in the stream. */
  lemma TensorRoundTrip(s: seq<Unit>, pos: nat, t: TensorValue)
    requires t.WellFormed() && t.shape.IsU32Shape() && IsU32(t.shape.Size())
    requires SitsAt(s, pos, TensorUnits(t))
    ensures DecodeTensor(s, pos) == Some(Decoded(t, pos + SavedLength(t)))
  {
    var sh := t.shape;
    TensorParts(s, pos, t);
    U32RoundTrip(s, pos, sh.hyperplanes);
    U32RoundTrip(s, pos + 4, sh.planes);
    U32RoundTrip(s, pos + 8, sh.rows);
    U32RoundTrip(s, pos + 12, sh.columns);
    DoublesRoundTrip(s, pos + 16, t.elements);
    TensorSteps(s, pos, t);
  }

  /** Where each field of a saved tensor sits. */
  lemma TensorParts(s: seq<Unit>, pos: nat, t: TensorValue)
    requires t.shape.IsU32Shape() && SitsAt(s, pos, TensorUnits(t))
    ensures SitsAt(s, pos, U32Bytes(t.shape.hyperplanes)) && SitsAt(s, pos + 4, U32Bytes(t.shape.planes))
    ensures SitsAt(s, pos + 8, U32Bytes(t.shape.rows)) && SitsAt(s, pos + 12, U32Bytes(t.shape.columns))
    ensures SitsAt(s, pos + 16, DoubleUnits(t.elements))
  {
    var sh := t.shape;
    var hu, pu, ru, cu := U32Bytes(sh.hyperplanes), U32Bytes(sh.planes), U32Bytes(sh.rows), U32Bytes(sh.columns);
    SitsAtSplit(s, pos, hu + pu + ru + cu, DoubleUnits(t.elements));
    SitsAtSplit(s, pos, hu + pu + ru, cu);
    SitsAtSplit(s, pos, hu + pu, ru);
    SitsAtSplit(s, pos, hu, pu);
  }

  /** Reading the fields of a tensor one after another. */
  lemma TensorSteps(s: seq<Unit>, pos: nat, t: TensorValue)
    requires t.WellFormed() && IsU32(t.shape.Size())
    requires ReadU32(s, pos) == Some(t.shape.hyperplanes) && ReadU32(s, pos + 4) == Some(t.shape.planes)
    requires ReadU32(s, pos + 8) == Some(t.shape.rows) && ReadU32(s, pos + 12) == Some(t.shape.columns)
    requires ReadDoubles(s, pos + 16, |t.elements|) == Some(t.elements)
    ensures DecodeTensor(s, pos) == Some(Decoded(t, pos + SavedLength(t)))
  {
  }

  // ---------------------------------------------------------------------------

  class Tensor {
    var hyperplanes: nat
    var planes: nat
    var rows: nat
    var columns: nat
    var planeSize: nat
    var hyperplaneSize: nat
    var size: nat
    var elements: array<real>

    /** The cached sizes agree with the dimensions and the buffer holds exactly `size` elements. */
    ghost predicate Valid()
      reads this
    {
      planeSize == rows * columns && hyperplaneSize == planeSize * planes &&
      size == hyperplaneSize * hyperplanes && elements.Length == size
    }

    function Dims(): Shape
      reads this
    {
      Shape(hyperplanes, planes, rows, columns)
    }

    ghost function Value(): TensorValue
      reads this, elements
    {
      TensorValue(Dims(), elements[..])
    }

    /** The 4-D constructor: sizes from the dimensions, every element 0. */
    constructor (hyperplanes: nat, planes: nat, rows: nat, columns: nat)
      ensures Valid() && fresh(elements)
      ensures Dims() == Shape(hyperplanes, planes, rows, columns)
      ensures planeSize == rows * columns && hyperplaneSize == rows * columns * planes
      ensures size == hyperplanes * planes * rows * columns
      ensures forall i | 0 <= i < size :: elements[i] == 0.0
    {
      this.hyperplanes, this.planes, this.rows, this.columns := hyperplanes, planes, rows, columns;
      planeSize := rows * columns;
      hyperplaneSize := rows * columns * planes;
      size := rows * columns * planes * hyperplanes;
      elements := new real[rows * columns * planes * hyperplanes](_ => 0.0);
    }

    /** The 3-D constructor is the 4-D one with one hyperplane. */
    constructor Of3(planes: nat, rows: nat, columns: nat)
      ensures Valid() && fresh(elements)
      ensures Dims() == Shape(1, planes, rows, columns)
      ensures forall i | 0 <= i < size :: elements[i] == 0.0
    {
      this.hyperplanes, this.planes, this.rows, this.columns := 1, planes, rows, columns;
      planeSize := rows * columns;
      hyperplaneSize := rows * columns * planes;
      size := rows * columns * planes;
      elements := new real[rows * columns * planes](_ => 0.0);
    }

    /** The 2-D constructor is the 4-D one with one hyperplane and one plane. */
    constructor Of2(rows: nat, columns: nat)
      ensures Valid() && fresh(elements)
      ensures Dims() == Shape(1, 1, rows, columns)
      ensures forall i | 0 <= i < size :: elements[i] == 0.0
    {
      this.hyperplanes, this.planes, this.rows, this.columns := 1, 1, rows, columns;
      planeSize := rows * columns;
      hyperplaneSize := rows * columns;
      size := rows * columns;
      elements := new real[rows * columns](_ => 0.0);
    }

    /** The 1-D constructor is the 4-D one with a single row of `size` columns. */
    constructor Of1(size: nat)
      ensures Valid() && fresh(elements)
      ensures Dims() == Shape(1, 1, 1, size)
      ensures forall i | 0 <= i < size :: elements[i] == 0.0
    {
      this.hyperplanes, this.planes, this.rows, this.columns := 1, 1, 1, size;
      planeSize := size;
      hyperplaneSize := size;
      this.size := size;
      elements := new real[size](_ => 0.0);
    }

    /** Takes ownership of a buffer already holding the elements. */
    constructor Adopt(buffer: array<real>, shape: Shape)
      requires buffer.Length == shape.Size()
      ensures Valid() && Dims() == shape && elements == buffer
    {
      hyperplanes, planes, rows, columns := shape.hyperplanes, shape.planes, shape.rows, shape.columns;
      planeSize := shape.PlaneSize();
      hyperplaneSize := shape.HyperplaneSize();
      size := shape.Size();
      elements := buffer;
    }

    /** The initializer-list constructor: throws unless the list holds exactly h·p·r·c values. */
    static method FromList(list: seq<real>, shape: Shape) returns (r: Result<Tensor>)
      ensures r.Ok? <==> |list| == shape.Size()
      ensures r.Ok? ==>
        fresh(r.value) && fresh(r.value.elements) && r.value.Valid() &&
        r.value.Dims() == shape && r.value.elements[..] == list
      ensures r.Err? ==> r.error == "Size of initializer list does not match dimensions of Tensor."
    {
      if |list| != shape.Size() {
        return Err("Size of initializer list does not match dimensions of Tensor.");
      }
      var buffer := new real[|list|](i requires 0 <= i < |list| => list[i]);
      var t := new Tensor.Adopt(buffer, shape);
      return Ok(t);
    }

    /** The copy constructor: same shape and elements in a separate buffer. */
    constructor Copy(that: Tensor)
      requires that.Valid()
      ensures Valid() && fresh(elements)
      ensures Dims() == that.Dims() && elements[..] == that.elements[..]
    {
      hyperplanes, planes, rows, columns := that.hyperplanes, that.planes, that.rows, that.columns;
      planeSize, hyperplaneSize, size := that.planeSize, that.hyperplaneSize, that.size;
      var buffer := new real[that.size];
      forall i | 0 <= i < that.size {
        buffer[i] := that.elements[i];
      }
      elements := buffer;
    }

    /** The move constructor: takes the buffer and leaves the source with every dimension and size 0. */
    constructor Move(that: Tensor)
      requires that.Valid()
      modifies that
      ensures Valid() && elements == old(that.elements) && Dims() == old(that.Dims())
      ensures that.Valid() && that.Dims() == Shape(0, 0, 0, 0)
      ensures that.planeSize == 0 && that.hyperplaneSize == 0 && that.size == 0
    {
      hyperplanes, planes, rows, columns := that.hyperplanes, that.planes, that.rows, that.columns;
      planeSize, hyperplaneSize, size := that.planeSize, that.hyperplaneSize, that.size;
      elements := that.elements;
      new;
      that.hyperplanes, that.planes, that.rows, that.columns := 0, 0, 0, 0;
      that.planeSize, that.hyperplaneSize, that.size := 0, 0, 0;
      that.elements := new real[0];
    }

    /** operator=: copies shape and elements, reallocating only when the sizes differ. */
    method Assign(that: Tensor)
      requires Valid() && that.Valid()
      requires that != this ==> that.elements != elements
      modifies this, elements
      ensures Valid() && Dims() == old(that.Dims()) && elements[..] == old(that.elements[..])
      ensures old(size) == old(that.size) ==> elements == old(elements)
      ensures old(size) != old(that.size) ==> fresh(elements)
    {
      hyperplanes, planes, rows, columns := that.hyperplanes, that.planes, that.rows, that.columns;
      planeSize, hyperplaneSize := that.planeSize, that.hyperplaneSize;
      if size != that.size {
        size := that.size;
        elements := new real[size];
      }
      var source := that.elements;
      forall i | 0 <= i < size {
        elements[i] := source[i];
      }
    }

    method SetAllToZero()
      requires Valid()
      modifies elements
      ensures forall i | 0 <= i < size :: elements[i] == 0.0
    {
      forall i | 0 <= i < size {
        elements[i] := 0.0;
      }
    }

    method Fill(value: real)
      requires Valid()
      modifies elements
      ensures forall i | 0 <= i < size :: elements[i] == value
    {
      var v := 0;
      while v < size
        invariant 0 <= v <= size
        invariant forall i | 0 <= i < v :: elements[i] == value
      {
        elements[v] := value;
        v := v + 1;
      }
    }

    function DimensionsMatch(other: Tensor): (b: bool)
      reads this, other
      requires Valid() && other.Valid()
      ensures b <==> Dims() == other.Dims()
      ensures b ==> size == other.size
    {
      hyperplanes == other.hyperplanes && planes == other.planes && rows == other.rows && columns == other.columns
    }

    // --- element access ------------------------------------------------------

    /** ElementAddress(h, p, r, c): the flat offset of an in-bounds coordinate. */
    function ElementAddress4(h: nat, p: nat, r: nat, c: nat): (k: nat)
      reads this
      requires Valid() && InBounds(Dims(), h, p, r, c)
      ensures k == Offset(Dims(), h, p, r, c) && k < size
    {
      OffsetInBounds(Dims(), h, p, r, c);
      hyperplaneSize * h + planeSize * p + columns * r + c
    }

    /** ElementAddress(p, r, c) on a tensor with one hyperplane. */
    function ElementAddress3(p: nat, r: nat, c: nat): (k: nat)
      reads this
      requires Valid() && hyperplanes <= 1 && InBounds(Dims(), 0, p, r, c)
      ensures k == ElementAddress4(0, p, r, c)
    {
      planeSize * p + columns * r + c
    }

    /** ElementAddress(r, c) on a tensor with one hyperplane and one plane. */
    function ElementAddress2(r: nat, c: nat): (k: nat)
      reads this
      requires Valid() && hyperplanes <= 1 && planes <= 1 && InBounds(Dims(), 0, 0, r, c)
      ensures k == ElementAddress4(0, 0, r, c)
    {
      columns * r + c
    }

    function Get4(h: nat, p: nat, r: nat, c: nat): (v: real)
      reads this, elements
      requires Valid() && InBounds(Dims(), h, p, r, c)
    {
      elements[ElementAddress4(h, p, r, c)]
    }

    function Get3(p: nat, r: nat, c: nat): (v: real)
      reads this, elements
      requires Valid() && hyperplanes <= 1 && InBounds(Dims(), 0, p, r, c)
      ensures v == Get4(0, p, r, c)
    {
      elements[ElementAddress3(p, r, c)]
    }

    function Get2(r: nat, c: nat): (v: real)
      reads this, elements
      requires Valid() && hyperplanes <= 1 && planes <= 1 && InBounds(Dims(), 0, 0, r, c)
      ensures v == Get4(0, 0, r, c)
    {
      elements[ElementAddress2(r, c)]
    }

    /** Get(i): single-index access rejects i >= size. */
    function Get(i: nat): (v: real)
      reads this, elements
      requires Valid() && i < size
      ensures v == Value().elements[i]
    {
      elements[i]
    }

    method Set(i: nat, value: real)
      requires Valid() && i < size
      modifies elements
      ensures elements[..] == old(elements[..])[i := value]
      ensures Get(i) == value
    {
      elements[i] := value;
    }

    method Set2(r: nat, c: nat, value: real)
      requires Valid() && hyperplanes <= 1 && planes <= 1 && InBounds(Dims(), 0, 0, r, c)
      modifies elements
      ensures elements[..] == old(elements[..])[ElementAddress2(r, c) := value]
      ensures Get2(r, c) == value
    {
      elements[ElementAddress2(r, c)] := value;
    }

    method Set3(p: nat, r: nat, c: nat, value: real)
      requires Valid() && hyperplanes <= 1 && InBounds(Dims(), 0, p, r, c)
      modifies elements
      ensures elements[..] == old(elements[..])[ElementAddress3(p, r, c) := value]
      ensures Get3(p, r, c) == value
    {
      elements[ElementAddress3(p, r, c)] := value;
    }

    // --- element-wise arithmetic ---------------------------------------------

    /** this[i] := this[i] op other[i] for every i; `other` may be this tensor itself. */
    method CombineInPlace(op: Op, other: Tensor)
      requires Valid() && other.Valid() && other.size == size
      modifies elements
      ensures elements[..] == Combine(op, old(elements[..]), old(other.elements[..]))
    {
      var v := 0;
      while v < size
        invariant 0 <= v <= size
        invariant forall i | 0 <= i < v :: elements[i] == op.On(old(elements[i]), old(other.elements[i]))
        invariant forall i | v <= i < size :: elements[i] == old(elements[i]) && other.elements[i] == old(other.elements[i])
      {
        elements[v] := op.On(elements[v], other.elements[v]);
        v := v + 1;
      }
    }

    /** result[i] := this[i] op other[i] for every i; `result` may be either operand. */
    method CombineInto(op: Op, other: Tensor, result: Tensor)
      requires Valid() && other.Valid() && result.Valid()
      requires other.size == size && result.size == size
      modifies result.elements
      ensures result.elements[..] == Combine(op, old(elements[..]), old(other.elements[..]))
    {
      var r := 0;
      while r < result.size
        invariant 0 <= r <= size
        invariant forall i | 0 <= i < r :: result.elements[i] == op.On(old(elements[i]), old(other.elements[i]))
        invariant forall i | r <= i < size :: elements[i] == old(elements[i]) && other.elements[i] == old(other.elements[i])
      {
        result.elements[r] := op.On(elements[r], other.elements[r]);
        r := r + 1;
      }
    }

    method ComponentWiseAdd(other: Tensor)
      requires Valid() && other.Valid() && other.size == size
      modifies elements
      ensures elements[..] == Combine(Plus, old(elements[..]), old(other.elements[..]))
    {
      CombineInPlace(Plus, other);
    }

    method ComponentWiseSubtract(other: Tensor)
      requires Valid() && other.Valid() && other.size == size
      modifies elements
      ensures elements[..] == Combine(Minus, old(elements[..]), old(other.elements[..]))
    {
      CombineInPlace(Minus, other);
    }

    method ComponentWiseMultiply(other: Tensor)
      requires Valid() && other.Valid() && other.size == size
      modifies elements
      ensures elements[..] == Combine(Times, old(elements[..]), old(other.elements[..]))
    {
      CombineInPlace(Times, other);
    }

    method ComponentWiseAddTo(other: Tensor, result: Tensor)
      requires Valid() && other.Valid() && result.Valid()
      requires other.size == size && result.size == size
      modifies result.elements
      ensures result.elements[..] == Combine(Plus, old(elements[..]), old(other.elements[..]))
    {
      CombineInto(Plus, other, result);
    }

    method ComponentWiseSubtractTo(other: Tensor, result: Tensor)
      requires Valid() && other.Valid() && result.Valid()
      requires other.size == size && result.size == size
      modifies result.elements
      ensures result.elements[..] == Combine(Minus, old(elements[..]), old(other.elements[..]))
    {
      CombineInto(Minus, other, result);
    }

    method ComponentWiseMultiplyTo(other: Tensor, result: Tensor)
      requires Valid() && other.Valid() && result.Valid()
      requires other.size == size && result.size == size
      modifies result.elements
      ensures result.elements[..] == Combine(Times, old(elements[..]), old(other.elements[..]))
    {
      CombineInto(Times, other, result);
    }

    // --- read-only scans -----------------------------------------------------

    /** The first index holding the largest element (a strict `>` keeps the earliest). */
    method HighestValueIndex() returns (k: nat)
      requires Valid() && size > 0
      ensures IsFirstMax(elements[..], k)
      ensures k == FirstMaxIndex(elements[..])
    {
      k := 0;
      var highest := elements[0];
      var v := 1;
      while v < size
        invariant 1 <= v <= size && k < v && highest == elements[k]
        invariant forall i | 0 <= i < v :: elements[i] <= highest
        invariant forall i | 0 <= i < k :: elements[i] < highest
      {
        if elements[v] > highest {
          k := v;
          highest := elements[v];
        }
        v := v + 1;
      }
      FirstMaxUnique(elements[..], k, FirstMaxIndex(elements[..]));
    }

    /**
     * Maximum (seeded with the smallest positive double), minimum (seeded with
     * the largest double) and mean. An empty tensor keeps both seeds; its mean
     * is 0/0, a NaN, which reals cannot hold, so the model leaves it 0.
     */
    method GetStatistics() returns (maxWeight: real, minWeight: real, avgWeight: real)
      requires Valid()
      ensures maxWeight == RunningMax(elements[..], DoubleMin)
      ensures minWeight == RunningMin(elements[..], DoubleMax)
      ensures size > 0 ==> avgWeight == SeqSum(elements[..]) / (size as real)
      ensures size == 0 ==> maxWeight == DoubleMin && minWeight == DoubleMax
      ensures forall i | 0 <= i < size :: minWeight <= elements[i] <= maxWeight
    {
      maxWeight := DoubleMin;
      minWeight := DoubleMax;
      avgWeight := 0.0;
      var w := 0;
      while w != size
        invariant 0 <= w <= size
        invariant maxWeight == RunningMax(elements[..w], DoubleMin)
        invariant minWeight == RunningMin(elements[..w], DoubleMax)
        invariant avgWeight == SeqSum(elements[..w])
      {
        assert elements[..w + 1][..w] == elements[..w];
        if elements[w] < minWeight {
          minWeight := elements[w];
        }
        if elements[w] > maxWeight {
          maxWeight := elements[w];
        }
        avgWeight := avgWeight + elements[w];
        w := w + 1;
      }
      assert elements[..w] == elements[..];
      if size > 0 {
        avgWeight := avgWeight / (size as real);
      }
      RunningMaxBounds(elements[..], DoubleMin);
      RunningMinBounds(elements[..], DoubleMax);
    }

    // --- persistence ---------------------------------------------------------

    /** Writes the four dimensions as u32 and then the elements; reading that back yields this tensor. */
    method Save() returns (out: seq<Unit>)
      requires Valid() && Dims().IsU32Shape() && IsU32(size)
      ensures out == TensorUnits(Value())
      ensures DecodeTensor(out, 0) == Some(Decoded(Value(), |out|))
    {
      out := U32Bytes(hyperplanes) + U32Bytes(planes) + U32Bytes(rows) + U32Bytes(columns);
      out := out + DoubleUnits(elements[..]);
      assert [] + out + [] == out;
      SitsAtConcat([], out, []);
      TensorRoundTrip(out, 0, Value());
    }

    /** Reads a tensor written by Save, starting at `pos`. */
    static method Load(s: seq<Unit>, pos: nat) returns (t: Tensor?, next: nat)
      ensures DecodeTensor(s, pos).None? ==> t == null
      ensures DecodeTensor(s, pos).Some? ==>
        t != null && fresh(t) && fresh(t.elements) && t.Valid() &&
        t.Value() == DecodeTensor(s, pos).value.value && next == DecodeTensor(s, pos).value.next
    {
      var d := DecodeTensor(s, pos);
      if d.None? {
        return null, pos;
      }
      var v := d.value.value;
      var buffer := new real[v.shape.Size()](i requires 0 <= i < v.shape.Size() => v.elements[i]);
      t := new Tensor.Adopt(buffer, v.shape);
      next := d.value.next;
    }
  }
}
