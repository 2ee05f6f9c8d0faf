/** Finite sums and the index arithmetic shared by the row-major layouts. */
module Arith {

  /** s[i], or 0 outside the sequence. */
  function At(s: seq<real>, i: int): real
  {
    if 0 <= i < |s| then s[i] else 0.0
  }

  /** The sum of f(i) for lo <= i < hi, accumulated left to right as the source's loops do. */
  function Sum(lo: int, hi: int, f: int -> real): real
    decreases hi - lo
  {
    if hi <= lo then 0.0 else Sum(lo, hi - 1, f) + f(hi - 1)
  }

  lemma {:induction false} SumExt(lo: int, hi: int, f: int -> real, g: int -> real)
    requires forall i :: lo <= i < hi ==> f(i) == g(i)
    ensures Sum(lo, hi, f) == Sum(lo, hi, g)
    decreases hi - lo
  {
    if lo < hi { SumExt(lo, hi - 1, f, g); }
  }

  lemma {:induction false} SumZero(lo: int, hi: int, f: int -> real)
    requires forall i :: lo <= i < hi ==> f(i) == 0.0
    ensures Sum(lo, hi, f) == 0.0
    decreases hi - lo
  {
    if lo < hi { SumZero(lo, hi - 1, f); }
  }

  lemma {:induction false} SumSplit(lo: int, mid: int, hi: int, f: int -> real)
    requires lo <= mid <= hi
    ensures Sum(lo, hi, f) == Sum(lo, mid, f) + Sum(mid, hi, f)
    decreases hi - lo
  {
    if mid < hi { SumSplit(lo, mid, hi - 1, f); }
  }

  /** A sum over [lo, hi) of a term that vanishes outside [a, b) is the sum over [a, b). */
  lemma SumRestrict(lo: int, a: int, b: int, hi: int, f: int -> real)
    requires lo <= a <= b <= hi
    requires forall i :: lo <= i < a ==> f(i) == 0.0
    requires forall i :: b <= i < hi ==> f(i) == 0.0
    ensures Sum(lo, hi, f) == Sum(a, b, f)
  {
    SumSplit(lo, a, hi, f);
    SumSplit(a, b, hi, f);
    SumZero(lo, a, f);
    SumZero(b, hi, f);
  }

  lemma {:induction false} SumAdd(lo: int, hi: int, f: int -> real, g: int -> real)
    ensures Sum(lo, hi, f) + Sum(lo, hi, g) == Sum(lo, hi, i => f(i) + g(i))
    decreases hi - lo
  {
    if lo < hi { SumAdd(lo, hi - 1, f, g); }
  }

  lemma {:induction false} SumScale(lo: int, hi: int, k: real, f: int -> real)
    ensures k * Sum(lo, hi, f) == Sum(lo, hi, i => k * f(i))
    decreases hi - lo
  {
    if lo < hi { SumScale(lo, hi - 1, k, f); }
  }

  /** Exchanging the order of a double sum. */
  lemma {:induction false} SumSwap(lo1: int, hi1: int, lo2: int, hi2: int, f: (int, int) -> real)
    ensures Sum(lo1, hi1, i => Sum(lo2, hi2, j => f(i, j))) == Sum(lo2, hi2, j => Sum(lo1, hi1, i => f(i, j)))
    decreases hi1 - lo1
  {
    var outer := i => Sum(lo2, hi2, j => f(i, j));
    if lo1 < hi1 {
      var g := j => Sum(lo1, hi1 - 1, i => f(i, j));
      var h := j => f(hi1 - 1, j);
      SumSwap(lo1, hi1 - 1, lo2, hi2, f);
      assert Sum(lo1, hi1, outer) == Sum(lo1, hi1 - 1, outer) + Sum(lo2, hi2, h);
      assert Sum(lo1, hi1 - 1, outer) == Sum(lo2, hi2, g);
      SumAdd(lo2, hi2, g, h);
      forall j | lo2 <= j < hi2 ensures g(j) + h(j) == Sum(lo1, hi1, i => f(i, j)) { }
      SumExt(lo2, hi2, j => g(j) + h(j), j => Sum(lo1, hi1, i => f(i, j)));
    } else {
      SumZero(lo2, hi2, j => Sum(lo1, hi1, i => f(i, j)));
    }
  }

  lemma MulNonneg(a: int, d: int)
    requires a >= 0 && d >= 0
    ensures a * d >= 0
  {
  }

  lemma MulDistrib(a: int, b: int, d: int)
    ensures a * d + b * d == (a + b) * d
  {
  }

  lemma MulAssociates(a: int, b: int, d: int)
    ensures (a * b) * d == a * (b * d)
  {
  }

  lemma RealMulRotate(a: real, b: real, c: real)
    ensures a * (b * c) == b * (c * a)
  {
  }

  lemma MulGe(a: int, d: int)
    requires d > 0
    ensures a >= 1 ==> a * d >= d
    ensures a <= -1 ==> a * d <= -d
  {
    if a >= 1 {
      MulNonneg(a - 1, d);
      MulDistrib(a - 1, 1, d);
    } else if a <= -1 {
      MulNonneg(-a - 1, d);
      MulDistrib(-a - 1, 1, d);
      MulDistrib(a, -a, d);
    }
  }

  /** q·d + r with 0 <= r < d decomposes back into q and r. */
  lemma DivModOf(q: int, r: int, d: int)
    requires d > 0 && 0 <= r < d
    ensures (q * d + r) / d == q && (q * d + r) % d == r
  {
    var k := q * d + r;
    var x := k / d - q;
    MulDistrib(x, q, d);
    assert x * d == r - k % d;
    MulGe(x, d);
  }

  /** Row-major index bound: a row below bigQ and a column below d land below bigQ·d. */
  lemma MulAddBound(q: int, r: int, bigQ: int, d: int)
    requires 0 <= q < bigQ && 0 <= r < d
    ensures 0 <= q * d + r < bigQ * d
  {
    MulNonneg(q, d);
    MulNonneg(bigQ - q - 1, d);
    MulDistrib(q + 1, bigQ - q - 1, d);
    MulDistrib(q, 1, d);
  }

  /** Row q of a row-major layout ends at (q+1)·d, within bigQ·d. */
  lemma RowEndBound(q: int, bigQ: int, d: int)
    requires 0 <= q < bigQ && d >= 0
    ensures (q + 1) * d == q * d + d && 0 <= q * d && q * d + d <= bigQ * d
  {
    MulNonneg(q, d);
    MulNonneg(bigQ - q - 1, d);
    MulDistrib(q + 1, bigQ - q - 1, d);
    MulDistrib(q, 1, d);
  }

  /** The row of flat index k in a row-major layout with n columns (k / n), by repeated subtraction. */
  function RowOf(k: nat, n: nat): nat
  {
    if n == 0 || k < n then 0 else 1 + RowOf(k - n, n)
  }

  /** The column of flat index k in a row-major layout with n columns (k % n). */
  function ColumnOf(k: nat, n: nat): (c: nat)
    ensures n > 0 ==> c < n
  {
    if n == 0 || k < n then k else ColumnOf(k - n, n)
  }

  /** Row i, column j is flat index i·n + j, and that index decomposes back into i and j. */
  lemma {:induction false} RowColumnOf(i: nat, j: nat, n: nat)
    requires j < n
    ensures RowOf(i * n + j, n) == i && ColumnOf(i * n + j, n) == j
  {
    if i > 0 {
      MulDistrib(i - 1, 1, n);
      MulNonneg(i - 1, n);
      RowColumnOf(i - 1, j, n);
    }
  }

  /** RowOf and ColumnOf are integer division and remainder. */
  lemma {:induction false} RowColumnOfIsDivMod(k: nat, n: nat)
    requires n > 0
    ensures RowOf(k, n) == k / n && ColumnOf(k, n) == k % n
  {
    if k >= n {
      RowColumnOfIsDivMod(k - n, n);
      var q, r := (k - n) / n, (k - n) % n;
      MulDistrib(q, 1, n);
      DivModOf(q + 1, r, n);
    }
  }

  /** Every index is its row times the width plus its column. */
  lemma {:induction false} RowColumnRecompose(k: nat, n: nat)
    requires n > 0
    ensures RowOf(k, n) * n + ColumnOf(k, n) == k
  {
    if k >= n {
      RowColumnRecompose(k - n, n);
      MulDistrib(RowOf(k - n, n), 1, n);
    }
  }

  /** Multiplying by a positive width preserves the order of two rows. */
  lemma MulMonotone(a: int, b: int, d: int)
    requires a <= b && d >= 0
    ensures a * d <= b * d
  {
    MulNonneg(b - a, d);
    MulDistrib(a, b - a, d);
  }

  /** Multiplying by a positive factor preserves strict order, and only strict order. */
  lemma MulStrictIff(a: int, b: int, d: int)
    requires d >= 1
    ensures a * d < b * d <==> a < b
  {
    if a < b {
      MulMonotone(a + 1, b, d);
      MulDistrib(a, 1, d);
    } else {
      MulMonotone(b, a, d);
    }
  }

  /** Row-major position of (r, c) in a grid of width cols. */
  function Index2(r: nat, c: nat, cols: nat): nat
  {
    r * cols + c
  }

  /** The flat index of (plane p, row r, column c) in planes of rows × cols. */
  function Index3(p: nat, r: nat, c: nat, rows: nat, cols: nat): nat
  {
    (p * rows + r) * cols + c
  }

  function PlaneOf(k: nat, rows: nat, cols: nat): nat { RowOf(RowOf(k, cols), rows) }
  function RowIn(k: nat, rows: nat, cols: nat): nat { ColumnOf(RowOf(k, cols), rows) }
  function ColumnIn(k: nat, cols: nat): nat { ColumnOf(k, cols) }

  /** A 3-D index decomposes back into its plane, row and column. */
  lemma Index3Decomposes(p: nat, r: nat, c: nat, rows: nat, cols: nat)
    requires r < rows && c < cols
    ensures var k := Index3(p, r, c, rows, cols);
      PlaneOf(k, rows, cols) == p && RowIn(k, rows, cols) == r && ColumnIn(k, cols) == c
  {
    RowColumnOf(p * rows + r, c, cols);
    RowColumnOf(p, r, rows);
  }

  /** Every flat index is the 3-D index of its decomposition. */
  lemma Index3Recomposes(k: nat, rows: nat, cols: nat)
    requires rows > 0 && cols > 0
    ensures RowIn(k, rows, cols) < rows && ColumnIn(k, cols) < cols
    ensures Index3(PlaneOf(k, rows, cols), RowIn(k, rows, cols), ColumnIn(k, cols), rows, cols) == k
  {
    RowColumnRecompose(k, cols);
    RowColumnRecompose(RowOf(k, cols), rows);
  }

  /** In-range coordinates give an index below planes × rows × cols, and conversely. */
  lemma Index3Bound(p: nat, r: nat, c: nat, planes: nat, rows: nat, cols: nat)
    requires r < rows && c < cols
    ensures Index3(p, r, c, rows, cols) < (planes * rows) * cols <==> p < planes
  {
    if p < planes {
      MulAddBound(p, r, planes, rows);
      MulAddBound(p * rows + r, c, planes * rows, cols);
    } else {
      MulMonotone(planes, p, rows);
      MulMonotone(planes * rows, p * rows + r, cols);
    }
  }

  function Min(a: int, b: int): int { if a < b then a else b }
  function Max(a: int, b: int): int { if a < b then b else a }
}
