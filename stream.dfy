/**
 * The binary files FishNet writes with ostream::write and reads back with
 * istream::read. Integers are written in the machine's little-endian byte
 * order; a double is kept as one 8-byte unit carrying its real value.
 */
module Streams {
  import opened Wrappers

  newtype byte = x: int | 0 <= x < 256

  datatype Unit = Byte(b: byte) | Double(x: real)

  /** A value read from a stream, with the position just past it. */
  datatype Decoded<T> = Decoded(value: T, next: nat)

  predicate IsU32(n: int) { 0 <= n < 0x1_0000_0000 }
  predicate IsU16(n: int) { 0 <= n < 0x1_0000 }

  function ByteOf(n: nat): Unit
    requires n < 256
  {
    Byte(n as byte)
  }

  /** The low `width` bytes of `n`, least significant first. */
  function LittleEndian(n: nat, width: nat): (s: seq<Unit>)
    ensures |s| == width
    decreases width
  {
    if width == 0 then [] else [ByteOf(n % 256)] + LittleEndian(n / 256, width - 1)
  }

  /** The 4 bytes of a u32. */
  function U32Bytes(n: nat): (s: seq<Unit>)
    requires IsU32(n)
    ensures |s| == 4
  {
    LittleEndian(n, 4)
  }

  /** The 2 bytes of a u16. */
  function U16Bytes(n: nat): (s: seq<Unit>)
    requires IsU16(n)
    ensures |s| == 2
  {
    LittleEndian(n, 2)
  }

  function DoubleUnits(xs: seq<real>): (s: seq<Unit>)
    ensures |s| == |xs|
  {
    if xs == [] then [] else [Double(xs[0])] + DoubleUnits(xs[1..])
  }

  function ByteUnits(bs: seq<byte>): (s: seq<Unit>)
    ensures |s| == |bs|
  {
    if bs == [] then [] else [Byte(bs[0])] + ByteUnits(bs[1..])
  }

  /** A successful read whose value and end position are those of `d` is `d`. */
  lemma DecodedAs<T>(r: Result<Decoded<T>>, d: Decoded<T>)
    requires r.Ok? && r.value.value == d.value && r.value.next == d.next
    ensures r == Ok(d)
  {
  }

  /** A byte sits at `pos`. */
  predicate ByteAt(s: seq<Unit>, pos: nat)
  {
    pos < |s| && s[pos].Byte?
  }

  /** The four bytes of a u32 start at `pos`. */
  predicate U32Fits(s: seq<Unit>, pos: nat)
  {
    ByteAt(s, pos) && ByteAt(s, pos + 1) && ByteAt(s, pos + 2) && ByteAt(s, pos + 3)
  }

  /** The little-endian u32 whose bytes start at `pos`. */
  function U32At(s: seq<Unit>, pos: nat): (n: nat)
    requires U32Fits(s, pos)
    ensures IsU32(n)
  {
    s[pos].b as nat + 256 * (s[pos + 1].b as nat + 256 * (s[pos + 2].b as nat + 256 * s[pos + 3].b as nat))
  }

  /** A u32; a stream that ends early fails. */
  function ReadU32(s: seq<Unit>, pos: nat): (r: Option<nat>)
    ensures r.Some? ==> IsU32(r.value) && pos + 4 <= |s|
  {
    if U32Fits(s, pos) then Some(U32At(s, pos)) else None
  }

  /** A u16; a stream that ends early fails. */
  function ReadU16(s: seq<Unit>, pos: nat): (r: Option<nat>)
    ensures r.Some? ==> IsU16(r.value) && pos + 2 <= |s|
  {
    if ByteAt(s, pos) && ByteAt(s, pos + 1) then Some(s[pos].b as nat + 256 * s[pos + 1].b as nat) else None
  }

  function ReadDouble(s: seq<Unit>, pos: nat): Option<real>
  {
    if pos < |s| && s[pos].Double? then Some(s[pos].x) else None
  }

  /** `n` doubles in a row, one unit each; a stream that ends early fails. */
  function ReadDoubles(s: seq<Unit>, pos: nat, n: nat): (r: Option<seq<real>>)
    ensures r.Some? ==> |r.value| == n && pos + n <= |s|
    decreases n
  {
    if n == 0 then
      if pos <= |s| then Some([]) else None
    else if pos < |s| && s[pos].Double? then
      var rest :- ReadDoubles(s, pos + 1, n - 1);
      Some([s[pos].x] + rest)
    else None
  }

  /** `n` raw bytes in a row; a stream that ends early fails. */
  function ReadBytes(s: seq<Unit>, pos: nat, n: nat): (r: Option<seq<byte>>)
    ensures r.Some? ==> |r.value| == n && pos + n <= |s|
    decreases n
  {
    if n == 0 then
      if pos <= |s| then Some([]) else None
    else if pos < |s| && s[pos].Byte? then
      var rest :- ReadBytes(s, pos + 1, n - 1);
      Some([s[pos].b] + rest)
    else None
  }

  /** The units `x` sit in `s` starting at position `pos`, one at a time. */
  predicate SitsAt(s: seq<Unit>, pos: nat, x: seq<Unit>)
    decreases |x|
  {
    if |x| == 0 then pos <= |s|
    else pos < |s| && s[pos] == x[0] && SitsAt(s, pos + 1, x[1..])
  }

  lemma {:induction false} SitsAtConcat(prefix: seq<Unit>, x: seq<Unit>, rest: seq<Unit>)
    ensures SitsAt(prefix + x + rest, |prefix|, x)
    decreases |x|
  {
    if |x| > 0 {
      assert (prefix + [x[0]]) + x[1..] + rest == prefix + x + rest;
      SitsAtConcat(prefix + [x[0]], x[1..], rest);
    }
  }

  /** What sits at `pos` as `x + y` has `x` at `pos` and `y` right after it. */
  lemma {:induction false} SitsAtSplit(s: seq<Unit>, pos: nat, x: seq<Unit>, y: seq<Unit>)
    requires SitsAt(s, pos, x + y)
    ensures SitsAt(s, pos, x) && SitsAt(s, pos + |x|, y)
    decreases |x|
  {
    if |x| == 0 {
      assert x + y == y;
      SitsAtBound(s, pos, y);
    } else {
      assert (x + y)[1..] == x[1..] + y;
      SitsAtSplit(s, pos + 1, x[1..], y);
    }
  }

  /** As SitsAtSplit, with the position of `y` named by the caller. */
  lemma SitsAtSplitAt(s: seq<Unit>, pos: nat, x: seq<Unit>, y: seq<Unit>, at: nat)
    requires SitsAt(s, pos, x + y) && at == pos + |x|
    ensures SitsAt(s, pos, x) && SitsAt(s, at, y)
  {
    SitsAtSplit(s, pos, x, y);
  }

  lemma {:induction false} SitsAtBound(s: seq<Unit>, pos: nat, x: seq<Unit>)
    requires SitsAt(s, pos, x)
    ensures pos + |x| <= |s|
    decreases |x|
  {
    if |x| > 0 {
      SitsAtBound(s, pos + 1, x[1..]);
    }
  }

  lemma {:induction false} SitsAtIndex(s: seq<Unit>, pos: nat, x: seq<Unit>, i: nat)
    requires SitsAt(s, pos, x) && i < |x|
    ensures pos + i < |s| && s[pos + i] == x[i]
    decreases i
  {
    if i > 0 {
      SitsAtIndex(s, pos + 1, x[1..], i - 1);
    }
  }

  /** Reading a u32 where its four bytes sit yields it back. */
  lemma U32RoundTrip(s: seq<Unit>, pos: nat, n: nat)
    requires IsU32(n) && SitsAt(s, pos, U32Bytes(n))
    ensures ReadU32(s, pos) == Some(n)
  {
    var n1 := n / 256;
    var n2 := n1 / 256;
    var n3 := n2 / 256;
    assert U32Bytes(n) == [ByteOf(n % 256)] + ([ByteOf(n1 % 256)] + ([ByteOf(n2 % 256)] + ([ByteOf(n3 % 256)] + [])));
    SitsAtIndex(s, pos, U32Bytes(n), 0);
    SitsAtIndex(s, pos, U32Bytes(n), 1);
    SitsAtIndex(s, pos, U32Bytes(n), 2);
    SitsAtIndex(s, pos, U32Bytes(n), 3);
    assert n == n % 256 + 256 * n1;
    assert n1 == n1 % 256 + 256 * n2;
    assert n2 == n2 % 256 + 256 * n3;
  }

  /** Reading a u16 where its two bytes sit yields it back. */
  lemma U16RoundTrip(s: seq<Unit>, pos: nat, n: nat)
    requires IsU16(n) && SitsAt(s, pos, U16Bytes(n))
    ensures ReadU16(s, pos) == Some(n)
  {
    assert U16Bytes(n) == [ByteOf(n % 256)] + ([ByteOf(n / 256 % 256)] + []);
    SitsAtIndex(s, pos, U16Bytes(n), 0);
    SitsAtIndex(s, pos, U16Bytes(n), 1);
  }

  /** Reading `|bs|` bytes where they sit yields them back. */
  lemma {:induction false} BytesRoundTrip(s: seq<Unit>, pos: nat, bs: seq<byte>)
    requires SitsAt(s, pos, ByteUnits(bs))
    ensures ReadBytes(s, pos, |bs|) == Some(bs)
    decreases |bs|
  {
    if bs != [] {
      assert SitsAt(s, pos + 1, ByteUnits(bs[1..]));
      BytesRoundTrip(s, pos + 1, bs[1..]);
      assert [bs[0]] + bs[1..] == bs;
    }
  }

  /** Reading `|xs|` doubles where their units sit yields them back. */
  lemma {:induction false} DoublesRoundTrip(s: seq<Unit>, pos: nat, xs: seq<real>)
    requires SitsAt(s, pos, DoubleUnits(xs))
    ensures ReadDoubles(s, pos, |xs|) == Some(xs)
    decreases |xs|
  {
    if xs != [] {
      assert SitsAt(s, pos + 1, DoubleUnits(xs[1..]));
      DoublesRoundTrip(s, pos + 1, xs[1..]);
      assert [xs[0]] + xs[1..] == xs;
    }
  }
}
