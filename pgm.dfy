/**
 * The PGM (portable graymap) image reader: a P2 (plain text) or P5 (binary)
 * file holding one channel, whose samples are scaled by the file's Maxval.
 * The file's bytes are a buffer of characters read by a Tokenizer for the
 * header and the P2 samples, and by a moving cursor for the P5 raster.
 */
module Pgm {
  import opened Wrappers
  import opened StringUtils
  import opened Tokenizers
  import NumberText
  import opened ImageSets

  /** A file's contents: every character is one byte. */
  type Buffer = s: seq<char> | forall i | 0 <= i < |s| :: s[i] as int < 256

  const MaxMaxVal: nat := 65535
  const U32Limit: nat := 0x1_0000_0000

  // ---------------------------------------------------------------------------
  // Tokens and numbers.

  /** The token starting at or after from, and the position just past it. */
  function TokenAt(t: seq<char>, from: nat): (r: (string, nat))
    requires from <= |t|
    ensures from <= r.1 <= |t|
    ensures forall i | 0 <= i < |r.0| :: !IsWhiteSpace(r.0[i])
    ensures r.0 == [] ==> AllWhiteSpace(t[from..])
  {
    var s := SkipEnd(t, from, |t|);
    var e := TokenEnd(t, s, |t|);
    TokenEmptyIffOnlyWhiteSpace(t, from, |t|);
    assert t[from..] == t[from..|t|];
    (t[s..e], e)
  }

  // ---------------------------------------------------------------------------
  // The messages of the exceptions LoadPGMImage throws.

  function OpenError(fileName: string): string { "Could not open file " + fileName }
  function MagicError(magic: string, fileName: string): string { "Unrecognized magic number " + magic + " in " + fileName }
  /** The Maxval is shown as its token reads. */
  function MaxValError(fileName: string, maxVal: string): string { fileName + " has invalid Maxval field: " + maxVal }
  function IncompleteError(fileName: string): string { fileName + " appears to be incomplete." }
  function PixelError(fileName: string): string { fileName + " contains invalid pixel data." }

  // ---------------------------------------------------------------------------
  // The specification of the reader. std::stoi and std::stod are
  // parameters: a token to its value, or the exception they throw.

  /** The header: P5 or P2, the dimensions as uint32_t, the Maxval, and the position just past the Maxval token. */
  datatype Header = Header(binary: bool, width: nat, height: nat, maxVal: real, next: nat)

  /** Maxval in [1, 65535], as the reader checks it. */
  predicate ValidMaxVal(maxVal: real)
  {
    1.0 <= maxVal <= MaxMaxVal as real
  }

  function ReadHeader(fileName: string, t: seq<char>, stoi: string -> Result<int>, stod: string -> Result<real>)
    : (r: Result<Header>)
    ensures r.Ok? ==> ValidMaxVal(r.value.maxVal) && r.value.next <= |t|
    ensures r.Ok? ==> r.value.width < U32Limit && r.value.height < U32Limit
    ensures r.Ok? ==> TokenAt(t, 0).0 in {"P2", "P5"} && (r.value.binary <==> TokenAt(t, 0).0 == "P5")
    ensures TokenAt(t, 0).0 !in {"P2", "P5"} ==> r == Err(MagicError(TokenAt(t, 0).0, fileName))
  {
    var (magic, p1) := TokenAt(t, 0);
    if magic != "P2" && magic != "P5" then Err(MagicError(magic, fileName))
    else
      var (w, p2) := TokenAt(t, p1);
      var width :- stoi(w);
      var (h, p3) := TokenAt(t, p2);
      var height :- stoi(h);
      var (m, p4) := TokenAt(t, p3);
      var maxVal :- stod(m);
      if !ValidMaxVal(maxVal) then Err(MaxValError(fileName, m))
      else Ok(Header(magic == "P5", NumberText.Unsigned32(width), NumberText.Unsigned32(height), maxVal, p4))
  }

  /** width × height as a uint32_t. */
  function PixelCount(h: Header): (n: nat)
    ensures n < U32Limit
  {
    (h.width * h.height) % U32Limit
  }

  /** An image smaller than 2^32 pixels keeps its pixel count. */
  lemma PixelCountExact(h: Header)
    requires h.width * h.height < U32Limit
    ensures PixelCount(h) == h.width * h.height
  {
  }

  /** The byte at i read as unsigned; past the end of the buffer the model reads 0. */
  function ByteAt(t: Buffer, i: nat): (b: nat)
    ensures b < 256
  {
    if i < |t| then t[i] as nat else 0
  }

  /** Sample i of a P5 raster starting at start: one byte when Maxval < 256, else two, most significant first. */
  function RawSample(t: Buffer, start: nat, maxVal: real, i: nat): (v: nat)
    ensures maxVal < 256.0 ==> v < 256
    ensures v <= MaxMaxVal
  {
    if maxVal < 256.0 then ByteAt(t, start + i)
    else ByteAt(t, start + 2 * i) * 256 + ByteAt(t, start + 2 * i + 1)
  }

  function Scaled(v: real, maxVal: real): real
    requires maxVal >= 1.0
  {
    v / maxVal
  }

  /** The P5 raster: it starts one byte past the Maxval token. */
  function BinarySamples(t: Buffer, h: Header): (xs: seq<real>)
    requires h.maxVal >= 1.0
    ensures |xs| == PixelCount(h)
  {
    seq(PixelCount(h), i requires 0 <= i => Scaled(RawSample(t, h.next + 1, h.maxVal, i) as real, h.maxVal))
  }

  /** The n P2 samples from position from on: each a token in [0, Maxval], scaled into [0, 1]. */
  function TextSamples(fileName: string, t: seq<char>, from: nat, n: nat, maxVal: real, stod: string -> Result<real>)
    : (r: Result<seq<real>>)
    requires from <= |t| && maxVal >= 1.0
    ensures r.Ok? ==> |r.value| == n && forall i | 0 <= i < n :: 0.0 <= r.value[i] <= 1.0
    decreases n
  {
    if n == 0 then Ok([])
    else
      var (p, next) := TokenAt(t, from);
      if p == [] then Err(IncompleteError(fileName))
      else
        var pixel :- stod(p);
        if pixel < 0.0 || pixel > maxVal then Err(PixelError(fileName))
        else
          var rest :- TextSamples(fileName, t, next, n - 1, maxVal, stod);
          ScaledAtMostOne(pixel, maxVal);
          Ok([Scaled(pixel, maxVal)] + rest)
  }

  lemma ScaledAtMostOne(v: real, maxVal: real)
    requires 1.0 <= maxVal && 0.0 <= v <= maxVal
    ensures 0.0 <= Scaled(v, maxVal) <= 1.0
  {
    var x := Scaled(v, maxVal);
    assert x * maxVal == v;
  }

  /** The image a file holds, labelled with category: one channel, width × height samples. */
  function Decode(fileName: string, t: Buffer, category: nat, stoi: string -> Result<int>, stod: string -> Result<real>)
    : (r: Result<Image>)
    ensures r.Ok? ==> r.value.channels == 1 && r.value.category == category
    ensures r.Ok? ==> r.value.width < U32Limit && r.value.height < U32Limit
    ensures r.Ok? ==> |r.value.inputs| == (r.value.width * r.value.height) % U32Limit
  {
    var h :- ReadHeader(fileName, t, stoi, stod);
    var samples :- if h.binary then Ok(BinarySamples(t, h)) else TextSamples(fileName, t, h.next, PixelCount(h), h.maxVal, stod);
    Ok(Image(samples, 1, h.width, h.height, category))
  }

  /** LoadPGMImage: a file that could not be opened, or the image it holds. */
  function LoadPgm(fileName: string, file: Option<Buffer>, category: nat, stoi: string -> Result<int>,
                   stod: string -> Result<real>): Result<Image>
  {
    if file.None? then Err(OpenError(fileName)) else Decode(fileName, file.value, category, stoi, stod)
  }

  // ---------------------------------------------------------------------------
  // The reader.

  /** Reads the magic number, the dimensions and the Maxval from the start of the buffer. */
  method ReadPgmHeader(fileName: string, tokenizer: Tokenizer, stoi: string -> Result<int>, stod: string -> Result<real>)
    returns (r: Result<Header>)
    requires tokenizer.Valid() && tokenizer.position == 0 && tokenizer.end == |tokenizer.text|
    modifies tokenizer`position
    ensures tokenizer.Valid() && tokenizer.end == |tokenizer.text|
    ensures r == ReadHeader(fileName, tokenizer.text, stoi, stod)
    ensures r.Ok? ==> tokenizer.position == r.value.next
  {
    var magic := tokenizer.NextToken();
    if magic != "P2" && magic != "P5" {
      return Err(MagicError(magic, fileName));
    }
    var w := tokenizer.NextToken();
    var width :- stoi(w);
    var h := tokenizer.NextToken();
    var height :- stoi(h);
    var m := tokenizer.NextToken();
    var maxVal :- stod(m);
    if maxVal < 1.0 || maxVal > 65535.0 {
      return Err(MaxValError(fileName, m));
    }
    r := Ok(Header(magic == "P5", NumberText.Unsigned32(width), NumberText.Unsigned32(height), maxVal, tokenizer.Position()));
  }

  /** Reads the P5 raster through an index that moves one or two bytes per sample. */
  method ReadBinarySamples(buffer: Buffer, h: Header) returns (samples: seq<real>)
    requires h.maxVal >= 1.0
    ensures samples == BinarySamples(buffer, h)
  {
    var pixelCount := (h.width * h.height) % U32Limit;
    var start := h.next + 1;
    var data := start;
    var i := 0;
    samples := [];
    if h.maxVal < 256.0 {
      while i < pixelCount
        invariant i <= pixelCount && |samples| == i && data == start + i
        invariant forall k | 0 <= k < i :: samples[k] == Scaled(RawSample(buffer, start, h.maxVal, k) as real, h.maxVal)
      {
        samples := samples + [Scaled(ByteAt(buffer, data) as real, h.maxVal)];
        data := data + 1;
        i := i + 1;
      }
    } else {
      while i < pixelCount
        invariant i <= pixelCount && |samples| == i && data == start + 2 * i
        invariant forall k | 0 <= k < i :: samples[k] == Scaled(RawSample(buffer, start, h.maxVal, k) as real, h.maxVal)
      {
        var pixel := ByteAt(buffer, data);
        data := data + 1;
        pixel := pixel * 256 + ByteAt(buffer, data);
        data := data + 1;
        samples := samples + [Scaled(pixel as real, h.maxVal)];
        i := i + 1;
      }
    }
  }

  /** Reads n P2 samples token by token, stopping at the first missing or invalid one. */
  method ReadTextSamples(fileName: string, tokenizer: Tokenizer, n: nat, maxVal: real, stod: string -> Result<real>)
    returns (r: Result<seq<real>>)
    requires tokenizer.Valid() && tokenizer.end == |tokenizer.text| && maxVal >= 1.0
    modifies tokenizer`position
    ensures r == TextSamples(fileName, tokenizer.text, old(tokenizer.position), n, maxVal, stod)
  {
    var samples: seq<real> := [];
    ghost var t := tokenizer.text;
    ghost var all := TextSamples(fileName, t, tokenizer.position, n, maxVal, stod);
    AfterNothing(all);
    var left := n;
    while left > 0
      invariant tokenizer.Valid() && tokenizer.end == |t|
      invariant all == After(samples, TextSamples(fileName, t, tokenizer.position, left, maxVal, stod))
    {
      ghost var from := tokenizer.position;
      var p := tokenizer.NextToken();
      ghost var next := tokenizer.position;
      assert TokenAt(t, from) == (p, next);
      TextSamplesStop(fileName, t, from, left, maxVal, stod, samples, p, next);
      if p == [] {
        return Err(IncompleteError(fileName));
      }
      var pixel :- stod(p);
      if pixel < 0.0 || pixel > maxVal {
        return Err(PixelError(fileName));
      }
      TextSamplesAdvance(fileName, t, from, left, maxVal, stod, samples, p, next);
      samples := samples + [Scaled(pixel, maxVal)];
      left := left - 1;
    }
    assert samples + [] == samples;
    r := Ok(samples);
  }

  /** LoadPGMImage: opens the file, reads the header, then the raster or the sample tokens. */
  method LoadPgmImage(fileName: string, file: Option<Buffer>, category: nat, stoi: string -> Result<int>,
                      stod: string -> Result<real>) returns (r: Result<Image>)
    ensures r == LoadPgm(fileName, file, category, stoi, stod)
  {
    if file.None? {
      return Err(OpenError(fileName));
    }
    var buffer := file.value;
    var tokenizer := new Tokenizer(buffer, |buffer|);
    var h :- ReadPgmHeader(fileName, tokenizer, stoi, stod);
    var samples: seq<real>;
    if h.binary {
      samples := ReadBinarySamples(buffer, h);
    } else {
      samples :- ReadTextSamples(fileName, tokenizer, (h.width * h.height) % U32Limit, h.maxVal, stod);
    }
    r := Ok(Image(samples, 1, h.width, h.height, category));
  }

  /** Reading one valid sample token moves it from the rest to what was read. */
  lemma TextSamplesAdvance(fileName: string, t: seq<char>, from: nat, n: nat, maxVal: real, stod: string -> Result<real>,
                           done: seq<real>, p: string, next: nat)
    requires from <= |t| && maxVal >= 1.0 && n > 0
    requires TokenAt(t, from) == (p, next) && p != [] && stod(p).Ok? && 0.0 <= stod(p).value <= maxVal
    ensures After(done, TextSamples(fileName, t, from, n, maxVal, stod))
      == After(done + [Scaled(stod(p).value, maxVal)], TextSamples(fileName, t, next, n - 1, maxVal, stod))
  {
    var rest := TextSamples(fileName, t, next, n - 1, maxVal, stod);
    if rest.Ok? {
      assert done + ([Scaled(stod(p).value, maxVal)] + rest.value) == done + [Scaled(stod(p).value, maxVal)] + rest.value;
    }
  }

  /** A missing or invalid sample token ends the reading with its error, whatever was read before. */
  lemma TextSamplesStop(fileName: string, t: seq<char>, from: nat, n: nat, maxVal: real, stod: string -> Result<real>,
                        done: seq<real>, p: string, next: nat)
    requires from <= |t| && maxVal >= 1.0 && n > 0
    requires TokenAt(t, from) == (p, next)
    ensures p == [] ==> After(done, TextSamples(fileName, t, from, n, maxVal, stod)) == Err(IncompleteError(fileName))
    ensures p != [] && stod(p).Err? ==> After(done, TextSamples(fileName, t, from, n, maxVal, stod)) == Err(stod(p).error)
    ensures p != [] && stod(p).Ok? && (stod(p).value < 0.0 || stod(p).value > maxVal) ==>
      After(done, TextSamples(fileName, t, from, n, maxVal, stod)) == Err(PixelError(fileName))
  {
  }

  // ---------------------------------------------------------------------------
  // Properties of the decoded samples.

  /** Every P5 sample is non-negative, and at most 1 when its raw value is at most Maxval. */
  lemma BinarySamplesInUnitRange(t: Buffer, h: Header)
    requires h.maxVal >= 1.0
    ensures var xs := BinarySamples(t, h);
      forall i | 0 <= i < |xs| :: 0.0 <= xs[i] && (RawSample(t, h.next + 1, h.maxVal, i) as real <= h.maxVal ==> xs[i] <= 1.0)
  {
    var xs := BinarySamples(t, h);
    forall i | 0 <= i < |xs|
      ensures 0.0 <= xs[i] && (RawSample(t, h.next + 1, h.maxVal, i) as real <= h.maxVal ==> xs[i] <= 1.0)
    {
      var v := RawSample(t, h.next + 1, h.maxVal, i) as real;
      if v <= h.maxVal {
        ScaledAtMostOne(v, h.maxVal);
      } else {
        ScaledAtMostOne(0.0, h.maxVal);
        assert xs[i] == v / h.maxVal;
      }
    }
  }

  const PlainFile := "P2 2 1 1 0 1"

  lemma PlainHeaderTokens()
    ensures TokenAt(PlainFile, 0) == ("P2", 2) && TokenAt(PlainFile, 2) == ("2", 4)
  {
    var t := PlainFile;
    assert SkipEnd(t, 0, 12) == 0;
    assert TokenEnd(t, 0, 12) == 2;
    assert SkipEnd(t, 2, 12) == 3 && TokenEnd(t, 3, 12) == 4;
    assert t[0..2] == "P2" && t[3..4] == "2";
  }

  lemma PlainSizeTokens()
    ensures TokenAt(PlainFile, 4) == ("1", 6) && TokenAt(PlainFile, 6) == ("1", 8)
  {
    var t := PlainFile;
    assert SkipEnd(t, 4, 12) == 5 && TokenEnd(t, 5, 12) == 6;
    assert SkipEnd(t, 6, 12) == 7 && TokenEnd(t, 7, 12) == 8;
    assert t[5..6] == "1" && t[7..8] == "1";
  }

  lemma PlainSampleTokens()
    ensures TokenAt(PlainFile, 8) == ("0", 10) && TokenAt(PlainFile, 10) == ("1", 12)
  {
    var t := PlainFile;
    assert SkipEnd(t, 8, 12) == 9 && TokenEnd(t, 9, 12) == 10;
    assert SkipEnd(t, 10, 12) == 11 && TokenEnd(t, 11, 12) == 12;
    assert t[9..10] == "0" && t[11..12] == "1";
  }

  /** What std::stoi and std::stod give for the tokens of the plain example. */
  predicate ReadsDigits(stoi: string -> Result<int>, stod: string -> Result<real>)
  {
    stoi("1") == Ok(1) && stoi("2") == Ok(2) && stod("0") == Ok(0.0) && stod("1") == Ok(1.0)
  }

  /** The header "P2 2 1 1" announces a plain 2 × 1 image with Maxval 1. */
  lemma PlainHeaderExample(stoi: string -> Result<int>, stod: string -> Result<real>)
    requires ReadsDigits(stoi, stod)
    ensures ReadHeader("f", PlainFile, stoi, stod) == Ok(Header(false, 2, 1, 1.0, 8))
  {
    PlainHeaderTokens();
    PlainSizeTokens();
  }

  lemma PlainLastSample(stod: string -> Result<real>)
    requires stod("1") == Ok(1.0)
    ensures TextSamples("f", PlainFile, 10, 1, 1.0, stod) == Ok([1.0])
  {
    PlainSampleTokens();
    assert TextSamples("f", PlainFile, 12, 0, 1.0, stod) == Ok([]);
    assert Scaled(1.0, 1.0) == 1.0;
    assert [1.0] + [] == [1.0];
  }

  lemma PlainSamples(stod: string -> Result<real>)
    requires stod("0") == Ok(0.0) && stod("1") == Ok(1.0)
    ensures TextSamples("f", PlainFile, 8, 2, 1.0, stod) == Ok([0.0, 1.0])
  {
    PlainSampleTokens();
    PlainLastSample(stod);
    assert Scaled(0.0, 1.0) == 0.0;
    assert [0.0] + [1.0] == [0.0, 1.0];
  }

  /** A plain file "P2 2 1 1 0 1" holds a black and a white pixel. */
  lemma PlainExample(category: nat, stoi: string -> Result<int>, stod: string -> Result<real>)
    requires ReadsDigits(stoi, stod)
    ensures Decode("f", PlainFile, category, stoi, stod) == Ok(Image([0.0, 1.0], 1, 2, 1, category))
  {
    PlainHeaderExample(stoi, stod);
    PlainSamples(stod);
    PixelCountExact(Header(false, 2, 1, 1.0, 8));
  }

  /** A P2 sample std::stod reads as negative is refused as invalid pixel data, like one above Maxval. */
  lemma NegativeSampleInvalid(fileName: string, stod: string -> Result<real>)
    requires stod("-1") == Ok(-1.0)
    ensures TextSamples(fileName, " -1", 0, 1, 1.0, stod) == Err(PixelError(fileName))
  {
    var t := " -1";
    assert SkipEnd(t, 0, 3) == 1 && TokenEnd(t, 1, 3) == 3;
    assert t[1..3] == "-1";
  }

  // ---------------------------------------------------------------------------
  // The P5 raster as written: plain char is signed, so a byte of 128 or more
  // reads as a negative number, and as a uint32_t it is sign-extended.

  /** A byte read through a signed char. */
  function SignedChar(b: nat): (v: int)
    requires b < 256
    ensures -128 <= v < 128 && (v == b <==> b < 128)
  {
    if b < 128 then b else b - 256
  }

  /** A byte read through a signed char and converted to uint32_t. */
  function SignExtended(b: nat): bv32
    requires b < 256
  {
    if b < 128 then b as bv32 else (b as bv32) | 0xFFFF_FF00
  }

  /** Sample i of a one-byte raster as written: double(*data). */
  function OneByteSampleAsWritten(t: Buffer, start: nat, i: nat): int
  {
    SignedChar(ByteAt(t, start + i))
  }

  /** Sample i of a two-byte raster as written: pixel = *data; pixel <<= 8; pixel |= *data. */
  function TwoByteSampleAsWritten(t: Buffer, start: nat, i: nat): nat
  {
    ((SignExtended(ByteAt(t, start + 2 * i)) << 8) | SignExtended(ByteAt(t, start + 2 * i + 1))) as nat
  }

  /** As written, a one-byte sample is read right exactly when its byte is below 128. */
  lemma OneByteAsWrittenAgreesBelow128(t: Buffer, start: nat, i: nat)
    ensures OneByteSampleAsWritten(t, start, i) == RawSample(t, start, 255.0, i) <==> ByteAt(t, start + i) < 128
  {
  }

  /** Byte 200 reads as -56 instead of 200, and the two-byte sample 0x01 0x80 as 0xFFFFFF80 instead of 384. */
  lemma SignedCharMisreadsHighBytes()
    ensures var t: Buffer := ['\U{C8}', '\U{01}', '\U{80}'];
      OneByteSampleAsWritten(t, 0, 0) == -56 && RawSample(t, 0, 255.0, 0) == 200
      && TwoByteSampleAsWritten(t, 1, 0) == 0xFFFF_FF80 && RawSample(t, 1, 65535.0, 0) == 384
  {
    var t: Buffer := ['\U{C8}', '\U{01}', '\U{80}'];
    assert ByteAt(t, 1) == 1 && ByteAt(t, 2) == 128;
    assert SignExtended(128) == 0xFFFF_FF80;
  }
}
