/**
 * The network file that FeedForwardNetwork::Save writes and ::Load reads:
 * the magic "FishNet123", a u16 version (Save writes 6; Load refuses anything
 * newer), the name (version 6 on: u16 length, then the bytes), the input
 * channels, rows and columns (u32 each), the cost-function tag (only
 * cross-entropy, 1), the epochs trained (u16 before version 5, u32 from then
 * on), the learning rate, the weight decay (version 4 on; 0 before), the u16
 * layer count, and the layer records, each checked against the dimensions
 * the layer before it produces.
 */
module NetworkFiles {
  import opened Wrappers
  import opened Streams
  import opened Layers

  const CurrentVersion: nat := 6

  /** "FishNet123". */
  const MagicBytes: seq<byte> := [70, 105, 115, 104, 78, 101, 116, 49, 50, 51]

  /** CostFunction::Types::CrossEntropy. */
  const CrossEntropyTag: byte := 1

  /** Why Load throws. */
  datatype LoadProblem = NotFishNet | NewerVersion | UnknownCost | Truncated | LayerProblem(message: string)
  {
    /** The message thrown for the file `fileName` (Truncated is the model's own refusal of a short file). */
    function Message(fileName: string): string
    {
      match this
      case NotFishNet => fileName + " does not appear to be a FishNet file."
      case NewerVersion => fileName + " was saved by a newer version  of FishNet. Please upgrade your version to load it."
      case UnknownCost => fileName + " contains an unrecognized cost function."
      case Truncated => fileName + " ends inside the network header."
      case LayerProblem(m) => m
    }
  }

  /** The outcome of reading part of a network file. */
  datatype Loaded<+T> = Loaded(value: T) | Refused(problem: LoadProblem)
  {
    predicate IsFailure() { Refused? }

    function PropagateFailure<U>(): Loaded<U>
      requires Refused?
    {
      Refused(problem)
    }

    function Extract(): T
      requires Loaded?
    {
      value
    }
  }

  /** A read that ran past the end of the stream is refused. */
  function Within<T>(o: Option<T>): (r: Loaded<T>)
    ensures r.Loaded? <==> o.Some?
    ensures o.Some? ==> r.value == o.value
  {
    match o
    case Some(v) => Loaded(v)
    case None => Refused(Truncated)
  }

  /** A layer that Layer::Load refuses refuses the whole file with its message. */
  function FromLayer<T>(r: Result<T>): (l: Loaded<T>)
    ensures l.Loaded? <==> r.Ok?
    ensures r.Ok? ==> l.value == r.value
  {
    match r
    case Ok(v) => Loaded(v)
    case Err(m) => Refused(LayerProblem(m))
  }

  /** A successful read whose value and end position are those of `d` is `d`. */
  lemma LoadedAs<T>(r: Loaded<Decoded<T>>, d: Decoded<T>)
    requires r.Loaded? && r.value.value == d.value && r.value.next == d.next
    ensures r == Loaded(d)
  {
  }

  // ---------------------------------------------------------------------------
  // What the file holds.

  /** The fields before the layer records. */
  datatype Header = Header(version: nat, name: seq<byte>, input: Dims, epochsTrained: nat,
                           learningRate: real, weightDecay: real, layerCount: nat)
  {
    /** What Save writes: the current version, and every field within the width it is written with. */
    predicate Saveable()
    {
      version == CurrentVersion && IsU16(|name|) && IsU32(input.planes) && IsU32(input.rows) && IsU32(input.columns) &&
      IsU32(epochsTrained) && IsU16(layerCount)
    }
  }

  datatype NetworkRecord = NetworkRecord(header: Header, layers: seq<LayerRecord>)
  {
    /** A saveable header counting the layers, saveable layers, and layers Layer::Load accepts in a chain. */
    predicate Saveable()
    {
      header.Saveable() && header.layerCount == |layers| &&
      AllSaveable(layers) &&
      ChainOutput(layers, header.input).Ok?
    }
  }

  /** Every record within the widths Save writes. */
  predicate AllSaveable(rs: seq<LayerRecord>)
  {
    forall i :: 0 <= i < |rs| ==> rs[i].Saveable()
  }

  /** Each record built on the output dimensions of the one before it, starting from `input`; the first refusal stops it. */
  function ChainOutput(rs: seq<LayerRecord>, input: Dims): Result<Dims>
    decreases |rs|
  {
    if rs == [] then Ok(input)
    else match LoadedOutput(rs[0], input)
      case Err(m) => Err(m)
      case Ok(out) => ChainOutput(rs[1..], out)
  }

  // ---------------------------------------------------------------------------
  // Load.

  /**
   * The header: the magic (compared over 10 bytes), the version, then the fields
   * that version has. The name is the exactly `nameLength` bytes stored (see
   * NameAsWritten for how the source turns them into a string).
   */
  function DecodeHeader(s: seq<Unit>): (r: Loaded<Decoded<Header>>)
    ensures ReadBytes(s, 0, 10).Some? && ReadBytes(s, 0, 10) != Some(MagicBytes) ==> r == Refused(NotFishNet)
    ensures ReadBytes(s, 0, 10) == Some(MagicBytes) && ReadU16(s, 10).Some? && ReadU16(s, 10).value > CurrentVersion ==>
      r == Refused(NewerVersion)
    ensures r.Loaded? ==>
      var h := r.value.value;
      r.value.next <= |s| && h.version <= CurrentVersion && IsU16(h.layerCount) &&
      (h.version < 6 ==> h.name == []) &&
      (h.version < 5 ==> IsU16(h.epochsTrained)) && IsU32(h.epochsTrained) &&
      (h.version < 4 ==> h.weightDecay == 0.0)
  {
    var magic :- Within(ReadBytes(s, 0, 10));
    if magic != MagicBytes then Refused(NotFishNet)
    else
      var version :- Within(ReadU16(s, 10));
      if version > CurrentVersion then Refused(NewerVersion)
      else
        var name :- DecodeName(s, 12, version);
        DecodeSettings(s, name.next, version, name.value)
  }

  /** The name: nothing before version 6, else a u16 length and that many bytes. */
  function DecodeName(s: seq<Unit>, pos: nat, version: nat): (r: Loaded<Decoded<seq<byte>>>)
    ensures r.Loaded? ==> r.value.next <= |s| && (version < 6 ==> r.value.value == [])
  {
    if version < 6 then
      if pos <= |s| then Loaded(Decoded([], pos)) else Refused(Truncated)
    else
      var n :- Within(ReadU16(s, pos));
      var bytes :- Within(ReadBytes(s, pos + 2, n));
      Loaded(Decoded(bytes, pos + 2 + n))
  }

  /** The fields after the name, up to the layer count. */
  function DecodeSettings(s: seq<Unit>, pos: nat, version: nat, name: seq<byte>): (r: Loaded<Decoded<Header>>)
    ensures r.Loaded? ==>
      var h := r.value.value;
      r.value.next <= |s| && h.version == version && h.name == name && IsU16(h.layerCount) &&
      (version < 5 ==> IsU16(h.epochsTrained)) && IsU32(h.epochsTrained) &&
      (version < 4 ==> h.weightDecay == 0.0)
  {
    var input :- DecodeInput(s, pos);
    var epochs :- DecodeEpochs(s, pos + 13, version);
    var rate :- Within(ReadDouble(s, epochs.next));
    var decay :- DecodeWeightDecay(s, epochs.next + 1, version);
    var count :- Within(ReadU16(s, decay.next));
    Loaded(Decoded(Header(version, name, input, epochs.value, rate, decay.value, count), decay.next + 2))
  }

  /** The input channels, rows and columns, then the cost-function tag (the end of the stream reads as -1). */
  function DecodeInput(s: seq<Unit>, pos: nat): (r: Loaded<Dims>)
    ensures r.Loaded? ==> pos + 13 <= |s|
  {
    var channels :- Within(ReadU32(s, pos));
    var rows :- Within(ReadU32(s, pos + 4));
    var columns :- Within(ReadU32(s, pos + 8));
    var cost := if pos + 12 < |s| && s[pos + 12].Byte? then s[pos + 12].b as int else -1;
    if cost != CrossEntropyTag as int then Refused(UnknownCost)
    else Loaded(Dims(channels, rows, columns))
  }

  /** The epochs trained: a u16 before version 5, a u32 from then on. */
  function DecodeEpochs(s: seq<Unit>, pos: nat, version: nat): (r: Loaded<Decoded<nat>>)
    ensures r.Loaded? ==> r.value.next <= |s| && IsU32(r.value.value) && (version < 5 ==> IsU16(r.value.value))
  {
    if version < 5 then
      var e :- Within(ReadU16(s, pos));
      Loaded(Decoded(e, pos + 2))
    else
      var e :- Within(ReadU32(s, pos));
      Loaded(Decoded(e, pos + 4))
  }

  /** The weight decay from version 4 on; 0 before. */
  function DecodeWeightDecay(s: seq<Unit>, pos: nat, version: nat): (r: Loaded<Decoded<real>>)
    ensures r.Loaded? ==> r.value.next <= |s| && (version < 4 ==> r.value.value == 0.0)
  {
    if version < 4 then
      if pos <= |s| then Loaded(Decoded(0.0, pos)) else Refused(Truncated)
    else
      var d :- Within(ReadDouble(s, pos));
      Loaded(Decoded(d, pos + 1))
  }

  /**
   * `n` layer records, each built by Layer::Load on the output dimensions of the
   * one before it (the network input for the first); the first refusal stops it.
   */
  function DecodeLayers(s: seq<Unit>, pos: nat, n: nat, input: Dims): (r: Loaded<Decoded<seq<LayerRecord>>>)
    ensures r.Loaded? ==>
      |r.value.value| == n && r.value.next <= |s| && ChainOutput(r.value.value, input).Ok? &&
      AllSaveable(r.value.value)
    decreases n
  {
    if n == 0 then
      if pos <= |s| then Loaded(Decoded([], pos)) else Refused(Truncated)
    else
      var l :- FromLayer(DecodeLayer(s, pos));
      var out :- FromLayer(LoadedOutput(l.value, input));
      var rest :- DecodeLayers(s, l.next, n - 1, out);
      assert ([l.value] + rest.value)[1..] == rest.value;
      Loaded(Decoded([l.value] + rest.value, rest.next))
  }

  /** Load: the header, then as many layers as it counts. */
  function DecodeNetwork(s: seq<Unit>): (r: Loaded<NetworkRecord>)
    ensures r.Loaded? ==>
      var n := r.value;
      |n.layers| == n.header.layerCount && ChainOutput(n.layers, n.header.input).Ok? &&
      AllSaveable(n.layers)
  {
    var h :- DecodeHeader(s);
    var ls :- DecodeLayers(s, h.next, h.value.layerCount, h.value.input);
    Loaded(NetworkRecord(h.value, ls.value))
  }

  // ---------------------------------------------------------------------------
  // Save.

  function PrefixUnits(h: Header): seq<Unit>
    requires h.Saveable()
  {
    ByteUnits(MagicBytes) + U16Bytes(CurrentVersion) + U16Bytes(|h.name|) + ByteUnits(h.name)
  }

  function InputUnits(h: Header): seq<Unit>
    requires h.Saveable()
  {
    U32Bytes(h.input.planes) + U32Bytes(h.input.rows) + U32Bytes(h.input.columns) + [Byte(CrossEntropyTag)]
  }

  function TrainingUnits(h: Header): seq<Unit>
    requires h.Saveable()
  {
    U32Bytes(h.epochsTrained) + [Double(h.learningRate)] + [Double(h.weightDecay)] + U16Bytes(h.layerCount)
  }

  /** What Save writes before the layers (always the current version, and the epochs as a u32). */
  function HeaderUnits(h: Header): seq<Unit>
    requires h.Saveable()
  {
    PrefixUnits(h) + InputUnits(h) + TrainingUnits(h)
  }

  /** Where the input dimensions start. */
  function InputStart(h: Header): nat
  {
    14 + |h.name|
  }

  /** Where the epochs trained start. */
  function TrainingStart(h: Header): nat
  {
    InputStart(h) + 13
  }

  /** The length of the header. */
  function HeaderLength(h: Header): nat
  {
    TrainingStart(h) + 8
  }

  /** Each layer's record, one after the other. */
  function LayersUnits(rs: seq<LayerRecord>): seq<Unit>
    requires AllSaveable(rs)
    decreases |rs|
  {
    if rs == [] then [] else RecordUnits(rs[0]) + LayersUnits(rs[1..])
  }

  /** Save: the header, then every layer's record. */
  function SaveUnits(n: NetworkRecord): seq<Unit>
    requires n.Saveable()
  {
    HeaderUnits(n.header) + LayersUnits(n.layers)
  }

  // ---------------------------------------------------------------------------
  // Load reads back what Save writes.

  /** Where each part of the header sits. */
  lemma PrefixLayout(s: seq<Unit>, h: Header)
    requires h.Saveable() && SitsAt(s, 0, HeaderUnits(h))
    ensures SitsAt(s, 0, ByteUnits(MagicBytes)) && SitsAt(s, 10, U16Bytes(CurrentVersion))
    ensures SitsAt(s, 12, U16Bytes(|h.name|)) && SitsAt(s, 14, ByteUnits(h.name))
    ensures SitsAt(s, InputStart(h), InputUnits(h)) && SitsAt(s, TrainingStart(h), TrainingUnits(h))
  {
    var m, v, l, nm := ByteUnits(MagicBytes), U16Bytes(CurrentVersion), U16Bytes(|h.name|), ByteUnits(h.name);
    SitsAtSplitAt(s, 0, m + v + l + nm + InputUnits(h), TrainingUnits(h), TrainingStart(h));
    SitsAtSplitAt(s, 0, m + v + l + nm, InputUnits(h), InputStart(h));
    SitsAtSplitAt(s, 0, m + v + l, nm, 14);
    SitsAtSplitAt(s, 0, m + v, l, 12);
    SitsAtSplitAt(s, 0, m, v, 10);
  }

  lemma InputLayout(s: seq<Unit>, p: nat, h: Header)
    requires h.Saveable() && SitsAt(s, p, InputUnits(h))
    ensures SitsAt(s, p, U32Bytes(h.input.planes)) && SitsAt(s, p + 4, U32Bytes(h.input.rows))
    ensures SitsAt(s, p + 8, U32Bytes(h.input.columns)) && p + 12 < |s| && s[p + 12] == Byte(CrossEntropyTag)
  {
    var c, r, k := U32Bytes(h.input.planes), U32Bytes(h.input.rows), U32Bytes(h.input.columns);
    SitsAtSplitAt(s, p, c + r + k, [Byte(CrossEntropyTag)], p + 12);
    SitsAtSplitAt(s, p, c + r, k, p + 8);
    SitsAtSplitAt(s, p, c, r, p + 4);
    SitsAtIndex(s, p + 12, [Byte(CrossEntropyTag)], 0);
  }

  lemma TrainingLayout(s: seq<Unit>, p: nat, h: Header)
    requires h.Saveable() && SitsAt(s, p, TrainingUnits(h))
    ensures SitsAt(s, p, U32Bytes(h.epochsTrained))
    ensures p + 5 < |s| && s[p + 4] == Double(h.learningRate) && s[p + 5] == Double(h.weightDecay)
    ensures SitsAt(s, p + 6, U16Bytes(h.layerCount))
  {
    var e, lr, wd := U32Bytes(h.epochsTrained), [Double(h.learningRate)], [Double(h.weightDecay)];
    SitsAtSplitAt(s, p, e + lr + wd, U16Bytes(h.layerCount), p + 6);
    SitsAtSplitAt(s, p, e + lr, wd, p + 5);
    SitsAtSplitAt(s, p, e, lr, p + 4);
    SitsAtIndex(s, p + 4, lr, 0);
    SitsAtIndex(s, p + 5, wd, 0);
  }

  /** Load reads back the header Save writes. */
  lemma HeaderRoundTrip(s: seq<Unit>, h: Header)
    requires h.Saveable() && SitsAt(s, 0, HeaderUnits(h))
    ensures DecodeHeader(s) == Loaded(Decoded(h, HeaderLength(h)))
  {
    PrefixLayout(s, h);
    BytesRoundTrip(s, 0, MagicBytes);
    U16RoundTrip(s, 10, CurrentVersion);
    U16RoundTrip(s, 12, |h.name|);
    BytesRoundTrip(s, 14, h.name);
    InputRoundTrip(s, InputStart(h), h);
    TrainingRoundTrip(s, TrainingStart(h), h);
    HeaderSteps(s, h);
  }

  lemma InputRoundTrip(s: seq<Unit>, p: nat, h: Header)
    requires h.Saveable() && SitsAt(s, p, InputUnits(h))
    ensures DecodeInput(s, p) == Loaded(h.input)
  {
    InputLayout(s, p, h);
    U32RoundTrip(s, p, h.input.planes);
    U32RoundTrip(s, p + 4, h.input.rows);
    U32RoundTrip(s, p + 8, h.input.columns);
  }

  lemma TrainingRoundTrip(s: seq<Unit>, p: nat, h: Header)
    requires h.Saveable() && SitsAt(s, p, TrainingUnits(h))
    ensures var e := DecodeEpochs(s, p, CurrentVersion); e.Loaded? && e.value.value == h.epochsTrained && e.value.next == p + 4
    ensures ReadDouble(s, p + 4) == Some(h.learningRate)
    ensures var d := DecodeWeightDecay(s, p + 5, CurrentVersion); d.Loaded? && d.value.value == h.weightDecay && d.value.next == p + 6
    ensures ReadU16(s, p + 6) == Some(h.layerCount)
  {
    TrainingLayout(s, p, h);
    U32RoundTrip(s, p, h.epochsTrained);
    U16RoundTrip(s, p + 6, h.layerCount);
  }

  lemma HeaderSteps(s: seq<Unit>, h: Header)
    requires h.Saveable()
    requires ReadBytes(s, 0, 10) == Some(MagicBytes) && ReadU16(s, 10) == Some(CurrentVersion)
    requires ReadU16(s, 12) == Some(|h.name|) && ReadBytes(s, 14, |h.name|) == Some(h.name)
    requires DecodeInput(s, InputStart(h)) == Loaded(h.input)
    requires var e := DecodeEpochs(s, TrainingStart(h), CurrentVersion);
      e.Loaded? && e.value.value == h.epochsTrained && e.value.next == TrainingStart(h) + 4
    requires ReadDouble(s, TrainingStart(h) + 4) == Some(h.learningRate)
    requires var d := DecodeWeightDecay(s, TrainingStart(h) + 5, CurrentVersion);
      d.Loaded? && d.value.value == h.weightDecay && d.value.next == TrainingStart(h) + 6
    requires ReadU16(s, TrainingStart(h) + 6) == Some(h.layerCount)
    ensures DecodeHeader(s) == Loaded(Decoded(h, HeaderLength(h)))
  {
    var name := DecodeName(s, 12, CurrentVersion);
    assert name.Loaded? && name.value.value == h.name && name.value.next == InputStart(h);
    var settings := DecodeSettings(s, InputStart(h), CurrentVersion, h.name);
    assert settings.Loaded? && settings.value.value == h && settings.value.next == HeaderLength(h);
    LoadedAs(DecodeHeader(s), Decoded(h, HeaderLength(h)));
  }

  /** Load reads back, in a chain, the layer records Save writes. */
  lemma {:induction false} LayersRoundTrip(s: seq<Unit>, pos: nat, rs: seq<LayerRecord>, input: Dims)
    requires AllSaveable(rs)
    requires ChainOutput(rs, input).Ok? && SitsAt(s, pos, LayersUnits(rs))
    ensures var d := DecodeLayers(s, pos, |rs|, input); d.Loaded? && d.value.value == rs && d.value.next == pos + |LayersUnits(rs)|
    decreases |rs|
  {
    if rs == [] {
      SitsAtBound(s, pos, []);
    } else {
      var r, rest := rs[0], rs[1..];
      var next := pos + |RecordUnits(r)|;
      assert LayersUnits(rs) == RecordUnits(r) + LayersUnits(rest);
      SitsAtSplitAt(s, pos, RecordUnits(r), LayersUnits(rest), next);
      LayerRoundTrip(s, pos, r);
      var out := ChainStep(rs, input);
      assert AllSaveable(rest) by {
        forall i | 0 <= i < |rest| ensures rest[i].Saveable() { assert rest[i] == rs[i + 1]; }
      }
      LayersRoundTrip(s, next, rest, out);
      var end := next + |LayersUnits(rest)|;
      LayersSteps(s, pos, rs, input, next, rest, out, end);
    }
  }

  /** A chain that holds starts with a layer that accepts the input, and goes on from its output. */
  lemma ChainStep(rs: seq<LayerRecord>, input: Dims) returns (out: Dims)
    requires rs != [] && ChainOutput(rs, input).Ok?
    ensures LoadedOutput(rs[0], input) == Ok(out) && ChainOutput(rs[1..], out).Ok?
  {
    out := LoadedOutput(rs[0], input).value;
  }

  lemma {:induction false} LayersSteps(s: seq<Unit>, pos: nat, rs: seq<LayerRecord>, input: Dims, next: nat, rest: seq<LayerRecord>, out: Dims, end: nat)
    requires rs != [] && rest == rs[1..] && LoadedOutput(rs[0], input) == Ok(out)
    requires var l := DecodeLayer(s, pos); l.Ok? && l.value.value == rs[0] && l.value.next == next
    requires var d := DecodeLayers(s, next, |rest|, out); d.Loaded? && d.value.value == rest && d.value.next == end
    ensures var d := DecodeLayers(s, pos, |rs|, input); d.Loaded? && d.value.value == rs && d.value.next == end
  {
    var l := DecodeLayer(s, pos);
    assert FromLayer(l) == Loaded(l.value);
    assert FromLayer(LoadedOutput(l.value.value, input)) == Loaded(out);
    var d := DecodeLayers(s, l.value.next, |rs| - 1, out);
    assert d.Loaded? && d.value.value == rest && d.value.next == end;
    assert [rs[0]] + rest == rs;
  }

  /** Load reads back the network Save writes. */
  lemma NetworkRoundTrip(s: seq<Unit>, n: NetworkRecord)
    requires n.Saveable() && SitsAt(s, 0, SaveUnits(n))
    ensures DecodeNetwork(s) == Loaded(n)
  {
    SitsAtSplitAt(s, 0, HeaderUnits(n.header), LayersUnits(n.layers), HeaderLength(n.header));
    HeaderRoundTrip(s, n.header);
    LayersRoundTrip(s, HeaderLength(n.header), n.layers, n.header.input);
  }

  // ---------------------------------------------------------------------------
  // How the source turns what it read into the network's fields.

  /** The bytes before the first zero byte (all of them when there is none). */
  function UpToNul(bs: seq<byte>): (r: seq<byte>)
    ensures r <= bs && 0 !in r
    ensures |r| < |bs| ==> bs[|r|] == 0
  {
    if bs == [] || bs[0] == 0 then [] else [bs[0]] + UpToNul(bs[1..])
  }

  /**
   * The name as Load builds it: the `nameLength` bytes are read into a buffer with
   * no terminating zero, and the string is then built from that buffer as a C
   * string, so it runs on into whatever memory (`following`) comes after it, up
   * to the first zero byte.
   */
  function NameAsWritten(buffer: seq<byte>, following: seq<byte>): (name: seq<byte>)
    ensures 0 !in name && name <= buffer + following
  {
    UpToNul(buffer + following)
  }

  /** The name "ab" comes back as "abc" when the byte after the buffer is 'c' and the next is zero. */
  lemma NameReadsPastItsBuffer()
    ensures NameAsWritten([97, 98], [99, 0]) == [97, 98, 99] != [97, 98]
  {
    assert [97, 98] + [99, 0] == [97 as byte, 98, 99, 0];
    assert UpToNul([0 as byte]) == [];
    assert UpToNul([99 as byte, 0]) == [99] + UpToNul([0]);
    assert UpToNul([98 as byte, 99, 0]) == [98] + UpToNul([99, 0]);
  }

  /** The name comes back right only when it holds no zero byte and a zero happens to follow the buffer. */
  lemma {:induction false} NameAsWrittenWhenTerminated(buffer: seq<byte>, following: seq<byte>)
    requires 0 !in buffer && following != [] && following[0] == 0
    ensures NameAsWritten(buffer, following) == buffer
    decreases |buffer|
  {
    if buffer == [] {
      assert buffer + following == following;
    } else {
      assert (buffer + following)[1..] == buffer[1..] + following;
      NameAsWrittenWhenTerminated(buffer[1..], following);
      assert [buffer[0]] + buffer[1..] == buffer;
    }
  }

  /** The epochs trained as the constructor receives them: its parameter is a u16, so the u32 read is cut to its low 16 bits. */
  function EpochsAsConstructed(epochs: nat): (e: nat)
    requires IsU32(epochs)
    ensures IsU16(e) && (e == epochs <==> IsU16(epochs))
  {
    epochs % 0x1_0000
  }

  /** A network saved after 70000 epochs loads as trained for 4464. */
  lemma EpochsWrapOnLoad()
    ensures EpochsAsConstructed(70000) == 4464
  {
  }

  /** Load, with the name and the epochs as the corrected reader keeps them: what Save wrote. */
  lemma SavedHeaderFieldsSurvive(s: seq<Unit>, h: Header)
    requires h.Saveable() && SitsAt(s, 0, HeaderUnits(h))
    ensures DecodeHeader(s).Loaded?
    ensures DecodeHeader(s).value.value.name == h.name && DecodeHeader(s).value.value.epochsTrained == h.epochsTrained
  {
    HeaderRoundTrip(s, h);
  }
}
