/**
 * Trainer::LoadNetwork: the block of a job file that describes a network. The
 * line after the "network" line is a header naming the columns; each row after
 * it adds one layer to a new FeedForwardNetwork, until an empty line, a row
 * whose first field is empty, or the end of the file. Every error carries the
 * number of the job-file line it concerns (NetworkParamError).
 *
 * The job file is the sequence of lines std::getline returns before the stream
 * reaches its end; `pos` lines have been read when the line counter is `pos`.
 * std::stoi and std::stod are parameters: a string to a value or an error.
 */
module NetworkBlocks {
  import opened Wrappers
  import opened Layers
  import opened Activations
  import Networks
  import ConvolutionSpec
  import StringUtils
  import ImageSets
  import NumberText

  /** A value, or an error message with the number of the line it concerns. */
  datatype Parsed<+T> = Done(value: T) | Failed(message: string, line: int)

  /** The fixed messages LoadNetwork throws. */
  datatype Complaint =
    | ActivationMissing | LayerMissing | LeakinessRange | LayerSizeMissing | LayerSizeRange | DropoutRange
    | FilterCountMissing | FilterCountRange | FilterSizeMissing | FilterSizeRange | FilterTooLarge | PaddingRange
    | StrideRange | NoLayers | OutputNotClassifying | OutputNotSigmoid
  {
    function Message(): string
    {
      match this
      case ActivationMissing => "Compulsory network parameter \"activation\" is missing."
      case LayerMissing => "Compulsory network parameter \"layer\" is missing."
      case LeakinessRange => "Leakiness must be greater than 0 and less than 1."
      case LayerSizeMissing => "Compulsory parameter \"layer size\" is missing."
      case LayerSizeRange => "Layer size must be at least 1."
      case DropoutRange => "Dropout must be greater than or equal to 0 and less than 1."
      case FilterCountMissing => "Compulsory parameter \"filter count\" is missing."
      case FilterCountRange => "Filter count must be at least 1."
      case FilterSizeMissing => "Compulsory parameter \"filter size\" is missing."
      case FilterSizeRange => "Filter size must be strictly positive."
      case FilterTooLarge => "Filter must be smaller than the image dimensions."
      case PaddingRange => "Padding cannot be negative."
      case StrideRange => "Stride must be at least 1."
      case NoLayers => "Network does not contain any layers."
      case OutputNotClassifying => "The output layer of the network must be a fully connected layer with one neuron for each category in the data set."
      case OutputNotSigmoid => "The output layer of the network must use sigmoid activation."
    }
  }

  /** The line getline yields after `pos` lines: a read at the end of the stream leaves the fresh line empty. */
  function LineAt(lines: seq<string>, pos: nat): string
  {
    if pos < |lines| then lines[pos] else ""
  }

  // ---------------------------------------------------------------------------
  // The header row.

  /** The parameter names a header may use. */
  predicate IsParameter(name: string)
  {
    name == "activation" || name == "dropout" || name == "filter count" || name == "filter size" || name == "leakiness" ||
    name == "layer" || name == "layer size" || name == "padding" || name == "stride"
  }

  function DuplicateParameter(name: string): string { "Duplicate network parameter: " + name }
  function InvalidParameter(name: string): string { "Invalid network parameter: " + name }

  /**
   * The header loop from column i on, given the names already seen and the
   * columns of the known parameters found so far. An empty name is remembered
   * too, so a second empty column is a duplicate.
   */
  function ColumnsFrom(fields: seq<string>, i: nat, seen: set<string>, cols: map<string, nat>): Result<map<string, nat>>
    requires i <= |fields|
    decreases |fields| - i
  {
    if i == |fields| then Ok(cols)
    else if fields[i] in seen then Err(DuplicateParameter(fields[i]))
    else if IsParameter(fields[i]) then ColumnsFrom(fields, i + 1, seen + {fields[i]}, cols[fields[i] := i])
    else if fields[i] != "" then Err(InvalidParameter(fields[i]))
    else ColumnsFrom(fields, i + 1, seen + {fields[i]}, cols)
  }

  /** The column of each parameter the header names; "activation" and "layer" are compulsory. */
  function Columns(fields: seq<string>): Result<map<string, nat>>
  {
    var cols :- ColumnsFrom(fields, 0, {}, map[]);
    if "activation" !in cols then Err(ActivationMissing.Message())
    else if "layer" !in cols then Err(LayerMissing.Message())
    else Ok(cols)
  }

  predicate Distinct(fields: seq<string>)
  {
    forall i, j | 0 <= i < j < |fields| :: fields[i] != fields[j]
  }

  /** Every name is empty or a known parameter. */
  predicate Known(fields: seq<string>)
  {
    forall i | 0 <= i < |fields| :: fields[i] == "" || IsParameter(fields[i])
  }

  /** `cols` maps each non-empty name of `fields` to its column, and nothing else. */
  ghost predicate Indexes(cols: map<string, nat>, fields: seq<string>)
  {
    (forall n :: n in cols <==> n in fields && n != "") &&
    (forall n | n in cols :: cols[n] < |fields| && fields[cols[n]] == n)
  }

  /** The loop's state after column i: the names seen, and the columns of the known ones. */
  ghost predicate HeaderSoFar(fields: seq<string>, i: nat, seen: set<string>, cols: map<string, nat>)
    requires i <= |fields|
  {
    (forall n :: n in seen <==> n in fields[..i]) &&
    Distinct(fields[..i]) && Known(fields[..i]) && Indexes(cols, fields[..i])
  }

  /** A name not seen before, empty or known, extends the loop's state by one column. */
  lemma HeaderGrows(fields: seq<string>, i: nat, seen: set<string>, cols: map<string, nat>)
    requires i < |fields| && HeaderSoFar(fields, i, seen, cols)
    requires fields[i] !in seen && (fields[i] == "" || IsParameter(fields[i]))
    ensures HeaderSoFar(fields, i + 1, seen + {fields[i]},
                        if IsParameter(fields[i]) then cols[fields[i] := i] else cols)
  {
    var n := fields[i];
    var before, after := fields[..i], fields[..i + 1];
    assert after == before + [n];
    var cols' := if IsParameter(n) then cols[n := i] else cols;
    forall m | m in cols'
      ensures cols'[m] < i + 1 && after[cols'[m]] == m
    {
      if m != n || !IsParameter(n) {
        assert m in cols;
      }
    }
    forall m
      ensures m in cols' <==> m in after && m != ""
    {
      if m in after && m != "" && m != n {
        assert m in before;
      }
    }
    forall a, b | 0 <= a < b < i + 1
      ensures after[a] != after[b]
    {
      if b == i {
        assert after[a] == before[a];
        assert before[a] in seen;
      } else {
        assert before[a] != before[b];
      }
    }
  }

  lemma {:induction false} ColumnsFromExactly(fields: seq<string>, i: nat, seen: set<string>, cols: map<string, nat>)
    requires i <= |fields| && HeaderSoFar(fields, i, seen, cols)
    ensures ColumnsFrom(fields, i, seen, cols).Ok? <==> Distinct(fields) && Known(fields)
    ensures ColumnsFrom(fields, i, seen, cols).Ok? ==> Indexes(ColumnsFrom(fields, i, seen, cols).value, fields)
    decreases |fields| - i
  {
    if i == |fields| {
      assert fields[..i] == fields;
    } else {
      var n := fields[i];
      if n in seen {
        assert n in fields[..i];
        var k :| 0 <= k < i && fields[..i][k] == n;
        assert fields[k] == fields[i];
      } else if !IsParameter(n) && n != "" {
        assert !Known(fields);
      } else {
        HeaderGrows(fields, i, seen, cols);
        ColumnsFromExactly(fields, i + 1, seen + {n}, if IsParameter(n) then cols[n := i] else cols);
        if !Distinct(fields[..i + 1]) || !Known(fields[..i + 1]) {
          assert false;
        }
        assert Distinct(fields) ==> Distinct(fields[..i + 1]) by {
          if Distinct(fields) {
            var prefix := fields[..i + 1];
            forall a, b | 0 <= a < b < i + 1
              ensures prefix[a] != prefix[b]
            {
              assert fields[a] != fields[b];
            }
          }
        }
      }
    }
  }

  /**
   * The header is accepted exactly when its names are distinct, every
   * non-empty name is a known parameter, and "activation" and "layer" are
   * among them; the columns then index every non-empty name.
   */
  lemma ColumnsExactly(fields: seq<string>)
    ensures Columns(fields).Ok? <==>
      Distinct(fields) && Known(fields) && "activation" in fields && "layer" in fields
    ensures Columns(fields).Ok? ==> Indexes(Columns(fields).value, fields)
  {
    assert fields[..0] == [];
    ColumnsFromExactly(fields, 0, {}, map[]);
  }

  /** The header loop of LoadNetwork: one column at a time, remembering the names seen. */
  method ReadColumns(fields: seq<string>) returns (r: Result<map<string, nat>>)
    ensures r == Columns(fields)
  {
    var seen: set<string> := {};
    var cols: map<string, nat> := map[];
    var i := 0;
    while i < |fields|
      invariant 0 <= i <= |fields|
      invariant ColumnsFrom(fields, i, seen, cols) == ColumnsFrom(fields, 0, {}, map[])
      decreases |fields| - i
    {
      var name := fields[i];
      if name in seen {
        return Err(DuplicateParameter(name));
      }
      seen := seen + {name};
      if IsParameter(name) {
        cols := cols[name := i];
      } else if name != "" {
        return Err(InvalidParameter(name));
      }
      i := i + 1;
    }
    if "activation" !in cols {
      return Err(ActivationMissing.Message());
    }
    if "layer" !in cols {
      return Err(LayerMissing.Message());
    }
    r := Ok(cols);
  }

  // ---------------------------------------------------------------------------
  // A layer row.

  /**
   * GetParam: the field in the named column, or "" when the header has no such
   * column. A row too short for the column reads as "" too.
   */
  function Param(fields: seq<string>, cols: map<string, nat>, name: string): string
  {
    if name in cols && cols[name] < |fields| then fields[cols[name]] else ""
  }

  const DefaultLeakiness: real := 0.01
  function InvalidActivation(name: string): string { "Invalid activation function: " + name }

  /** The activation function a row names: sigmoid when the column is empty or absent. */
  function ActivationFor(fields: seq<string>, cols: map<string, nat>, stod: string -> Result<real>): (r: Result<ActivationFunction>)
    ensures r.Ok? ==> Param(fields, cols, "activation") in {"", "sigmoid", "leaky relu", "relu", "tanh"}
    ensures r == Ok(Sigmoid) <==> Param(fields, cols, "activation") in {"", "sigmoid"}
    ensures r.Ok? && r.value.LeakyReLU? ==> 0.0 < r.value.leakiness < 1.0
    ensures Param(fields, cols, "activation") == "leaky relu" && Param(fields, cols, "leakiness") == "" ==>
      r == Ok(LeakyReLU(DefaultLeakiness))
  {
    var name := Param(fields, cols, "activation");
    if name == "" || name == "sigmoid" then Ok(Sigmoid)
    else if name == "leaky relu" then
      var given := Param(fields, cols, "leakiness");
      var leakiness :- if given == "" then Ok(DefaultLeakiness) else stod(given);
      if leakiness <= 0.0 || leakiness >= 1.0 then Err(LeakinessRange.Message()) else Ok(LeakyReLU(leakiness))
    else if name == "relu" then Ok(ReLU)
    else if name == "tanh" then Ok(TanH)
    else Err(InvalidActivation(name))
  }

  /** What a row asks for: a layer of one of the three kinds, with its settings. */
  datatype Plan =
    | Pooling
    | FullyConnectedPlan(size: nat, af: ActivationFunction, keep: real)
    | ConvolutionalPlan(count: nat, size: nat, stride: nat, padding: nat, af: ActivationFunction)


  /** The layer size check as written: only 0 is refused, and the int is then cast to uint32_t. */
  function LayerSizeAsWritten(size: int): (r: Result<nat>)
    ensures r.Ok? <==> size != 0
  {
    if size == 0 then Err(LayerSizeRange.Message()) else Ok(NumberText.Unsigned32(size))
  }

  /** The layer size check as its message states it: at least 1. */
  function LayerSize(size: int): (r: Result<nat>)
    ensures r.Ok? <==> size >= 1
    ensures r.Ok? ==> r.value == size
  {
    if size < 1 then Err(LayerSizeRange.Message()) else Ok(size as nat)
  }

  /** A negative size passes the check as written and becomes a layer of more than two billion neurons. */
  lemma NegativeLayerSizePasses(size: int)
    requires -0x8000_0000 <= size < 0
    ensures LayerSizeAsWritten(size) == Ok(size + 0x1_0000_0000) && size + 0x1_0000_0000 >= 0x8000_0000
    ensures LayerSize(size).Err?
  {
  }

  /** The two checks agree on every size that is not negative. */
  lemma LayerSizeChecksAgree(size: int)
    requires 0 <= size < 0x1_0000_0000
    ensures LayerSizeAsWritten(size) == LayerSize(size)
  {
  }

  /** A dropout in [0, 1), 0 when the column is empty. */
  function Dropout(given: string, stod: string -> Result<real>): (r: Result<real>)
    ensures r.Ok? ==> 0.0 <= r.value < 1.0
    ensures given == "" ==> r == Ok(0.0)
  {
    if given == "" then Ok(0.0)
    else
      var dropout :- stod(given);
      if dropout >= 1.0 || dropout < 0.0 then Err(DropoutRange.Message()) else Ok(dropout)
  }

  /** A fully-connected row: its size, and a keep probability of one minus the dropout. */
  function FullyConnectedRow(fields: seq<string>, cols: map<string, nat>, af: ActivationFunction,
                             stoi: string -> Result<int>, stod: string -> Result<real>): (r: Result<Plan>)
    ensures r.Ok? ==> r.value.FullyConnectedPlan? && r.value.size >= 1 && 0.0 < r.value.keep <= 1.0 && r.value.af == af
    ensures Param(fields, cols, "layer size") == "" ==> r == Err(LayerSizeMissing.Message())
  {
    var given := Param(fields, cols, "layer size");
    if given == "" then Err(LayerSizeMissing.Message())
    else
      var parsed :- stoi(given);
      var size :- LayerSize(parsed);
      var dropout :- Dropout(Param(fields, cols, "dropout"), stod);
      Ok(FullyConnectedPlan(size, af, 1.0 - dropout))
  }


  /** An optional integer column: the default when empty, else a value no smaller than `least`. */
  function Optional(given: string, default: nat, least: nat, error: string, stoi: string -> Result<int>): (r: Result<nat>)
    ensures r.Ok? ==> r.value >= least || (given == "" && r.value == default)
    ensures given == "" ==> r == Ok(default)
  {
    if given == "" then Ok(default)
    else
      var n :- stoi(given);
      if n < least then Err(error) else Ok(n as nat)
  }

  /**
   * A convolutional row: a filter count of at least 1, a filter size of at
   * least 1 and smaller than the image's height and width, a padding of at
   * least 0 (0 by default) and a stride of at least 1 (1 by default).
   */
  function ConvolutionalRow(fields: seq<string>, cols: map<string, nat>, image: Dims, af: ActivationFunction,
                            stoi: string -> Result<int>): (r: Result<Plan>)
    ensures r.Ok? ==> r.value.ConvolutionalPlan? && r.value.count >= 1 && r.value.stride >= 1 && r.value.af == af &&
                      1 <= r.value.size < image.rows && r.value.size < image.columns
    ensures r.Ok? && Param(fields, cols, "stride") == "" ==> r.value.stride == 1
    ensures r.Ok? && Param(fields, cols, "padding") == "" ==> r.value.padding == 0
  {
    var countGiven := Param(fields, cols, "filter count");
    if countGiven == "" then Err(FilterCountMissing.Message())
    else
      var count :- stoi(countGiven);
      if count < 1 then Err(FilterCountRange.Message())
      else
        var sizeGiven := Param(fields, cols, "filter size");
        if sizeGiven == "" then Err(FilterSizeMissing.Message())
        else
          var size :- stoi(sizeGiven);
          if size < 1 then Err(FilterSizeRange.Message())
          else if size >= image.rows || size >= image.columns then Err(FilterTooLarge.Message())
          else
            var padding :- Optional(Param(fields, cols, "padding"), 0, 0, PaddingRange.Message(), stoi);
            var stride :- Optional(Param(fields, cols, "stride"), 1, 1, StrideRange.Message(), stoi);
            Ok(ConvolutionalPlan(count as nat, size as nat, stride, padding, af))
  }

  function InvalidLayerType(name: string): string { "Invalid layer type: " + name }

  /**
   * A row's layer: "max pooling" needs nothing else; the other kinds take the
   * activation column first, then "fully connected" or "convolutional" their
   * own columns; any other layer name is refused. `image` is the network input.
   */
  function RowPlan(fields: seq<string>, cols: map<string, nat>, image: Dims,
                   stoi: string -> Result<int>, stod: string -> Result<real>): (r: Result<Plan>)
    ensures r == Ok(Pooling) <==> Param(fields, cols, "layer") == "max pooling"
    ensures r.Ok? && r.value.FullyConnectedPlan? ==>
      Param(fields, cols, "layer") == "fully connected" && r.value.size >= 1 && 0.0 < r.value.keep <= 1.0 &&
      Ok(r.value.af) == ActivationFor(fields, cols, stod)
    ensures r.Ok? && r.value.ConvolutionalPlan? ==>
      Param(fields, cols, "layer") == "convolutional" && r.value.count >= 1 && r.value.stride >= 1 &&
      1 <= r.value.size < image.rows && r.value.size < image.columns && Ok(r.value.af) == ActivationFor(fields, cols, stod)
    ensures Param(fields, cols, "layer") !in {"max pooling", "fully connected", "convolutional"} ==> r.Err?
  {
    var layer := Param(fields, cols, "layer");
    if layer == "max pooling" then Ok(Pooling)
    else
      var af :- ActivationFor(fields, cols, stod);
      if layer == "fully connected" then FullyConnectedRow(fields, cols, af, stoi, stod)
      else if layer == "convolutional" then ConvolutionalRow(fields, cols, image, af, stoi)
      else Err(InvalidLayerType(layer))
  }

  // ---------------------------------------------------------------------------
  // The network as the rows build it.

  /** The top layer when it is fully connected: its size and activation. */
  datatype Output = Output(columns: nat, af: Option<ActivationFunction>)

  /** What the construction rules look at: the layer types, what the next layer receives, and a fully-connected top. */
  datatype Shape = Shape(types: seq<LayerType>, next: Dims, output: Option<Output>)

  /** The output is recorded exactly when the top layer is fully connected. */
  predicate WellShaped(sh: Shape)
  {
    sh.output.Some? <==> sh.types != [] && sh.types[|sh.types| - 1] == FullyConnectedType
  }

  /** The shape after Add*Layer for a plan, or the message it throws, in the order the network checks. */
  function Added(sh: Shape, p: Plan): (r: Result<Shape>)
    ensures r.Ok? ==> |r.value.types| == |sh.types| + 1
  {
    match p
    case Pooling =>
      if sh.types == [] then Err(Networks.Problem.PoolingFirst.Message())
      else if sh.types[|sh.types| - 1] == FullyConnectedType then Err(Networks.Problem.PoolingAfterFullyConnected.Message())
      else if sh.next.rows % 2 != 0 || sh.next.columns % 2 != 0 then Err(Networks.Problem.OddPoolingInput.Message())
      else Ok(Shape(sh.types + [MaxPoolingType], Dims(sh.next.planes, sh.next.rows / 2, sh.next.columns / 2), None))
    case FullyConnectedPlan(size, af, keep) =>
      if keep > 1.0 || keep <= 0.0 then Err(Networks.Problem.KeepOutOfRange.Message())
      else Ok(Shape(sh.types + [FullyConnectedType], Dims(1, 1, size), Some(Output(size, Some(af)))))
    case ConvolutionalPlan(count, size, stride, padding, af) =>
      var g := ConvolutionSpec.Geometry(sh.next.planes, sh.next.rows, sh.next.columns, count, size, stride, padding);
      if padding >= size then Err(Networks.Problem.PaddingTooLarge.Message())
      else if sh.types != [] && sh.types[|sh.types| - 1] == FullyConnectedType then
        Err(Networks.Problem.ConvolutionalAfterFullyConnected.Message())
      else if stride == 0 || size > sh.next.rows || size > sh.next.columns then Err(Networks.Problem.FilterDoesNotFit.Message())
      else Ok(Shape(sh.types + [ConvolutionalType], Dims(count, g.OutputRows(), g.OutputColumns()), None))
  }

  /** Adding a layer keeps the construction rules and the record of a fully-connected top. */
  lemma AddedKeepsRules(sh: Shape, p: Plan)
    requires WellShaped(sh) && Networks.WellOrdered(sh.types) && Added(sh, p).Ok?
    ensures WellShaped(Added(sh, p).value) && Networks.WellOrdered(Added(sh, p).value.types)
  {
    var t := match p case Pooling => MaxPoolingType
                     case FullyConnectedPlan(_, _, _) => FullyConnectedType
                     case ConvolutionalPlan(_, _, _, _, _) => ConvolutionalType;
    assert Added(sh, p).value.types == sh.types + [t];
    Networks.AppendKeepsOrder(sh.types, t);
  }

  /** Where the rows stopped: the shape they built and the line count at the end. */
  datatype Block = Block(shape: Shape, end: nat)

  /** A row's effect: the shape with its layer added, or how the block ends there. */
  datatype Step = Next(shape: Shape) | Stop(outcome: Parsed<Block>)

  /**
   * A row that is neither empty nor a comment, line number `lineNo`: lower-cased
   * and split; an empty first field ends the block, else the row's layer is
   * added or the error names this line.
   */
  function RowStep(line: string, lineNo: nat, cols: map<string, nat>, image: Dims,
                   stoi: string -> Result<int>, stod: string -> Result<real>, sh: Shape): (r: Step)
    ensures r.Stop? ==> (r.outcome.Failed? && r.outcome.line == lineNo) || r.outcome == Done(Block(sh, lineNo))
    ensures r.Next? ==> |r.shape.types| == |sh.types| + 1
  {
    match StringUtils.Split(StringUtils.LowerAll(line))
    case Err(e) => Stop(Failed(e, lineNo))
    case Ok(fields) =>
      if fields[0] == "" then Stop(Done(Block(sh, lineNo)))
      else
        match RowPlan(fields, cols, image, stoi, stod)
        case Err(e) => Stop(Failed(e, lineNo))
        case Ok(p) =>
          match Added(sh, p)
          case Err(e) => Stop(Failed(e, lineNo))
          case Ok(next) => Next(next)
  }

  /** A row's layer keeps the construction rules. */
  lemma RowStepKeepsRules(line: string, lineNo: nat, cols: map<string, nat>, image: Dims,
                          stoi: string -> Result<int>, stod: string -> Result<real>, sh: Shape)
    requires WellShaped(sh) && Networks.WellOrdered(sh.types)
    requires RowStep(line, lineNo, cols, image, stoi, stod, sh).Next?
    ensures var next := RowStep(line, lineNo, cols, image, stoi, stod, sh).shape;
      WellShaped(next) && Networks.WellOrdered(next.types)
  {
    var fields := StringUtils.Split(StringUtils.LowerAll(line)).value;
    AddedKeepsRules(sh, RowPlan(fields, cols, image, stoi, stod).value);
  }

  /**
   * The row loop from `pos` lines on: an empty line ends the block (the line
   * is consumed), "#" lines are skipped, and every other line is a row.
   */
  function Rows(lines: seq<string>, pos: nat, cols: map<string, nat>, image: Dims,
                stoi: string -> Result<int>, stod: string -> Result<real>, sh: Shape): Parsed<Block>
    decreases |lines| - pos
  {
    if pos >= |lines| then Done(Block(sh, pos))
    else if lines[pos] == "" then Done(Block(sh, pos + 1))
    else if lines[pos][0] == '#' then Rows(lines, pos + 1, cols, image, stoi, stod, sh)
    else
      match RowStep(lines[pos], pos + 1, cols, image, stoi, stod, sh)
      case Stop(outcome) => outcome
      case Next(next) => Rows(lines, pos + 1, cols, image, stoi, stod, next)
  }

  /**
   * The rows read whole lines of the file only: the block ends after the line
   * that ended it (or at the end of the file), past every line that added a
   * layer, and an error names a line of the block.
   */
  lemma {:induction false} RowsStayInFile(lines: seq<string>, pos: nat, cols: map<string, nat>, image: Dims,
                                          stoi: string -> Result<int>, stod: string -> Result<real>, sh: Shape)
    ensures var r := Rows(lines, pos, cols, image, stoi, stod, sh);
      (r.Failed? ==> pos < r.line <= |lines|) &&
      (r.Done? ==> pos <= r.value.end && (pos <= |lines| ==> r.value.end <= |lines|) &&
                   |sh.types| <= |r.value.shape.types| && (|sh.types| < |r.value.shape.types| ==> pos < r.value.end))
    decreases |lines| - pos
  {
    if pos < |lines| && lines[pos] != "" {
      if lines[pos][0] == '#' {
        RowsStayInFile(lines, pos + 1, cols, image, stoi, stod, sh);
      } else {
        var step := RowStep(lines[pos], pos + 1, cols, image, stoi, stod, sh);
        if step.Next? {
          RowsStayInFile(lines, pos + 1, cols, image, stoi, stod, step.shape);
        }
      }
    }
  }

  /** The shape the rows build keeps the construction rules. */
  lemma {:induction false} RowsKeepRules(lines: seq<string>, pos: nat, cols: map<string, nat>, image: Dims,
                                         stoi: string -> Result<int>, stod: string -> Result<real>, sh: Shape)
    requires WellShaped(sh) && Networks.WellOrdered(sh.types)
    ensures var r := Rows(lines, pos, cols, image, stoi, stod, sh);
      r.Done? ==> WellShaped(r.value.shape) && Networks.WellOrdered(r.value.shape.types)
    decreases |lines| - pos
  {
    if pos < |lines| && lines[pos] != "" {
      if lines[pos][0] == '#' {
        RowsKeepRules(lines, pos + 1, cols, image, stoi, stod, sh);
      } else {
        var step := RowStep(lines[pos], pos + 1, cols, image, stoi, stod, sh);
        if step.Next? {
          RowStepKeepsRules(lines[pos], pos + 1, cols, image, stoi, stod, sh);
          RowsKeepRules(lines, pos + 1, cols, image, stoi, stod, step.shape);
        }
      }
    }
  }


  /**
   * The checks after the rows: at least one layer, and a fully-connected
   * sigmoid top layer with one neuron per category. The output-layer errors
   * name the line before the one that ended the block.
   */
  function Finished(b: Block, categories: nat): (r: Parsed<Block>)
    ensures r.Done? <==> b.shape.types != [] && b.shape.output == Some(Output(categories, Some(Sigmoid)))
    ensures r.Done? ==> r.value == b
    ensures r.Failed? ==> r.line == b.end || (b.shape.types != [] && r.line == b.end - 1)
  {
    if b.shape.types == [] then Failed(NoLayers.Message(), b.end)
    else if b.shape.output.None? || b.shape.output.value.columns != categories then Failed(OutputNotClassifying.Message(), b.end - 1)
    else if b.shape.output.value.af != Some(Sigmoid) then Failed(OutputNotSigmoid.Message(), b.end - 1)
    else Done(b)
  }

  /** The input dimensions a network for an image set takes. */
  function InputOf(imageSet: ImageSets.ImageSet): Dims
  {
    Dims(imageSet.channels, imageSet.height, imageSet.width)
  }

  /**
   * LoadNetwork after `start` lines: the header is the next line, lower-cased
   * and split; the rows start on the line after it with no layers; then the
   * output layer is checked against the number of categories.
   */
  function NetworkBlock(lines: seq<string>, start: nat, image: Dims, categories: nat,
                        stoi: string -> Result<int>, stod: string -> Result<real>): Parsed<Block>
  {
    match StringUtils.Split(StringUtils.LowerAll(LineAt(lines, start)))
    case Err(e) => Failed(e, start + 1)
    case Ok(fields) =>
      match Columns(fields)
      case Err(e) => Failed(e, start + 1)
      case Ok(cols) => BlockRows(lines, start, cols, image, categories, stoi, stod)
  }

  /** The rows after the header at `start`, then the check of the output layer. */
  function BlockRows(lines: seq<string>, start: nat, cols: map<string, nat>, image: Dims, categories: nat,
                     stoi: string -> Result<int>, stod: string -> Result<real>): Parsed<Block>
  {
    match Rows(lines, start + 1, cols, image, stoi, stod, Shape([], image, None))
    case Failed(e, n) => Failed(e, n)
    case Done(b) => Finished(b, categories)
  }

  /** The rows of a block end, or fail, after its header line and within the file. */
  lemma BlockRowsInFile(lines: seq<string>, start: nat, cols: map<string, nat>, image: Dims, categories: nat,
                        stoi: string -> Result<int>, stod: string -> Result<real>)
    ensures var r := BlockRows(lines, start, cols, image, categories, stoi, stod);
      (r.Failed? ==> start < r.line && (start < |lines| ==> r.line <= |lines|)) &&
      (r.Done? ==> start < r.value.end && (start < |lines| ==> r.value.end <= |lines|))
  {
    RowsStayInFile(lines, start + 1, cols, image, stoi, stod, Shape([], image, None));
  }

  /**
   * A network block that loads describes layers that obey the construction
   * rules, topped by a fully-connected sigmoid layer with one neuron per
   * category.
   */
  lemma NetworkBlockClassifies(lines: seq<string>, start: nat, image: Dims, categories: nat,
                               stoi: string -> Result<int>, stod: string -> Result<real>)
    ensures var r := NetworkBlock(lines, start, image, categories, stoi, stod);
      r.Done? ==> var sh := r.value.shape;
                  Networks.WellOrdered(sh.types) && sh.types != [] && sh.types[|sh.types| - 1] == FullyConnectedType &&
                  sh.output == Some(Output(categories, Some(Sigmoid)))
  {
    var fields := StringUtils.Split(StringUtils.LowerAll(LineAt(lines, start)));
    if fields.Ok? && Columns(fields.value).Ok? {
      var empty := Shape([], image, None);
      assert Networks.WellOrdered(empty.types);
      RowsKeepRules(lines, start + 1, Columns(fields.value).value, image, stoi, stod, empty);
    }
  }

  /** A network block that loads ends after its header line and within the file. */
  lemma NetworkBlockEndsInFile(lines: seq<string>, start: nat, image: Dims, categories: nat,
                               stoi: string -> Result<int>, stod: string -> Result<real>)
    ensures var r := NetworkBlock(lines, start, image, categories, stoi, stod);
      r.Done? ==> start < r.value.end && (start < |lines| ==> r.value.end <= |lines|)
  {
    var fields := StringUtils.Split(StringUtils.LowerAll(LineAt(lines, start)));
    if fields.Ok? && Columns(fields.value).Ok? {
      BlockRowsInFile(lines, start, Columns(fields.value).value, image, categories, stoi, stod);
    }
  }

  /** A network block's error names its header line or a line of the block within the file. */
  lemma NetworkBlockErrorsInFile(lines: seq<string>, start: nat, image: Dims, categories: nat,
                                 stoi: string -> Result<int>, stod: string -> Result<real>)
    ensures var r := NetworkBlock(lines, start, image, categories, stoi, stod);
      r.Failed? ==> start < r.line && (start < |lines| ==> r.line <= |lines|)
  {
    var fields := StringUtils.Split(StringUtils.LowerAll(LineAt(lines, start)));
    if fields.Ok? && Columns(fields.value).Ok? {
      BlockRowsInFile(lines, start, Columns(fields.value).value, image, categories, stoi, stod);
    }
  }

  // ---------------------------------------------------------------------------
  // The network object.

  /** The shape of a stack of layers on an input, given the activation of a fully-connected top layer. */
  function ShapeOf(ls: seq<Layer>, input: Dims, topActivation: Option<ActivationFunction>): Shape
  {
    Shape(Networks.TypesOf(ls), Networks.Top(ls, input),
          if ls != [] && ls[|ls| - 1].FC? then Some(Output(ls[|ls| - 1].fc.outputColumns, topActivation)) else None)
  }

  /** A pushed layer's type is appended, and its output is what the next layer receives. */
  lemma ShapeOfPush(ls: seq<Layer>, input: Dims, l: Layer, topActivation: Option<ActivationFunction>)
    ensures ShapeOf(ls + [l], input, topActivation) ==
      Shape(Networks.TypesOf(ls) + [l.Type()], l.Output(),
            if l.FC? then Some(Output(l.fc.outputColumns, topActivation)) else None)
  {
    assert Networks.TypesOf(ls + [l]) == Networks.TypesOf(ls) + [l.Type()];
  }

  /** The top layer's objects, which hold its activation function. */
  function TopObjects(net: Networks.FeedForwardNetwork): set<object>
    reads net
  {
    if net.layers != [] && net.layers[|net.layers| - 1].FC? then {net.layers[|net.layers| - 1].fc} else {}
  }

  /** The activation function of a fully-connected top layer. */
  function TopActivation(net: Networks.FeedForwardNetwork): Option<ActivationFunction>
    reads net, TopObjects(net)
  {
    if net.layers != [] && net.layers[|net.layers| - 1].FC? then net.layers[|net.layers| - 1].fc.activationFunction else None
  }

  /** The network has the shape. */
  ghost predicate Mirrors(net: Networks.FeedForwardNetwork, sh: Shape)
    reads net, TopObjects(net)
  {
    sh == ShapeOf(net.layers, net.Input(), TopActivation(net))
  }

  /** A classifier's top: a fully-connected layer with one sigmoid output per category. */
  ghost predicate Classifies(net: Networks.FeedForwardNetwork, categories: nat)
    reads net, TopObjects(net)
  {
    net.layers != [] && net.layers[|net.layers| - 1].FC? &&
    net.layers[|net.layers| - 1].fc.outputColumns == categories && TopActivation(net) == Some(Sigmoid)
  }

  /** AddMaxPoolingLayer, as the shape predicts it. */
  method AddPooling(net: Networks.FeedForwardNetwork, ghost sh: Shape) returns (error: Option<string>)
    requires net.Valid() && Mirrors(net, sh)
    modifies net`layers
    ensures net.Valid()
    ensures error.Some? <==> Added(sh, Pooling).Err?
    ensures error.Some? ==> error.value == Added(sh, Pooling).error
    ensures error.None? ==> Mirrors(net, Added(sh, Pooling).value)
  {
    ghost var before := net.layers;
    var e := net.AddMaxPoolingLayer();
    if e.Some? {
      return Some(e.value.Message());
    }
    var l := net.layers[|net.layers| - 1];
    ShapeOfPush(before, net.Input(), l, None);
    assert l.pool.Valid();
    return None;
  }

  /** AddFullyConnectedLayer, as the shape predicts it. */
  method AddFullyConnected(net: Networks.FeedForwardNetwork, size: nat, af: ActivationFunction, keep: real, ghost sh: Shape)
    returns (error: Option<string>)
    requires net.Valid() && Mirrors(net, sh)
    modifies net`layers
    ensures net.Valid()
    ensures error.Some? <==> Added(sh, FullyConnectedPlan(size, af, keep)).Err?
    ensures error.Some? ==> error.value == Added(sh, FullyConnectedPlan(size, af, keep)).error
    ensures error.None? ==> Mirrors(net, Added(sh, FullyConnectedPlan(size, af, keep)).value)
  {
    ghost var before := net.layers;
    var e := net.AddFullyConnectedLayer(size, Some(af), keep);
    if e.Some? {
      return Some(e.value.Message());
    }
    var l := net.layers[|net.layers| - 1];
    ShapeOfPush(before, net.Input(), l, Some(af));
    assert l.fc.Valid();
    return None;
  }

  /** AddConvolutionalLayer, as the shape predicts it. */
  method AddConvolutional(net: Networks.FeedForwardNetwork, count: nat, size: nat, stride: nat, padding: nat,
                          af: ActivationFunction, ghost sh: Shape)
    returns (error: Option<string>)
    requires net.Valid() && Mirrors(net, sh)
    modifies net`layers
    ensures net.Valid()
    ensures error.Some? <==> Added(sh, ConvolutionalPlan(count, size, stride, padding, af)).Err?
    ensures error.Some? ==> error.value == Added(sh, ConvolutionalPlan(count, size, stride, padding, af)).error
    ensures error.None? ==> Mirrors(net, Added(sh, ConvolutionalPlan(count, size, stride, padding, af)).value)
  {
    ghost var before := net.layers;
    var e := net.AddConvolutionalLayer(count, size, stride, padding, Some(af));
    if e.Some? {
      return Some(e.value.Message());
    }
    var l := net.layers[|net.layers| - 1];
    ShapeOfPush(before, net.Input(), l, None);
    assert l.conv.Valid();
    return None;
  }

  /** The layer a plan asks for, added to the network. */
  method AddPlanned(net: Networks.FeedForwardNetwork, p: Plan, ghost sh: Shape) returns (error: Option<string>)
    requires net.Valid() && Mirrors(net, sh)
    modifies net`layers
    ensures net.Valid()
    ensures error.Some? <==> Added(sh, p).Err?
    ensures error.Some? ==> error.value == Added(sh, p).error
    ensures error.None? ==> Mirrors(net, Added(sh, p).value)
  {
    match p
    case Pooling =>
      error := AddPooling(net, sh);
    case FullyConnectedPlan(size, af, keep) =>
      error := AddFullyConnected(net, size, af, keep, sh);
    case ConvolutionalPlan(count, size, stride, padding, af) =>
      error := AddConvolutional(net, count, size, stride, padding, af, sh);
  }

  /** One row of LoadNetwork's loop, on the network. */
  method AddRow(net: Networks.FeedForwardNetwork, line: string, lineNo: nat, cols: map<string, nat>, image: Dims,
                stoi: string -> Result<int>, stod: string -> Result<real>, ghost sh: Shape)
    returns (stop: Option<Parsed<nat>>)
    requires net.Valid() && Mirrors(net, sh)
    modifies net`layers
    ensures net.Valid()
    ensures var step := RowStep(line, lineNo, cols, image, stoi, stod, sh);
      (stop.Some? <==> step.Stop?) &&
      (stop.Some? ==> stop.value == (if step.outcome.Failed? then Failed(step.outcome.message, lineNo) else Done(lineNo))) &&
      (stop.None? ==> Mirrors(net, step.shape)) &&
      (stop.Some? && stop.value.Done? ==> Mirrors(net, sh))
  {
    var fields, _ := StringUtils.SplitCSV(StringUtils.LowerAll(line));
    if fields.Err? {
      return Some(Failed(fields.error, lineNo));
    }
    if fields.value[0] == "" {
      return Some(Done(lineNo));
    }
    var plan := RowPlan(fields.value, cols, image, stoi, stod);
    if plan.Err? {
      return Some(Failed(plan.error, lineNo));
    }
    var error := AddPlanned(net, plan.value, sh);
    if error.Some? {
      return Some(Failed(error.value, lineNo));
    }
    return None;
  }

  /** The row loop of LoadNetwork: one line, and at most one layer, at a time. */
  method AddRows(net: Networks.FeedForwardNetwork, lines: seq<string>, start: nat, cols: map<string, nat>, image: Dims,
                 stoi: string -> Result<int>, stod: string -> Result<real>, ghost sh: Shape)
    returns (r: Parsed<nat>)
    requires net.Valid() && Mirrors(net, sh)
    modifies net`layers
    ensures net.Valid()
    ensures var spec := Rows(lines, start, cols, image, stoi, stod, sh);
      (r.Failed? <==> spec.Failed?) &&
      (r.Failed? ==> r.message == spec.message && r.line == spec.line) &&
      (r.Done? ==> r.value == spec.value.end && Mirrors(net, spec.value.shape))
  {
    var pos := start;
    ghost var built := sh;
    ghost var spec := Rows(lines, start, cols, image, stoi, stod, sh);
    while pos < |lines|
      invariant net.Valid() && Mirrors(net, built)
      invariant Rows(lines, pos, cols, image, stoi, stod, built) == spec
      decreases |lines| - pos
    {
      var line := lines[pos];
      pos := pos + 1;
      if line == "" {
        return Done(pos);
      }
      if line[0] != '#' {
        ghost var step := RowStep(line, pos, cols, image, stoi, stod, built);
        var stop := AddRow(net, line, pos, cols, image, stoi, stod, built);
        if stop.Some? {
          return stop.value;
        }
        built := step.shape;
      }
    }
    return Done(pos);
  }

  /**
   * Trainer::LoadNetwork: reads the header after `start` lines, builds a
   * network for the image set's input, adds the rows' layers and checks the
   * output layer. Its outcome is the block's: the same error and line, or a
   * fresh valid network of the block's shape and the number of lines read.
   */
  method LoadNetwork(name: string, lines: seq<string>, start: nat, imageSet: ImageSets.ImageSet, threadCount: nat,
                     learningRate: real, weightDecay: real, stoi: string -> Result<int>, stod: string -> Result<real>)
    returns (r: Parsed<(Networks.FeedForwardNetwork, nat)>)
    ensures var spec := NetworkBlock(lines, start, InputOf(imageSet), |imageSet.oneHotCategories|, stoi, stod);
      (r.Failed? <==> spec.Failed?) &&
      (r.Failed? ==> r.message == spec.message && r.line == spec.line) &&
      (r.Done? ==> r.value.1 == spec.value.end && fresh(r.value.0) && r.value.0.Valid() && Mirrors(r.value.0, spec.value.shape))
    ensures r.Done? ==> var net := r.value.0;
      net.name == name && net.Input() == InputOf(imageSet) && net.threadCount == threadCount && net.epochsTrained == 0 &&
      net.learningRate == learningRate && net.weightDecay == weightDecay
    ensures r.Done? ==> Classifies(r.value.0, |imageSet.oneHotCategories|)
  {
    var header := LineAt(lines, start);
    var fields, _ := StringUtils.SplitCSV(StringUtils.LowerAll(header));
    if fields.Err? {
      return Failed(fields.error, start + 1);
    }
    var cols := ReadColumns(fields.value);
    if cols.Err? {
      return Failed(cols.error, start + 1);
    }
    var net := new Networks.FeedForwardNetwork(name, imageSet.channels, imageSet.height, imageSet.width, threadCount, 0,
                                               learningRate, weightDecay);
    var image := InputOf(imageSet);
    ghost var empty := Shape([], image, None);
    var rows := AddRows(net, lines, start + 1, cols.value, image, stoi, stod, empty);
    if rows.Failed? {
      return Failed(rows.message, rows.line);
    }
    ghost var b := Rows(lines, start + 1, cols.value, image, stoi, stod, empty).value;
    r := Finish(net, rows.value, |imageSet.oneHotCategories|, b);
    if r.Done? {
      NetworkBlockClassifies(lines, start, image, |imageSet.oneHotCategories|, stoi, stod);
    }
  }

  /** The output-layer checks on the built network. */
  method Finish(net: Networks.FeedForwardNetwork, end: nat, categories: nat, ghost b: Block)
    returns (r: Parsed<(Networks.FeedForwardNetwork, nat)>)
    requires Mirrors(net, b.shape) && b.end == end
    ensures var spec := Finished(b, categories);
      (r.Failed? <==> spec.Failed?) &&
      (r.Failed? ==> r.message == spec.message && r.line == spec.line) &&
      (r.Done? ==> r.value == (net, end))
  {
    if net.layers == [] {
      return Failed(NoLayers.Message(), end);
    }
    var top := net.layers[|net.layers| - 1];
    if !top.FC? || top.fc.outputColumns != categories {
      return Failed(OutputNotClassifying.Message(), end - 1);
    }
    if top.fc.activationFunction != Some(Sigmoid) {
      return Failed(OutputNotSigmoid.Message(), end - 1);
    }
    return Done((net, end));
  }
}
