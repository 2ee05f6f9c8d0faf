/**
 * One example's back-propagation through the whole network, on values: the
 * forward pass that records every layer's activations and activation
 * derivatives, the output error, the error passed back layer by layer, and the
 * weight and bias gradients each weighted layer adds to its accumulators.
 */
module Backpropagation {
  import opened Wrappers
  import opened Arith
  import opened Tensors
  import opened Activations
  import FullyConnected
  import MaxPooling
  import opened ConvolutionSpec

  // ---------------------------------------------------------------------------
  // The layers of a network, as values.

  /**
   * A layer: fully connected (weights row-major, one row of `inputs` per neuron,
   * and the dropout mask drawn for this example, if any), convolutional, or
   * max pooling (outputs with `outputColumns` columns per row, over `inputs` inputs).
   */
  datatype Stage =
    | Dense(weights: seq<real>, biases: seq<real>, inputs: nat, neurons: nat,
            af: Option<ActivationFunction>, mask: Option<seq<bool>>)
    | Convolution(g: Geometry, weights: seq<real>, biases: seq<real>, af: Option<ActivationFunction>)
    | Pooling(outputColumns: nat, outputs: nat, inputs: nat)
  {
    predicate IsWeighted() { !Pooling? }

    predicate Shaped() { Convolution? ==> g.Valid() }

    ghost predicate Admits(exp: real -> real) { IsWeighted() && af.Some? ==> Admissible(af.value, exp) }

    function InputSize(): nat
    {
      match this
      case Dense(_, _, n, _, _, _) => n
      case Convolution(g, _, _, _) => g.InputSize()
      case Pooling(_, _, n) => n
    }

    function OutputSize(): nat
      requires Shaped()
    {
      match this
      case Dense(_, _, _, m, _, _) => m
      case Convolution(g, _, _, _) => g.OutputSize()
      case Pooling(_, size, _) => size
    }
  }

  predicate AllShaped(stages: seq<Stage>)
  {
    forall l | 0 <= l < |stages| :: stages[l].Shaped()
  }

  ghost predicate AllAdmit(stages: seq<Stage>, exp: real -> real)
  {
    forall l | 0 <= l < |stages| :: stages[l].Admits(exp)
  }

  /** Each layer reads what the one before it writes, and the first reads the example. */
  predicate Chained(stages: seq<Stage>, exampleSize: nat)
  {
    && |stages| >= 1
    && AllShaped(stages)
    && stages[0].InputSize() == exampleSize
    && Linked(stages)
  }

  predicate Linked(stages: seq<Stage>)
    requires AllShaped(stages)
  {
    forall l | 1 <= l < |stages| :: stages[l].InputSize() == stages[l - 1].OutputSize()
  }

  predicate AllZero(s: seq<real>)
  {
    forall i | 0 <= i < |s| :: s[i] == 0.0
  }

  function Ones(n: nat): (r: seq<real>)
    ensures |r| == n && forall i | 0 <= i < n :: r[i] == 1.0
  {
    seq(n, _ => 1.0)
  }

  // ---------------------------------------------------------------------------
  // The forward pass.

  /** A layer's output before its activation function. */
  function Raw(st: Stage, x: seq<real>): (z: seq<real>)
    requires st.Shaped()
    ensures |z| == st.OutputSize()
  {
    match st
    case Dense(w, b, n, m, _, mask) => FullyConnected.Forward(w, b, n, x, mask, m)
    case Convolution(g, w, b, _) => ConvForward(g, x, w, b)
    case Pooling(oc, size, _) => MaxPooling.PoolForward(x, oc, size)
  }

  /** The layer's activations: its activation function applied when it has one. */
  function Activated(st: Stage, exp: real -> real, z: seq<real>): (a: seq<real>)
    requires st.Admits(exp)
    ensures |a| == |z|
  {
    if st.IsWeighted() && st.af.Some? then ActivateAll(st.af.value, exp, z) else z
  }

  /**
   * How the recorded derivative of a weighted layer without an activation
   * function is formed: as the pass writes it (a copy of the layer's output)
   * or as the identity's derivative (all ones).
   */
  datatype Rule = AsWritten | Corrected

  /** The derivative recorded for a layer whose output before activation is z. */
  function DerivativeOf(rule: Rule, st: Stage, exp: real -> real, z: seq<real>): (d: seq<real>)
    requires st.Admits(exp)
    ensures |d| == |z|
  {
    if st.IsWeighted() && st.af.Some? then DerivativeAll(st.af.value, exp, z)
    else if st.IsWeighted() && rule.AsWritten? then z
    else Ones(|z|)
  }

  /** Every layer's activations and recorded derivatives, front to back. */
  datatype Pass = Pass(acts: seq<seq<real>>, ds: seq<seq<real>>)

  predicate Fits(stages: seq<Stage>, acts: seq<seq<real>>, ds: seq<seq<real>>)
  {
    && AllShaped(stages)
    && |acts| == |stages| && |ds| == |stages|
    && forall l | 0 <= l < |stages| :: |acts[l]| == stages[l].OutputSize() && |ds[l]| == |acts[l]|
  }

  function ForwardPass(stages: seq<Stage>, exp: real -> real, x: seq<real>, rule: Rule): (p: Pass)
    requires AllShaped(stages) && AllAdmit(stages, exp)
    ensures Fits(stages, p.acts, p.ds)
    decreases |stages|
  {
    if |stages| == 0 then Pass([], [])
    else
      var z := Raw(stages[0], x);
      var a := Activated(stages[0], exp, z);
      var rest := ForwardPass(stages[1..], exp, a, rule);
      Pass([a] + rest.acts, [DerivativeOf(rule, stages[0], exp, z)] + rest.ds)
  }

  /** What layer l reads: the example for the first layer, else the previous layer's activations. */
  function Input(x: seq<real>, acts: seq<seq<real>>, l: nat): seq<real>
    requires l <= |acts|
  {
    if l == 0 then x else acts[l - 1]
  }

  /** The forward pass feeds each layer the previous one's activations and records its derivative. */
  lemma {:induction false} ForwardPassChains(stages: seq<Stage>, exp: real -> real, x: seq<real>, rule: Rule, l: nat)
    requires AllShaped(stages) && AllAdmit(stages, exp) && l < |stages|
    ensures var p := ForwardPass(stages, exp, x, rule);
      var z := Raw(stages[l], Input(x, p.acts, l));
      p.acts[l] == Activated(stages[l], exp, z) && p.ds[l] == DerivativeOf(rule, stages[l], exp, z)
    decreases l
  {
    if l > 0 {
      ForwardPassFirst(stages, exp, x, rule);
      var p := ForwardPass(stages, exp, x, rule);
      var a := Activated(stages[0], exp, Raw(stages[0], x));
      var rest := stages[1..];
      var q := ForwardPass(rest, exp, a, rule);
      assert stages[l] == rest[l - 1] && p.acts[l] == q.acts[l - 1] && p.ds[l] == q.ds[l - 1];
      assert Input(x, p.acts, l) == Input(a, q.acts, l - 1);
      ForwardPassChains(rest, exp, a, rule, l - 1);
    }
  }

  /** The forward pass runs the first layer, then the pass of the remaining layers on its activations. */
  lemma ForwardPassFirst(stages: seq<Stage>, exp: real -> real, x: seq<real>, rule: Rule)
    requires AllShaped(stages) && AllAdmit(stages, exp) && |stages| > 0
    ensures AllShaped(stages[1..]) && AllAdmit(stages[1..], exp)
    ensures var z := Raw(stages[0], x);
      var a := Activated(stages[0], exp, z);
      var q := ForwardPass(stages[1..], exp, a, rule);
      ForwardPass(stages, exp, x, rule) == Pass([a] + q.acts, [DerivativeOf(rule, stages[0], exp, z)] + q.ds)
  {
    var rest := stages[1..];
    forall k | 0 <= k < |rest| ensures rest[k] == stages[k + 1] { }
  }

  // ---------------------------------------------------------------------------
  // The backward pass, over any recorded activations and derivatives.

  /**
   * The error arriving at layer l: at the output layer, the cost derivative
   * (activations minus target); below it, what layer l + 1 passes back.
   */
  function Incoming(stages: seq<Stage>, acts: seq<seq<real>>, ds: seq<seq<real>>, target: seq<real>, l: nat): (e: seq<real>)
    requires Fits(stages, acts, ds) && Linked(stages) && l < |stages| && |target| == |acts[|stages| - 1]|
    ensures |e| == stages[l].OutputSize()
    ensures l == |stages| - 1 ==> forall k | 0 <= k < |e| :: e[k] == acts[l][k] - target[k]
    decreases |stages| - l, 0
  {
    if l == |stages| - 1 then Combine(Minus, acts[l], target)
    else Passed(stages, acts, ds, target, l + 1)
  }

  /** Layer l's delta: the incoming error times the recorded derivative for a weighted layer. */
  function Delta(stages: seq<Stage>, acts: seq<seq<real>>, ds: seq<seq<real>>, target: seq<real>, l: nat): (d: seq<real>)
    requires Fits(stages, acts, ds) && Linked(stages) && l < |stages| && |target| == |acts[|stages| - 1]|
    ensures |d| == stages[l].OutputSize()
    ensures !stages[l].IsWeighted() ==> d == Incoming(stages, acts, ds, target, l)
    ensures stages[l].IsWeighted() ==> forall k | 0 <= k < |d| :: d[k] == Incoming(stages, acts, ds, target, l)[k] * ds[l][k]
    decreases |stages| - l, 1
  {
    var e := Incoming(stages, acts, ds, target, l);
    if stages[l].IsWeighted() then Combine(Times, e, ds[l]) else e
  }

  /** The error layer l (l >= 1) passes back to layer l - 1. */
  function Passed(stages: seq<Stage>, acts: seq<seq<real>>, ds: seq<seq<real>>, target: seq<real>, l: nat): (e: seq<real>)
    requires Fits(stages, acts, ds) && Linked(stages) && 1 <= l < |stages| && |target| == |acts[|stages| - 1]|
    ensures |e| == stages[l].InputSize()
    decreases |stages| - l, 2
  {
    var d := Delta(stages, acts, ds, target, l);
    match stages[l]
    case Dense(w, _, n, m, _, mask) => FullyConnected.Backward(w, n, d, mask, m)
    case Convolution(g, w, _, _) => ConvBackward(g, w, d)
    case Pooling(oc, _, n) => MaxPooling.PoolBackward(acts[l - 1], acts[l], d, oc, n)
  }

  // ---------------------------------------------------------------------------
  // Gradient accumulation.

  /** A layer's weight and bias gradient accumulators. */
  datatype Nabla = Nabla(w: seq<real>, b: seq<real>)

  predicate NablaFits(st: Stage, nabla: Nabla)
  {
    match st
    case Dense(_, _, n, m, _, _) => |nabla.w| == m * n && |nabla.b| == m
    case Convolution(g, _, _, _) => |nabla.w| == g.WeightCount() && |nabla.b| == g.filters
    case Pooling(_, _, _) => true
  }

  predicate AllNablasFit(stages: seq<Stage>, nablas: seq<Nabla>)
  {
    |nablas| == |stages| && forall l | 0 <= l < |stages| :: NablaFits(stages[l], nablas[l])
  }

  /** Adds one layer's gradients for delta and the activations it read; a pooling layer has none. */
  function GradientStep(st: Stage, nabla: Nabla, delta: seq<real>, prev: seq<real>): (r: Nabla)
    requires st.Shaped() && NablaFits(st, nabla)
    ensures NablaFits(st, r)
  {
    match st
    case Dense(_, _, _, _, _, mask) =>
      Nabla(FullyConnected.AccumulateWeights(nabla.w, delta, prev, mask), FullyConnected.AccumulateBiases(nabla.b, delta, mask))
    case Convolution(g, _, _, _) =>
      Nabla(Combine(Plus, nabla.w, WeightGradients(g, prev, delta)), Combine(Plus, nabla.b, seq(g.filters, f => BiasGradient(g, delta, f))))
    case Pooling(_, _, _) => nabla
  }

  /** Every layer's accumulators after one example, given its recorded activations and derivatives. */
  function Accumulate(stages: seq<Stage>, x: seq<real>, acts: seq<seq<real>>, ds: seq<seq<real>>, target: seq<real>,
                      nablas: seq<Nabla>): (r: seq<Nabla>)
    requires Fits(stages, acts, ds) && Linked(stages) && |stages| >= 1 && |target| == |acts[|stages| - 1]| && AllNablasFit(stages, nablas)
    ensures AllNablasFit(stages, r)
    ensures forall l | 0 <= l < |stages| :: !stages[l].IsWeighted() ==> r[l] == nablas[l]
  {
    seq(|stages|, l requires 0 <= l < |stages| =>
      GradientStep(stages[l], nablas[l], Delta(stages, acts, ds, target, l), Input(x, acts, l)))
  }

  /** Back-propagation of one example, recording derivatives by the given rule. */
  function Propagate(stages: seq<Stage>, exp: real -> real, x: seq<real>, target: seq<real>, nablas: seq<Nabla>, rule: Rule): (r: seq<Nabla>)
    requires Chained(stages, |x|) && stages[0].IsWeighted() && AllAdmit(stages, exp)
    requires |target| == stages[|stages| - 1].OutputSize() && AllNablasFit(stages, nablas)
    ensures AllNablasFit(stages, r)
    ensures forall l | 0 <= l < |stages| :: !stages[l].IsWeighted() ==> r[l] == nablas[l]
  {
    var p := ForwardPass(stages, exp, x, rule);
    Accumulate(stages, x, p.acts, p.ds, target, nablas)
  }

  /** Back-propagation as the trainer performs it. */
  function BackPropagateAsWritten(stages: seq<Stage>, exp: real -> real, x: seq<real>, target: seq<real>, nablas: seq<Nabla>): (r: seq<Nabla>)
    requires Chained(stages, |x|) && stages[0].IsWeighted() && AllAdmit(stages, exp)
    requires |target| == stages[|stages| - 1].OutputSize() && AllNablasFit(stages, nablas)
    ensures AllNablasFit(stages, r)
  {
    Propagate(stages, exp, x, target, nablas, AsWritten)
  }

  /** Back-propagation with a layer without activation function treated as the identity. */
  function BackPropagate(stages: seq<Stage>, exp: real -> real, x: seq<real>, target: seq<real>, nablas: seq<Nabla>): (r: seq<Nabla>)
    requires Chained(stages, |x|) && stages[0].IsWeighted() && AllAdmit(stages, exp)
    requires |target| == stages[|stages| - 1].OutputSize() && AllNablasFit(stages, nablas)
    ensures AllNablasFit(stages, r)
  {
    Propagate(stages, exp, x, target, nablas, Corrected)
  }

  // ---------------------------------------------------------------------------
  // Zero error passes back as zero error and adds nothing.

  lemma {:induction false} PartialErrorOfZero(w: seq<real>, n: nat, err: seq<real>, mask: Option<seq<bool>>, j: int, upto: nat)
    requires AllZero(err)
    ensures FullyConnected.PartialError(w, n, err, mask, j, upto) == 0.0
  {
    if upto > 0 {
      PartialErrorOfZero(w, n, err, mask, j, upto - 1);
      FullyConnected.PartialErrorStep(w, n, err, mask, j, upto - 1);
    }
  }

  lemma BackwardCellOfZero(g: Geometry, w: seq<real>, e: seq<real>, ch: int, y: int, col: int)
    requires g.Valid() && AllZero(e)
    ensures BackwardCell(g, w, e, ch, y, col) == 0.0
  {
    forall f | 0 <= f < g.filters
      ensures FilterContribs(g, w, e, ch, y, col)(f) == 0.0
    {
      forall r | 0 <= r < g.OutputRows()
        ensures RowContribs(g, w, e, f, ch, y, col)(r) == 0.0
      {
        forall c | 0 <= c < g.OutputColumns()
          ensures ColContribs(g, w, e, f, r, ch, y, col)(c) == 0.0
        {
          assert OAt(g, e, f, r, c) == 0.0;
        }
        SumZero(0, g.OutputColumns(), ColContribs(g, w, e, f, r, ch, y, col));
      }
      SumZero(0, g.OutputRows(), RowContribs(g, w, e, f, ch, y, col));
    }
    SumZero(0, g.filters, FilterContribs(g, w, e, ch, y, col));
  }

  lemma WeightGradientOfZero(g: Geometry, a: seq<real>, d: seq<real>, f: int, ch: int, kr: int, kc: int)
    requires g.Valid() && AllZero(d)
    ensures WeightGradient(g, a, d, f, ch, kr, kc) == 0.0
  {
    forall r | 0 <= r < g.OutputRows()
      ensures GradRowTerms(g, a, d, f, ch, kr, kc)(r) == 0.0
    {
      forall c | 0 <= c < g.OutputColumns()
        ensures GradColTerms(g, a, d, f, ch, kr, kc, r)(c) == 0.0
      {
        assert OAt(g, d, f, r, c) == 0.0;
      }
      SumZero(0, g.OutputColumns(), GradColTerms(g, a, d, f, ch, kr, kc, r));
    }
    SumZero(0, g.OutputRows(), GradRowTerms(g, a, d, f, ch, kr, kc));
  }

  lemma BiasGradientOfZero(g: Geometry, d: seq<real>, f: int)
    requires g.Valid() && AllZero(d)
    ensures BiasGradient(g, d, f) == 0.0
  {
    var ps := g.OutputRows() * g.OutputColumns();
    forall i | 0 <= i < ps
      ensures PlaneTerms(d, ps, f)(i) == 0.0
    {
      var j := f * ps + i;
      assert PlaneTerms(d, ps, f)(i) == At(d, j);
      if 0 <= j < |d| {
        assert d[j] == 0.0;
      }
    }
    SumZero(0, ps, PlaneTerms(d, ps, f));
  }

  /** A layer given zero delta passes zero error back. */
  lemma PassedOfZero(stages: seq<Stage>, acts: seq<seq<real>>, ds: seq<seq<real>>, target: seq<real>, l: nat)
    requires Fits(stages, acts, ds) && Linked(stages) && 1 <= l < |stages| && |target| == |acts[|stages| - 1]|
    requires AllZero(Delta(stages, acts, ds, target, l))
    ensures AllZero(Passed(stages, acts, ds, target, l))
  {
    var d := Delta(stages, acts, ds, target, l);
    var e := Passed(stages, acts, ds, target, l);
    match stages[l]
    case Dense(w, _, n, m, _, mask) =>
      forall j | 0 <= j < |e|
        ensures e[j] == 0.0
      {
        PartialErrorOfZero(w, n, d, mask, j, m);
      }
    case Convolution(g, w, _, _) =>
      forall k | 0 <= k < |e|
        ensures e[k] == 0.0
      {
        BackwardCellOfZero(g, w, d, PlaneOf(k, g.rows, g.columns), RowIn(k, g.rows, g.columns), ColumnIn(k, g.columns));
      }
    case Pooling(_, _, _) =>
  }

  /** When the output layer's activations equal the target, every layer's delta is zero. */
  lemma {:induction false} DeltaZeroOnTarget(stages: seq<Stage>, acts: seq<seq<real>>, ds: seq<seq<real>>, target: seq<real>, l: nat)
    requires Fits(stages, acts, ds) && Linked(stages) && l < |stages| && acts[|stages| - 1] == target
    ensures AllZero(Delta(stages, acts, ds, target, l))
    decreases |stages| - l
  {
    var e := Incoming(stages, acts, ds, target, l);
    if l == |stages| - 1 {
      assert AllZero(e);
    } else {
      DeltaZeroOnTarget(stages, acts, ds, target, l + 1);
      PassedOfZero(stages, acts, ds, target, l + 1);
      assert AllZero(e);
    }
  }

  /** Zero delta leaves a layer's accumulators as they were. */
  lemma StepOfZero(st: Stage, nabla: Nabla, delta: seq<real>, prev: seq<real>)
    requires st.Shaped() && NablaFits(st, nabla) && AllZero(delta)
    ensures GradientStep(st, nabla, delta, prev) == nabla
  {
    var r := GradientStep(st, nabla, delta, prev);
    match st
    case Dense(_, _, _, _, _, mask) =>
      assert r.w == nabla.w;
      assert r.b == nabla.b;
    case Convolution(g, _, _, _) =>
      forall k | 0 <= k < |nabla.w|
        ensures r.w[k] == nabla.w[k]
      {
        WeightGradientsFromAt(g, prev, delta, 0, k);
        var q := PlaneOf(k, g.filterSize, g.filterSize);
        WeightGradientOfZero(g, prev, delta, RowOf(q, g.channels), ColumnOf(q, g.channels), RowIn(k, g.filterSize, g.filterSize), ColumnIn(k, g.filterSize));
      }
      forall f | 0 <= f < |nabla.b|
        ensures r.b[f] == nabla.b[f]
      {
        BiasGradientOfZero(g, delta, f);
      }
    case Pooling(_, _, _) =>
  }

  /** An example the network already classifies exactly (output equals target) changes no gradient. */
  lemma OnTargetLeavesGradients(stages: seq<Stage>, exp: real -> real, x: seq<real>, target: seq<real>, nablas: seq<Nabla>)
    requires Chained(stages, |x|) && stages[0].IsWeighted() && AllAdmit(stages, exp)
    requires |target| == stages[|stages| - 1].OutputSize() && AllNablasFit(stages, nablas)
    requires ForwardPass(stages, exp, x, Corrected).acts[|stages| - 1] == target
    ensures BackPropagate(stages, exp, x, target, nablas) == nablas
  {
    var p := ForwardPass(stages, exp, x, Corrected);
    var r := BackPropagate(stages, exp, x, target, nablas);
    forall l | 0 <= l < |stages|
      ensures r[l] == nablas[l]
    {
      DeltaZeroOnTarget(stages, p.acts, p.ds, target, l);
      StepOfZero(stages[l], nablas[l], Delta(stages, p.acts, p.ds, target, l), Input(x, p.acts, l));
    }
  }

  // ---------------------------------------------------------------------------
  // Dropout.

  /** A neuron dropped for this example adds nothing to its bias or to its row of weight gradients. */
  lemma DroppedNeuronKeepsGradients(st: Stage, nabla: Nabla, delta: seq<real>, prev: seq<real>, r: nat)
    requires st.Dense? && NablaFits(st, nabla) && |prev| == st.inputs
    requires r < st.neurons && !FullyConnected.Kept(st.mask, r)
    ensures var after := GradientStep(st, nabla, delta, prev);
      var n := |prev|;
      r * n + n <= |nabla.w| && after.b[r] == nabla.b[r] &&
      forall k | r * n <= k < r * n + n :: after.w[k] == nabla.w[k]
  {
    MulMonotone(r + 1, st.neurons, |prev|);
    FullyConnected.DroppedRowUnchanged(nabla.w, delta, prev, st.mask, r, st.neurons);
  }

  // ---------------------------------------------------------------------------
  // A weighted layer without an activation function.

  /** Treated as the identity, such a layer passes its incoming error through unscaled. */
  lemma IdentityPassesErrorThrough(stages: seq<Stage>, exp: real -> real, x: seq<real>, target: seq<real>, l: nat)
    requires AllShaped(stages) && Linked(stages) && AllAdmit(stages, exp) && |stages| >= 1
    requires |target| == stages[|stages| - 1].OutputSize()
    requires l < |stages| && stages[l].IsWeighted() && stages[l].af.None?
    ensures var p := ForwardPass(stages, exp, x, Corrected);
      Delta(stages, p.acts, p.ds, target, l) == Incoming(stages, p.acts, p.ds, target, l)
  {
    var p := ForwardPass(stages, exp, x, Corrected);
    ForwardPassChains(stages, exp, x, Corrected, l);
    var e := Incoming(stages, p.acts, p.ds, target, l);
    TimesOnes(e);
  }

  lemma TimesOnes(e: seq<real>)
    ensures Combine(Times, e, Ones(|e|)) == e
  {
    assert forall i | 0 <= i < |e| :: Combine(Times, e, Ones(|e|))[i] == e[i];
  }

  /** As written, such a layer scales its incoming error by its own output instead. */
  lemma AsWrittenScalesErrorByOutput(stages: seq<Stage>, exp: real -> real, x: seq<real>, target: seq<real>, l: nat)
    requires AllShaped(stages) && Linked(stages) && AllAdmit(stages, exp) && |stages| >= 1
    requires |target| == stages[|stages| - 1].OutputSize()
    requires l < |stages| && stages[l].IsWeighted() && stages[l].af.None?
    ensures var p := ForwardPass(stages, exp, x, AsWritten);
      Delta(stages, p.acts, p.ds, target, l) == Combine(Times, Incoming(stages, p.acts, p.ds, target, l), p.acts[l])
  {
    var p := ForwardPass(stages, exp, x, AsWritten);
    ForwardPassChains(stages, exp, x, AsWritten, l);
    assert p.ds[l] == p.acts[l];
  }

  /** The two rules record the same derivatives when every weighted layer has an activation function. */
  lemma {:induction false} RulesAgreeWithActivations(stages: seq<Stage>, exp: real -> real, x: seq<real>)
    requires AllShaped(stages) && AllAdmit(stages, exp)
    requires forall l | 0 <= l < |stages| :: stages[l].IsWeighted() ==> stages[l].af.Some?
    ensures ForwardPass(stages, exp, x, AsWritten) == ForwardPass(stages, exp, x, Corrected)
    decreases |stages|
  {
    if |stages| > 0 {
      var a := Activated(stages[0], exp, Raw(stages[0], x));
      RulesAgreeWithActivations(stages[1..], exp, a);
    }
  }

  /**
   * One neuron without activation, weight 1, bias 0, fed 2 with target 0: the
   * output error is 2, so the bias gradient is 2; as written it is 2 · 2 = 4.
   */
  lemma MissingActivationDoublesGradient()
    ensures var stages := [Dense([1.0], [0.0], 1, 1, None, None)];
      var nablas := [Nabla([0.0], [0.0])];
      var exp := (t: real) => 1.0;
      BackPropagate(stages, exp, [2.0], [0.0], nablas)[0].b == [2.0] &&
      BackPropagateAsWritten(stages, exp, [2.0], [0.0], nablas)[0].b == [4.0]
  {
    var stages := [Dense([1.0], [0.0], 1, 1, None, None)];
    var nablas := [Nabla([0.0], [0.0])];
    var exp := (t: real) => 1.0;
    assert FullyConnected.PartialInput([1.0], 1, [2.0], 0, 1) == 2.0 by {
      FullyConnected.PartialInputStep([1.0], 1, [2.0], 0, 0);
    }
    var z := Raw(stages[0], [2.0]);
    assert z == [2.0];
    forall rule: Rule
      ensures ForwardPass(stages, exp, [2.0], rule).acts == [z]
      ensures ForwardPass(stages, exp, [2.0], rule).ds == [DerivativeOf(rule, stages[0], exp, z)]
    {
      ForwardPassChains(stages, exp, [2.0], rule, 0);
    }
    var good := ForwardPass(stages, exp, [2.0], Corrected);
    assert Delta(stages, good.acts, good.ds, [0.0], 0) == [2.0];
    var bad := ForwardPass(stages, exp, [2.0], AsWritten);
    assert Delta(stages, bad.acts, bad.ds, [0.0], 0) == [4.0];
  }
}
