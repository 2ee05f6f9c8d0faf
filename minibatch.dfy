/**
 * What one trainer computes for its share of a mini-batch
 * (FeedForwardTrainer::TrainOnMiniBatch): it zeroes its gradient accumulators,
 * then back-propagates every example of the share into them, in order. Since
 * back-propagation only adds to the accumulators, the workers' gradients over
 * consecutive shares sum to what one trainer would accumulate over the whole
 * mini-batch, and the serial step of TrainForOneEpoch that applies them is one
 * step with the mini-batch's gradient, however the examples were shared out.
 */
module MiniBatches {
  import opened Tensors
  import opened Weighted
  import opened ConvolutionSpec
  import opened Backpropagation
  import FullyConnected
  import Partitions

  /** One example as a trainer meets it: the layers with the dropout masks drawn for it, its inputs and its one-hot target. */
  datatype Sample = Sample(stages: seq<Stage>, x: seq<real>, target: seq<real>)

  /** The example can be back-propagated through its layers. */
  ghost predicate Ready(s: Sample, exp: real -> real)
  {
    && Chained(s.stages, |s.x|)
    && s.stages[0].IsWeighted()
    && AllAdmit(s.stages, exp)
    && |s.target| == s.stages[|s.stages| - 1].OutputSize()
  }

  // ---------------------------------------------------------------------------
  // Accumulators.

  /** A layer's accumulators after SetAllToZero: every gradient 0; a pooling layer has none. */
  function ZeroNabla(st: Stage): (n: Nabla)
    requires st.Shaped()
    ensures NablaFits(st, n) && AllZero(n.w) && AllZero(n.b)
    ensures !st.IsWeighted() ==> n == Nabla([], [])
  {
    match st
    case Dense(_, _, inputs, neurons, _, _) => Nabla(seq(neurons * inputs, _ => 0.0), seq(neurons, _ => 0.0))
    case Convolution(g, _, _, _) => Nabla(seq(g.WeightCount(), _ => 0.0), seq(g.filters, _ => 0.0))
    case Pooling(_, _, _) => Nabla([], [])
  }

  function ZeroNablas(stages: seq<Stage>): (r: seq<Nabla>)
    requires AllShaped(stages)
    ensures AllNablasFit(stages, r) && Zero(r)
  {
    seq(|stages|, l requires 0 <= l < |stages| => ZeroNabla(stages[l]))
  }

  predicate Zero(nablas: seq<Nabla>)
  {
    forall l | 0 <= l < |nablas| :: AllZero(nablas[l].w) && AllZero(nablas[l].b)
  }

  /** Layer by layer, the two hold gradients of the same sizes. */
  predicate Like(a: seq<Nabla>, b: seq<Nabla>)
  {
    |a| == |b| && forall l | 0 <= l < |a| :: |a[l].w| == |b[l].w| && |a[l].b| == |b[l].b|
  }

  function Add(a: Nabla, b: Nabla): Nabla
    requires |a.w| == |b.w| && |a.b| == |b.b|
  {
    Nabla(Combine(Plus, a.w, b.w), Combine(Plus, a.b, b.b))
  }

  /** Two sets of accumulators summed layer by layer, element by element. */
  function AddAll(a: seq<Nabla>, b: seq<Nabla>): (r: seq<Nabla>)
    requires Like(a, b)
    ensures Like(r, a)
  {
    seq(|a|, l requires 0 <= l < |a| => Add(a[l], b[l]))
  }

  /** Accumulators shaped like the zeroed ones are exactly those that fit the layers and hold nothing for a pooling layer. */
  lemma FitsLike(stages: seq<Stage>, nablas: seq<Nabla>)
    requires AllShaped(stages)
    ensures Like(nablas, ZeroNablas(stages)) <==>
      AllNablasFit(stages, nablas) && forall l | 0 <= l < |stages| :: !stages[l].IsWeighted() ==> nablas[l] == Nabla([], [])
  {
    var z := ZeroNablas(stages);
    if Like(nablas, z) {
      forall l | 0 <= l < |stages|
        ensures NablaFits(stages[l], nablas[l]) && (!stages[l].IsWeighted() ==> nablas[l] == Nabla([], []))
      {
        assert z[l] == ZeroNabla(stages[l]);
      }
    }
    if AllNablasFit(stages, nablas) && forall l | 0 <= l < |stages| :: !stages[l].IsWeighted() ==> nablas[l] == Nabla([], []) {
      forall l | 0 <= l < |stages|
        ensures |nablas[l].w| == |z[l].w| && |nablas[l].b| == |z[l].b|
      {
        assert z[l] == ZeroNabla(stages[l]);
      }
    }
  }

  lemma CombineAssociates(a: seq<real>, b: seq<real>, c: seq<real>)
    requires |a| == |b| == |c|
    ensures Combine(Plus, Combine(Plus, a, b), c) == Combine(Plus, a, Combine(Plus, b, c))
  {
  }

  lemma AddAllAssociates(a: seq<Nabla>, b: seq<Nabla>, c: seq<Nabla>)
    requires Like(a, b) && Like(b, c)
    ensures Like(AddAll(b, c), a)
    ensures AddAll(AddAll(a, b), c) == AddAll(a, AddAll(b, c))
  {
    forall l | 0 <= l < |a|
      ensures AddAll(AddAll(a, b), c)[l] == AddAll(a, AddAll(b, c))[l]
    {
      CombineAssociates(a[l].w, b[l].w, c[l].w);
      CombineAssociates(a[l].b, b[l].b, c[l].b);
    }
  }

  lemma AddZero(a: seq<Nabla>, z: seq<Nabla>)
    requires Like(a, z) && Zero(z)
    ensures AddAll(a, z) == a
  {
    forall l | 0 <= l < |a|
      ensures AddAll(a, z)[l] == a[l]
    {
      assert Combine(Plus, a[l].w, z[l].w) == a[l].w;
      assert Combine(Plus, a[l].b, z[l].b) == a[l].b;
    }
  }

  // ---------------------------------------------------------------------------
  // Back-propagation only adds.

  /** One layer's gradient step adds to the accumulators what it would add to zeroed ones. */
  lemma GradientStepAdds(st: Stage, nabla: Nabla, delta: seq<real>, prev: seq<real>)
    requires st.Shaped() && NablaFits(st, nabla) && (!st.IsWeighted() ==> nabla == Nabla([], []))
    ensures |nabla.w| == |GradientStep(st, ZeroNabla(st), delta, prev).w|
    ensures |nabla.b| == |GradientStep(st, ZeroNabla(st), delta, prev).b|
    ensures GradientStep(st, nabla, delta, prev) == Add(nabla, GradientStep(st, ZeroNabla(st), delta, prev))
  {
    var z := ZeroNabla(st);
    match st
    case Dense(_, _, _, _, _, mask) =>
      var w := FullyConnected.AccumulateWeights(z.w, delta, prev, mask);
      var b := FullyConnected.AccumulateBiases(z.b, delta, mask);
      assert FullyConnected.AccumulateWeights(nabla.w, delta, prev, mask) == Combine(Plus, nabla.w, w);
      assert FullyConnected.AccumulateBiases(nabla.b, delta, mask) == Combine(Plus, nabla.b, b);
    case Convolution(g, _, _, _) =>
      var w := WeightGradients(g, prev, delta);
      var b := seq(g.filters, f => BiasGradient(g, delta, f));
      assert Combine(Plus, z.w, w) == w;
      assert Combine(Plus, z.b, b) == b;
    case Pooling(_, _, _) =>
      assert Add(nabla, z) == nabla;
  }

  /** Back-propagating one example leaves the accumulators' sizes as they were. */
  lemma PropagateKeepsShape(s: Sample, exp: real -> real, nablas: seq<Nabla>, rule: Rule)
    requires Ready(s, exp) && Like(nablas, ZeroNablas(s.stages))
    ensures AllNablasFit(s.stages, nablas)
    ensures Like(Propagate(s.stages, exp, s.x, s.target, nablas, rule), ZeroNablas(s.stages))
  {
    FitsLike(s.stages, nablas);
    FitsLike(s.stages, Propagate(s.stages, exp, s.x, s.target, nablas, rule));
  }

  /** Back-propagating one example adds to the accumulators what it would add to zeroed ones. */
  lemma PropagateAdds(s: Sample, exp: real -> real, nablas: seq<Nabla>, rule: Rule)
    requires Ready(s, exp) && Like(nablas, ZeroNablas(s.stages))
    ensures AllNablasFit(s.stages, nablas)
    ensures Like(Propagate(s.stages, exp, s.x, s.target, nablas, rule), nablas)
    ensures Like(Propagate(s.stages, exp, s.x, s.target, ZeroNablas(s.stages), rule), nablas)
    ensures Propagate(s.stages, exp, s.x, s.target, nablas, rule) ==
      AddAll(nablas, Propagate(s.stages, exp, s.x, s.target, ZeroNablas(s.stages), rule))
  {
    var st := s.stages;
    var z := ZeroNablas(st);
    FitsLike(st, nablas);
    var p := ForwardPass(st, exp, s.x, rule);
    var pn := Propagate(st, exp, s.x, s.target, nablas, rule);
    var pz := Propagate(st, exp, s.x, s.target, z, rule);
    FitsLike(st, pn);
    FitsLike(st, pz);
    forall l | 0 <= l < |st|
      ensures pn[l] == Add(nablas[l], pz[l])
    {
      assert z[l] == ZeroNabla(st[l]);
      GradientStepAdds(st[l], nablas[l], Delta(st, p.acts, p.ds, s.target, l), Input(s.x, p.acts, l));
    }
  }

  // ---------------------------------------------------------------------------
  // A trainer's mini-batch.

  /** Every sample can be back-propagated, and every sample's layers zero to `zero`: the same network, only the masks differ. */
  ghost predicate Batch(samples: seq<Sample>, exp: real -> real, zero: seq<Nabla>)
    decreases |samples|
  {
    samples != [] ==>
      && Ready(samples[0], exp)
      && ZeroNablas(samples[0].stages) == zero
      && Batch(samples[1..], exp, zero)
  }

  /** A run of a batch is a batch. */
  lemma {:induction false} BatchRun(samples: seq<Sample>, exp: real -> real, zero: seq<Nabla>, i: nat, j: nat)
    requires Batch(samples, exp, zero) && i <= j <= |samples|
    ensures Batch(samples[i..j], exp, zero)
    decreases |samples|
  {
    if i > 0 {
      assert samples[1..][i - 1..j - 1] == samples[i..j];
      BatchRun(samples[1..], exp, zero, i - 1, j - 1);
    } else if j > 0 {
      assert samples[..j][1..] == samples[1..][..j - 1];
      BatchRun(samples[1..], exp, zero, 0, j - 1);
    }
  }

  /** Two batches one after the other are a batch. */
  lemma {:induction false} BatchConcat(a: seq<Sample>, b: seq<Sample>, exp: real -> real, zero: seq<Nabla>)
    requires Batch(a, exp, zero) && Batch(b, exp, zero)
    ensures Batch(a + b, exp, zero)
    decreases |a|
  {
    if a == [] {
      assert a + b == b;
    } else {
      assert (a + b)[0] == a[0] && (a + b)[1..] == a[1..] + b;
      BatchConcat(a[1..], b, exp, zero);
    }
  }

  /** The accumulators after back-propagating the samples, in order, starting from `nablas` (shaped like `zero`). */
  function Train(samples: seq<Sample>, exp: real -> real, rule: Rule, zero: seq<Nabla>, nablas: seq<Nabla>): (r: seq<Nabla>)
    requires Batch(samples, exp, zero) && Like(nablas, zero)
    ensures Like(r, zero)
    decreases |samples|
  {
    if samples == [] then nablas
    else
      var s := samples[0];
      PropagateKeepsShape(s, exp, nablas, rule);
      Train(samples[1..], exp, rule, zero, Propagate(s.stages, exp, s.x, s.target, nablas, rule))
  }

  /** A trainer's accumulators after the examples of one share, starting from `zero`. */
  function Trained(samples: seq<Sample>, exp: real -> real, rule: Rule, zero: seq<Nabla>, i: nat, j: nat): (r: seq<Nabla>)
    requires Batch(samples, exp, zero) && i <= j <= |samples|
    ensures Like(r, zero)
  {
    BatchRun(samples, exp, zero, i, j);
    Train(samples[i..j], exp, rule, zero, zero)
  }

  lemma TrainedRun(samples: seq<Sample>, exp: real -> real, rule: Rule, zero: seq<Nabla>, i: nat, j: nat)
    requires Batch(samples, exp, zero) && i <= j <= |samples|
    ensures Batch(samples[i..j], exp, zero)
    ensures Trained(samples, exp, rule, zero, i, j) == Train(samples[i..j], exp, rule, zero, zero)
  {
    BatchRun(samples, exp, zero, i, j);
  }

  /** No example back-propagated leaves the accumulators zeroed. */
  lemma TrainedNone(samples: seq<Sample>, exp: real -> real, rule: Rule, zero: seq<Nabla>, i: nat)
    requires Batch(samples, exp, zero) && i <= |samples|
    ensures Trained(samples, exp, rule, zero, i, i) == zero
  {
    var none: seq<Sample> := [];
    assert samples[i..i] == none;
    assert Batch(none, exp, zero) && Train(none, exp, rule, zero, zero) == zero;
    TrainedRun(samples, exp, rule, zero, i, i);
  }

  /** Extending a run by one example back-propagates that example into what the run accumulated. */
  lemma TrainedNext(samples: seq<Sample>, exp: real -> real, rule: Rule, zero: seq<Nabla>, i: nat, j: nat)
    requires Batch(samples, exp, zero) && i <= j < |samples|
    ensures Ready(samples[j], exp) && AllNablasFit(samples[j].stages, Trained(samples, exp, rule, zero, i, j))
    ensures Trained(samples, exp, rule, zero, i, j + 1) ==
      Propagate(samples[j].stages, exp, samples[j].x, samples[j].target, Trained(samples, exp, rule, zero, i, j), rule)
  {
    var acc := Trained(samples, exp, rule, zero, i, j);
    var last := samples[j..j + 1];
    TrainedRun(samples, exp, rule, zero, i, j);
    BatchRun(samples, exp, zero, j, j + 1);
    TrainedRun(samples, exp, rule, zero, i, j + 1);
    RunSplits(samples, i, j, j + 1);
    TrainConcat(samples[i..j], last, exp, rule, zero, zero);
    assert last[0] == samples[j] && last[1..] == [];
    PropagateKeepsShape(samples[j], exp, acc, rule);
  }

  /**
   * TrainOnMiniBatch: the accumulators are zeroed, then every example of the
   * share is back-propagated into them.
   */
  method TrainOnMiniBatch(samples: seq<Sample>, exp: real -> real, rule: Rule, layers: seq<Stage>, share: Partitions.Slice)
    returns (nablas: seq<Nabla>)
    requires AllShaped(layers) && Batch(samples, exp, ZeroNablas(layers)) && share.End() <= |samples|
    ensures nablas == Trained(samples, exp, rule, ZeroNablas(layers), share.start, share.End())
  {
    ghost var zero := ZeroNablas(layers);
    nablas := ZeroNablas(layers);
    var i := share.start;
    TrainedNone(samples, exp, rule, zero, i);
    while i != share.End()
      invariant share.start <= i <= share.End()
      invariant nablas == Trained(samples, exp, rule, zero, share.start, i)
      decreases share.End() - i
    {
      var s := samples[i];
      TrainedNext(samples, exp, rule, zero, share.start, i);
      nablas := Propagate(s.stages, exp, s.x, s.target, nablas, rule);
      i := i + 1;
    }
  }

  /** Back-propagating from accumulators that already hold `nablas` ends with `nablas` plus what it accumulates from zero. */
  lemma {:induction false} TrainAdds(samples: seq<Sample>, exp: real -> real, rule: Rule, zero: seq<Nabla>, nablas: seq<Nabla>)
    requires Batch(samples, exp, zero) && Zero(zero) && Like(nablas, zero)
    ensures Like(nablas, Train(samples, exp, rule, zero, zero))
    ensures Train(samples, exp, rule, zero, nablas) == AddAll(nablas, Train(samples, exp, rule, zero, zero))
    decreases |samples|
  {
    if samples == [] {
      AddZero(nablas, zero);
    } else {
      var s := samples[0];
      var rest := samples[1..];
      PropagateAdds(s, exp, nablas, rule);
      PropagateKeepsShape(s, exp, nablas, rule);
      PropagateKeepsShape(s, exp, zero, rule);
      var pn := Propagate(s.stages, exp, s.x, s.target, nablas, rule);
      var pz := Propagate(s.stages, exp, s.x, s.target, zero, rule);
      TrainAdds(rest, exp, rule, zero, pn);
      TrainAdds(rest, exp, rule, zero, pz);
      AddAllAssociates(nablas, pz, Train(rest, exp, rule, zero, zero));
    }
  }

  /** Back-propagating two runs of samples one after the other is back-propagating their concatenation. */
  lemma {:induction false} TrainConcat(a: seq<Sample>, b: seq<Sample>, exp: real -> real, rule: Rule, zero: seq<Nabla>, nablas: seq<Nabla>)
    requires Batch(a, exp, zero) && Batch(b, exp, zero) && Like(nablas, zero)
    ensures Batch(a + b, exp, zero)
    ensures Train(a + b, exp, rule, zero, nablas) == Train(b, exp, rule, zero, Train(a, exp, rule, zero, nablas))
    decreases |a|
  {
    BatchConcat(a, b, exp, zero);
    if a == [] {
      assert a + b == b;
    } else {
      var s := a[0];
      assert (a + b)[0] == s && (a + b)[1..] == a[1..] + b;
      PropagateKeepsShape(s, exp, nablas, rule);
      TrainConcat(a[1..], b, exp, rule, zero, Propagate(s.stages, exp, s.x, s.target, nablas, rule));
    }
  }

  // ---------------------------------------------------------------------------
  // The workers of one mini-batch.

  /** Every worker's accumulators are shaped like `zero`. */
  predicate AllLike(parts: seq<seq<Nabla>>, zero: seq<Nabla>)
  {
    forall k | 0 <= k < |parts| :: |parts[k]| == |zero| && Like(parts[k], zero)
  }

  /** Each worker's accumulators after its share, starting from zero. */
  function Shares(samples: seq<Sample>, exp: real -> real, rule: Rule, zero: seq<Nabla>,
                  slices: seq<Partitions.Slice>, begin: nat, end: nat): (r: seq<seq<Nabla>>)
    requires Batch(samples, exp, zero) && Partitions.Consecutive(slices, begin, end) && end <= |samples|
    ensures |r| == |slices| && AllLike(r, zero)
  {
    Partitions.ConsecutiveWithin(slices, begin, end);
    seq(|slices|, k requires 0 <= k < |slices| => Trained(samples, exp, rule, zero, slices[k].start, slices[k].End()))
  }

  /** Layer l's weight gradients, one per worker. */
  function LayerWeights(parts: seq<seq<Nabla>>, zero: seq<Nabla>, l: nat): (r: seq<seq<real>>)
    requires l < |zero| && AllLike(parts, zero)
    ensures Partitions.Shaped(r, |zero[l].w|)
    ensures |r| == |parts| && forall k | 0 <= k < |r| :: r[k] == parts[k][l].w
  {
    seq(|parts|, k requires 0 <= k < |parts| => parts[k][l].w)
  }

  /** Layer l's bias gradients, one per worker. */
  function LayerBiases(parts: seq<seq<Nabla>>, zero: seq<Nabla>, l: nat): (r: seq<seq<real>>)
    requires l < |zero| && AllLike(parts, zero)
    ensures Partitions.Shaped(r, |zero[l].b|)
    ensures |r| == |parts| && forall k | 0 <= k < |r| :: r[k] == parts[k][l].b
  {
    seq(|parts|, k requires 0 <= k < |parts| => parts[k][l].b)
  }

  lemma RunSplits(samples: seq<Sample>, begin: nat, mid: nat, end: nat)
    requires begin <= mid <= end <= |samples|
    ensures samples[begin..end] == samples[begin..mid] + samples[mid..end]
  {
  }

  /** A trainer over a run of examples accumulates what two trainers over its two halves do together. */
  lemma TrainSplit(samples: seq<Sample>, exp: real -> real, rule: Rule, zero: seq<Nabla>, begin: nat, mid: nat, end: nat)
    requires Batch(samples, exp, zero) && Zero(zero) && begin <= mid <= end <= |samples|
    ensures Trained(samples, exp, rule, zero, begin, end) ==
      AddAll(Trained(samples, exp, rule, zero, begin, mid), Trained(samples, exp, rule, zero, mid, end))
  {
    var front := samples[begin..mid];
    var back := samples[mid..end];
    TrainedRun(samples, exp, rule, zero, begin, mid);
    TrainedRun(samples, exp, rule, zero, mid, end);
    TrainedRun(samples, exp, rule, zero, begin, end);
    RunSplits(samples, begin, mid, end);
    TrainConcat(front, back, exp, rule, zero, zero);
    TrainAdds(back, exp, rule, zero, Train(front, exp, rule, zero, zero));
  }

  /** The workers' accumulators summed, layer by layer (zero when there are none). */
  function SumAll(parts: seq<seq<Nabla>>, zero: seq<Nabla>): (r: seq<Nabla>)
    requires AllLike(parts, zero)
    ensures Like(r, zero)
    decreases |parts|
  {
    if parts == [] then zero
    else
      assert AllLike(parts[1..], zero) by {
        assert forall k | 0 <= k < |parts| - 1 :: parts[1..][k] == parts[k + 1];
      }
      AddAll(parts[0], SumAll(parts[1..], zero))
  }

  lemma SumAllFront(parts: seq<seq<Nabla>>, zero: seq<Nabla>)
    requires AllLike(parts, zero) && parts != []
    ensures AllLike(parts[1..], zero) && Like(parts[0], SumAll(parts[1..], zero))
    ensures SumAll(parts, zero) == AddAll(parts[0], SumAll(parts[1..], zero))
  {
    assert forall k | 0 <= k < |parts| - 1 :: parts[1..][k] == parts[k + 1];
  }

  /** Summing layer l's gradients of the workers is taking layer l of their summed accumulators. */
  lemma {:induction false} LayerSums(parts: seq<seq<Nabla>>, zero: seq<Nabla>, l: nat)
    requires AllLike(parts, zero) && Zero(zero) && l < |zero|
    ensures Partitions.GradientSum(LayerWeights(parts, zero, l), |zero[l].w|) == SumAll(parts, zero)[l].w
    ensures Partitions.GradientSum(LayerBiases(parts, zero, l), |zero[l].b|) == SumAll(parts, zero)[l].b
    decreases |parts|
  {
    if parts == [] {
      assert Partitions.GradientSum([], |zero[l].w|) == zero[l].w;
      assert Partitions.GradientSum([], |zero[l].b|) == zero[l].b;
    } else {
      LayersFront(parts, zero, l);
      LayerSums(parts[1..], zero, l);
    }
  }

  /** The workers' accumulators over consecutive shares sum to what one trainer accumulates over all of their examples. */
  lemma {:induction false} SharesSum(samples: seq<Sample>, exp: real -> real, rule: Rule, zero: seq<Nabla>,
                                     slices: seq<Partitions.Slice>, begin: nat, end: nat)
    requires Batch(samples, exp, zero) && Zero(zero)
    requires Partitions.Consecutive(slices, begin, end) && begin <= end <= |samples|
    ensures SumAll(Shares(samples, exp, rule, zero, slices, begin, end), zero) ==
      Trained(samples, exp, rule, zero, begin, end)
    decreases |slices|
  {
    if slices == [] {
      TrainedRun(samples, exp, rule, zero, begin, begin);
      assert samples[begin..begin] == [];
    } else {
      var mid := slices[0].End();
      SharesFront(samples, exp, rule, zero, slices, begin, end);
      var parts := Shares(samples, exp, rule, zero, slices, begin, end);
      SumAllFront(parts, zero);
      SharesSum(samples, exp, rule, zero, slices[1..], mid, end);
      TrainSplit(samples, exp, rule, zero, begin, mid, end);
    }
  }

  /**
   * The workers' gradients over consecutive shares sum, layer by layer, to
   * the gradients one trainer accumulates over all of their examples.
   */
  lemma SharesSumToBatch(samples: seq<Sample>, exp: real -> real, rule: Rule, zero: seq<Nabla>,
                         slices: seq<Partitions.Slice>, begin: nat, end: nat, l: nat)
    requires Batch(samples, exp, zero) && Zero(zero) && l < |zero|
    requires Partitions.Consecutive(slices, begin, end) && begin <= end <= |samples|
    ensures Partitions.GradientSum(LayerWeights(Shares(samples, exp, rule, zero, slices, begin, end), zero, l), |zero[l].w|) ==
      Trained(samples, exp, rule, zero, begin, end)[l].w
    ensures Partitions.GradientSum(LayerBiases(Shares(samples, exp, rule, zero, slices, begin, end), zero, l), |zero[l].b|) ==
      Trained(samples, exp, rule, zero, begin, end)[l].b
  {
    LayerSums(Shares(samples, exp, rule, zero, slices, begin, end), zero, l);
    SharesSum(samples, exp, rule, zero, slices, begin, end);
  }

  /** The first worker trains on the first slice, the rest on the rest. */
  lemma SharesFront(samples: seq<Sample>, exp: real -> real, rule: Rule, zero: seq<Nabla>,
                    slices: seq<Partitions.Slice>, begin: nat, end: nat)
    requires Batch(samples, exp, zero) && Partitions.Consecutive(slices, begin, end) && end <= |samples| && slices != []
    ensures Partitions.Consecutive(slices[1..], slices[0].End(), end) && slices[0].End() <= end
    ensures Shares(samples, exp, rule, zero, slices, begin, end)[0] == Trained(samples, exp, rule, zero, begin, slices[0].End())
    ensures Shares(samples, exp, rule, zero, slices, begin, end)[1..] == Shares(samples, exp, rule, zero, slices[1..], slices[0].End(), end)
  {
    Partitions.ConsecutiveWithin(slices, begin, end);
    Partitions.ConsecutiveRest(slices, begin, end);
  }

  /** Taking layer l of every worker commutes with dropping the first worker. */
  lemma LayersFront(parts: seq<seq<Nabla>>, zero: seq<Nabla>, l: nat)
    requires l < |zero| && AllLike(parts, zero) && parts != []
    ensures AllLike(parts[1..], zero)
    ensures LayerWeights(parts, zero, l)[1..] == LayerWeights(parts[1..], zero, l)
    ensures LayerBiases(parts, zero, l)[1..] == LayerBiases(parts[1..], zero, l)
  {
    assert forall k | 0 <= k < |parts| - 1 :: parts[1..][k] == parts[k + 1];
  }

  /**
   * After a mini-batch, stepping in the gradients of every worker, one after
   * another, is one step with the gradients of the whole mini-batch: the way
   * the examples are shared out does not change the new weights or biases.
   * The applied shares of ShareMiniBatch are consecutive over the mini-batch
   * (AppliedCoverMiniBatch), so this holds for them.
   */
  lemma SharesStepIsBatchStep(samples: seq<Sample>, exp: real -> real, rule: Rule, zero: seq<Nabla>,
                              slices: seq<Partitions.Slice>, begin: nat, end: nat, l: nat,
                              weights: seq<real>, biases: seq<real>, scalar: real)
    requires Batch(samples, exp, zero) && Zero(zero) && l < |zero| && begin <= end <= |samples|
    requires |weights| == |zero[l].w| && |biases| == |zero[l].b|
    requires Partitions.Consecutive(slices, begin, end)
    ensures Partitions.Steps(weights, LayerWeights(Shares(samples, exp, rule, zero, slices, begin, end), zero, l), scalar) ==
      Step(weights, Trained(samples, exp, rule, zero, begin, end)[l].w, scalar)
    ensures Partitions.Steps(biases, LayerBiases(Shares(samples, exp, rule, zero, slices, begin, end), zero, l), scalar) ==
      Step(biases, Trained(samples, exp, rule, zero, begin, end)[l].b, scalar)
  {
    var parts := Shares(samples, exp, rule, zero, slices, begin, end);
    SharesSumToBatch(samples, exp, rule, zero, slices, begin, end, l);
    Partitions.StepsAreOneStep(weights, LayerWeights(parts, zero, l), scalar);
    Partitions.StepsAreOneStep(biases, LayerBiases(parts, zero, l), scalar);
  }
}
