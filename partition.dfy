/**
 * How FeedForwardNetwork splits work between its threads, and the serial
 * step that combines the workers' gradients. An epoch is cut into mini-batches
 * (the last one shortened to what remains); each mini-batch is cut into one
 * share per background trainer and one for the foreground trainer, the first
 * `size mod T` background shares one larger than the rest. The threads
 * themselves are not modelled: only the slices of the example list that each
 * worker is handed, and the order in which their gradients are applied.
 */
module Partitions {
  import opened Tensors
  import opened Weighted

  /** The `size` consecutive examples from index `start`. */
  datatype Slice = Slice(start: nat, size: nat)
  {
    function End(): nat
    {
      start + size
    }
  }

  /** The slices lie one right after another, the first at `begin`, the last ending at `end`. */
  predicate Consecutive(slices: seq<Slice>, begin: nat, end: nat)
  {
    (slices != [] ==> slices[0].start == begin) &&
    (forall k :: 0 < k < |slices| ==> slices[k].start == slices[k - 1].End()) &&
    end == if slices == [] then begin else slices[|slices| - 1].End()
  }

  function TotalSize(slices: seq<Slice>): nat
  {
    if slices == [] then 0 else TotalSize(slices[..|slices| - 1]) + slices[|slices| - 1].size
  }

  /** One more slice that starts where the others end. */
  lemma ConsecutiveAppend(slices: seq<Slice>, begin: nat, end: nat, s: Slice)
    requires Consecutive(slices, begin, end) && s.start == end
    ensures Consecutive(slices + [s], begin, s.End())
  {
    var t := slices + [s];
    forall k | 0 < k < |t|
      ensures t[k].start == t[k - 1].End()
    {
      assert t[k - 1] == slices[k - 1];
      if k < |slices| {
        assert t[k] == slices[k];
      }
    }
  }

  /** Without its last slice, the rest ends where the last one started. */
  lemma ConsecutiveFront(slices: seq<Slice>, begin: nat, end: nat)
    requires Consecutive(slices, begin, end) && slices != []
    ensures Consecutive(slices[..|slices| - 1], begin, slices[|slices| - 1].start)
  {
    var front := slices[..|slices| - 1];
    forall k | 0 < k < |front|
      ensures front[k].start == front[k - 1].End()
    {
      assert front[k] == slices[k] && front[k - 1] == slices[k - 1];
    }
  }

  /** Without its first slice, the rest starts where the first one ends. */
  lemma ConsecutiveRest(slices: seq<Slice>, begin: nat, end: nat)
    requires Consecutive(slices, begin, end) && slices != []
    ensures Consecutive(slices[1..], slices[0].End(), end)
  {
    var rest := slices[1..];
    forall k | 0 < k < |rest|
      ensures rest[k].start == rest[k - 1].End()
    {
      assert rest[k] == slices[k + 1] && rest[k - 1] == slices[k];
    }
  }

  /** Every slice of a consecutive run lies between its ends. */
  lemma ConsecutiveWithin(slices: seq<Slice>, begin: nat, end: nat)
    requires Consecutive(slices, begin, end)
    ensures forall k | 0 <= k < |slices| :: begin <= slices[k].start && slices[k].End() <= end
  {
    var last := |slices| - 1;
    forall k | 0 <= k < |slices|
      ensures begin <= slices[k].start && slices[k].End() <= end
    {
      if 0 < k {
        ConsecutiveOrdered(slices, begin, end, 0, k);
      }
      if k < last {
        ConsecutiveOrdered(slices, begin, end, k, last);
      }
    }
  }

  /** Consecutive slices span exactly as many examples as they hold. */
  lemma {:induction false} ConsecutiveSpan(slices: seq<Slice>, begin: nat, end: nat)
    requires Consecutive(slices, begin, end)
    ensures end == begin + TotalSize(slices)
    decreases |slices|
  {
    if slices != [] {
      ConsecutiveFront(slices, begin, end);
      ConsecutiveSpan(slices[..|slices| - 1], begin, slices[|slices| - 1].start);
    }
  }

  /** Of two consecutive slices, the earlier one ends before the later one starts. */
  lemma {:induction false} ConsecutiveOrdered(slices: seq<Slice>, begin: nat, end: nat, k: nat, k': nat)
    requires Consecutive(slices, begin, end) && k < k' < |slices|
    ensures slices[k].End() <= slices[k'].start
    decreases k' - k
  {
    if k + 1 < k' {
      ConsecutiveOrdered(slices, begin, end, k, k' - 1);
    }
  }

  /** Every example between `begin` and `end` lies in one of the slices (and, by ConsecutiveOrdered, in no other). */
  lemma {:induction false} ConsecutiveCovers(slices: seq<Slice>, begin: nat, end: nat, i: nat)
    requires Consecutive(slices, begin, end) && begin <= i < end
    ensures exists k :: 0 <= k < |slices| && slices[k].start <= i < slices[k].End()
    decreases |slices|
  {
    var last := |slices| - 1;
    if slices[last].start <= i {
      assert slices[last].start <= i < slices[last].End();
    } else {
      var front := slices[..last];
      ConsecutiveFront(slices, begin, end);
      ConsecutiveCovers(front, begin, slices[last].start, i);
      var k :| 0 <= k < |front| && front[k].start <= i < front[k].End();
      assert slices[k] == front[k];
    }
  }

  // ---------------------------------------------------------------------------
  // The shares of one batch.

  /** How many background trainers get part of a mini-batch of `size`: min(size, T − 1). */
  function BusyCount(size: nat, threadCount: nat): nat
    requires threadCount >= 1
  {
    if size < threadCount - 1 then size else threadCount - 1
  }

  /** The share of the k-th background worker: size / T, plus one for the first size mod T workers. */
  function ShareOf(size: nat, threadCount: nat, k: nat): nat
    requires threadCount >= 1
  {
    size / threadCount + if k < size % threadCount then 1 else 0
  }

  /** The examples handed to the first `t` background workers. */
  function SharesUpTo(size: nat, threadCount: nat, t: nat): nat
    requires threadCount >= 1
  {
    if t == 0 then 0 else SharesUpTo(size, threadCount, t - 1) + ShareOf(size, threadCount, t - 1)
  }

  /** The first `t` shares hold t·(size / T) examples, plus one for each of them below size mod T. */
  lemma {:induction false} SharesUpToClosed(size: nat, threadCount: nat, t: nat)
    requires threadCount >= 1
    ensures SharesUpTo(size, threadCount, t) ==
      t * (size / threadCount) + if t < size % threadCount then t else size % threadCount
  {
    if t > 0 {
      SharesUpToClosed(size, threadCount, t - 1);
    }
  }

  /**
   * The shares end where the mini-batch ends: either all T − 1 background
   * workers took a share, or the shares ran out after the remainder (when
   * size / T is zero); the foreground's size / T completes the batch.
   */
  lemma SharesAddUp(size: nat, threadCount: nat, t: nat)
    requires threadCount >= 1
    requires t == threadCount - 1 || (size / threadCount == 0 && t == size % threadCount)
    ensures SharesUpTo(size, threadCount, t) + size / threadCount == size
  {
    SharesUpToClosed(size, threadCount, t);
    var q, r := size / threadCount, size % threadCount;
    assert size == threadCount * q + r;
    if t == threadCount - 1 {
      assert t * q + q == threadCount * q;
    }
  }

  /** The share loop of TrainForOneEpoch stops after exactly min(size, T − 1) background workers. */
  lemma BusyWorkers(size: nat, threadCount: nat, t: nat)
    requires threadCount >= 1
    requires (t == threadCount - 1 && (size / threadCount > 0 || t <= size % threadCount)) ||
             (size / threadCount == 0 && t == size % threadCount)
    ensures t == BusyCount(size, threadCount)
  {
    var q, r := size / threadCount, size % threadCount;
    assert size == threadCount * q + r;
    if q > 0 {
      assert threadCount * q >= threadCount;
    }
  }

  /** What TrainForOneEpoch hands out for one mini-batch of `size` examples from `begin`. */
  predicate MiniBatchShares(background: seq<Slice>, foreground: Slice, begin: nat, size: nat, threadCount: nat)
    requires threadCount >= 1
  {
    |background| == BusyCount(size, threadCount) &&
    (forall k :: 0 <= k < |background| ==> background[k].size == ShareOf(size, threadCount, k) > 0) &&
    foreground.size == size / threadCount &&
    Consecutive(background + [foreground], begin, begin + size)
  }

  /**
   * The share loop of TrainForOneEpoch: each background trainer in turn gets
   * size / T examples, one more while the remainder lasts, and the loop stops
   * at the first trainer that would get none; the foreground trainer takes
   * size / T examples after them (it trains only when that is not zero).
   */
  method ShareMiniBatch(begin: nat, size: nat, threadCount: nat) returns (background: seq<Slice>, foreground: Slice)
    requires threadCount >= 1
    ensures MiniBatchShares(background, foreground, begin, size, threadCount)
  {
    var perThreadSize: nat := size / threadCount;
    var remainder: nat := size % threadCount;
    var next := begin;
    background := [];
    var t := 0;
    while t < threadCount - 1
      invariant 0 <= t <= threadCount - 1 && |background| == t
      invariant remainder == if t < size % threadCount then size % threadCount - t else 0
      invariant perThreadSize == 0 ==> t <= size % threadCount
      invariant next == begin + SharesUpTo(size, threadCount, t)
      invariant forall k :: 0 <= k < t ==> background[k].size == ShareOf(size, threadCount, k) > 0
      invariant Consecutive(background, begin, next)
    {
      var thisBatchSize: nat := perThreadSize;
      if remainder > 0 {
        thisBatchSize := thisBatchSize + 1;
        remainder := remainder - 1;
      } else if thisBatchSize == 0 {
        break;
      }
      ConsecutiveAppend(background, begin, next, Slice(next, thisBatchSize));
      background := background + [Slice(next, thisBatchSize)];
      next := next + thisBatchSize;
      t := t + 1;
    }
    foreground := Slice(next, perThreadSize);
    assert t == threadCount - 1 || (perThreadSize == 0 && t == size % threadCount);
    SharesAddUp(size, threadCount, t);
    BusyWorkers(size, threadCount, t);
    ConsecutiveAppend(background, begin, next, foreground);
  }

  /**
   * The share loop of Classify: all T − 1 background testers get a share, with
   * no early stop, and the foreground tester takes size / T after them.
   */
  method ShareTestSet(begin: nat, size: nat, threadCount: nat) returns (background: seq<Slice>, foreground: Slice)
    requires threadCount >= 1
    ensures |background| == threadCount - 1
    ensures forall k :: 0 <= k < |background| ==> background[k].size == ShareOf(size, threadCount, k)
    ensures foreground.size == size / threadCount
    ensures Consecutive(background + [foreground], begin, begin + size)
  {
    var perThreadSize: nat := size / threadCount;
    var remainder: nat := size % threadCount;
    var next := begin;
    background := [];
    var t := 0;
    while t < threadCount - 1
      invariant 0 <= t <= threadCount - 1 && |background| == t
      invariant remainder == if t < size % threadCount then size % threadCount - t else 0
      invariant next == begin + SharesUpTo(size, threadCount, t)
      invariant forall k :: 0 <= k < t ==> background[k].size == ShareOf(size, threadCount, k)
      invariant Consecutive(background, begin, next)
    {
      var thisBatchSize: nat := perThreadSize;
      if remainder > 0 {
        thisBatchSize := thisBatchSize + 1;
        remainder := remainder - 1;
      }
      ConsecutiveAppend(background, begin, next, Slice(next, thisBatchSize));
      background := background + [Slice(next, thisBatchSize)];
      next := next + thisBatchSize;
      t := t + 1;
    }
    foreground := Slice(next, perThreadSize);
    SharesAddUp(size, threadCount, t);
    ConsecutiveAppend(background, begin, next, foreground);
  }

  /** The workers whose gradients are applied: every busy background trainer, then the foreground one if it trained. */
  function Applied(background: seq<Slice>, foreground: Slice): seq<Slice>
  {
    background + if foreground.size > 0 then [foreground] else []
  }

  /**
   * The gradients applied after a mini-batch are those of workers that trained
   * on at least one example, and together they cover the whole mini-batch, so
   * the scalar learningRate / size averages over exactly the examples trained on.
   */
  lemma AppliedCoverMiniBatch(background: seq<Slice>, foreground: Slice, begin: nat, size: nat, threadCount: nat)
    requires threadCount >= 1 && MiniBatchShares(background, foreground, begin, size, threadCount)
    ensures forall k :: 0 <= k < |Applied(background, foreground)| ==> Applied(background, foreground)[k].size > 0
    ensures TotalSize(Applied(background, foreground)) == size
    ensures Consecutive(Applied(background, foreground), begin, begin + size)
  {
    var all := background + [foreground];
    ConsecutiveSpan(all, begin, begin + size);
    assert all[..|all| - 1] == background;
    if foreground.size == 0 {
      ConsecutiveFront(all, begin, begin + size);
      assert Applied(background, foreground) == background;
    } else {
      assert Applied(background, foreground) == all;
    }
  }

  // ---------------------------------------------------------------------------
  // An epoch.

  /** One mini-batch of an epoch and its shares. */
  datatype BatchPlan = BatchPlan(batch: Slice, background: seq<Slice>, foreground: Slice)

  function Batches(plans: seq<BatchPlan>): (r: seq<Slice>)
    ensures |r| == |plans| && forall k :: 0 <= k < |plans| ==> r[k] == plans[k].batch
  {
    seq(|plans|, k requires 0 <= k < |plans| => plans[k].batch)
  }

  /**
   * The loop of TrainForOneEpoch over `n` training examples: while examples
   * remain, the mini-batch size is cut to what remains, the batch is shared out,
   * and the remaining count drops by the batch size. Every batch but the last
   * has the full size; the last holds what is left.
   */
  method PlanEpoch(n: nat, miniBatchSize: nat, threadCount: nat) returns (plans: seq<BatchPlan>)
    requires miniBatchSize >= 1 && threadCount >= 1
    ensures Consecutive(Batches(plans), 0, n)
    ensures forall k :: 0 <= k < |plans| ==> 0 < plans[k].batch.size <= miniBatchSize
    ensures forall k :: 0 <= k < |plans| - 1 ==> plans[k].batch.size == miniBatchSize
    ensures forall k :: 0 <= k < |plans| ==>
      MiniBatchShares(plans[k].background, plans[k].foreground, plans[k].batch.start, plans[k].batch.size, threadCount)
  {
    plans := [];
    var remaining: nat := n;
    var size: nat := miniBatchSize;
    var begin: nat := 0;
    while remaining > 0
      invariant begin + remaining == n && 0 < size <= miniBatchSize && (remaining > 0 ==> size == miniBatchSize)
      invariant Planned(plans, begin, miniBatchSize, threadCount, remaining > 0)
    {
      if remaining < size {
        size := remaining;
      }
      var background, foreground := ShareMiniBatch(begin, size, threadCount);
      var plan := BatchPlan(Slice(begin, size), background, foreground);
      PlannedAppend(plans, begin, miniBatchSize, threadCount, plan, remaining - size > 0);
      plans := plans + [plan];
      begin := begin + size;
      remaining := remaining - size;
    }
  }

  /** The loop invariant of PlanEpoch: the batches so far run from 0 to `end`, each shared out, all but the last (or all, when `full`) of the full size. */
  ghost predicate Planned(plans: seq<BatchPlan>, end: nat, miniBatchSize: nat, threadCount: nat, full: bool)
    requires threadCount >= 1
  {
    Consecutive(Batches(plans), 0, end) &&
    (forall k :: 0 <= k < |plans| ==> 0 < plans[k].batch.size <= miniBatchSize) &&
    (forall k :: 0 <= k < |plans| - 1 ==> plans[k].batch.size == miniBatchSize) &&
    (full ==> forall k :: 0 <= k < |plans| ==> plans[k].batch.size == miniBatchSize) &&
    (forall k :: 0 <= k < |plans| ==>
      MiniBatchShares(plans[k].background, plans[k].foreground, plans[k].batch.start, plans[k].batch.size, threadCount))
  }

  /** A shared-out batch that starts where the others end keeps the invariant. */
  lemma PlannedAppend(plans: seq<BatchPlan>, end: nat, miniBatchSize: nat, threadCount: nat, plan: BatchPlan, full: bool)
    requires threadCount >= 1 && Planned(plans, end, miniBatchSize, threadCount, true)
    requires plan.batch.start == end && 0 < plan.batch.size <= miniBatchSize && (full ==> plan.batch.size == miniBatchSize)
    requires MiniBatchShares(plan.background, plan.foreground, plan.batch.start, plan.batch.size, threadCount)
    ensures Planned(plans + [plan], end + plan.batch.size, miniBatchSize, threadCount, full)
  {
    ConsecutiveAppend(Batches(plans), 0, end, plan.batch);
    assert Batches(plans + [plan]) == Batches(plans) + [plan.batch];
  }

  // ---------------------------------------------------------------------------
  // Combining the workers' gradients into one weighted layer.

  /** Every gradient has `n` elements. */
  predicate Shaped(nablas: seq<seq<real>>, n: nat)
  {
    forall k :: 0 <= k < |nablas| ==> |nablas[k]| == n
  }

  /** The workers' gradient steps applied one after another, all with the same scalar. */
  function Steps(w: seq<real>, nablas: seq<seq<real>>, scalar: real): (r: seq<real>)
    requires Shaped(nablas, |w|)
    ensures |r| == |w|
    decreases |nablas|
  {
    if nablas == [] then w else Steps(Step(w, nablas[0], scalar), nablas[1..], scalar)
  }

  /** The element-wise sum of the gradients (zeros when there are none). */
  function GradientSum(nablas: seq<seq<real>>, n: nat): (r: seq<real>)
    requires Shaped(nablas, n)
    ensures |r| == n
    decreases |nablas|
  {
    if nablas == [] then seq(n, _ => 0.0) else Combine(Plus, nablas[0], GradientSum(nablas[1..], n))
  }

  /** Applying the workers' steps one by one is one step with the summed gradient. */
  lemma {:induction false} StepsAreOneStep(w: seq<real>, nablas: seq<seq<real>>, scalar: real)
    requires Shaped(nablas, |w|)
    ensures Steps(w, nablas, scalar) == Step(w, GradientSum(nablas, |w|), scalar)
    decreases |nablas|
  {
    if nablas == [] {
      assert Step(w, GradientSum(nablas, |w|), scalar) == w;
    } else {
      StepsAreOneStep(Step(w, nablas[0], scalar), nablas[1..], scalar);
      StepsCompose(w, nablas[0], GradientSum(nablas[1..], |w|), scalar);
    }
  }

  /** Applying the steps from the k-th on is the k-th step, then the steps after it. */
  lemma StepsFrom(w: seq<real>, nablas: seq<seq<real>>, k: nat, scalar: real)
    requires Shaped(nablas, |w|) && k < |nablas|
    ensures Shaped(nablas[k..], |w|) && Shaped(nablas[k + 1..], |w|)
    ensures Steps(w, nablas[k..], scalar) == Steps(Step(w, nablas[k], scalar), nablas[k + 1..], scalar)
  {
    assert nablas[k..][1..] == nablas[k + 1..];
  }

  /** The elements of each tensor. */
  function Values(ts: seq<Tensor>): (r: seq<seq<real>>)
    reads set k | 0 <= k < |ts| :: ts[k]
    reads set k | 0 <= k < |ts| :: ts[k].elements
    ensures |r| == |ts| && forall k :: 0 <= k < |ts| ==> r[k] == ts[k].elements[..]
    decreases |ts|
  {
    if ts == [] then [] else [ts[0].elements[..]] + Values(ts[1..])
  }

  /** The gradients of one layer, one per applied worker, each shaped like the weights (or the biases). */
  ghost predicate Gradients(nablas: seq<Tensor>, like: Tensor, other: Tensor)
    reads like, other, set k | 0 <= k < |nablas| :: nablas[k]
  {
    forall k :: 0 <= k < |nablas| ==>
      nablas[k].Valid() && nablas[k].Dims() == like.Dims() &&
      nablas[k].elements != like.elements && nablas[k].elements != other.elements
  }

  /**
   * The per-layer step of TrainForOneEpoch after a mini-batch: the weights are
   * decayed first (when the multiplier is not 1), then every applied worker's
   * gradients are stepped in, in order, with scalar = learningRate / size.
   */
  method CombineStep(weights: Tensor, biases: Tensor, nablaWs: seq<Tensor>, nablaBs: seq<Tensor>,
                     multiplier: real, scalar: real)
    requires weights.Valid() && biases.Valid() && weights.elements != biases.elements
    requires |nablaWs| == |nablaBs|
    requires Gradients(nablaWs, weights, biases) && Gradients(nablaBs, biases, weights)
    modifies weights.elements, biases.elements
    ensures weights.elements[..] == Steps(Scale(old(weights.elements[..]), multiplier), Values(nablaWs), scalar)
    ensures biases.elements[..] == Steps(old(biases.elements[..]), Values(nablaBs), scalar)
  {
    if multiplier != 1.0 {
      DecayWeights(weights, multiplier);
    } else {
      assert Scale(weights.elements[..], multiplier) == weights.elements[..];
    }
    StepAll(weights, biases, nablaWs, nablaBs, scalar);
  }

  /** Every applied worker's gradients stepped in, in order, all with the same scalar. */
  method StepAll(weights: Tensor, biases: Tensor, nablaWs: seq<Tensor>, nablaBs: seq<Tensor>, scalar: real)
    requires weights.Valid() && biases.Valid() && weights.elements != biases.elements
    requires |nablaWs| == |nablaBs|
    requires Gradients(nablaWs, weights, biases) && Gradients(nablaBs, biases, weights)
    modifies weights.elements, biases.elements
    ensures weights.elements[..] == Steps(old(weights.elements[..]), Values(nablaWs), scalar)
    ensures biases.elements[..] == Steps(old(biases.elements[..]), Values(nablaBs), scalar)
  {
    ghost var w0 := weights.elements[..];
    ghost var b0 := biases.elements[..];
    ghost var ws := Values(nablaWs);
    ghost var bs := Values(nablaBs);
    var k := 0;
    while k < |nablaWs|
      invariant 0 <= k <= |nablaWs| && weights.elements.Length == |w0| && biases.elements.Length == |b0|
      invariant Shaped(ws[k..], |w0|) && Steps(w0, ws, scalar) == Steps(weights.elements[..], ws[k..], scalar)
      invariant Shaped(bs[k..], |b0|) && Steps(b0, bs, scalar) == Steps(biases.elements[..], bs[k..], scalar)
    {
      StepsFrom(weights.elements[..], ws, k, scalar);
      StepsFrom(biases.elements[..], bs, k, scalar);
      UpdateWeightsAndBiases(weights, biases, nablaWs[k], nablaBs[k], scalar);
      k := k + 1;
    }
    assert Values(nablaWs) == ws && Values(nablaBs) == bs;
  }
}
