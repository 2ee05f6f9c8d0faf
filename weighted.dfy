/**
 * The steps shared by every weighted layer (fully-connected and
 * convolutional): the gradient-descent update and the weight decay.
 */
module Weighted {
  import opened Tensors

  /** One gradient step: every weight moves by -nabla·scalar. */
  function Step(w: seq<real>, nabla: seq<real>, scalar: real): (r: seq<real>)
    requires |w| == |nabla|
    ensures |r| == |w|
  {
    seq(|w|, i requires 0 <= i < |w| => w[i] - nabla[i] * scalar)
  }

  /** Every weight multiplied by the same factor. */
  function Scale(w: seq<real>, factor: real): (r: seq<real>)
    ensures |r| == |w|
  {
    seq(|w|, i requires 0 <= i < |w| => w[i] * factor)
  }

  /** Two steps with the same scalar are one step with the summed gradients. */
  lemma StepsCompose(w: seq<real>, nabla1: seq<real>, nabla2: seq<real>, scalar: real)
    requires |w| == |nabla1| == |nabla2|
    ensures Step(Step(w, nabla1, scalar), nabla2, scalar) == Step(w, Combine(Plus, nabla1, nabla2), scalar)
  {
    forall i | 0 <= i < |w|
      ensures Step(Step(w, nabla1, scalar), nabla2, scalar)[i] == Step(w, Combine(Plus, nabla1, nabla2), scalar)[i]
    {
      calc {
        Step(Step(w, nabla1, scalar), nabla2, scalar)[i];
        w[i] - nabla1[i] * scalar - nabla2[i] * scalar;
        { assert nabla1[i] * scalar + nabla2[i] * scalar == (nabla1[i] + nabla2[i]) * scalar; }
        w[i] - (nabla1[i] + nabla2[i]) * scalar;
      }
    }
  }

  /** A step is undone by the step with the opposite scalar. */
  lemma StepUndoneByOppositeStep(w: seq<real>, nabla: seq<real>, scalar: real)
    requires |w| == |nabla|
    ensures Step(Step(w, nabla, scalar), nabla, -scalar) == w
  {
    assert forall i | 0 <= i < |w| :: Step(Step(w, nabla, scalar), nabla, -scalar)[i] == w[i];
  }

  /** Scaling twice multiplies the factors. */
  lemma ScalesCompose(w: seq<real>, f: real, g: real)
    ensures Scale(Scale(w, f), g) == Scale(w, f * g)
  {
    forall i | 0 <= i < |w|
      ensures Scale(Scale(w, f), g)[i] == Scale(w, f * g)[i]
    {
      assert w[i] * f * g == w[i] * (f * g);
    }
  }

  /** One of the two raw-array loops of UpdateWeightsAndBiases: target[i] -= nabla[i]·scalar. */
  method StepInPlace(target: array<real>, nabla: array<real>, scalar: real)
    requires target != nabla && target.Length == nabla.Length
    modifies target
    ensures target[..] == Step(old(target[..]), nabla[..], scalar)
  {
    var t := 0;
    while t < target.Length
      invariant 0 <= t <= target.Length
      invariant forall i | 0 <= i < t :: target[i] == old(target[i]) - nabla[i] * scalar
      invariant forall i | t <= i < target.Length :: target[i] == old(target[i])
    {
      target[t] := target[t] - nabla[t] * scalar;
      t := t + 1;
    }
    assert forall i | 0 <= i < target.Length :: target[i] == Step(old(target[..]), nabla[..], scalar)[i];
  }

  /** UpdateWeightsAndBiases: w[i] -= nablaW[i]·scalar and b[i] -= nablaB[i]·scalar; the nablas are untouched. */
  method UpdateWeightsAndBiases(weights: Tensor, biases: Tensor, nablaW: Tensor, nablaB: Tensor, scalar: real)
    requires weights.Valid() && biases.Valid() && nablaW.Valid() && nablaB.Valid()
    requires nablaW.Dims() == weights.Dims() && nablaB.Dims() == biases.Dims()
    requires weights.elements != biases.elements
    requires nablaW.elements != weights.elements && nablaW.elements != biases.elements
    requires nablaB.elements != weights.elements && nablaB.elements != biases.elements
    modifies weights.elements, biases.elements
    ensures weights.elements[..] == Step(old(weights.elements[..]), nablaW.elements[..], scalar)
    ensures biases.elements[..] == Step(old(biases.elements[..]), nablaB.elements[..], scalar)
    ensures nablaW.elements[..] == old(nablaW.elements[..]) && nablaB.elements[..] == old(nablaB.elements[..])
  {
    StepInPlace(weights.elements, nablaW.elements, scalar);
    StepInPlace(biases.elements, nablaB.elements, scalar);
  }

  /** DecayWeights: every weight is multiplied by the factor; the biases are not touched. */
  method DecayWeights(weights: Tensor, factor: real)
    requires weights.Valid()
    modifies weights.elements
    ensures weights.elements[..] == Scale(old(weights.elements[..]), factor)
  {
    var ws := weights.elements;
    var w := 0;
    while w < weights.size
      invariant 0 <= w <= weights.size
      invariant forall i | 0 <= i < w :: ws[i] == old(ws[i]) * factor
      invariant forall i | w <= i < weights.size :: ws[i] == old(ws[i])
    {
      ws[w] := ws[w] * factor;
      w := w + 1;
    }
    assert forall i | 0 <= i < ws.Length :: ws[i] == Scale(old(ws[..]), factor)[i];
  }
}
