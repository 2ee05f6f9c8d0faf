/**
 * The cross-entropy cost: its total over an output layer (log is a
 * parameter) and its derivative with respect to the output activations.
 */
module Costs {
  import opened Tensors

  /** CostFunction::Types: CrossEntropy is the only cost, with tag 1. */
  const CrossEntropyTag: nat := 1

  /** Outputs at or above this threshold are treated as saturated and cost nothing. */
  const SaturationThreshold: real := 1.0 - 0.0000001

  /** The cost of one output: -t·log(a) - (1-t)·log(1-a), or nothing when a is saturated. */
  function CostTerm(log: real -> real, actual: real, target: real): real
  {
    if actual < SaturationThreshold then -(target * log(actual)) - (1.0 - target) * log(1.0 - actual) else 0.0
  }

  /** The total over the first n outputs, accumulated in index order. */
  function TotalCostOf(log: real -> real, actual: seq<real>, target: seq<real>, n: nat): real
    requires n <= |actual| && n <= |target|
  {
    if n == 0 then 0.0 else TotalCostOf(log, actual, target, n - 1) + CostTerm(log, actual[n - 1], target[n - 1])
  }

  /** Saturated outputs contribute nothing: if every output is saturated the total is 0. */
  lemma {:induction false} SaturatedOutputsCostNothing(log: real -> real, actual: seq<real>, target: seq<real>, n: nat)
    requires n <= |actual| && n <= |target|
    requires forall i | 0 <= i < n :: actual[i] >= SaturationThreshold
    ensures TotalCostOf(log, actual, target, n) == 0.0
  {
    if n > 0 { SaturatedOutputsCostNothing(log, actual, target, n - 1); }
  }

  /** Changing a saturated output's target does not change the total. */
  lemma {:induction false} SaturatedTargetIrrelevant(log: real -> real, actual: seq<real>, target: seq<real>, n: nat, k: nat, t: real)
    requires n <= |actual| && n <= |target| && k < |target| && k < |actual|
    requires actual[k] >= SaturationThreshold
    ensures TotalCostOf(log, actual, target[k := t], n) == TotalCostOf(log, actual, target, n)
  {
    if n > 0 { SaturatedTargetIrrelevant(log, actual, target, n - 1, k, t); }
  }

  /** TotalCost: the sum of the per-output costs. */
  method TotalCost(log: real -> real, outputActivations: Tensor, targetActivations: Tensor) returns (totalCost: real)
    requires outputActivations.Valid() && targetActivations.Valid()
    requires targetActivations.size == outputActivations.size
    ensures totalCost == TotalCostOf(log, outputActivations.elements[..], targetActivations.elements[..], outputActivations.size)
  {
    totalCost := 0.0;
    var actual := 0;
    while actual < outputActivations.size
      invariant 0 <= actual <= outputActivations.size
      invariant totalCost == TotalCostOf(log, outputActivations.elements[..], targetActivations.elements[..], actual)
    {
      var a := outputActivations.elements[actual];
      var t := targetActivations.elements[actual];
      if a < 1.0 - 0.0000001 {
        totalCost := totalCost - t * log(a);
        totalCost := totalCost - (1.0 - t) * log(1.0 - a);
      }
      actual := actual + 1;
    }
  }

  /** Derivatives: result[i] = actual[i] - target[i]; the inputs are untouched. */
  method Derivatives(outputActivations: Tensor, targetActivations: Tensor, result: Tensor)
    requires outputActivations.Valid() && targetActivations.Valid() && result.Valid()
    requires targetActivations.size == outputActivations.size && result.size == outputActivations.size
    modifies result.elements
    ensures result.elements[..] == Combine(Minus, old(outputActivations.elements[..]), old(targetActivations.elements[..]))
  {
    outputActivations.ComponentWiseSubtractTo(targetActivations, result);
  }

  /** The derivative is the zero vector exactly when the output equals the target. */
  lemma DerivativeZeroIffOnTarget(actual: seq<real>, target: seq<real>)
    requires |actual| == |target|
    ensures (forall i | 0 <= i < |actual| :: Combine(Minus, actual, target)[i] == 0.0) <==> actual == target
  {
    if forall i | 0 <= i < |actual| :: Combine(Minus, actual, target)[i] == 0.0 {
      forall i | 0 <= i < |actual|
        ensures actual[i] == target[i]
      {
        assert Combine(Minus, actual, target)[i] == actual[i] - target[i];
      }
    }
  }
}
