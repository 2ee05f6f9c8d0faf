/**
 * Classification of a test set and the accuracy table built from it.
 * The forward pass of each test image is not repeated here: the output
 * activations of the last layer, one per test image, are the input.
 */
module Classification {
  import opened Wrappers
  import opened Tensors
  import opened Partitions
  import opened FullyConnected
  import opened Weighted

  const TooManyThreadsForTestSet := "Number of threads cannot be greater than the test set size."

  /** Every test image has at least one output (HighestValueIndex refuses an empty tensor). */
  predicate AllNonEmpty(outputs: seq<seq<real>>)
  {
    forall i | 0 <= i < |outputs| :: |outputs[i]| > 0
  }

  /** The first `n` results are the argmax of their test images' outputs. */
  predicate Classified(outputs: seq<seq<real>>, results: seq<nat>, n: nat)
    requires AllNonEmpty(outputs)
  {
    n <= |outputs| && n <= |results| && forall i | 0 <= i < n :: results[i] == FirstMaxIndex(outputs[i])
  }

  /**
   * FeedForwardClassifier::Classify: the argmax of each output in
   * [begin, begin + count), written to the same positions of `results`.
   */
  method ClassifyBatch(outputs: seq<seq<real>>, results: array<nat>, begin: nat, count: nat)
    requires AllNonEmpty(outputs) && results.Length == |outputs| && begin + count <= |outputs|
    requires Classified(outputs, results[..], begin)
    modifies results
    ensures Classified(outputs, results[..], begin + count)
  {
    var i := begin;
    while i < begin + count
      invariant begin <= i <= begin + count
      invariant Classified(outputs, results[..], i)
    {
      results[i] := FirstMaxIndex(outputs[i]);
      i := i + 1;
    }
  }

  /**
   * FeedForwardNetwork::Classify: refuses a test set smaller than the thread
   * count, then hands the shares of ShareTestSet to the testers; result i is
   * the first index of the largest output for test image i.
   */
  method Classify(outputs: seq<seq<real>>, threadCount: nat) returns (r: Result<seq<nat>>)
    requires threadCount >= 1 && AllNonEmpty(outputs)
    ensures r.Err? <==> |outputs| < threadCount
    ensures r.Err? ==> r.error == TooManyThreadsForTestSet
    ensures r.Ok? ==> |r.value| == |outputs|
    ensures r.Ok? ==> forall i | 0 <= i < |outputs| :: r.value[i] == FirstMaxIndex(outputs[i])
    ensures r.Ok? ==> forall i | 0 <= i < |outputs| :: IsFirstMax(outputs[i], r.value[i])
  {
    if |outputs| < threadCount {
      return Err(TooManyThreadsForTestSet);
    }
    var background, foreground := ShareTestSet(0, |outputs|, threadCount);
    ghost var all := background + [foreground];
    var results := new nat[|outputs|](_ => 0);
    var done: nat := 0;
    var t := 0;
    while t < |background|
      invariant 0 <= t <= |background|
      invariant t == 0 ==> done == 0
      invariant t > 0 ==> done == background[t - 1].End()
      invariant done <= foreground.start
      invariant Classified(outputs, results[..], done)
    {
      assert all[t] == background[t];
      if t > 0 {
        assert all[t - 1] == background[t - 1];
      }
      assert background[t].start == done;
      ConsecutiveOrdered(all, 0, |outputs|, t, |background|);
      assert done + background[t].size <= |outputs|;
      ClassifyBatch(outputs, results, done, background[t].size);
      done := background[t].End();
      t := t + 1;
    }
    assert all[|background|] == foreground;
    if t > 0 {
      assert all[t - 1] == background[t - 1];
    }
    assert foreground.start == done && foreground.End() == |outputs|;
    ClassifyBatch(outputs, results, done, foreground.size);
    r := Ok(results[..]);
    forall i | 0 <= i < |outputs|
      ensures IsFirstMax(outputs[i], r.value[i])
    {
      assert r.value[i] == FirstMaxIndex(outputs[i]);
    }
  }

  // ---------------------------------------------------------------------------
  // Leaving the testing weights in place.

  /** What Classify does to the layers' weights: every layer switches to its testing weights. */
  function ClassifyWeights(states: seq<WeightState>, keeps: seq<real>): (r: seq<WeightState>)
    requires |keeps| == |states|
    ensures |r| == |states|
    ensures forall i | 0 <= i < |states| :: r[i] == Testing(states[i], keeps[i])
  {
    seq(|states|, i requires 0 <= i < |states| => Testing(states[i], keeps[i]))
  }

  /**
   * Classifying a network twice, with a layer behind dropout, scales that
   * layer's weights by the keep probability twice: 1.0 becomes 0.25, not 0.5.
   */
  lemma ClassifyTwiceScalesTwice()
    ensures var once := ClassifyWeights([WeightState([1.0], Some([1.0]))], [0.5]);
            ClassifyWeights(once, [0.5])[0].weights == [0.25] &&
            once[0].weights == [0.5]
  {
    var s := WeightState([1.0], Some([1.0]));
    var once := ClassifyWeights([s], [0.5]);
    assert once[0] == WeightState([0.5], Some([1.0])) by {
      assert Scale([1.0], 0.5) == [0.5];
    }
    var twice := ClassifyWeights(once, [0.5]);
    assert twice[0].weights == Scale([0.5], 0.5);
    assert Scale([0.5], 0.5) == [0.25];
  }

  /** Classification that switches every layer back to its training weights afterwards. */
  function ClassifyRestoring(states: seq<WeightState>, keeps: seq<real>): (r: seq<WeightState>)
    requires |keeps| == |states|
    ensures |r| == |states|
    ensures forall i | 0 <= i < |states| :: r[i] == Training(ClassifyWeights(states, keeps)[i])
  {
    var tested := ClassifyWeights(states, keeps);
    seq(|states|, i requires 0 <= i < |states| => Training(tested[i]))
  }

  /** Restoring after classification leaves every layer's weights as they were, however often it runs. */
  lemma ClassifyRestoringKeepsWeights(states: seq<WeightState>, keeps: seq<real>)
    requires |keeps| == |states|
    ensures forall i | 0 <= i < |states| :: ClassifyRestoring(states, keeps)[i].weights == states[i].weights
    ensures forall i | 0 <= i < |states| ::
      ClassifyRestoring(ClassifyRestoring(states, keeps), keeps)[i].weights == states[i].weights
  {
    var once := ClassifyRestoring(states, keeps);
    forall i | 0 <= i < |states|
      ensures once[i].weights == states[i].weights
    {
      TestingThenTrainingRestores(states[i], keeps[i]);
    }
    var twice := ClassifyRestoring(once, keeps);
    forall i | 0 <= i < |states|
      ensures twice[i].weights == states[i].weights
    {
      TestingThenTrainingRestores(once[i], keeps[i]);
    }
  }

  // ---------------------------------------------------------------------------
  // The accuracy table.

  /** How many of the test images of category `a` were classified as `p`. */
  function Pairs(actual: seq<nat>, predicted: seq<nat>, a: nat, p: nat): nat
    requires |actual| == |predicted|
  {
    if actual == [] then 0
    else
      var n := |actual| - 1;
      Pairs(actual[..n], predicted[..n], a, p) + if actual[n] == a && predicted[n] == p then 1 else 0
  }

  /** How many test images were classified as their own category. */
  function Correct(actual: seq<nat>, predicted: seq<nat>): nat
    requires |actual| == |predicted|
  {
    if actual == [] then 0
    else
      var n := |actual| - 1;
      Correct(actual[..n], predicted[..n]) + if actual[n] == predicted[n] then 1 else 0
  }

  /** The sum of the first `k` diagonal cells. */
  function Diagonal(actual: seq<nat>, predicted: seq<nat>, k: nat): nat
    requires |actual| == |predicted|
  {
    if k == 0 then 0 else Diagonal(actual, predicted, k - 1) + Pairs(actual, predicted, k - 1, k - 1)
  }

  /** The sum of the cells of row `a` in the first `m` columns. */
  function RowTotal(actual: seq<nat>, predicted: seq<nat>, a: nat, m: nat): nat
    requires |actual| == |predicted|
  {
    if m == 0 then 0 else RowTotal(actual, predicted, a, m - 1) + Pairs(actual, predicted, a, m - 1)
  }

  /** The sum of the cells in the first `k` rows and `m` columns. */
  function GridTotal(actual: seq<nat>, predicted: seq<nat>, k: nat, m: nat): nat
    requires |actual| == |predicted|
  {
    if k == 0 then 0 else GridTotal(actual, predicted, k - 1, m) + RowTotal(actual, predicted, k - 1, m)
  }

  predicate InCategories(xs: seq<nat>, categories: nat)
  {
    forall i | 0 <= i < |xs| :: xs[i] < categories
  }

  /**
   * SaveAccuracyStatistics: counts[a][p] is incremented for every test image
   * of category a classified as p, and numberCorrect for every match.
   */
  method AccuracyCounts(actual: seq<nat>, predicted: seq<nat>, categories: nat)
    returns (counts: seq<seq<nat>>, numberCorrect: nat)
    requires |actual| == |predicted|
    requires InCategories(actual, categories) && InCategories(predicted, categories)
    ensures |counts| == categories
    ensures forall a | 0 <= a < categories :: |counts[a]| == categories
    ensures forall a, p | 0 <= a < categories && 0 <= p < categories :: counts[a][p] == Pairs(actual, predicted, a, p)
    ensures numberCorrect == Correct(actual, predicted)
  {
    counts := seq(categories, _ => seq(categories, _ => 0));
    numberCorrect := 0;
    var ii := 0;
    while ii < |actual|
      invariant 0 <= ii <= |actual|
      invariant |counts| == categories
      invariant forall a | 0 <= a < categories :: |counts[a]| == categories
      invariant forall a, p | 0 <= a < categories && 0 <= p < categories ::
        counts[a][p] == Pairs(actual[..ii], predicted[..ii], a, p)
      invariant numberCorrect == Correct(actual[..ii], predicted[..ii])
    {
      assert actual[..ii + 1][..ii] == actual[..ii] && predicted[..ii + 1][..ii] == predicted[..ii];
      var a, p := actual[ii], predicted[ii];
      counts := counts[a := counts[a][p := counts[a][p] + 1]];
      if p == a {
        numberCorrect := numberCorrect + 1;
      }
      ii := ii + 1;
    }
    assert actual[..ii] == actual && predicted[..ii] == predicted;
  }

  /** Adding one image to the table adds one to the diagonal exactly when it was classified correctly. */
  lemma {:induction false} DiagonalSnoc(actual: seq<nat>, predicted: seq<nat>, k: nat)
    requires |actual| == |predicted| && actual != []
    ensures var n := |actual| - 1;
      Diagonal(actual, predicted, k) ==
      Diagonal(actual[..n], predicted[..n], k) + if actual[n] == predicted[n] && actual[n] < k then 1 else 0
  {
    if k > 0 {
      DiagonalSnoc(actual, predicted, k - 1);
    }
  }

  lemma {:induction false} EmptyDiagonal(k: nat)
    ensures Diagonal([], [], k) == 0
  {
    if k > 0 {
      EmptyDiagonal(k - 1);
    }
  }

  /** The diagonal of the accuracy table adds up to numberCorrect. */
  lemma {:induction false} DiagonalIsCorrect(actual: seq<nat>, predicted: seq<nat>, categories: nat)
    requires |actual| == |predicted| && InCategories(actual, categories)
    ensures Diagonal(actual, predicted, categories) == Correct(actual, predicted)
  {
    if actual != [] {
      var n := |actual| - 1;
      DiagonalSnoc(actual, predicted, categories);
      DiagonalIsCorrect(actual[..n], predicted[..n], categories);
    } else {
      EmptyDiagonal(categories);
    }
  }

  /** Adding one image to the table adds one to a row when it is of that row's category. */
  lemma {:induction false} RowSnoc(actual: seq<nat>, predicted: seq<nat>, a: nat, m: nat)
    requires |actual| == |predicted| && actual != []
    ensures var n := |actual| - 1;
      RowTotal(actual, predicted, a, m) ==
      RowTotal(actual[..n], predicted[..n], a, m) + if actual[n] == a && predicted[n] < m then 1 else 0
  {
    if m > 0 {
      RowSnoc(actual, predicted, a, m - 1);
    }
  }

  /** Adding one image to the table adds one to the grid when its cell lies inside it. */
  lemma {:induction false} GridSnoc(actual: seq<nat>, predicted: seq<nat>, k: nat, m: nat)
    requires |actual| == |predicted| && actual != []
    ensures var n := |actual| - 1;
      GridTotal(actual, predicted, k, m) ==
      GridTotal(actual[..n], predicted[..n], k, m) + if actual[n] < k && predicted[n] < m then 1 else 0
  {
    if k > 0 {
      GridSnoc(actual, predicted, k - 1, m);
      RowSnoc(actual, predicted, k - 1, m);
    }
  }

  lemma {:induction false} EmptyRow(a: nat, m: nat)
    ensures RowTotal([], [], a, m) == 0
  {
    if m > 0 {
      EmptyRow(a, m - 1);
    }
  }

  lemma {:induction false} EmptyGrid(k: nat, m: nat)
    ensures GridTotal([], [], k, m) == 0
  {
    if k > 0 {
      EmptyGrid(k - 1, m);
      EmptyRow(k - 1, m);
    }
  }

  /** Every test image is counted in exactly one cell: the table adds up to the test-set size. */
  lemma {:induction false} TableCountsEveryImage(actual: seq<nat>, predicted: seq<nat>, categories: nat)
    requires |actual| == |predicted|
    requires InCategories(actual, categories) && InCategories(predicted, categories)
    ensures GridTotal(actual, predicted, categories, categories) == |actual|
  {
    if actual != [] {
      var n := |actual| - 1;
      GridSnoc(actual, predicted, categories, categories);
      TableCountsEveryImage(actual[..n], predicted[..n], categories);
    } else {
      EmptyGrid(categories, categories);
    }
  }
}
