/**
 * A labelled data set: its name, categories and image shape, its training and
 * test images in insertion order, and the one-hot target activations of its
 * categories.
 */
module ImageSets {
  import opened Tensors

  /** An image: channels × height × width inputs and its category. */
  datatype Image = Image(inputs: seq<real>, channels: nat, width: nat, height: nat, category: nat)

  /** The target activation for category c of n: 1 for neuron c, 0 for every other. */
  function OneHot(n: nat, c: nat): (t: seq<real>)
    ensures |t| == n
    ensures forall i | 0 <= i < n :: t[i] == if i == c then 1.0 else 0.0
  {
    seq(n, i => if i == c then 1.0 else 0.0)
  }

  /** The network's predicted class for a target is its own category, which the accuracy check relies on. */
  lemma OneHotPicksItsCategory(n: nat, c: nat)
    requires c < n
    ensures FirstMaxIndex(OneHot(n, c)) == c
  {
    var t := OneHot(n, c);
    assert IsFirstMax(t, c);
    FirstMaxUnique(t, FirstMaxIndex(t), c);
  }

  /** Distinct categories have distinct targets. */
  lemma OneHotInjective(n: nat, c: nat, d: nat)
    requires c < n && d < n && OneHot(n, c) == OneHot(n, d)
    ensures c == d
  {
    assert OneHot(n, c)[c] == 1.0;
  }

  class ImageSet {
    const name: string
    const categories: seq<string>
    const channels: nat
    const width: nat
    const height: nat
    /** One target per category, in category order. */
    const oneHotCategories: seq<seq<real>>
    var trainingSet: seq<Image>
    var testSet: seq<Image>

    constructor(name: string, categories: seq<string>, channels: nat, width: nat, height: nat)
      ensures this.name == name && this.categories == categories
      ensures this.channels == channels && this.width == width && this.height == height
      ensures |oneHotCategories| == |categories|
      ensures forall c | 0 <= c < |categories| :: oneHotCategories[c] == OneHot(|categories|, c)
      ensures trainingSet == [] && testSet == []
    {
      this.name := name;
      this.categories := categories;
      this.channels := channels;
      this.width := width;
      this.height := height;
      var n := |categories|;
      var targets: seq<seq<real>> := [];
      var category := 0;
      while category < n
        invariant 0 <= category <= n && |targets| == category
        invariant forall c | 0 <= c < category :: targets[c] == OneHot(n, c)
      {
        var t := seq(n, _ => 0.0);
        t := t[category := 1.0];
        assert t == OneHot(n, category);
        targets := targets + [t];
        category := category + 1;
      }
      oneHotCategories := targets;
      trainingSet := [];
      testSet := [];
    }

    /** The list isTest chooses is its old contents followed by added; the other list is as it was. */
    ghost predicate Extends(isTest: bool, oldTraining: seq<Image>, oldTest: seq<Image>, added: seq<Image>)
      reads this
    {
      if isTest then testSet == oldTest + added && trainingSet == oldTraining
      else trainingSet == oldTraining + added && testSet == oldTest
    }

    /** Capacity only: neither list changes. */
    method ReserveTrainingSpace(trainingSetSize: nat)
      ensures trainingSet == old(trainingSet) && testSet == old(testSet)
    {
    }

    /** Capacity only: neither list changes. */
    method ReserveTestSpace(testSetSize: nat)
      ensures trainingSet == old(trainingSet) && testSet == old(testSet)
    {
    }

    /** Appends the image to the test list or to the training list; the other list is unchanged. */
    method AddImage(image: Image, isTest: bool)
      modifies this`trainingSet, this`testSet
      ensures isTest ==> testSet == old(testSet) + [image] && trainingSet == old(trainingSet)
      ensures !isTest ==> trainingSet == old(trainingSet) + [image] && testSet == old(testSet)
    {
      if isTest {
        testSet := testSet + [image];
      } else {
        trainingSet := trainingSet + [image];
      }
    }
  }
}
