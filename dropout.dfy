/** A dropout mask: one keep/drop flag per neuron of a fully-connected layer. */
module Dropout {

  class DropoutMask {
    var keepProbability: real
    var mask: array<bool>
    var size: nat

    ghost predicate Valid()
      reads this
    {
      mask.Length == size
    }

    /** The sized constructor: `size` flags, value-initialised to false. */
    constructor (keepProbability: real, size: nat)
      ensures Valid() && fresh(mask) && this.size == size && this.keepProbability == keepProbability
      ensures forall i | 0 <= i < size :: !mask[i]
    {
      this.keepProbability := keepProbability;
      this.size := size;
      mask := new bool[size](_ => false);
    }

    /** The fixed-pattern constructor: Size() is the list length and entry i is the i-th list value. */
    constructor FromList(pattern: seq<bool>)
      ensures Valid() && fresh(mask) && size == |pattern| && mask[..] == pattern
    {
      keepProbability := 0.0;
      size := |pattern|;
      mask := new bool[|pattern|](i requires 0 <= i < |pattern| => pattern[i]);
    }

    function Size(): nat
      reads this
    {
      size
    }

    /** Get(i): the flag of neuron i; indexes at or past the size are refused. */
    function Get(i: nat): bool
      reads this, mask
      requires Valid() && i < Size()
    {
      mask[i]
    }

    /** Randomize rewrites each of the Size() flags with the drawn samples; the size is unchanged. */
    method Randomize(samples: seq<bool>)
      requires Valid() && |samples| == size
      modifies mask
      ensures mask[..] == samples
    {
      var b := 0;
      while b != size
        invariant 0 <= b <= size
        invariant mask[..b] == samples[..b]
      {
        mask[b] := samples[b];
        b := b + 1;
      }
    }
  }
}
