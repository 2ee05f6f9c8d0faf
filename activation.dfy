/**
 * Activation functions: ReLU, leaky ReLU, sigmoid and tanh, applied element by
 * element in place, their derivatives, and the one-byte tag that saves them.
 * exp is a parameter: each property states what it needs of it.
 */
module Activations {
  import opened Wrappers
  import opened Streams
  import opened Tensors
  import NumberText

  datatype ActivationFunction = ReLU | LeakyReLU(leakiness: real) | Sigmoid | TanH

  /** ActivationFunction::Types: None = 0, ReLU = 1, LeakyReLU = 2, Sigmoid = 3, TanH = 4. */
  function TypeTag(af: Option<ActivationFunction>): (t: nat)
    ensures t <= 4 && (t == 0 <==> af.None?)
  {
    match af
    case None => 0
    case Some(ReLU) => 1
    case Some(LeakyReLU(_)) => 2
    case Some(Sigmoid) => 3
    case Some(TanH) => 4
  }

  predicate NeedsExp(af: ActivationFunction) { af.Sigmoid? || af.TanH? }

  /** What the model asks of exp: it is positive, so 1 + exp(y) is never 0. */
  ghost predicate ExpPositive(exp: real -> real) { forall x :: exp(x) > 0.0 }

  ghost predicate Admissible(af: ActivationFunction, exp: real -> real) { NeedsExp(af) ==> ExpPositive(exp) }

  /** The value Apply writes in place of x. */
  function Activate(af: ActivationFunction, exp: real -> real, x: real): real
    requires Admissible(af, exp)
  {
    match af
    case ReLU => if x < 0.0 then 0.0 else x
    case LeakyReLU(leak) => if x < 0.0 then x * leak else x
    case Sigmoid => 1.0 / (1.0 + exp(-x))
    case TanH => 2.0 / (1.0 + exp(-2.0 * x)) - 1.0
  }

  /** The value ApplyDerivative writes for input x. */
  function Derivative(af: ActivationFunction, exp: real -> real, x: real): real
    requires Admissible(af, exp)
  {
    match af
    case ReLU => if x <= 0.0 then 0.0 else 1.0
    case LeakyReLU(leak) => if x <= 0.0 then leak else 1.0
    case Sigmoid =>
      var sig := 1.0 / (1.0 + exp(-x));
      sig * (1.0 - sig)
    case TanH =>
      var t := 2.0 / (1.0 + exp(-2.0 * x)) - 1.0;
      1.0 - t * t
  }

  function ActivateAll(af: ActivationFunction, exp: real -> real, s: seq<real>): (r: seq<real>)
    requires Admissible(af, exp)
    ensures |r| == |s|
  {
    seq(|s|, i requires 0 <= i < |s| => Activate(af, exp, s[i]))
  }

  function DerivativeAll(af: ActivationFunction, exp: real -> real, s: seq<real>): (r: seq<real>)
    requires Admissible(af, exp)
    ensures |r| == |s|
  {
    seq(|s|, i requires 0 <= i < |s| => Derivative(af, exp, s[i]))
  }

  /** ReLU clamps negatives to 0 and leaves 0 and positive values alone. */
  lemma ReLUClamps(exp: real -> real, x: real)
    ensures Activate(ReLU, exp, x) >= 0.0
    ensures Activate(ReLU, exp, x) == x <==> x >= 0.0
    ensures x < 0.0 ==> Activate(ReLU, exp, x) == 0.0
  {
  }

  /** Applying ReLU twice is applying it once. */
  lemma ReLUIdempotent(exp: real -> real, s: seq<real>)
    ensures ActivateAll(ReLU, exp, ActivateAll(ReLU, exp, s)) == ActivateAll(ReLU, exp, s)
  {
  }

  /** Leaky ReLU multiplies negatives by the leakiness; 0 and positive values are unchanged. */
  lemma LeakyReLUScalesNegatives(exp: real -> real, leak: real, x: real)
    ensures x < 0.0 ==> Activate(LeakyReLU(leak), exp, x) == leak * x
    ensures x >= 0.0 ==> Activate(LeakyReLU(leak), exp, x) == x
    ensures 0.0 < leak ==> (Activate(LeakyReLU(leak), exp, x) < 0.0 <==> x < 0.0)
  {
  }

  /** For the two rectifiers the activation is the derivative times the input (at 0 both sides are 0). */
  lemma RectifierIsDerivativeTimesInput(af: ActivationFunction, exp: real -> real, x: real)
    requires af.ReLU? || af.LeakyReLU?
    ensures Activate(af, exp, x) == Derivative(af, exp, x) * x
  {
    if x == 0.0 {
      assert Derivative(af, exp, x) * x == 0.0;
    } else if af.LeakyReLU? && x < 0.0 {
      assert Derivative(af, exp, x) == af.leakiness;
    }
  }

  /** Given exp(0) = 1, tanh maps 0 to 0 with slope 1. */
  lemma TanHAtZero(exp: real -> real)
    requires ExpPositive(exp) && exp(0.0) == 1.0
    ensures Activate(TanH, exp, 0.0) == 0.0
    ensures Derivative(TanH, exp, 0.0) == 1.0
  {
    assert -2.0 * 0.0 == 0.0;
  }

  /** Given exp(0) = 1, the sigmoid maps 0 to 1/2 with slope 1/4. */
  lemma SigmoidAtZero(exp: real -> real)
    requires ExpPositive(exp) && exp(0.0) == 1.0
    ensures Activate(Sigmoid, exp, 0.0) == 0.5
    ensures Derivative(Sigmoid, exp, 0.0) == 0.25
  {
    assert -0.0 == 0.0;
  }

  /** The sigmoid's value lies strictly between 0 and 1. */
  lemma SigmoidInUnitInterval(exp: real -> real, x: real)
    requires ExpPositive(exp)
    ensures 0.0 < Activate(Sigmoid, exp, x) < 1.0
  {
    var e := exp(-x);
    assert e > 0.0;
  }

  /** Apply rewrites every element of the tensor in place. */
  method Apply(af: ActivationFunction, exp: real -> real, tensor: Tensor)
    requires Admissible(af, exp) && tensor.Valid()
    modifies tensor.elements
    ensures tensor.elements[..] == ActivateAll(af, exp, old(tensor.elements[..]))
  {
    var v := 0;
    while v < tensor.size
      invariant 0 <= v <= tensor.size
      invariant forall i | 0 <= i < v :: tensor.elements[i] == Activate(af, exp, old(tensor.elements[i]))
      invariant forall i | v <= i < tensor.size :: tensor.elements[i] == old(tensor.elements[i])
    {
      ActivateAt(af, exp, tensor.elements, v);
      v := v + 1;
    }
  }

  /** One pass of Apply's loop: element v is replaced by its activation. */
  method ActivateAt(af: ActivationFunction, exp: real -> real, elements: array<real>, v: nat)
    requires Admissible(af, exp) && v < elements.Length
    modifies elements
    ensures elements[..] == old(elements[..])[v := Activate(af, exp, old(elements[v]))]
  {
    var x := elements[v];
    match af {
      case ReLU =>
        if x < 0.0 {
          elements[v] := 0.0;
        }
      case LeakyReLU(leak) =>
        if x < 0.0 {
          elements[v] := x * leak;
        }
      case Sigmoid =>
        elements[v] := 1.0 / (1.0 + exp(-x));
      case TanH =>
        elements[v] := 2.0 / (1.0 + exp(-2.0 * x)) - 1.0;
    }
    assert elements[v] == Activate(af, exp, x);
    assert elements[..] == old(elements[..])[v := elements[v]];
  }

  /** ApplyDerivative writes each output position from the input at the same index. */
  method ApplyDerivative(af: ActivationFunction, exp: real -> real, input: Tensor, output: Tensor)
    requires Admissible(af, exp) && input.Valid() && output.Valid() && input.size == output.size
    modifies output.elements
    ensures output.elements[..] == DerivativeAll(af, exp, old(input.elements[..]))
  {
    var i := 0;
    while i < input.size
      invariant 0 <= i <= input.size
      invariant forall k | 0 <= k < i :: output.elements[k] == Derivative(af, exp, old(input.elements[k]))
      invariant forall k | i <= k < input.size :: input.elements[k] == old(input.elements[k])
    {
      DeriveAt(af, exp, input.elements, output.elements, i);
      i := i + 1;
    }
  }

  /** One pass of ApplyDerivative's loop: output i receives the derivative at input i. */
  method DeriveAt(af: ActivationFunction, exp: real -> real, input: array<real>, output: array<real>, i: nat)
    requires Admissible(af, exp) && i < input.Length && i < output.Length
    modifies output
    ensures output[..] == old(output[..])[i := Derivative(af, exp, old(input[i]))]
  {
    var x := input[i];
    match af {
      case ReLU =>
        output[i] := if x <= 0.0 then 0.0 else 1.0;
      case LeakyReLU(leak) =>
        output[i] := if x <= 0.0 then leak else 1.0;
      case Sigmoid =>
        var sig := 1.0 / (1.0 + exp(-x));
        output[i] := sig * (1.0 - sig);
      case TanH =>
        var t := 2.0 / (1.0 + exp(-2.0 * x)) - 1.0;
        output[i] := 1.0 - t * t;
    }
    assert output[i] == Derivative(af, exp, x);
    assert output[..] == old(output[..])[i := output[i]];
  }

  /** WeightedLayer::ApplyActivationFunction: a layer without an activation leaves its activations unchanged. */
  method ApplyActivationFunction(af: Option<ActivationFunction>, exp: real -> real, activations: Tensor)
    requires activations.Valid() && (af.Some? ==> Admissible(af.value, exp))
    modifies activations.elements
    ensures af.None? ==> activations.elements[..] == old(activations.elements[..])
    ensures af.Some? ==> activations.elements[..] == ActivateAll(af.value, exp, old(activations.elements[..]))
  {
    if af.Some? {
      Apply(af.value, exp, activations);
    }
  }

  // ---------------------------------------------------------------------------
  // Save and Load.

  /** Save writes the type tag; leaky ReLU adds its leakiness. */
  function SaveUnits(af: Option<ActivationFunction>): seq<Unit>
  {
    [ByteOf(TypeTag(af))] + (if af.Some? && af.value.LeakyReLU? then [Double(af.value.leakiness)] else [])
  }

  /** Load: tag 0 is no function, 1 to 4 are the variants, anything else (or the end of the stream, read as -1) throws. */
  function Load(s: seq<Unit>, pos: nat): (r: Result<Decoded<Option<ActivationFunction>>>)
    ensures r.Ok? ==> r.value.next <= |s| && r.value.next > pos
    ensures r.Ok? ==> pos < |s| && s[pos].Byte? && s[pos].b as nat == TypeTag(r.value.value)
  {
    var tag := if pos < |s| && s[pos].Byte? then s[pos].b as int else -1;
    if tag == 0 then Ok(Decoded(None, pos + 1))
    else if tag == 1 then Ok(Decoded(Some(ReLU), pos + 1))
    else if tag == 2 then
      (match ReadDouble(s, pos + 1)
       case Some(leak) => Ok(Decoded(Some(LeakyReLU(leak)), pos + 2))
       case None => Err("The stream ended inside a leaky ReLU record."))
    else if tag == 3 then Ok(Decoded(Some(Sigmoid), pos + 1))
    else if tag == 4 then Ok(Decoded(Some(TanH), pos + 1))
    else Err("Unrecognized activation function code: " + NumberText.IntToString(tag))
  }

  /** Save then Load restores the variant, including the leakiness. */
  lemma SaveLoadRoundTrip(s: seq<Unit>, pos: nat, af: Option<ActivationFunction>)
    requires SitsAt(s, pos, SaveUnits(af))
    ensures Load(s, pos) == Ok(Decoded(af, pos + |SaveUnits(af)|))
  {
    SitsAtIndex(s, pos, SaveUnits(af), 0);
    if af.Some? && af.value.LeakyReLU? {
      SitsAtIndex(s, pos, SaveUnits(af), 1);
    }
  }

  /** Every tag other than 0 to 4 is refused. */
  lemma LoadRejectsUnknownTags(s: seq<Unit>, pos: nat)
    requires pos < |s| && s[pos].Byte? && s[pos].b as int > 4
    ensures Load(s, pos).Err?
    ensures Load(s, pos).error == "Unrecognized activation function code: " + NumberText.NatToString(s[pos].b as nat)
  {
  }
}
