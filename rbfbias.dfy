/** rbf/biasnode.go: a unit with constant output. */
module RbfBias {
  import opened Wrappers
  import opened Errors

  /** rbf.Bias.  Calculate has a value receiver, so a Bias is a value. It has no memory
      methods and is therefore not trainable. */
  datatype Bias = Bias(Outputs: seq<real>)
  {
    /** OutputCount: one per output value. */
    function OutputCount(): (n: nat)
      ensures n == |Outputs|
    {
      |Outputs|
    }

    /** Calculate: the outputs, whatever the input. */
    function Calculate(input: seq<real>): (r: Result<seq<real>, Error>)
      ensures r.Success? && r.value == Outputs
      ensures |r.value| == OutputCount()
    {
      Success(Outputs)
    }
  }

  /** Bias.Calculate never fails, ignores its input, and yields OutputCount values. */
  lemma CalculateIgnoresInput(b: Bias, input: seq<real>, other: seq<real>)
    ensures b.Calculate(input).Success?
    ensures b.Calculate(input) == b.Calculate(other)
    ensures |b.Calculate(input).value| == b.OutputCount()
  {
  }

  /** NewBias: count outputs, each set to 1.0 in a loop.  make panics on a negative count. */
  method NewBias(count: nat) returns (b: Bias)
    ensures b.OutputCount() == count
    ensures forall i :: 0 <= i < |b.Outputs| ==> b.Outputs[i] == 1.0
  {
    var outputs := seq(count, _ => 0.0);
    var i := 0;
    while i < |outputs|
      invariant 0 <= i <= |outputs| == count
      invariant forall k :: 0 <= k < i ==> outputs[k] == 1.0
    {
      outputs := outputs[i := 1.0];
      i := i + 1;
    }
    b := Bias(outputs);
  }
}
