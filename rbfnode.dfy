/**
 * rbf/node.go: a radial-basis-function node, its flattened parameter vector
 * ("memory") and its output.  The Neuron type of rbf/network.go is a verbatim
 * duplicate of Node and is modelled by the same class.
 */
module RbfNode {
  import opened Wrappers
  import opened Errors
  import Distance

  /**
   * The radial basis function a node applies to its distance, as g(b, c, x) with
   * b the peak position and c the deviation: the node evaluates NewGaussian(1.0, Width, Center),
   * so it passes Width as b and Center as c.  The Gaussian itself is transcendental and
   * is left abstract.
   */
  type Rbf = (real, real, real) -> real

  /** The trainable state of a node: everything GetMemory exposes. */
  datatype Parameters = Parameters(InputWeights: seq<real>, Center: real, Width: real, OutputWeights: seq<real>)

  /** The memory layout: InputWeights, then Center, then Width, then OutputWeights. */
  function Flatten(p: Parameters): (m: seq<real>)
    ensures |m| == |p.InputWeights| + 2 + |p.OutputWeights|
    ensures m[..|p.InputWeights|] == p.InputWeights
    ensures m[|p.InputWeights|] == p.Center && m[|p.InputWeights| + 1] == p.Width
    ensures m[|p.InputWeights| + 2..] == p.OutputWeights
  {
    p.InputWeights + [p.Center, p.Width] + p.OutputWeights
  }

  /** Reading a memory vector back by offset, given the number k of input weights; no length
      is checked, so the vector must hold at least the k weights, Center and Width. */
  function Unflatten(m: seq<real>, k: nat): (p: Parameters)
    requires |m| >= k + 2
    ensures |p.InputWeights| == k
    ensures |p.OutputWeights| == |m| - k - 2
  {
    Parameters(m[..k], m[k], m[k + 1], m[k + 2..])
  }

  /** Reading back the flattened parameters restores them. */
  lemma UnflattenFlatten(p: Parameters)
    ensures Unflatten(Flatten(p), |p.InputWeights|) == p
  {
  }

  /** Flattening what was read back gives the vector again: every memory vector long enough
      is the memory of some parameters. */
  lemma FlattenUnflatten(m: seq<real>, k: nat)
    requires |m| >= k + 2
    ensures Flatten(Unflatten(m, k)) == m
  {
    assert m == m[..k] + [m[k], m[k + 1]] + m[k + 2..];
  }

  /** The input scaled component by component by the input weights. */
  function Scaled(input: seq<real>, weights: seq<real>): (s: seq<real>)
    requires |input| == |weights|
    ensures |s| == |input|
    ensures forall i :: 0 <= i < |s| ==> s[i] == input[i] * weights[i]
  {
    if input == [] then []
    else Scaled(input[..|input| - 1], weights[..|weights| - 1]) + [input[|input| - 1] * weights[|weights| - 1]]
  }

  /** Every output weight multiplied by the activation. */
  function Weighted(activation: real, weights: seq<real>): (op: seq<real>)
    ensures |op| == |weights|
    ensures forall i :: 0 <= i < |op| ==> op[i] == activation * weights[i]
  {
    if weights == [] then []
    else Weighted(activation, weights[..|weights| - 1]) + [activation * weights[|weights| - 1]]
  }

  /** What Node.Calculate computes from the node's state. */
  function Output(p: Parameters, centroid: seq<real>, dist: Distance.Function, input: seq<real>, g: Rbf)
    : (r: Result<seq<real>, Error>)
    ensures |input| != |p.InputWeights| ==> r == Failure(InputLengthMismatch(|input|, |p.InputWeights|))
    ensures |input| == |p.InputWeights| && dist(Scaled(input, p.InputWeights), centroid).Failure? ==>
      r == Failure(dist(Scaled(input, p.InputWeights), centroid).error)
    ensures r.Success? ==>
      |input| == |p.InputWeights| && dist(Scaled(input, p.InputWeights), centroid).Success? &&
      var a := g(p.Width, p.Center, dist(Scaled(input, p.InputWeights), centroid).value);
      |r.value| == |p.OutputWeights| &&
      forall i :: 0 <= i < |r.value| ==> r.value[i] == a * p.OutputWeights[i]
  {
    if |input| != |p.InputWeights| then Failure(InputLengthMismatch(|input|, |p.InputWeights|))
    else
      match dist(Scaled(input, p.InputWeights), centroid)
      case Failure(e) => Failure(e)
      case Success(d) => Success(Weighted(g(p.Width, p.Center, d), p.OutputWeights))
  }

  /** rbf.Node (and its duplicate rbf.Neuron). */
  class Node {
    var InputWeights: seq<real>
    var Centroid: seq<real>
    var Distance: Distance.Function
    var Center: real
    var Width: real
    var OutputWeights: seq<real>

    /** The struct literal. */
    constructor(inputWeights: seq<real>, centroid: seq<real>, dist: Distance.Function,
                center: real, width: real, outputWeights: seq<real>)
      ensures InputWeights == inputWeights && Centroid == centroid && Distance == dist
      ensures Center == center && Width == width && OutputWeights == outputWeights
    {
      InputWeights := inputWeights;
      Centroid := centroid;
      Distance := dist;
      Center := center;
      Width := width;
      OutputWeights := outputWeights;
    }

    /** The node's trainable state as a value. */
    function Params(): Parameters
      reads this
    {
      Parameters(InputWeights, Center, Width, OutputWeights)
    }

    /** OutputCount: one output per output weight. */
    function OutputCount(): (n: nat)
      reads this
      ensures n == |OutputWeights|
    {
      |OutputWeights|
    }

    /** GetMemorySize: the length of the memory vector. */
    function GetMemorySize(): (n: nat)
      reads this
      ensures n == |GetMemory()|
      ensures n == |InputWeights| + 2 + OutputCount()
    {
      |InputWeights| + 2 + |OutputWeights|
    }

    /** GetMemory: the parameters in the Flatten layout. */
    function GetMemory(): (m: seq<real>)
      reads this
      ensures m == Flatten(Params())
    {
      InputWeights + [Center] + [Width] + OutputWeights
    }

    /** SetMemory: moves a cursor through m, taking as many input weights as the node
        already has, then Center, then Width, and all the rest as output weights. */
    method SetMemory(m: seq<real>)
      requires |m| >= |InputWeights| + 2
      modifies this
      ensures Params() == Unflatten(m, |old(InputWeights)|)
      ensures Centroid == old(Centroid) && Distance == old(Distance)
      ensures GetMemory() == m
      ensures m == old(GetMemory()) ==> Params() == old(Params())
    {
      var index := 0;
      InputWeights := m[index..|InputWeights|];
      index := |InputWeights|;
      Center := m[index];
      index := index + 1;
      Width := m[index];
      index := index + 1;
      OutputWeights := m[index..];
      FlattenUnflatten(m, |InputWeights|);
      UnflattenFlatten(old(Params()));
    }

    /** Calculate: checks the input length, scales the input by the input weights, measures
        its distance to the centroid, and weights the RBF of that distance by each output
        weight.  A distance error is passed through unchanged. */
    method Calculate(input: seq<real>, g: Rbf) returns (r: Result<seq<real>, Error>)
      ensures r == Output(Params(), Centroid, Distance, input, g)
      ensures r.Success? ==> |r.value| == OutputCount()
    {
      if |InputWeights| != |input| {
        return Failure(InputLengthMismatch(|input|, |InputWeights|));
      }
      var scaledInput := [];
      for i := 0 to |input|
        invariant |scaledInput| == i
        invariant forall k :: 0 <= k < i ==> scaledInput[k] == input[k] * InputWeights[k]
      {
        scaledInput := scaledInput + [input[i] * InputWeights[i]];
      }
      assert scaledInput == Scaled(input, InputWeights);
      var d := Distance(scaledInput, Centroid);
      if d.Failure? {
        return Failure(d.error);
      }
      var output := g(Width, Center, d.value);
      var op := [];
      for i := 0 to |OutputWeights|
        invariant |op| == i
        invariant forall k :: 0 <= k < i ==> op[k] == output * OutputWeights[k]
      {
        op := op + [output * OutputWeights[i]];
      }
      var weighted := Weighted(output, OutputWeights);
      assert forall k :: 0 <= k < |op| ==> op[k] == weighted[k];
      assert op == weighted;
      r := Success(op);
    }
  }

  /** Setting a node's memory to its own memory changes neither its parameters nor its
      output on any input. */
  lemma MemoryRoundTripKeepsOutput(p: Parameters, centroid: seq<real>, dist: Distance.Function,
                                   input: seq<real>, g: Rbf)
    ensures Output(Unflatten(Flatten(p), |p.InputWeights|), centroid, dist, input, g) ==
            Output(p, centroid, dist, input, g)
  {
    UnflattenFlatten(p);
  }
}
