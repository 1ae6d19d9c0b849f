/**
 * rbf/network.go: a network is a list of units (RBF nodes and bias units); its output is the
 * element-wise sum of the units' outputs.
 */
module RbfNetwork {
  import opened Wrappers
  import opened Errors
  import opened VectorOps
  import RbfNode
  import RbfBias

  /** A network element (the ExecutableNode interface): a node object or a bias value. */
  datatype Unit = NodeUnit(node: RbfNode.Node) | BiasUnit(bias: RbfBias.Bias)
  {
    /** OutputCount, dispatched on the unit. */
    function OutputCount(): (n: nat)
      reads if NodeUnit? then {node} else {}
      ensures NodeUnit? ==> n == |node.OutputWeights|
      ensures BiasUnit? ==> n == |bias.Outputs|
    {
      if NodeUnit? then node.OutputCount() else bias.OutputCount()
    }

    /** What Calculate returns for this unit on an input. */
    function Output(input: seq<real>, g: RbfNode.Rbf): (r: Result<seq<real>, Error>)
      reads if NodeUnit? then {node} else {}
      ensures BiasUnit? ==> r.Success?
      ensures NodeUnit? && |input| != |node.InputWeights| ==>
        r == Failure(InputLengthMismatch(|input|, |node.InputWeights|))
      ensures r.Success? ==> |r.value| == OutputCount()
    {
      if NodeUnit? then RbfNode.Output(node.Params(), node.Centroid, node.Distance, input, g)
      else bias.Calculate(input)
    }
  }

  /** The node objects among the units. */
  function Footprint(units: seq<Unit>): set<object>
  {
    set i | 0 <= i < |units| && units[i].NodeUnit? :: units[i].node
  }

  /** The output counts of the units, in order. */
  function OutputCounts(units: seq<Unit>): (c: seq<nat>)
    reads Footprint(units)
    ensures |c| == |units|
    ensures forall i :: 0 <= i < |units| ==> c[i] == units[i].OutputCount()
  {
    if units == [] then []
    else
      assert Footprint(units[..|units| - 1]) <= Footprint(units);
      OutputCounts(units[..|units| - 1]) + [units[|units| - 1].OutputCount()]
  }

  /** The error NewNetwork is left with after checking the first n counts: each later unit
      whose count differs from the first one's overwrites it, so the last mismatch wins.
      The index is the position in neurons[1:], one less than the position in the list. */
  function CountMismatch(counts: seq<nat>, n: nat): (err: Option<Error>)
    requires 0 < n <= |counts|
    ensures err.None? <==> forall i :: 0 <= i < n ==> counts[i] == counts[0]
    ensures err.Some? ==>
      && err.value.MismatchedNeuronOutputs?
      && 1 <= err.value.index + 1 < n
      && counts[err.value.index + 1] != counts[0]
      && err.value.outputs == counts[err.value.index + 1]
      && err.value.expected == counts[0]
      && forall j :: err.value.index + 1 < j < n ==> counts[j] == counts[0]
  {
    var last := n - 1;
    if last == 0 then None
    else if counts[last] != counts[0] then Some(MismatchedNeuronOutputs(last - 1, counts[last], counts[0]))
    else CountMismatch(counts, last)
  }

  /** NewNetwork: fails on no units; otherwise returns the units in order, together with the
      error (if any) that the count check left behind. */
  method NewNetwork(neurons: seq<Unit>) returns (n: seq<Unit>, err: Option<Error>)
    ensures |neurons| == 0 ==> n == [] && err == Some(NoNeurons)
    ensures |neurons| > 0 ==> n == neurons && err == CountMismatch(OutputCounts(neurons), |neurons|)
  {
    if |neurons| == 0 {
      return [], Some(NoNeurons);
    }
    ghost var counts := OutputCounts(neurons);
    var count := neurons[0].OutputCount();
    err := None;
    var rest := neurons[1..];
    for i := 0 to |rest|
      invariant err == CountMismatch(counts, i + 1)
    {
      var c := rest[i].OutputCount();
      assert c == counts[i + 1];
      if c != count {
        err := Some(MismatchedNeuronOutputs(i, c, count));
      }
    }
    n := neurons;
  }

  /** The units' results on one input, in order. */
  function UnitResults(units: seq<Unit>, input: seq<real>, g: RbfNode.Rbf): (rs: seq<Result<seq<real>, Error>>)
    reads Footprint(units)
    ensures |rs| == |units|
  {
    if units == [] then []
    else
      assert Footprint(units[..|units| - 1]) <= Footprint(units);
      UnitResults(units[..|units| - 1], input, g) + [units[|units| - 1].Output(input, g)]
  }

  /** Result k of UnitResults is unit k's output. */
  lemma {:induction false} UnitResultsAt(units: seq<Unit>, input: seq<real>, g: RbfNode.Rbf, k: nat)
    requires k < |units|
    ensures UnitResults(units, input, g)[k] == units[k].Output(input, g)
    decreases |units|
  {
    var last := |units| - 1;
    assert Footprint(units[..last]) <= Footprint(units);
    if k < last {
      UnitResultsAt(units[..last], input, g, k);
    }
  }

  /** The accumulation in Network.Calculate over the results of one or more units: the first
      result sizes the output, the first error stops it, and a result of another size is
      an error naming its position. */
  function Combine(results: seq<Result<seq<real>, Error>>): (r: Result<seq<real>, Error>)
    requires |results| > 0
    ensures r.Success? ==> results[0].Success? && |r.value| == |results[0].value|
  {
    var last := |results| - 1;
    if last == 0 then First(results[0]) else Step(Combine(results[..last]), results[last], last)
  }

  /** The first unit's result: a zero output of its length, with its values added in. */
  function First(result: Result<seq<real>, Error>): (r: Result<seq<real>, Error>)
  {
    match result
    case Failure(e) => Failure(e)
    case Success(nv) => Success(Plus(Zeros(|nv|), nv))
  }

  /** One later unit, at position index, added into the accumulated output. */
  function Step(acc: Result<seq<real>, Error>, next: Result<seq<real>, Error>, index: nat)
    : (r: Result<seq<real>, Error>)
    ensures r.Success? ==> acc.Success? && |r.value| == |acc.value|
  {
    match acc
    case Failure(e) => Failure(e)
    case Success(op) =>
      match next
      case Failure(e) => Failure(e)
      case Success(nv) =>
        if |nv| != |op| then Failure(OutputNodeMismatch(|op|, index, |nv|)) else Success(Plus(op, nv))
  }

  /** Combine on a prefix one longer than another. */
  lemma CombinePrefix(results: seq<Result<seq<real>, Error>>, i: nat)
    requires i < |results|
    ensures Combine(results[..i + 1]) ==
      if i == 0 then First(results[0]) else Step(Combine(results[..i]), results[i], i)
  {
    assert results[..i + 1][..i] == results[..i];
  }

  /** What Network.Calculate returns. */
  function NetworkOutput(units: seq<Unit>, input: seq<real>, g: RbfNode.Rbf): (r: Result<seq<real>, Error>)
    reads Footprint(units)
  {
    if units == [] then Failure(NoNeuronsToCalculate) else Combine(UnitResults(units, input, g))
  }

  /** Calculate for one unit. */
  method CalculateUnit(u: Unit, input: seq<real>, g: RbfNode.Rbf) returns (r: Result<seq<real>, Error>)
    ensures r == u.Output(input, g)
  {
    if u.NodeUnit? {
      r := u.node.Calculate(input, g);
    } else {
      r := u.bias.Calculate(input);
    }
  }

  /** Network.Calculate: runs the units in order and sums their outputs element-wise. */
  method Calculate(units: seq<Unit>, input: seq<real>, g: RbfNode.Rbf) returns (r: Result<seq<real>, Error>)
    ensures r == NetworkOutput(units, input, g)
  {
    if |units| == 0 {
      return Failure(NoNeuronsToCalculate);
    }
    ghost var results := UnitResults(units, input, g);
    var configured := false;
    var op: seq<real> := [];
    var failed: Option<Error> := None;
    var i := 0;
    while i < |units| && failed.None?
      invariant 0 <= i <= |units| == |results|
      invariant unchanged(Footprint(units))
      invariant results == UnitResults(units, input, g)
      invariant failed.None? ==> (configured <==> i > 0)
      invariant failed.None? && i > 0 ==> Combine(results[..i]) == Success(op)
      invariant failed.Some? ==> Combine(results) == Failure(failed.value)
      decreases |units| - i + (if failed.None? then 1 else 0)
    {
      failed, configured, op := CalculateInto(units, input, g, results, i, configured, op);
      if failed.None? {
        i := i + 1;
      }
    }
    if failed.Some? {
      r := Failure(failed.value);
    } else {
      assert results[..|units|] == results;
      r := Success(op);
    }
  }

  /** The body of the loop of Network.Calculate: unit i is calculated and its result absorbed. */
  method CalculateInto(units: seq<Unit>, input: seq<real>, g: RbfNode.Rbf, ghost results: seq<Result<seq<real>, Error>>,
                       i: nat, configured: bool, op: seq<real>)
    returns (failed: Option<Error>, configured': bool, op': seq<real>)
    requires i < |units| && results == UnitResults(units, input, g)
    requires configured <==> i > 0
    requires i > 0 ==> Combine(results[..i]) == Success(op)
    ensures failed.None? ==> configured' && Combine(results[..i + 1]) == Success(op')
    ensures failed.Some? ==> Combine(results) == Failure(failed.value)
  {
    var nv := CalculateUnit(units[i], input, g);
    assert unchanged(Footprint(units));
    UnitResultsAt(units, input, g, i);
    failed, configured', op' := Absorb(results, i, nv, configured, op);
  }

  /** One pass of the loop of Network.Calculate: unit i's result nv is checked and added
      into op, which the first result sizes.  Afterwards op holds the combination of the
      first i + 1 results, or the error returned is that of the whole combination. */
  method Absorb(ghost results: seq<Result<seq<real>, Error>>, i: nat, nv: Result<seq<real>, Error>,
                configured: bool, op: seq<real>)
    returns (failed: Option<Error>, configured': bool, op': seq<real>)
    requires i < |results| && nv == results[i]
    requires configured <==> i > 0
    requires i > 0 ==> Combine(results[..i]) == Success(op)
    ensures failed.None? ==> configured' && Combine(results[..i + 1]) == Success(op')
    ensures failed.Some? ==> Combine(results) == Failure(failed.value)
  {
    configured', op' := configured, op;
    if nv.Failure? {
      StopsAt(results, i, op);
      return Some(nv.error), configured', op';
    }
    if !configured' {
      op' := Zeros(|nv.value|);
      configured' := true;
    }
    if |nv.value| != |op'| {
      StopsAt(results, i, op);
      return Some(OutputNodeMismatch(|op'|, i, |nv.value|)), configured', op';
    }
    CombinePrefix(results, i);
    op' := AddInto(op', nv.value);
    failed := None;
  }

  /** The loop's exits: the first failing result, or the first whose size differs from the
      accumulated output, decides the whole combination. */
  lemma StopsAt(results: seq<Result<seq<real>, Error>>, i: nat, op: seq<real>)
    requires i < |results|
    requires i > 0 ==> Combine(results[..i]) == Success(op)
    requires results[i].Failure? || (i > 0 && |results[i].value| != |op|)
    ensures Combine(results) ==
      if results[i].Failure? then Failure(results[i].error)
      else Failure(OutputNodeMismatch(|op|, i, |results[i].value|))
  {
    CombinePrefix(results, i);
    FailureStops(results, i + 1);
  }

  /** Once a prefix of the results has failed, the whole combination fails the same way. */
  lemma {:induction false} FailureStops(results: seq<Result<seq<real>, Error>>, k: nat)
    requires 0 < k <= |results|
    requires Combine(results[..k]).Failure?
    ensures Combine(results) == Combine(results[..k])
    decreases |results| - k
  {
    if k < |results| {
      CombinePrefix(results, k);
      FailureStops(results, k + 1);
    } else {
      assert results[..k] == results;
    }
  }

  /** Every result succeeded, with the length of the first one. */
  predicate Uniform(results: seq<Result<seq<real>, Error>>)
    requires |results| > 0
  {
    && results[0].Success?
    && forall i :: 0 <= i < |results| ==> results[i].Success? && |results[i].value| == |results[0].value|
  }

  /** The outputs of successful results. */
  function Values(results: seq<Result<seq<real>, Error>>): (vs: seq<seq<real>>)
    requires forall i :: 0 <= i < |results| ==> results[i].Success?
    ensures |vs| == |results|
    ensures forall i :: 0 <= i < |results| ==> vs[i] == results[i].value
  {
    seq(|results|, i requires 0 <= i < |results| && results[i].Success? => results[i].value)
  }

  /** The network output exists exactly when every unit succeeds with the first unit's
      output length, and it is then the sum of all unit outputs, taken in order. */
  lemma {:induction false} CombineUniform(results: seq<Result<seq<real>, Error>>)
    requires |results| > 0
    ensures Combine(results).Success? <==> Uniform(results)
    ensures Uniform(results) ==>
      Combine(results).value == SumRows(Values(results), |results[0].value|)
  {
    var last := |results| - 1;
    if last > 0 {
      var init := results[..last];
      CombineUniform(init);
      if Uniform(results) {
        assert Uniform(init);
        assert Values(results)[..last] == Values(init);
      }
    } else if results[0].Success? {
      assert Values(results)[..0] == [];
    }
  }

  /** Component by component: on success, output j is the sum over the units of their
      output j. */
  lemma CombineIsColumnSum(results: seq<Result<seq<real>, Error>>)
    requires |results| > 0 && Uniform(results)
    ensures Combine(results).Success?
    ensures forall j :: 0 <= j < |Combine(results).value| ==>
      Combine(results).value[j] == ColumnSum(Values(results), j)
  {
    CombineUniform(results);
    SumRowsIsColumnSum(Values(results), |results[0].value|);
  }

  /** The first unit that fails, or whose output length differs from the first unit's,
      decides the error: its own error, or a mismatch naming its position. */
  lemma FirstFault(results: seq<Result<seq<real>, Error>>, k: nat)
    requires k < |results|
    requires k > 0 ==> results[0].Success?
    requires forall i :: 0 <= i < k ==> results[i].Success? && |results[i].value| == |results[0].value|
    requires results[k].Failure? || (k > 0 && |results[k].value| != |results[0].value|)
    ensures Combine(results) ==
      if results[k].Failure? then Failure(results[k].error)
      else Failure(OutputNodeMismatch(|results[0].value|, k, |results[k].value|))
  {
    if k == 0 {
      StopsAt(results, 0, []);
    } else {
      var init := results[..k];
      assert Uniform(init);
      CombineUniform(init);
      StopsAt(results, k, Combine(init).value);
    }
  }

  /** A unit's successful output has OutputCount values. */
  lemma OutputHasOutputCount(u: Unit, input: seq<real>, g: RbfNode.Rbf)
    ensures u.Output(input, g).Success? ==> |u.Output(input, g).value| == u.OutputCount()
  {
  }

  /** A network that NewNetwork accepted, whose units all succeed on an input, computes the
      element-wise sum of their outputs. */
  lemma AcceptedNetworkSums(units: seq<Unit>, input: seq<real>, g: RbfNode.Rbf)
    requires |units| > 0 && CountMismatch(OutputCounts(units), |units|).None?
    requires forall i :: 0 <= i < |units| ==> units[i].Output(input, g).Success?
    ensures NetworkOutput(units, input, g).Success?
    ensures |NetworkOutput(units, input, g).value| == units[0].OutputCount()
    ensures var results := UnitResults(units, input, g);
      && (forall i :: 0 <= i < |units| ==> results[i] == units[i].Output(input, g))
      && forall j :: 0 <= j < |NetworkOutput(units, input, g).value| ==>
           NetworkOutput(units, input, g).value[j] == ColumnSum(Values(results), j)
  {
    var results := UnitResults(units, input, g);
    forall i | 0 <= i < |units|
      ensures results[i] == units[i].Output(input, g)
    {
      UnitResultsAt(units, input, g, i);
    }
    forall i | 0 <= i < |units|
      ensures |results[i].value| == |results[0].value|
    {
      OutputHasOutputCount(units[i], input, g);
      OutputHasOutputCount(units[0], input, g);
    }
    CombineIsColumnSum(results);
    OutputHasOutputCount(units[0], input, g);
  }
}
