/**
 * training/complete.go: the training session.  Each iteration asks the algorithm for the
 * next memory vector, scoring candidates with the trainee's mean distance on the data,
 * loads the vector into the trainee and polls the stoppers with the iteration count and
 * the algorithm's best error.
 */
module TrainingLoop {
  import opened Wrappers
  import opened Errors
  import opened Training
  import Distance
  import RbfNode
  import RandomSource
  import RandomGreedySearch
  import HillClimbingSearch

  /** The algorithms Complete can drive; random greedy search carries its random source. */
  datatype Algorithm =
    | Greedy(rg: RandomGreedySearch.RandomGreedy, rng: RandomSource.Source)
    | Climbing(hc: HillClimbingSearch.HillClimbing)
  {
    function Objects(): set<object>
    {
      if Greedy? then {rg, rng} else {hc}
    }

    ghost predicate Valid()
      reads Objects()
    {
      if Greedy? then rg.Valid() else hc.Valid()
    }

    /** The length of the algorithm's current vector. */
    function Size(): (n: nat)
      reads Objects()
    {
      if Greedy? then |rg.current| else |hc.current|
    }

    /** Algorithm.BestError. */
    function BestError(): (e: real)
      reads Objects()
    {
      if Greedy? then rg.BestError() else hc.BestError()
    }

    /** The vector the algorithm currently holds. */
    function Current(): (v: seq<real>)
      reads Objects()
      ensures |v| == Size()
    {
      if Greedy? then rg.current else hc.current
    }

    /** BestError after each Next that succeeded. */
    ghost function BestErrors(): (es: seq<real>)
      reads Objects()
    {
      if Greedy? then rg.bestErrors else hc.bestErrors
    }

    /** The vector each Next that succeeded returned. */
    ghost function Proposals(): (vs: seq<seq<real>>)
      reads Objects()
    {
      if Greedy? then rg.proposals else hc.proposals
    }
  }

  /** Algorithm.Next, dispatched on the algorithm: it returns the vector the algorithm now
      holds, whose length never changes; a success records BestError and that vector in
      the histories, a failure leaves them alone. */
  method NextOf(a: Algorithm, ev: Evaluator) returns (m: seq<real>, err: Option<Error>)
    requires a.Valid()
    modifies a.Objects()
    ensures a.Valid() && a.Size() == old(a.Size())
    ensures m == a.Current()
    ensures err.None? ==>
      a.BestErrors() == old(a.BestErrors()) + [a.BestError()] && a.Proposals() == old(a.Proposals()) + [m]
    ensures err.Some? ==> a.BestErrors() == old(a.BestErrors()) && a.Proposals() == old(a.Proposals())
  {
    if a.Greedy? {
      m, err := a.rg.Next(ev, a.rng);
    } else {
      m, err := a.hc.Next(ev);
    }
  }

  /** The stoppers that depend only on the iteration count and the error. */
  predicate AllThresholds(stoppers: seq<Stopper>)
  {
    forall j :: 0 <= j < |stoppers| ==> stoppers[j].IsThreshold()
  }

  /** Whether some threshold stopper fires. */
  predicate AnyFires(stoppers: seq<Stopper>, iterations: int, e: real)
    requires AllThresholds(stoppers)
  {
    exists j :: 0 <= j < |stoppers| && ThresholdFires(stoppers[j], iterations, e)
  }

  /** For threshold stoppers, shouldStop's answer is whether any of them fires. */
  lemma FirstFiringOfThresholds(stoppers: seq<Stopper>, iterations: int, e: real)
    requires AllThresholds(stoppers)
    ensures FirstFiring(stoppers, iterations, e) < |stoppers| <==> AnyFires(stoppers, iterations, e)
  {
    var k := FirstFiring(stoppers, iterations, e);
    if k < |stoppers| {
      assert ThresholdFires(stoppers[k], iterations, e);
    } else {
      forall j | 0 <= j < |stoppers|
        ensures !ThresholdFires(stoppers[j], iterations, e)
      {
        assert !Fires(stoppers[j], iterations, e);
      }
    }
  }

  /**
   * Complete.  The loop runs until the stoppers fire after an iteration, or the algorithm
   * fails, which ends the session with the error wrapped with the iteration count; fuel
   * bounds the iterations (halted says it ran out).  The evaluator scores the trainee as it
   * stands when Next is called.  errors holds the best error after each iteration and
   * memories the vector each iteration loaded into the trainee: they are exactly what the
   * algorithm's Next calls of this session added to its histories.
   */
  method Complete(t: RbfNode.Node, d: seq<Data>, a: Algorithm, dist: Distance.Function, g: RbfNode.Rbf,
                  stoppers: seq<Stopper>, fuel: nat)
    returns (iterations: nat, err: Option<Error>, halted: bool,
             ghost errors: seq<real>, ghost memories: seq<seq<real>>)
    requires |d| > 0
    requires a.Valid() && a.Size() >= |t.InputWeights| + 2
    modifies t, a.Objects(), StopperObjects(stoppers)
    ensures iterations <= fuel && (halted ==> iterations == fuel && err.None?)
    ensures err.Some? ==> err.value.IterationFailed? && err.value.iteration == iterations
    ensures |errors| == |memories| == iterations
    ensures err.None? && !halted ==> iterations > 0 && errors[iterations - 1] == a.BestError()
    ensures a.BestErrors() == old(a.BestErrors()) + errors
    ensures a.Proposals() == old(a.Proposals()) + memories
    ensures iterations > 0 ==> t.GetMemory() == memories[iterations - 1]
    ensures err.None? && iterations > 0 ==> t.GetMemory() == a.Current()
    ensures t.Centroid == old(t.Centroid) && t.Distance == old(t.Distance)
    ensures |t.InputWeights| == old(|t.InputWeights|)
    ensures AllThresholds(stoppers) ==>
      forall k :: 0 <= k < iterations - 1 ==> !AnyFires(stoppers, k + 1, errors[k])
    ensures AllThresholds(stoppers) && iterations > 0 ==>
      (AnyFires(stoppers, iterations, errors[iterations - 1]) <==> err.None? && !halted)
  {
    ghost var k := |t.InputWeights|;
    iterations, err, halted, errors, memories := Session(t, d, a, dist, g, stoppers, fuel, k, a.BestErrors(), a.Proposals());
    if iterations > 0 {
      RbfNode.FlattenUnflatten(memories[iterations - 1], k);
      if AllThresholds(stoppers) {
        NoneFiredBefore(stoppers, errors, iterations - 1);
      }
    }
  }

  /** The loop of Complete, its outcome stated through Loaded and NoneFired. */
  method Session(t: RbfNode.Node, d: seq<Data>, a: Algorithm, dist: Distance.Function, g: RbfNode.Rbf,
                 stoppers: seq<Stopper>, fuel: nat, ghost k: nat, ghost errors0: seq<real>, ghost memories0: seq<seq<real>>)
    returns (iterations: nat, err: Option<Error>, halted: bool,
             ghost errors: seq<real>, ghost memories: seq<seq<real>>)
    requires |d| > 0
    requires Loaded(t, a, k, errors0, memories0, [], [])
    modifies t, a.Objects(), StopperObjects(stoppers)
    ensures iterations <= fuel && (halted ==> iterations == fuel && err.None?)
    ensures err.Some? ==> err.value.IterationFailed? && err.value.iteration == iterations
    ensures Loaded(t, a, k, errors0, memories0, errors, memories) && |errors| == iterations
    ensures err.None? && iterations > 0 ==> memories[iterations - 1] == a.Current()
    ensures err.None? && !halted ==> iterations > 0 && errors[iterations - 1] == a.BestError()
    ensures t.Centroid == old(t.Centroid) && t.Distance == old(t.Distance)
    ensures AllThresholds(stoppers) && iterations > 0 ==>
      && NoneFired(stoppers, errors[..iterations - 1])
      && (AnyFires(stoppers, iterations, errors[iterations - 1]) <==> err.None? && !halted)
  {
    iterations, err, halted := 0, None, false;
    errors, memories := [], [];
    while true
      invariant Loaded(t, a, k, errors0, memories0, errors, memories)
      invariant iterations <= fuel && |errors| == iterations
      invariant iterations > 0 ==> memories[iterations - 1] == a.Current()
      invariant t.Centroid == old(t.Centroid) && t.Distance == old(t.Distance)
      invariant AllThresholds(stoppers) && iterations > 0 ==>
        NoneFired(stoppers, errors[..iterations - 1]) && !AnyFires(stoppers, iterations, errors[iterations - 1])
      decreases fuel - iterations
    {
      if iterations == fuel {
        halted := true;
        return;
      }
      var m, best, e, stop := Pass(t, d, a, dist, g, stoppers, iterations, k, errors0, memories0, errors, memories);
      if e.Some? {
        err := Some(IterationFailed(iterations, e.value));
        return;
      }
      if AllThresholds(stoppers) {
        NoneFiredExtend(stoppers, errors, best);
      }
      iterations := iterations + 1;
      errors, memories := errors + [best], memories + [m];
      if stop {
        return;
      }
    }
  }

  /**
   * What holds of the trainee and the algorithm between two passes of Complete, once the
   * session has added errors and memories to the histories that started as errors0 and
   * memories0: the algorithm is valid, its vectors are long enough for a trainee with k
   * input weights, and the trainee holds the last memory.
   */
  ghost predicate Loaded(t: RbfNode.Node, a: Algorithm, k: nat, errors0: seq<real>, memories0: seq<seq<real>>,
                         errors: seq<real>, memories: seq<seq<real>>)
    reads t, a.Objects()
  {
    && a.Valid() && a.Size() >= k + 2 && |t.InputWeights| == k
    && |errors| == |memories|
    && a.BestErrors() == errors0 + errors && a.Proposals() == memories0 + memories
    && (memories != [] ==>
          |memories[|memories| - 1]| >= k + 2 && t.Params() == RbfNode.Unflatten(memories[|memories| - 1], k))
  }

  /** No threshold stopper fired after any of the iterations whose best errors are listed. */
  ghost predicate NoneFired(stoppers: seq<Stopper>, errors: seq<real>)
    requires AllThresholds(stoppers)
    decreases |errors|
  {
    errors == [] ||
    (NoneFired(stoppers, errors[..|errors| - 1]) && !AnyFires(stoppers, |errors|, errors[|errors| - 1]))
  }

  /** A pass that did not stop extends the iterations after which nothing fired. */
  lemma NoneFiredExtend(stoppers: seq<Stopper>, errors: seq<real>, best: real)
    requires AllThresholds(stoppers)
    requires errors != [] ==>
      NoneFired(stoppers, errors[..|errors| - 1]) && !AnyFires(stoppers, |errors|, errors[|errors| - 1])
    ensures NoneFired(stoppers, (errors + [best])[..|errors|])
  {
    assert (errors + [best])[..|errors|] == errors;
  }

  /** NoneFired of the first n best errors: no stopper fired after any of those iterations. */
  lemma {:induction false} NoneFiredBefore(stoppers: seq<Stopper>, errors: seq<real>, n: nat)
    requires AllThresholds(stoppers) && n <= |errors|
    requires NoneFired(stoppers, errors[..n])
    ensures forall k :: 0 <= k < n ==> !AnyFires(stoppers, k + 1, errors[k])
  {
    if n > 0 {
      assert errors[..n][..n - 1] == errors[..n - 1];
      NoneFiredBefore(stoppers, errors, n - 1);
    }
  }

  /** A history extended by one entry is the session's start followed by the longer session. */
  lemma AppendToHistory<T>(start: seq<T>, session: seq<T>, x: T)
    ensures (start + session) + [x] == start + (session + [x])
  {
  }

  /** One pass of the loop of Complete: Train, then on success shouldStop with the new
      iteration count and the algorithm's best error.  A success appends the best error and
      the loaded vector to the session; a failure leaves the trainee and the histories alone. */
  method Pass(t: RbfNode.Node, d: seq<Data>, a: Algorithm, dist: Distance.Function, g: RbfNode.Rbf,
              stoppers: seq<Stopper>, iterations: nat, ghost k: nat, ghost errors0: seq<real>, ghost memories0: seq<seq<real>>,
              ghost errors: seq<real>, ghost memories: seq<seq<real>>)
    returns (m: seq<real>, best: real, err: Option<Error>, stop: bool)
    requires |d| > 0
    requires Loaded(t, a, k, errors0, memories0, errors, memories) && |errors| == iterations
    modifies t, a.Objects(), StopperObjects(stoppers)
    ensures t.Centroid == old(t.Centroid) && t.Distance == old(t.Distance)
    ensures err.None? ==>
      && Loaded(t, a, k, errors0, memories0, errors + [best], memories + [m])
      && m == a.Current() && best == a.BestError()
      && (AllThresholds(stoppers) ==> (stop <==> AnyFires(stoppers, iterations + 1, best)))
    ensures err.Some? ==> Loaded(t, a, k, errors0, memories0, errors, memories)
  {
    m, err := Train(t, d, a, dist, g);
    best, stop := a.BestError(), false;
    if err.None? {
      AppendToHistory(errors0, errors, best);
      AppendToHistory(memories0, memories, m);
      StoppersPollOnlySignals(stoppers, t, a);
      stop := Poll(iterations + 1, best, stoppers);
    }
  }

  /** The first half of a pass of the loop of Complete: Next, with an evaluator of the
      trainee as it stands, then SetMemory with the vector on success. */
  method Train(t: RbfNode.Node, d: seq<Data>, a: Algorithm, dist: Distance.Function, g: RbfNode.Rbf)
    returns (m: seq<real>, err: Option<Error>)
    requires |d| > 0
    requires a.Valid() && a.Size() >= |t.InputWeights| + 2
    modifies t, a.Objects()
    ensures a.Valid() && a.Size() == old(a.Size())
    ensures t.Centroid == old(t.Centroid) && t.Distance == old(t.Distance)
    ensures |t.InputWeights| == old(|t.InputWeights|)
    ensures m == a.Current()
    ensures err.None? ==> t.GetMemory() == m
    ensures err.None? ==> t.Params() == RbfNode.Unflatten(m, old(|t.InputWeights|))
    ensures err.None? ==>
      a.BestErrors() == old(a.BestErrors()) + [a.BestError()] && a.Proposals() == old(a.Proposals()) + [m]
    ensures err.Some? ==> t.Params() == old(t.Params()) && t.GetMemory() == old(t.GetMemory())
    ensures err.Some? ==> a.BestErrors() == old(a.BestErrors()) && a.Proposals() == old(a.Proposals())
  {
    var p, centroid, nodeDistance := t.Params(), t.Centroid, t.Distance;
    var ev: Evaluator := v => Evaluate(p, centroid, nodeDistance, d, dist, g);
    m, err := NextOf(a, ev);
    if err.None? {
      t.SetMemory(m);
    }
  }

  /** The second half of a pass: shouldStop with the iteration count and the best error;
      with threshold stoppers only, it stops exactly when one of them fires. */
  method Poll(iterations: nat, best: real, stoppers: seq<Stopper>) returns (stop: bool)
    modifies StopperObjects(stoppers)
    ensures AllThresholds(stoppers) ==> (stop <==> AnyFires(stoppers, iterations, best))
  {
    if AllThresholds(stoppers) {
      FirstFiringOfThresholds(stoppers, iterations, best);
    }
    stop := ShouldStop(iterations, best, stoppers);
  }

  /** The stoppers poll channels and contexts only, never the trainee or the algorithm. */
  lemma StoppersPollOnlySignals(stoppers: seq<Stopper>, t: RbfNode.Node, a: Algorithm)
    ensures t !in StopperObjects(stoppers) && a.Objects() !! StopperObjects(stoppers)
  {
    forall o | o in StopperObjects(stoppers)
      ensures o is Channel || o is Context
    {
      var i :| 0 <= i < |stoppers| && o in stoppers[i].Objects();
    }
  }

  /** With StopAfterXIterations(x) alone, x >= 1, a session that ends by stopping has run
      exactly x iterations. */
  lemma AfterIterationsRunsExactly(x: int, iterations: nat, errors: seq<real>)
    requires x >= 1 && iterations > 0 && |errors| == iterations
    requires forall k :: 0 <= k < iterations - 1 ==> !AnyFires([AfterIterations(x)], k + 1, errors[k])
    requires AnyFires([AfterIterations(x)], iterations, errors[iterations - 1])
    ensures iterations == x
  {
    AfterIterationsFiresAtX([AfterIterations(x)], x, errors);
  }

  /** A session's stoppers led by StopAfterXIterations(x) fire at iteration x. */
  lemma AfterIterationsFiresAtX(stoppers: seq<Stopper>, x: int, errors: seq<real>)
    requires AllThresholds(stoppers) && |stoppers| > 0 && stoppers[0] == AfterIterations(x)
    ensures 1 <= x <= |errors| ==> AnyFires(stoppers, x, errors[x - 1])
  {
    if 1 <= x <= |errors| {
      assert ThresholdFires(stoppers[0], x, errors[x - 1]);
    }
  }

  /** Composed stoppers halt at the earlier of their conditions: with StopAfterXIterations(x)
      and StopWhenErrorIsLessThan(limit), x >= 1, a session that ends by stopping ran at most
      x iterations, every earlier best error was at least limit, and it ran fewer than x only
      because its last best error fell below limit. */
  lemma StopsAtEarlierOf(x: int, limit: real, iterations: nat, errors: seq<real>)
    requires x >= 1 && iterations > 0 && |errors| == iterations
    requires forall k :: 0 <= k < iterations - 1 ==>
      !AnyFires([AfterIterations(x), ErrorBelow(limit)], k + 1, errors[k])
    requires AnyFires([AfterIterations(x), ErrorBelow(limit)], iterations, errors[iterations - 1])
    ensures iterations <= x
    ensures forall k :: 0 <= k < iterations - 1 ==> errors[k] >= limit
    ensures iterations < x ==> errors[iterations - 1] < limit
  {
    AfterIterationsFiresAtX([AfterIterations(x), ErrorBelow(limit)], x, errors);
    forall k | 0 <= k < iterations - 1
      ensures errors[k] >= limit
    {
      assert !ThresholdFires([AfterIterations(x), ErrorBelow(limit)][1], k + 1, errors[k]);
    }
    if iterations < x {
      var j :| 0 <= j < 2 && ThresholdFires([AfterIterations(x), ErrorBelow(limit)][j], iterations, errors[iterations - 1]);
    }
  }
}
