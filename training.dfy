/**
 * training/complete.go, apart from the driver loop itself: the training data, the score an
 * evaluation produces, evaluateTrainee, and the stoppers that end a training session.
 */
module Training {
  import opened Wrappers
  import opened Errors
  import Distance
  import RbfNode

  /** math.MaxFloat64, the "nothing measured yet" error. */
  const MaxFloat64: real := 1.7976931348623157e308

  /** training.Data. */
  datatype Data = Data(Input: seq<real>, Expected: seq<real>)

  /** What an Evaluator returns: Go returns the error value together with the error, so a
      failed evaluation still carries the partial sum. */
  datatype Score = Score(value: real, err: Option<Error>)

  /**
   * training.Evaluator.  Go's evaluator takes no argument and reads state through its
   * closure; here it is given the vector the algorithm currently holds, which is what a
   * closure over an aliased memory slice sees.
   */
  type Evaluator = seq<real> -> Score

  /** The loop of evaluateTrainee over the first |d| data: the sum of the distances, or the
      first error with the sum accumulated before it. */
  function Accumulate(p: RbfNode.Parameters, centroid: seq<real>, nodeDistance: Distance.Function,
                      d: seq<Data>, dist: Distance.Function, g: RbfNode.Rbf): (s: Score)
    ensures s.err.Some? ==> s.err.value.TrainingDataFailed? || s.err.value.DistanceFailed?
  {
    if d == [] then Score(0.0, None)
    else
      var acc := Accumulate(p, centroid, nodeDistance, d[..|d| - 1], dist, g);
      var td := d[|d| - 1];
      if acc.err.Some? then acc
      else
        match RbfNode.Output(p, centroid, nodeDistance, td.Input, g)
        case Failure(e) => Score(acc.value, Some(TrainingDataFailed(e)))
        case Success(actual) =>
          match dist(actual, td.Expected)
          case Failure(e) => Score(acc.value, Some(DistanceFailed(e)))
          case Success(de) => Score(acc.value + de, None)
  }

  /** evaluateTrainee: the mean distance between the trainee's output and the expected
      output.  Go divides by len(d) even when it is 0 (giving NaN), so d must not be empty. */
  function Evaluate(p: RbfNode.Parameters, centroid: seq<real>, nodeDistance: Distance.Function,
                    d: seq<Data>, dist: Distance.Function, g: RbfNode.Rbf): (s: Score)
    requires |d| > 0
    ensures s.err == Accumulate(p, centroid, nodeDistance, d, dist, g).err
    ensures s.err.None? ==> s.value * |d| as real == Accumulate(p, centroid, nodeDistance, d, dist, g).value
    ensures s.err.Some? ==> s.err.value.TrainingDataFailed? || s.err.value.DistanceFailed?
  {
    var acc := Accumulate(p, centroid, nodeDistance, d, dist, g);
    if acc.err.Some? then acc else Score(acc.value / |d| as real, None)
  }

  /** The distance a trainee's output on one datum has from the expected output, if both
      the trainee and the distance function succeed. */
  function DatumDistance(p: RbfNode.Parameters, centroid: seq<real>, nodeDistance: Distance.Function,
                         td: Data, dist: Distance.Function, g: RbfNode.Rbf): Option<real>
  {
    match RbfNode.Output(p, centroid, nodeDistance, td.Input, g)
    case Failure(_) => None
    case Success(actual) => if dist(actual, td.Expected).Success? then Some(dist(actual, td.Expected).value) else None
  }

  /** The sum of the per-datum distances, when every one exists. */
  function SumDistances(p: RbfNode.Parameters, centroid: seq<real>, nodeDistance: Distance.Function,
                        d: seq<Data>, dist: Distance.Function, g: RbfNode.Rbf): real
    requires forall i :: 0 <= i < |d| ==> DatumDistance(p, centroid, nodeDistance, d[i], dist, g).Some?
  {
    if d == [] then 0.0
    else
      var last := DatumDistance(p, centroid, nodeDistance, d[|d| - 1], dist, g).value;
      SumDistances(p, centroid, nodeDistance, d[..|d| - 1], dist, g) + last
  }

  /** evaluateTrainee succeeds exactly when every datum can be calculated and measured,
      and then yields the sum of the distances divided by the number of data; otherwise
      the error is the first datum's failure, wrapped by which step failed. */
  lemma {:induction false} AccumulateSucceeds(p: RbfNode.Parameters, centroid: seq<real>,
                                               nodeDistance: Distance.Function, d: seq<Data>,
                                               dist: Distance.Function, g: RbfNode.Rbf)
    ensures Accumulate(p, centroid, nodeDistance, d, dist, g).err.None? <==>
      forall i :: 0 <= i < |d| ==> DatumDistance(p, centroid, nodeDistance, d[i], dist, g).Some?
    ensures Accumulate(p, centroid, nodeDistance, d, dist, g).err.None? ==>
      Accumulate(p, centroid, nodeDistance, d, dist, g).value == SumDistances(p, centroid, nodeDistance, d, dist, g)
  {
    if d != [] {
      var init := d[..|d| - 1];
      AccumulateSucceeds(p, centroid, nodeDistance, init, dist, g);
      assert forall i :: 0 <= i < |init| ==> init[i] == d[i];
    }
  }

  /** The first datum that cannot be measured decides evaluateTrainee's error: a trainee
      failure is wrapped as TrainingDataFailed, a distance failure as DistanceFailed. */
  lemma {:induction false} AccumulateFirstError(p: RbfNode.Parameters, centroid: seq<real>,
                                                 nodeDistance: Distance.Function, d: seq<Data>,
                                                 dist: Distance.Function, g: RbfNode.Rbf, k: nat)
    requires k < |d|
    requires forall i :: 0 <= i < k ==> DatumDistance(p, centroid, nodeDistance, d[i], dist, g).Some?
    requires DatumDistance(p, centroid, nodeDistance, d[k], dist, g).None?
    ensures Accumulate(p, centroid, nodeDistance, d, dist, g).err ==
      match RbfNode.Output(p, centroid, nodeDistance, d[k].Input, g)
      case Failure(e) => Some(TrainingDataFailed(e))
      case Success(actual) => Some(DistanceFailed(dist(actual, d[k].Expected).error))
    decreases |d|
  {
    var init := d[..|d| - 1];
    if k < |d| - 1 {
      AccumulateFirstError(p, centroid, nodeDistance, init, dist, g, k);
    } else {
      AccumulateSucceeds(p, centroid, nodeDistance, init, dist, g);
      assert forall i :: 0 <= i < |init| ==> init[i] == d[i];
    }
  }

  /** evaluateTrainee, with the trainee's Calculate called on each datum in turn. */
  method EvaluateTrainee(t: RbfNode.Node, d: seq<Data>, dist: Distance.Function, g: RbfNode.Rbf)
    returns (s: Score)
    requires |d| > 0
    ensures s == Evaluate(t.Params(), t.Centroid, t.Distance, d, dist, g)
  {
    ghost var p, centroid, nodeDistance := t.Params(), t.Centroid, t.Distance;
    var e := 0.0;
    var failed: Option<Error> := None;
    var i := 0;
    while i < |d| && failed.None?
      invariant 0 <= i <= |d|
      invariant p == t.Params() && centroid == t.Centroid && nodeDistance == t.Distance
      invariant failed.None? ==> Accumulate(p, centroid, nodeDistance, d[..i], dist, g) == Score(e, None)
      invariant failed.Some? ==> Accumulate(p, centroid, nodeDistance, d, dist, g) == Score(e, failed)
      decreases |d| - i + (if failed.None? then 1 else 0)
    {
      var actual := t.Calculate(d[i].Input, g);
      AccumulateStep(p, centroid, nodeDistance, d, dist, g, i);
      if actual.Failure? {
        failed := Some(TrainingDataFailed(actual.error));
        ErrorPersists(p, centroid, nodeDistance, d, dist, g, i + 1);
      } else {
        var de := dist(actual.value, d[i].Expected);
        if de.Failure? {
          failed := Some(DistanceFailed(de.error));
          ErrorPersists(p, centroid, nodeDistance, d, dist, g, i + 1);
        } else {
          e := e + de.value;
          i := i + 1;
        }
      }
    }
    if failed.Some? {
      s := Score(e, failed);
    } else {
      assert d[..|d|] == d;
      e := e / |d| as real;
      s := Score(e, None);
    }
  }

  /** Accumulate on a prefix one longer than another. */
  lemma AccumulateStep(p: RbfNode.Parameters, centroid: seq<real>, nodeDistance: Distance.Function,
                       d: seq<Data>, dist: Distance.Function, g: RbfNode.Rbf, i: nat)
    requires i < |d|
    ensures Accumulate(p, centroid, nodeDistance, d[..i + 1], dist, g) ==
      var acc := Accumulate(p, centroid, nodeDistance, d[..i], dist, g);
      if acc.err.Some? then acc
      else
        match RbfNode.Output(p, centroid, nodeDistance, d[i].Input, g)
        case Failure(e) => Score(acc.value, Some(TrainingDataFailed(e)))
        case Success(actual) =>
          match dist(actual, d[i].Expected)
          case Failure(e) => Score(acc.value, Some(DistanceFailed(e)))
          case Success(de) => Score(acc.value + de, None)
  {
    assert d[..i + 1][..i] == d[..i];
  }

  /** Once a prefix of the data has failed, evaluating the rest changes nothing. */
  lemma {:induction false} ErrorPersists(p: RbfNode.Parameters, centroid: seq<real>, nodeDistance: Distance.Function,
                                         d: seq<Data>, dist: Distance.Function, g: RbfNode.Rbf, k: nat)
    requires 0 < k <= |d|
    requires Accumulate(p, centroid, nodeDistance, d[..k], dist, g).err.Some?
    ensures Accumulate(p, centroid, nodeDistance, d, dist, g) == Accumulate(p, centroid, nodeDistance, d[..k], dist, g)
    decreases |d| - k
  {
    if k < |d| {
      AccumulateStep(p, centroid, nodeDistance, d, dist, g, k);
      ErrorPersists(p, centroid, nodeDistance, d, dist, g, k + 1);
    } else {
      assert d[..k] == d;
    }
  }

  /** A buffered channel of capacity one (StopWhenChannelReceives); only whether it holds a
      value matters. */
  class Channel {
    var pending: bool

    constructor()
      ensures !pending
    {
      pending := false;
    }

    /** Sending a value; sending into a full channel would block, which is not modelled. */
    method Send()
      requires !pending
      modifies this
      ensures pending
    {
      pending := true;
    }
  }

  /** A context; only whether it has been cancelled matters. */
  class Context {
    var cancelled: bool

    constructor()
      ensures !cancelled
    {
      cancelled := false;
    }

    method Cancel()
      modifies this
      ensures cancelled
    {
      cancelled := true;
    }
  }

  /** training.Stopper: the closures the Stop* constructors return. */
  datatype Stopper =
    | AfterIterations(x: int)
    | ErrorBelow(e: real)
    | ErrorAbove(e: real)
    | OnSignal(channel: Channel)
    | OnCancel(ctx: Context)
  {
    /** The stoppers that depend only on their arguments. */
    predicate IsThreshold()
    {
      AfterIterations? || ErrorBelow? || ErrorAbove?
    }

    function Objects(): set<object>
    {
      if OnSignal? then {channel} else if OnCancel? then {ctx} else {}
    }
  }

  /** Whether a threshold stopper fires for an iteration count and a best error. */
  function ThresholdFires(s: Stopper, iterations: int, e: real): (b: bool)
    requires s.IsThreshold()
  {
    match s
    case AfterIterations(x) => iterations >= x
    case ErrorBelow(limit) => e < limit
    case ErrorAbove(limit) => e > limit
  }

  /** Whether a stopper fires: a channel fires when it holds a value, a context once it is
      cancelled. */
  function Fires(s: Stopper, iterations: int, e: real): (b: bool)
    reads s.Objects()
    ensures s.IsThreshold() ==> b == ThresholdFires(s, iterations, e)
    ensures s.OnSignal? ==> b == s.channel.pending
    ensures s.OnCancel? ==> b == s.ctx.cancelled
  {
    match s
    case OnSignal(c) => c.pending
    case OnCancel(ctx) => ctx.cancelled
    case _ => ThresholdFires(s, iterations, e)
  }

  /** StopAfterXIterations: fires once iterations >= x. */
  function StopAfterXIterations(x: int): (s: Stopper)
    ensures s.IsThreshold()
    ensures forall iterations, e :: ThresholdFires(s, iterations, e) <==> iterations >= x
  {
    AfterIterations(x)
  }

  /** StopWhenErrorIsLessThan: fires when the best error is strictly below e. */
  function StopWhenErrorIsLessThan(e: real): (s: Stopper)
    ensures s.IsThreshold()
    ensures forall iterations, ee :: ThresholdFires(s, iterations, ee) <==> ee < e
  {
    ErrorBelow(e)
  }

  /** StopWhenErrorIsGreaterThan: fires when the best error is strictly above e. */
  function StopWhenErrorIsGreaterThan(e: real): (s: Stopper)
    ensures s.IsThreshold()
    ensures forall iterations, ee :: ThresholdFires(s, iterations, ee) <==> ee > e
  {
    ErrorAbove(e)
  }

  /** StopWhenChannelReceives: a fresh empty channel and the stopper that polls it. */
  method StopWhenChannelReceives() returns (s: Stopper, c: Channel)
    ensures fresh(c) && !c.pending
    ensures s == OnSignal(c)
  {
    c := new Channel();
    s := OnSignal(c);
  }

  /** StopWhenContextCancelled: the stopper that polls ctx. */
  function StopWhenContextCancelled(ctx: Context): (s: Stopper)
    ensures !s.IsThreshold() && s.Objects() == {ctx}
  {
    OnCancel(ctx)
  }

  /** The objects all stoppers poll. */
  function StopperObjects(stoppers: seq<Stopper>): set<object>
  {
    set i, o | 0 <= i < |stoppers| && o in stoppers[i].Objects() :: o
  }

  /** The position of the first stopper that fires, or |stoppers| when none does. */
  function FirstFiring(stoppers: seq<Stopper>, iterations: int, e: real): (k: nat)
    reads StopperObjects(stoppers)
    ensures k <= |stoppers|
    ensures forall j :: 0 <= j < k ==> !Fires(stoppers[j], iterations, e)
    ensures k < |stoppers| ==> Fires(stoppers[k], iterations, e)
  {
    if stoppers == [] then 0
    else if Fires(stoppers[0], iterations, e) then 0
    else
      assert StopperObjects(stoppers[1..]) <= StopperObjects(stoppers) by {
        forall o | o in StopperObjects(stoppers[1..])
          ensures o in StopperObjects(stoppers)
        {
          var i :| 0 <= i < |stoppers[1..]| && o in stoppers[1..][i].Objects();
          assert o in stoppers[i + 1].Objects();
        }
      }
      1 + FirstFiring(stoppers[1..], iterations, e)
  }

  /**
   * shouldStop: polls the stoppers in order and stops at the first that fires.  A channel
   * stopper that fires receives the value, so the channel is empty afterwards; nothing
   * after the first firing stopper is polled.
   */
  method ShouldStop(iterations: int, e: real, stoppers: seq<Stopper>) returns (stop: bool)
    modifies StopperObjects(stoppers)
    ensures var k := old(FirstFiring(stoppers, iterations, e));
      && (stop <==> k < |stoppers|)
      && (stop && stoppers[k].OnSignal? ==> !stoppers[k].channel.pending)
      && forall o :: o in StopperObjects(stoppers) && !(stop && stoppers[k].OnSignal? && o == stoppers[k].channel) ==>
           unchanged(o)
  {
    ghost var k := FirstFiring(stoppers, iterations, e);
    for i := 0 to |stoppers|
      invariant unchanged(StopperObjects(stoppers))
      invariant forall j :: 0 <= j < i ==> !Fires(stoppers[j], iterations, e)
    {
      var s := stoppers[i];
      assert s.Objects() <= StopperObjects(stoppers);
      var fired := false;
      match s {
        case OnSignal(c) =>
          if c.pending {
            assert k == i;
            c.pending := false;
            fired := true;
          }
        case OnCancel(ctx) =>
          fired := ctx.cancelled;
        case _ =>
          fired := ThresholdFires(s, iterations, e);
      }
      if fired {
        assert k == i;
        return true;
      }
    }
    return false;
  }
}
