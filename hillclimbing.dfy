/**
 * training/hillclimbing.go: coordinate-wise hill climbing.  Each call of Next sweeps the
 * dimensions in order; for each it tries five moves in place, keeps the first move with
 * the lowest error, and finally scores the whole vector.
 */
module HillClimbingSearch {
  import opened Wrappers
  import opened Errors
  import opened Training

  /** How a dimension's trials end: an evaluator error at trial `at`, or the chosen move
      with its error. */
  datatype Pick = Aborted(at: nat, error: Error) | Chosen(best: nat, bestError: real)

  /** The loop over the moves from trial k on, given the best move and error so far: the
      first error aborts, and a trial replaces the best only when strictly lower. */
  function PickFrom(scores: seq<Score>, k: nat, best: nat, bestError: real): (o: Pick)
    requires k <= |scores|
    ensures o.Aborted? ==>
      k <= o.at < |scores| && scores[o.at].err == Some(o.error) &&
      forall j :: k <= j < o.at ==> scores[j].err.None?
    ensures o.Chosen? ==> forall j :: k <= j < |scores| ==> scores[j].err.None?
    ensures o.Chosen? ==> o.best == best || k <= o.best < |scores|
    decreases |scores| - k
  {
    if k == |scores| then Chosen(best, bestError)
    else if scores[k].err.Some? then Aborted(k, scores[k].err.value)
    else if scores[k].value < bestError then PickFrom(scores, k + 1, k, scores[k].value)
    else PickFrom(scores, k + 1, best, bestError)
  }

  /** What the loop has established after the trials before k: bestError is the least of
      MaxFloat64 and the errors seen, and best is the first trial that reached it (0 while
      nothing beat MaxFloat64). */
  ghost predicate BestSoFar(scores: seq<Score>, k: nat, best: nat, bestError: real)
    requires k <= |scores|
  {
    && bestError <= MaxFloat64
    && (forall j :: 0 <= j < k ==> scores[j].value >= bestError)
    && (bestError == MaxFloat64 ==> best == 0)
    && (bestError < MaxFloat64 ==>
          best < k && scores[best].value == bestError &&
          forall j :: 0 <= j < best ==> scores[j].value > bestError)
  }

  lemma {:induction false} PickFromKeepsBest(scores: seq<Score>, k: nat, best: nat, bestError: real)
    requires k <= |scores| && BestSoFar(scores, k, best, bestError)
    requires forall j :: 0 <= j < |scores| ==> scores[j].err.None?
    ensures PickFrom(scores, k, best, bestError).Chosen?
    ensures BestSoFar(scores, |scores|, PickFrom(scores, k, best, bestError).best,
                      PickFrom(scores, k, best, bestError).bestError)
    decreases |scores| - k
  {
    if k < |scores| {
      if scores[k].value < bestError {
        PickFromKeepsBest(scores, k + 1, k, scores[k].value);
      } else {
        PickFromKeepsBest(scores, k + 1, best, bestError);
      }
    }
  }

  /** With every trial scored, the chosen move is the first one with the lowest error; when
      no error is below MaxFloat64 the first move (index 0) is kept. */
  lemma PickIsFirstMinimum(scores: seq<Score>)
    requires forall j :: 0 <= j < |scores| ==> scores[j].err.None?
    ensures var o := PickFrom(scores, 0, 0, MaxFloat64);
      && o.Chosen?
      && o.bestError <= MaxFloat64
      && (forall j :: 0 <= j < |scores| ==> scores[j].value >= o.bestError)
      && (o.bestError == MaxFloat64 ==> o.best == 0)
      && (o.bestError < MaxFloat64 ==>
            o.best < |scores| && scores[o.best].value == o.bestError &&
            forall j :: 0 <= j < o.best ==> scores[j].value > o.bestError)
  {
    PickFromKeepsBest(scores, 0, 0, MaxFloat64);
  }

  /** The five trial vectors of dimension i: v with component i moved from its value by
      velocity times each movement. */
  function TrialsOf(v: seq<real>, i: nat, velocity: real, movements: seq<real>): (ts: seq<seq<real>>)
    requires i < |v|
    ensures |ts| == |movements|
    ensures forall k :: 0 <= k < |ts| ==> ts[k] == v[i := Move(v[i], velocity, movements[k])]
  {
    seq(|movements|, k requires 0 <= k < |movements| => v[i := Move(v[i], velocity, movements[k])])
  }

  /** A component moved by velocity times a movement. */
  function Move(base: real, velocity: real, movement: real): (c: real)
  {
    base + velocity * movement
  }

  /** The evaluator applied to each vector. */
  function ScoresOf(vs: seq<seq<real>>, ev: Evaluator): (ss: seq<Score>)
    ensures |ss| == |vs|
    ensures forall k :: 0 <= k < |vs| ==> ss[k] == ev(vs[k])
  {
    seq(|vs|, k requires 0 <= k < |vs| => ev(vs[k]))
  }

  /** The move chosen for dimension i of v, or the trial that failed. */
  function PickOf(v: seq<real>, i: nat, velocity: real, movements: seq<real>, ev: Evaluator): (o: Pick)
    requires i < |v|
    ensures o.Aborted? ==> o.at < |movements|
    ensures o.Chosen? && |movements| > 0 ==> o.best < |movements|
  {
    PickFrom(ScoresOf(TrialsOf(v, i, velocity, movements), ev), 0, 0, MaxFloat64)
  }

  /** The outcome of the sweep: the vector it leaves, the vectors it evaluated in order,
      and the evaluator error that cut it short, if any. */
  datatype SweepResult = SweepResult(current: seq<real>, evaluated: seq<seq<real>>, failure: Option<Error>)

  /** Earlier evaluations in front of a sweep's own. */
  function Extend(trace: seq<seq<real>>, r: SweepResult): (extended: SweepResult)
  {
    SweepResult(r.current, trace + r.evaluated, r.failure)
  }

  /** One dimension of the sweep: the vector it leaves (the failing trial, or v with the
      chosen move committed), the trials it evaluated, and the error that aborted it. */
  function Dimension(v: seq<real>, i: nat, velocity: real, movements: seq<real>, ev: Evaluator)
    : (d: SweepResult)
    requires i < |v| && |movements| > 0
    ensures |d.current| == |v| && d.current == v[i := d.current[i]]
    ensures d.failure.None? <==> PickOf(v, i, velocity, movements, ev).Chosen?
  {
    var trials := TrialsOf(v, i, velocity, movements);
    match PickOf(v, i, velocity, movements, ev)
    case Aborted(k, err) => SweepResult(trials[k], trials[..k + 1], Some(err))
    case Chosen(b, _) => SweepResult(v[i := Move(v[i], velocity, movements[b])], trials, None)
  }

  /** Trial mi of the loop failing: the dimension ends there. */
  lemma DimensionAborts(v: seq<real>, i: nat, velocity: real, movements: seq<real>, ev: Evaluator,
                        mi: nat, best: nat, bestError: real)
    requires i < |v| && mi < |movements|
    requires var scores := ScoresOf(TrialsOf(v, i, velocity, movements), ev);
      PickFrom(scores, 0, 0, MaxFloat64) == PickFrom(scores, mi, best, bestError)
    requires ev(TrialsOf(v, i, velocity, movements)[mi]).err.Some?
    ensures var trials := TrialsOf(v, i, velocity, movements);
      Dimension(v, i, velocity, movements, ev) == SweepResult(trials[mi], trials[..mi + 1], ev(trials[mi]).err)
  {
  }

  /** The loop over the trials run to its end: the dimension commits the best move. */
  lemma DimensionCommits(v: seq<real>, i: nat, velocity: real, movements: seq<real>, ev: Evaluator,
                         best: nat, bestError: real)
    requires i < |v| && best < |movements|
    requires var scores := ScoresOf(TrialsOf(v, i, velocity, movements), ev);
      PickFrom(scores, 0, 0, MaxFloat64) == PickFrom(scores, |movements|, best, bestError)
    ensures Dimension(v, i, velocity, movements, ev) ==
      SweepResult(v[i := Move(v[i], velocity, movements[best])], TrialsOf(v, i, velocity, movements), None)
  {
  }

  /** The sweep of Next over dimensions i.. of v.  An aborted dimension ends it, leaving
      its trial value in place. */
  function Sweep(v: seq<real>, i: nat, velocity: real, movements: seq<real>, ev: Evaluator): (r: SweepResult)
    requires i <= |v| && |movements| > 0
    ensures |r.current| == |v|
    ensures r.current[..i] == v[..i]
    decreases |v| - i
  {
    if i == |v| then SweepResult(v, [], None)
    else
      var d := Dimension(v, i, velocity, movements, ev);
      if d.failure.Some? then d
      else
        var rest := Sweep(d.current, i + 1, velocity, movements, ev);
        assert rest.current[..i] == rest.current[..i + 1][..i];
        assert d.current[..i] == v[..i];
        Extend(d.evaluated, rest)
  }

  lemma ExtendTwice(a: seq<seq<real>>, b: seq<seq<real>>, r: SweepResult)
    ensures Extend(a, Extend(b, r)) == Extend(a + b, r)
  {
    assert a + (b + r.evaluated) == (a + b) + r.evaluated;
  }

  /** The trials of dimensions i.. of a sweep from v that ended at c: dimension j is tried
      on the vector holding c's (committed) values before j and v's (original) values from
      j on. */
  function SweepTrials(c: seq<real>, v: seq<real>, i: nat, velocity: real, movements: seq<real>)
    : (ts: seq<seq<real>>)
    requires |c| == |v| && i <= |v|
    ensures |ts| == |movements| * (|v| - i)
    decreases |v| - i
  {
    if i == |v| then []
    else
      var rest := SweepTrials(c, v, i + 1, velocity, movements);
      assert |movements| * (|v| - i) == |movements| + |movements| * (|v| - (i + 1));
      TrialsOf(c[..i] + v[i..], i, velocity, movements) + rest
  }

  lemma {:induction false} SweepTrialsOfSameSuffix(c: seq<real>, v: seq<real>, w: seq<real>, i: nat,
                                                   velocity: real, movements: seq<real>)
    requires |c| == |v| == |w| && i <= |v| && v[i..] == w[i..]
    ensures SweepTrials(c, v, i, velocity, movements) == SweepTrials(c, w, i, velocity, movements)
    decreases |v| - i
  {
    if i < |v| {
      assert v[i + 1..] == v[i..][1..] && w[i + 1..] == w[i..][1..];
      SweepTrialsOfSameSuffix(c, v, w, i + 1, velocity, movements);
    }
  }

  /** A sweep that completes evaluates exactly |movements| trials per dimension, in
      dimension order, each on the committed values of the earlier dimensions and the
      original values of the later ones. */
  lemma {:induction false} SweepEvaluatesInOrder(v: seq<real>, i: nat, velocity: real, movements: seq<real>, ev: Evaluator)
    requires i <= |v| && |movements| > 0
    requires Sweep(v, i, velocity, movements, ev).failure.None?
    ensures var r := Sweep(v, i, velocity, movements, ev);
      r.evaluated == SweepTrials(r.current, v, i, velocity, movements) &&
      |r.evaluated| == |movements| * (|v| - i)
    decreases |v| - i
  {
    if i < |v| {
      var r := Sweep(v, i, velocity, movements, ev);
      var d := Dimension(v, i, velocity, movements, ev);
      CompletedDimension(v, i, velocity, movements, ev);
      SweepEvaluatesInOrder(d.current, i + 1, velocity, movements, ev);
      SweepTrialsOfSameSuffix(r.current, d.current, v, i + 1, velocity, movements);
      SweepTrialsHead(r.current, v, i, velocity, movements);
    }
  }

  /** A dimension that is not the one the completed sweep stops at commits its move and
      evaluates its own trials, and it changes only component i. */
  lemma CompletedDimension(v: seq<real>, i: nat, velocity: real, movements: seq<real>, ev: Evaluator)
    requires i < |v| && |movements| > 0
    requires Sweep(v, i, velocity, movements, ev).failure.None?
    ensures var d := Dimension(v, i, velocity, movements, ev);
      && d.failure.None?
      && d.evaluated == TrialsOf(v, i, velocity, movements)
      && d.current[i + 1..] == v[i + 1..]
      && Sweep(v, i, velocity, movements, ev) == Extend(d.evaluated, Sweep(d.current, i + 1, velocity, movements, ev))
  {
    var d := Dimension(v, i, velocity, movements, ev);
    assert d.current[i + 1..] == v[i + 1..];
  }

  /** The first dimension's trials, when the end vector agrees with v before i. */
  lemma SweepTrialsHead(c: seq<real>, v: seq<real>, i: nat, velocity: real, movements: seq<real>)
    requires |c| == |v| && i < |v| && c[..i] == v[..i]
    ensures SweepTrials(c, v, i, velocity, movements) ==
      TrialsOf(v, i, velocity, movements) + SweepTrials(c, v, i + 1, velocity, movements)
  {
    assert c[..i] + v[i..] == v;
  }

  /** The movements NewHillClimbing sets up for acceleration 1. */
  const UnitMovements: seq<real> := [-1.0, -1.0 / 1.0, 0.0, 1.0 / 1.0, 1.0]

  /** The evaluator of the package's own test: how far v[0] * v[1] is from 25, squared. */
  function ProductError(v: seq<real>): (s: Score)
    ensures s.err.None? && s.value >= 0.0
  {
    if |v| < 2 then Score(0.0, None)
    else Score((v[0] * v[1] - 25.0) * (v[0] * v[1] - 25.0), None)
  }

  /** A product closer to 25 from below has the smaller squared distance. */
  lemma CloserToTarget(a: real, b: real)
    requires a < b <= 25.0
    ensures (b - 25.0) * (b - 25.0) < (a - 25.0) * (a - 25.0)
  {
    var x, y := 25.0 - a, 25.0 - b;
    assert x * x - y * y == (x - y) * (x + y);
    PositiveProduct(x - y, x + y);
  }

  lemma PositiveProduct(p: real, q: real)
    requires p > 0.0 && q > 0.0
    ensures p * q > 0.0
  {
  }

  /** The trials of either component of a pair for velocity 1 and acceleration 1. */
  lemma UnitTrialsOfPair(a: real, b: real)
    ensures TrialsOf([a, b], 0, 1.0, UnitMovements) ==
      [[a - 1.0, b], [a - 1.0, b], [a, b], [a + 1.0, b], [a + 1.0, b]]
    ensures TrialsOf([a, b], 1, 1.0, UnitMovements) ==
      [[a, b - 1.0], [a, b - 1.0], [a, b], [a, b + 1.0], [a, b + 1.0]]
  {
    var steps := [-1.0, -1.0, 0.0, 1.0, 1.0];
    assert UnitMovements == steps;
    var t0 := TrialsOf([a, b], 0, 1.0, UnitMovements);
    var t1 := TrialsOf([a, b], 1, 1.0, UnitMovements);
    forall k | 0 <= k < 5
      ensures t0[k] == [a + steps[k], b] && t1[k] == [a, b + steps[k]]
    {
      assert Move(a, 1.0, steps[k]) == a + steps[k];
      assert Move(b, 1.0, steps[k]) == b + steps[k];
    }
  }

  /** Errors that fall over the first four trials and not at the fifth select trial 3. */
  lemma PickFourth(scores: seq<Score>)
    requires |scores| == 5 && forall j :: 0 <= j < 5 ==> scores[j].err.None?
    requires scores[0].value < MaxFloat64 && scores[1].value >= scores[0].value
    requires scores[2].value < scores[0].value && scores[3].value < scores[2].value
    requires scores[4].value >= scores[3].value
    ensures PickFrom(scores, 0, 0, MaxFloat64) == Chosen(3, scores[3].value)
  {
    assert PickFrom(scores, 0, 0, MaxFloat64) == PickFrom(scores, 1, 0, scores[0].value);
    assert PickFrom(scores, 1, 0, scores[0].value) == PickFrom(scores, 2, 0, scores[0].value);
    assert PickFrom(scores, 2, 0, scores[0].value) == PickFrom(scores, 3, 2, scores[2].value);
    assert PickFrom(scores, 3, 2, scores[2].value) == PickFrom(scores, 4, 3, scores[3].value);
    assert PickFrom(scores, 4, 3, scores[3].value) == PickFrom(scores, 5, 3, scores[3].value);
  }

  /** Errors whose least is first reached at trial 2 select trial 2. */
  lemma PickThird(scores: seq<Score>)
    requires |scores| == 5 && forall j :: 0 <= j < 5 ==> scores[j].err.None?
    requires scores[0].value < MaxFloat64 && scores[1].value >= scores[0].value
    requires scores[2].value < scores[0].value
    requires scores[3].value >= scores[2].value && scores[4].value >= scores[2].value
    ensures PickFrom(scores, 0, 0, MaxFloat64) == Chosen(2, scores[2].value)
  {
    assert PickFrom(scores, 0, 0, MaxFloat64) == PickFrom(scores, 1, 0, scores[0].value);
    assert PickFrom(scores, 1, 0, scores[0].value) == PickFrom(scores, 2, 0, scores[0].value);
    assert PickFrom(scores, 2, 0, scores[0].value) == PickFrom(scores, 3, 2, scores[2].value);
    assert PickFrom(scores, 3, 2, scores[2].value) == PickFrom(scores, 4, 2, scores[2].value);
    assert PickFrom(scores, 4, 2, scores[2].value) == PickFrom(scores, 5, 2, scores[2].value);
  }

  /** Trials whose products rise toward 25 (the first two and the last two trials equal)
      select trial 3. */
  lemma RisingProducts(scores: seq<Score>, pa: real, pb: real, pc: real)
    requires 0.0 <= pa < pb < pc <= 25.0
    requires |scores| == 5 && forall j :: 0 <= j < 5 ==> scores[j].err.None?
    requires scores[0].value == scores[1].value == (pa - 25.0) * (pa - 25.0)
    requires scores[2].value == (pb - 25.0) * (pb - 25.0)
    requires scores[3].value == scores[4].value == (pc - 25.0) * (pc - 25.0)
    ensures PickFrom(scores, 0, 0, MaxFloat64).best == 3
  {
    CloserToTarget(pa, pb);
    CloserToTarget(pb, pc);
    assert (pa - 25.0) * (pa - 25.0) <= 625.0 by {
      if pa > 0.0 {
        CloserToTarget(0.0, pa);
      }
    }
    PickFourth(scores);
  }

  /** The first dimension of a sweep from [n, n], 1 <= n <= 4, moves component 0 up. */
  lemma FirstComponentUp(n: real)
    requires 1.0 <= n <= 4.0
    ensures var d := Dimension([n, n], 0, 1.0, UnitMovements, ProductError);
      d.failure.None? && d.current == [n + 1.0, n]
  {
    var v := [n, n];
    UnitTrialsOfPair(n, n);
    var t := TrialsOf(v, 0, 1.0, UnitMovements);
    var scores := ScoresOf(t, ProductError);
    assert n * n <= 4.0 * n;
    RisingProducts(scores, (n - 1.0) * n, n * n, (n + 1.0) * n);
  }

  /** The second dimension, from [n + 1, n], moves component 1 up. */
  lemma SecondComponentUp(n: real)
    requires 1.0 <= n <= 4.0
    ensures var d := Dimension([n + 1.0, n], 1, 1.0, UnitMovements, ProductError);
      d.failure.None? && d.current == [n + 1.0, n + 1.0]
  {
    var w := [n + 1.0, n];
    UnitTrialsOfPair(n + 1.0, n);
    var t := TrialsOf(w, 1, 1.0, UnitMovements);
    var scores := ScoresOf(t, ProductError);
    assert n * n <= 4.0 * n;
    assert (n + 1.0) * (n + 1.0) == n * n + 2.0 * n + 1.0 <= 25.0;
    assert (n + 1.0) * (n - 1.0) == n * n - 1.0 < n * n + n == (n + 1.0) * n;
    RisingProducts(scores, (n + 1.0) * (n - 1.0), (n + 1.0) * n, (n + 1.0) * (n + 1.0));
  }

  /** From [n, n] with 1 <= n <= 4, one sweep with velocity 1 and acceleration 1 moves
      both components up by one (the test's first four calls of Next). */
  lemma ClimbsTowardFive(n: real)
    requires 1.0 <= n <= 4.0
    ensures var r := Sweep([n, n], 0, 1.0, UnitMovements, ProductError);
      r.current == [n + 1.0, n + 1.0] && r.failure.None?
  {
    FirstComponentUp(n);
    SecondComponentUp(n);
    assert Sweep([n + 1.0, n + 1.0], 2, 1.0, UnitMovements, ProductError).current == [n + 1.0, n + 1.0];
  }

  /** At [5, 5] no move of component k beats the move 0. */
  lemma FiveDimensionStays(k: nat)
    requires k < 2
    ensures var d := Dimension([5.0, 5.0], k, 1.0, UnitMovements, ProductError);
      d.failure.None? && d.current == [5.0, 5.0]
  {
    var v := [5.0, 5.0];
    var t := TrialsOf(v, k, 1.0, UnitMovements);
    UnitTrialsOfPair(v[0], v[1]);
    if k == 0 {
      assert t == [[4.0, 5.0], [4.0, 5.0], [5.0, 5.0], [6.0, 5.0], [6.0, 5.0]];
    } else {
      assert t == [[5.0, 4.0], [5.0, 4.0], [5.0, 5.0], [5.0, 6.0], [5.0, 6.0]];
    }
    PickThird(ScoresOf(t, ProductError));
  }

  /** At [5, 5] a sweep stays put (the move 0 wins every dimension) and the error is 0. */
  lemma StaysAtFive()
    ensures var r := Sweep([5.0, 5.0], 0, 1.0, UnitMovements, ProductError);
      r.current == [5.0, 5.0] && r.failure.None? && ProductError(r.current).value == 0.0
  {
    FiveDimensionStays(0);
    FiveDimensionStays(1);
    assert Sweep([5.0, 5.0], 2, 1.0, UnitMovements, ProductError).current == [5.0, 5.0];
  }

  /** An evaluator that always fails stops the sweep at the very first trial, with its
      error (the package's second test). */
  lemma FailingEvaluatorStopsAtOnce(v: seq<real>, velocity: real, movements: seq<real>, err: Error)
    requires |v| > 0 && |movements| > 0
    ensures var r := Sweep(v, 0, velocity, movements, _ => Score(0.0, Some(err)));
      r.failure == Some(err) && |r.evaluated| == 1
  {
    var ev: Evaluator := _ => Score(0.0, Some(err));
    var scores := ScoresOf(TrialsOf(v, 0, velocity, movements), ev);
    assert PickFrom(scores, 0, 0, MaxFloat64) == Aborted(0, err);
  }

  /** training.HillClimbing. */
  class HillClimbing {
    var current: seq<real>
    /** Declared for the best memory but never written. */
    var best: Option<seq<real>>
    var e: real
    var Min: real
    var Max: real
    var velocity: real
    var movements: seq<real>
    /** The vectors handed to the evaluator, in order. */
    ghost var evaluated: seq<seq<real>>
    /** BestError after each Next that succeeded, and the vector that Next returned. */
    ghost var bestErrors: seq<real>
    ghost var proposals: seq<seq<real>>

    /** Five fixed movements. */
    ghost predicate Valid()
      reads this
    {
      |movements| == 5
    }

    /** NewHillClimbing: the movements are -a, -1/a, 0, 1/a and a, so a must not be 0. */
    constructor(memory: seq<real>, velocity: real, acceleration: real)
      requires acceleration != 0.0
      ensures Valid()
      ensures current == memory && best == None && e == MaxFloat64
      ensures Min == -10.0 && Max == 10.0 && this.velocity == velocity
      ensures movements == [-acceleration, -1.0 / acceleration, 0.0, 1.0 / acceleration, acceleration]
      ensures evaluated == [] && bestErrors == [] && proposals == []
    {
      Min, Max := -10.0, 10.0;
      current := memory;
      best := None;
      e := MaxFloat64;
      this.velocity := velocity;
      movements := [-acceleration, -1.0 / acceleration, 0.0, 1.0 / acceleration, acceleration];
      evaluated := [];
      bestErrors, proposals := [], [];
    }

    /** BestError: the error of the last completed sweep. */
    function BestError(): real
      reads this
    {
      e
    }

    /** BestMemory: the current vector (not the never-written best field). */
    function BestMemory(): seq<real>
      reads this
    {
      current
    }

    /**
     * Next: the sweep, then one evaluation of the whole vector whose error is stored even
     * when the evaluator fails.  A trial error returns at once, with the trial value left
     * in place and the stored error unchanged.
     */
    method Next(ev: Evaluator) returns (m: seq<real>, err: Option<Error>)
      requires Valid()
      modifies this
      ensures Valid()
      ensures velocity == old(velocity) && movements == old(movements)
      ensures Min == old(Min) && Max == old(Max) && best == old(best)
      ensures var r := Sweep(old(current), 0, velocity, movements, ev);
        && current == r.current && m == current
        && (r.failure.Some? ==> err == r.failure && e == old(e) && evaluated == old(evaluated) + r.evaluated)
        && (r.failure.None? ==>
              e == ev(r.current).value && err == ev(r.current).err &&
              evaluated == old(evaluated) + r.evaluated + [r.current])
      ensures err.None? ==> bestErrors == old(bestErrors) + [e] && proposals == old(proposals) + [m]
      ensures err.Some? ==> bestErrors == old(bestErrors) && proposals == old(proposals)
    {
      var failure := Climb(ev);
      if failure.Some? {
        return current, failure;
      }
      var s := ev(current);
      evaluated := evaluated + [current];
      e := s.value;
      if s.err.None? {
        bestErrors, proposals := bestErrors + [e], proposals + [current];
      }
      return current, s.err;
    }

    /** The sweep of Next: each dimension in turn, until one of them fails. */
    method Climb(ev: Evaluator) returns (failure: Option<Error>)
      requires Valid()
      modifies this
      ensures Valid()
      ensures velocity == old(velocity) && movements == old(movements)
      ensures Min == old(Min) && Max == old(Max) && best == old(best) && e == old(e)
      ensures bestErrors == old(bestErrors) && proposals == old(proposals)
      ensures var r := Sweep(old(current), 0, velocity, movements, ev);
        current == r.current && failure == r.failure && evaluated == old(evaluated) + r.evaluated
    {
      ghost var goal := Sweep(current, 0, velocity, movements, ev);
      ghost var trace: seq<seq<real>> := [];
      failure := None;
      var i := 0;
      while i < |current| && failure.None?
        invariant i <= |current| == |old(current)|
        invariant |movements| == 5
        invariant failure.None? ==> goal == Extend(trace, Sweep(current, i, velocity, movements, ev))
        invariant failure.Some? ==> goal == SweepResult(current, trace, failure)
        invariant evaluated == old(evaluated) + trace
        invariant velocity == old(velocity) && movements == old(movements)
        invariant Min == old(Min) && Max == old(Max) && best == old(best) && e == old(e)
        invariant bestErrors == old(bestErrors) && proposals == old(proposals)
        decreases |current| - i + (if failure.None? then 1 else 0)
      {
        failure, trace := Advance(ev, i, goal, old(evaluated), trace);
        if failure.None? {
          i := i + 1;
        }
      }
    }

    /** One pass of the outer loop of Next, seen from the sweep as a whole: the sweep goal
        is the trace so far followed by the sweep from dimension i, and afterwards it is the
        longer trace followed by the sweep from dimension i + 1, or the finished sweep. */
    method Advance(ev: Evaluator, i: nat, ghost goal: SweepResult, ghost base: seq<seq<real>>,
                   ghost trace: seq<seq<real>>)
      returns (failure: Option<Error>, ghost trace': seq<seq<real>>)
      requires Valid() && i < |current|
      requires goal == Extend(trace, Sweep(current, i, velocity, movements, ev))
      requires evaluated == base + trace
      modifies this
      ensures velocity == old(velocity) && movements == old(movements) && |current| == |old(current)|
      ensures Min == old(Min) && Max == old(Max) && best == old(best) && e == old(e)
      ensures bestErrors == old(bestErrors) && proposals == old(proposals)
      ensures evaluated == base + trace'
      ensures failure.None? ==> goal == Extend(trace', Sweep(current, i + 1, velocity, movements, ev))
      ensures failure.Some? ==> goal == SweepResult(current, trace', failure)
    {
      ghost var d := Dimension(current, i, velocity, movements, ev);
      failure := SweepDimension(ev, i);
      if failure.None? {
        ExtendTwice(trace, d.evaluated, Sweep(current, i + 1, velocity, movements, ev));
      }
      assert evaluated == base + (trace + d.evaluated);
      trace' := trace + d.evaluated;
    }

    /** One pass of the outer loop of Next: the five trials of dimension i, then the commit
        of the chosen move. */
    method SweepDimension(ev: Evaluator, i: nat) returns (failure: Option<Error>)
      requires Valid() && i < |current|
      modifies this
      ensures velocity == old(velocity) && movements == old(movements)
      ensures Min == old(Min) && Max == old(Max) && best == old(best) && e == old(e)
      ensures bestErrors == old(bestErrors) && proposals == old(proposals)
      ensures var d := Dimension(old(current), i, velocity, movements, ev);
        current == d.current && failure == d.failure && evaluated == old(evaluated) + d.evaluated
    {
      ghost var v := current;
      ghost var trials := TrialsOf(v, i, velocity, movements);
      ghost var scores := ScoresOf(trials, ev);
      var bestMovement := 0;
      var bestError := MaxFloat64;
      var base := current[i];
      var cur, seen := current, evaluated;
      for mi := 0 to |movements|
        invariant |cur| == |v| && cur == v[i := cur[i]]
        invariant PickFrom(scores, 0, 0, MaxFloat64) == PickFrom(scores, mi, bestMovement, bestError)
        invariant bestMovement < |movements|
        invariant seen == old(evaluated) + trials[..mi]
      {
        cur := cur[i := Move(base, velocity, movements[mi])];
        assert cur == trials[mi];
        var s := ev(cur);
        assert trials[..mi + 1] == trials[..mi] + [cur];
        seen := seen + [cur];
        if s.err.Some? {
          DimensionAborts(v, i, velocity, movements, ev, mi, bestMovement, bestError);
          current, evaluated := cur, seen;
          return s.err;
        }
        if s.value < bestError {
          bestError := s.value;
          bestMovement := mi;
        }
      }
      current := cur[i := Move(base, velocity, movements[bestMovement])];
      evaluated := seen;
      DimensionCommits(v, i, velocity, movements, ev, bestMovement, bestError);
      assert trials[..|movements|] == trials;
      failure := None;
    }
  }
}
